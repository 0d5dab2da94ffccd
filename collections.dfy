/**
 * The integrity the database keeps for each collection: every document is stored
 * under its own id and listed once in the collection's natural order, every
 * document passes its schema, and the unique index on user addresses holds.
 * Each write of the resolvers preserves it.
 */
module Collections {
  import opened Seqs
  import opened Domain
  import opened Models

  /** Some stored user already has this (normalised) address. */
  predicate EmailTaken(users: map<Id, User>, email: string) {
    exists id :: id in users && users[id].email == email
  }

  /** Every user is stored under its own id. */
  ghost predicate UsersKeyed(users: map<Id, User>) {
    forall id :: id in users ==> users[id].id == id
  }

  /** Every user passes the user schema and lists no issue twice. */
  ghost predicate UsersConform(users: map<Id, User>) {
    forall id :: id in users ==> ValidUser(users[id]) && NoDuplicates(users[id].assignedIssues)
  }

  /** The users collection: ordered, keyed by id, conforming, and with unique addresses. */
  ghost predicate UsersOk(order: seq<Id>, users: map<Id, User>) {
    Indexes(order, users) && UsersKeyed(users) && UsersConform(users) && UniqueEmails(users)
  }

  /** Writing a conforming user keeps every user conforming. */
  lemma UsersConformPut(users: map<Id, User>, u: User)
    requires UsersConform(users) && ValidUser(u) && NoDuplicates(u.assignedIssues)
    ensures UsersConform(users[u.id := u])
  {
    var m := users[u.id := u];
    forall id | id in m ensures ValidUser(m[id]) && NoDuplicates(m[id].assignedIssues) {
      if id != u.id {
        assert m[id] == users[id];
      }
    }
  }

  /** Inserting a user with an address nobody has keeps the addresses unique. */
  lemma UniqueEmailsInsert(users: map<Id, User>, u: User)
    requires UniqueEmails(users) && !EmailTaken(users, u.email)
    ensures UniqueEmails(users[u.id := u])
  {
  }

  /** Rewriting a user without changing its address keeps the addresses unique. */
  lemma UniqueEmailsUpdate(users: map<Id, User>, u: User)
    requires UniqueEmails(users) && u.id in users && users[u.id].email == u.email
    ensures UniqueEmails(users[u.id := u])
  {
  }

  /** Deleting a user keeps the remaining ones keyed, conforming and with unique addresses. */
  lemma UsersRemoveKeeps(users: map<Id, User>, id: Id)
    requires UsersKeyed(users) && UsersConform(users) && UniqueEmails(users)
    ensures UsersKeyed(users - {id}) && UsersConform(users - {id}) && UniqueEmails(users - {id})
  {
    var m := users - {id};
    forall k | k in m ensures m[k] == users[k] { }
  }

  /** Every issue is keyed by its id and passes the issue schema. */
  ghost predicate IssuesOk(order: seq<Id>, issues: map<Id, Issue>) {
    && Indexes(order, issues)
    && (forall id :: id in issues ==> issues[id].id == id && ValidIssue(issues[id]))
  }

  /** Every comment is keyed by its id and passes the comment schema. */
  ghost predicate CommentsOk(order: seq<Id>, comments: map<Id, Comment>) {
    && Indexes(order, comments)
    && (forall id :: id in comments ==> comments[id].id == id && ValidComment(comments[id]))
  }

  /** Inserting a valid user under a fresh id and a fresh address keeps the users collection valid. */
  lemma UsersInsert(order: seq<Id>, users: map<Id, User>, u: User)
    requires UsersOk(order, users)
    requires u.id !in users && !EmailTaken(users, u.email)
    requires ValidUser(u) && NoDuplicates(u.assignedIssues)
    ensures UsersOk(order + [u.id], users[u.id := u])
  {
    IndexesInsert(order, users, u.id, u);
    UsersConformPut(users, u);
    UniqueEmailsInsert(users, u);
  }

  /** Rewriting a stored user without changing its address keeps the users collection valid. */
  lemma UsersUpdate(order: seq<Id>, users: map<Id, User>, u: User)
    requires UsersOk(order, users)
    requires u.id in users && users[u.id].email == u.email
    requires ValidUser(u) && NoDuplicates(u.assignedIssues)
    ensures UsersOk(order, users[u.id := u])
  {
    IndexesUpdate(order, users, u.id, u);
    UsersConformPut(users, u);
    UniqueEmailsUpdate(users, u);
  }

  /** Deleting a user keeps the users collection valid. */
  lemma UsersRemove(order: seq<Id>, users: map<Id, User>, id: Id)
    requires UsersOk(order, users)
    ensures UsersOk(Filter(order, (k: Id) => k != id), users - {id})
  {
    IndexesRemove(order, users, id);
    UsersRemoveKeeps(users, id);
  }

  /** Writing a valid issue under its own id keeps the issues collection valid. */
  lemma IssuesPut(order: seq<Id>, issues: map<Id, Issue>, i: Issue)
    requires IssuesOk(order, issues) && ValidIssue(i)
    ensures IssuesOk(if i.id in issues then order else order + [i.id], issues[i.id := i])
  {
    if i.id in issues {
      IndexesUpdate(order, issues, i.id, i);
    } else {
      IndexesInsert(order, issues, i.id, i);
    }
  }

  /** Inserting a valid comment under a fresh id keeps the comments collection valid. */
  lemma CommentsInsert(order: seq<Id>, comments: map<Id, Comment>, c: Comment)
    requires CommentsOk(order, comments) && c.id !in comments && ValidComment(c)
    ensures CommentsOk(order + [c.id], comments[c.id := c])
  {
    IndexesInsert(order, comments, c.id, c);
  }

  /** `$addToSet` of an issue to a stored user keeps the users collection valid, listing the issue once. */
  lemma UsersAddAssigned(order: seq<Id>, users: map<Id, User>, userId: Id, issueId: Id, now: Time)
    requires UsersOk(order, users) && userId in users
    ensures UsersOk(order, users[userId := WithAssignedIssue(users[userId], issueId, now)])
  {
    var user := users[userId];
    var updated := WithAssignedIssue(user, issueId, now);
    AddToSetOnce(user.assignedIssues, issueId);
    ValidUserFields(user, updated);
    UsersUpdate(order, users, updated);
  }
}

/**
 * The earlier, in-memory resolver set of the server: every query is a single
 * `filter` or `find` over read-only arrays of plain records. The arrays are a
 * parameter; nothing is updated.
 */
module InMemory {
  import opened Optional
  import opened Domain
  import opened Seqs

  /** A user record of the in-memory arrays. */
  datatype MemUser = MemUser(id: Id, name: string, email: string)

  /**
   * An issue record. `assignedTo` is a JavaScript value that may be undefined,
   * null or a user id, so it reuses `Arg`.
   */
  datatype MemIssue = MemIssue(
    id: Id, title: string, description: string, status: Status,
    assignedTo: Arg, createdAt: string, updatedAt: string)

  /**
   * A comment record, with both spellings of its references: `issue`/`authorId`
   * as the record type declares them and `issueId`/`author` as the fixture
   * objects carry them. A field an object does not have is `Omitted`.
   */
  datatype MemComment = MemComment(
    id: Id, content: string, issue: Arg, authorId: Arg, issueId: Arg, author: Arg, createdAt: string)

  /** The three arrays the resolvers close over. */
  datatype MemData = MemData(users: seq<MemUser>, issues: seq<MemIssue>, comments: seq<MemComment>)

  /** The `issues` filter: each supplied argument must equal the field (`===`), an undefined one is no constraint. */
  predicate IssueSelected(i: MemIssue, status: Arg, assignedTo: Arg) {
    && (status.Omitted? || status == Given(StatusName(i.status)))
    && (assignedTo.Omitted? || i.assignedTo == assignedTo)
  }

  /** `Query.issues`: the issues the filter selects, in array order. */
  function Issues(db: MemData, status: Arg, assignedTo: Arg): (r: seq<MemIssue>)
    ensures forall i :: i in r <==> i in db.issues && IssueSelected(i, status, assignedTo)
    ensures IsSubseq(r, db.issues)
  {
    Filter(db.issues, (i: MemIssue) => IssueSelected(i, status, assignedTo))
  }

  /** Without arguments `issues` returns the whole array. */
  lemma {:induction false} IssuesUnfiltered(db: MemData)
    ensures Issues(db, Omitted, Omitted) == db.issues
  {
    FilterKeepsAll(db.issues, (i: MemIssue) => IssueSelected(i, Omitted, Omitted));
  }

  /** `Query.issuesCount`: the length of the array, whatever the arguments. */
  function IssuesCount(db: MemData): (n: nat)
    ensures n == |Issues(db, Omitted, Omitted)|
    ensures forall status, assignedTo :: |Issues(db, status, assignedTo)| <= n
  {
    IssuesUnfiltered(db);
    |db.issues|
  }

  /** `Query.issue`: the first issue with the id, if any. */
  function FindIssue(db: MemData, id: Id): (r: Option<MemIssue>)
    ensures r.None? <==> forall i :: i in db.issues ==> i.id != id
    ensures r.Some? ==> r.value.id == id
    ensures r.Some? ==> exists k :: 0 <= k < |db.issues| && db.issues[k] == r.value
                                    && forall j :: 0 <= j < k ==> db.issues[j].id != id
  {
    Find(db.issues, (i: MemIssue) => i.id == id)
  }

  /** `Query.user`: the first user with the id, if any. */
  function FindUser(db: MemData, id: Id): (r: Option<MemUser>)
    ensures r.None? <==> forall u :: u in db.users ==> u.id != id
    ensures r.Some? ==> r.value.id == id
    ensures r.Some? ==> exists k :: 0 <= k < |db.users| && db.users[k] == r.value
                                    && forall j :: 0 <= j < k ==> db.users[j].id != id
  {
    Find(db.users, (u: MemUser) => u.id == id)
  }

  /** `Issue.assignedTo`: the first user whose id equals the reference; none for a null or missing one. */
  function AssignedTo(db: MemData, i: MemIssue): (r: Option<MemUser>)
    ensures !i.assignedTo.Given? ==> r.None?
    ensures i.assignedTo.Given? ==> r == FindUser(db, i.assignedTo.text)
  {
    Find(db.users, (u: MemUser) => i.assignedTo == Given(u.id))
  }

  /** `User.assignedIssues`: the issues referring to the user, in array order. */
  function AssignedIssues(db: MemData, u: MemUser): (r: seq<MemIssue>)
    ensures forall i :: i in r <==> i in db.issues && i.assignedTo == Given(u.id)
    ensures r == Issues(db, Omitted, Given(u.id))
  {
    FilterAgree(db.issues, (i: MemIssue) => i.assignedTo == Given(u.id),
                (i: MemIssue) => IssueSelected(i, Omitted, Given(u.id)));
    Filter(db.issues, (i: MemIssue) => i.assignedTo == Given(u.id))
  }

  /** No issue is listed under two users with different ids. */
  lemma AssignedIssuesDisjoint(db: MemData, u1: MemUser, u2: MemUser, i: MemIssue)
    requires i in AssignedIssues(db, u1) && i in AssignedIssues(db, u2)
    ensures u1.id == u2.id
  {
  }

  /**
   * When user ids are distinct, an issue is listed under a user exactly when its
   * `assignedTo` resolves to that user.
   */
  lemma AssignedIssuesAgree(db: MemData, u: MemUser, i: MemIssue)
    requires u in db.users && i in db.issues
    requires forall a, b :: a in db.users && b in db.users && a.id == b.id ==> a == b
    ensures i in AssignedIssues(db, u) <==> AssignedTo(db, i) == Some(u)
  {
  }

  /** `Issue.comments` as written: compares the `issue` field, which the fixture objects do not have. */
  function IssueCommentsAsWritten(db: MemData, i: MemIssue): (r: seq<MemComment>)
    ensures forall c :: c in r <==> c in db.comments && c.issue == Given(i.id)
    ensures forall c :: c in db.comments && c.issue.Omitted? ==> c !in r
  {
    Filter(db.comments, (c: MemComment) => c.issue == Given(i.id))
  }

  /** Where no comment carries an `issue` field, `Issue.comments` as written is empty for every issue. */
  lemma CommentsWithoutIssueField(db: MemData, i: MemIssue)
    requires forall c :: c in db.comments ==> c.issue.Omitted?
    ensures IssueCommentsAsWritten(db, i) == []
  {
  }

  /** `Issue.comments` reading the reference the records carry (`issueId`). */
  function IssueComments(db: MemData, i: MemIssue): (r: seq<MemComment>)
    ensures forall c :: c in r <==> c in db.comments && c.issueId == Given(i.id)
    ensures IsSubseq(r, db.comments)
  {
    Filter(db.comments, (c: MemComment) => c.issueId == Given(i.id))
  }

  /** `Comment.author` as written: looks up `authorId`, which the fixture objects do not have. */
  function CommentAuthorAsWritten(db: MemData, c: MemComment): (r: Option<MemUser>)
    ensures !c.authorId.Given? ==> r.None?
    ensures c.authorId.Given? ==> r == FindUser(db, c.authorId.text)
  {
    Find(db.users, (u: MemUser) => c.authorId == Given(u.id))
  }

  /** `Comment.author` looking up the reference the records carry (`author`). */
  function CommentAuthor(db: MemData, c: MemComment): (r: Option<MemUser>)
    ensures !c.author.Given? ==> r.None?
    ensures c.author.Given? ==> r == FindUser(db, c.author.text)
  {
    Find(db.users, (u: MemUser) => c.author == Given(u.id))
  }
}

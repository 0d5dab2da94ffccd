/**
 * The GraphQL resolvers of the server over an abstract database: the three
 * collections are maps keyed by id, each with the natural (insertion) order in
 * which the database returns its documents. Queries are functions of the store;
 * mutations are methods that change it.
 */
module Store {
  import opened Optional
  import opened Domain
  import opened Seqs
  import opened Text
  import opened Models
  import opened Collections

  /** The claims signed into a login token. */
  datatype TokenClaims = TokenClaims(name: string, id: Id)

  /** The `Token` object `login` returns. */
  datatype Token = Token(value: string)

  /** The shortest password `createUser` accepts. */
  const MinPasswordLength: nat := 8

  /** Whether the filter `{status?, assignedTo?}` that `issues` builds selects `i`. */
  predicate IssueMatches(i: Issue, status: Arg, assignedTo: Arg) {
    && (match status
        case Omitted => true
        case Null => false
        case Given(s) => StatusName(i.status) == s)
    && (match assignedTo
        case Omitted => true
        case Null => i.assignedTo.None?
        case Given(u) => i.assignedTo == Some(u))
  }


  class IssueStore {
    var users: map<Id, User>
    var userOrder: seq<Id>
    var issues: map<Id, Issue>
    var issueOrder: seq<Id>
    var comments: map<Id, Comment>
    var commentOrder: seq<Id>

    ghost predicate UsersValid()
      reads this`users, this`userOrder
    {
      UsersOk(userOrder, users)
    }

    ghost predicate IssuesValid()
      reads this`issues, this`issueOrder
    {
      IssuesOk(issueOrder, issues)
    }

    ghost predicate CommentsValid()
      reads this`comments, this`commentOrder
    {
      CommentsOk(commentOrder, comments)
    }

    ghost predicate Valid()
      reads this
    {
      UsersValid() && IssuesValid() && CommentsValid()
    }

    /** An empty database. */
    constructor ()
      ensures Valid()
      ensures users == map[] && issues == map[] && comments == map[]
    {
      users, userOrder := map[], [];
      issues, issueOrder := map[], [];
      comments, commentOrder := map[], [];
    }

    // ------------------------------------------------------------ queries

    /** `User.find({})`: every stored user, in natural order. */
    function UserList(): (r: seq<User>)
      reads this
      requires Valid()
      ensures |r| == |users| == |userOrder|
      ensures forall k :: 0 <= k < |r| ==> userOrder[k] in users && r[k] == users[userOrder[k]]
      ensures forall u :: u in r <==> u in users.Values
    {
      IndexesSize(userOrder, users);
      InOrderValues(users, userOrder);
      InOrder(users, userOrder)
    }

    /** `Issue.find({})`: every stored issue, in natural order. */
    function IssueList(): (r: seq<Issue>)
      reads this
      requires Valid()
      ensures |r| == |issues|
      ensures forall i :: i in r <==> i in issues.Values
    {
      IndexesSize(issueOrder, issues);
      InOrderValues(issues, issueOrder);
      InOrder(issues, issueOrder)
    }

    /** `Comment.find({})`: every stored comment, in natural order. */
    function CommentList(): (r: seq<Comment>)
      reads this
      requires Valid()
      ensures |r| == |comments|
      ensures forall c :: c in r <==> c in comments.Values
    {
      IndexesSize(commentOrder, comments);
      InOrderValues(comments, commentOrder);
      InOrder(comments, commentOrder)
    }

    /** `Query.issues`: the stored issues the given filters select, in natural order. */
    function Issues(status: Arg, assignedTo: Arg): (r: seq<Issue>)
      reads this
      requires Valid()
      ensures forall i :: i in r <==> i in issues.Values && IssueMatches(i, status, assignedTo)
      ensures IsSubseq(r, IssueList())
    {
      Filter(IssueList(), (i: Issue) => IssueMatches(i, status, assignedTo))
    }

    /**
     * `Query.issuesCount`: a truthy status counts the issues with that status name,
     * anything else counts every issue.
     */
    function IssuesCount(status: Arg): (n: nat)
      reads this
      requires Valid()
      ensures n <= |issues|
      ensures !Truthy(status) ==> n == |issues|
      ensures Truthy(status) ==> n == |Issues(status, Omitted)|
      ensures Truthy(status) && ParseStatus(status.text).None? ==> n == 0
    {
      if Truthy(status) then
        var r := Issues(status, Omitted);
        if r == [] then 0
        else
          ParseStatusName(r[0].status);
          assert r[0] in r;
          |r|
      else
        |IssueList()|
    }

    /** `Query.issue`: `findById`. */
    function FindIssue(id: Id): (r: Option<Issue>)
      reads this
      requires Valid()
      ensures r.Some? <==> id in issues
      ensures r.Some? ==> r.value.id == id && r.value in issues.Values
    {
      if id in issues then Some(issues[id]) else None
    }

    /** `Query.user`: `findById`. */
    function FindUser(id: Id): (r: Option<User>)
      reads this
      requires Valid()
      ensures r.Some? <==> id in users
      ensures r.Some? ==> r.value.id == id && r.value in users.Values
    {
      if id in users then Some(users[id]) else None
    }

    /** `Issue.assignedTo`: no user when the issue is unassigned or its assignee no longer exists. */
    function AssignedTo(i: Issue): (r: Option<User>)
      reads this
      requires Valid()
      ensures i.assignedTo.None? ==> r.None?
      ensures i.assignedTo.Some? ==> (r.Some? <==> i.assignedTo.value in users)
      ensures r.Some? ==> r.value in users.Values && i.assignedTo == Some(r.value.id)
    {
      if i.assignedTo.None? then None else FindUser(i.assignedTo.value)
    }

    /** `Issue.comments`: `Comment.find({issue: parent._id})`, in natural order. */
    function IssueComments(i: Issue): (r: seq<Comment>)
      reads this
      requires Valid()
      ensures forall c :: c in r <==> c in comments.Values && c.issue == i.id
      ensures IsSubseq(r, CommentList())
    {
      Filter(CommentList(), (c: Comment) => c.issue == i.id)
    }

    /** `Comment.author`: `findById(parent.author)`. */
    function CommentAuthor(c: Comment): (r: Option<User>)
      reads this
      requires Valid()
      ensures r.Some? <==> c.author in users
      ensures r.Some? ==> r.value.id == c.author
    {
      FindUser(c.author)
    }

    /** `Comment.issue`: `findById(parent.issue)`. */
    function CommentIssue(c: Comment): (r: Option<Issue>)
      reads this
      requires Valid()
      ensures r.Some? <==> c.issue in issues
      ensures r.Some? ==> r.value.id == c.issue
    {
      FindIssue(c.issue)
    }

    /** `User.assignedIssues`: `Issue.find({assignedTo: parent._id})`, derived from the issues, in natural order. */
    function AssignedIssues(u: User): (r: seq<Issue>)
      reads this
      requires Valid()
      ensures forall i :: i in r <==> i in issues.Values && i.assignedTo == Some(u.id)
      ensures IsSubseq(r, IssueList())
    {
      Filter(IssueList(), (i: Issue) => i.assignedTo == Some(u.id))
    }

    /** `Issue.assignedTo` and `User.assignedIssues` agree: an issue lists under a stored user iff it resolves to that user. */
    lemma AssignedIssuesAgree(u: User, i: Issue)
      requires Valid() && u in users.Values
      ensures i in AssignedIssues(u) <==> i in issues.Values && AssignedTo(i) == Some(u)
    {
      var id :| id in users && users[id] == u;
      assert users[u.id] == u;
    }

    /** No issue appears in the resolved `assignedIssues` of two different users. */
    lemma AssignedIssuesDisjoint(u1: User, u2: User, i: Issue)
      requires Valid()
      requires i in AssignedIssues(u1) && i in AssignedIssues(u2)
      ensures u1.id == u2.id
    {
    }

    /** `User.findOne({name})`: the first user in natural order with that name. */
    function FirstUserNamed(name: string): (r: Option<User>)
      reads this
      requires Valid()
      ensures r.None? <==> forall u :: u in users.Values ==> u.name != name
      ensures r.Some? ==> r.value in users.Values && r.value.name == name
      ensures r.Some? ==> exists k :: 0 <= k < |UserList()| && UserList()[k] == r.value
                                      && forall j :: 0 <= j < k ==> UserList()[j].name != name
    {
      Find(UserList(), (u: User) => u.name == name)
    }

    /**
     * `Mutation.login`: checks, in this order, that both arguments are present, that
     * a user has the name, that the password matches its hash (`compare` stands for
     * `bcrypt.compare`) and that a signing secret is configured; then signs the user's
     * name and id (`sign` stands for `jwt.sign`).
     */
    function Login(name: Arg, password: Arg, compare: (string, string) -> bool,
                   secret: Option<string>, sign: (TokenClaims, string) -> string): (r: Result<Token>)
      reads this
      requires Valid()
      ensures !Truthy(name) || !Truthy(password) ==> r == Err(Error(BadUserInput, "name and password are required"))
      ensures Truthy(name) && Truthy(password) && FirstUserNamed(name.text).None? ==> r == Err(Error(Uncoded, "user not found"))
      ensures Truthy(name) && Truthy(password) && FirstUserNamed(name.text).Some? ==>
        var u := FirstUserNamed(name.text).value;
        if u.hashPwd.None? then r == Err(Error(Uncoded, "data and hash arguments required"))
        else if !compare(password.text, u.hashPwd.value) then r == Err(Error(Unauthenticated, "Invalid credentials"))
        else if secret.None? || secret.value == "" then r == Err(Error(InternalServerError, "SECRET_KEY environment variable is not set"))
        else r == Ok(Token(sign(TokenClaims(u.name, u.id), secret.value)))
      ensures r.Ok? ==> exists u :: u in users.Values && u.name == name.text && r.value.value == sign(TokenClaims(u.name, u.id), secret.value)
    {
      if !Truthy(name) || !Truthy(password) then Err(Error(BadUserInput, "name and password are required"))
      else
        match FirstUserNamed(name.text)
        case None => Err(Error(Uncoded, "user not found"))
        case Some(u) =>
          if u.hashPwd.None? then Err(Error(Uncoded, "data and hash arguments required"))
          else if !compare(password.text, u.hashPwd.value) then Err(Error(Unauthenticated, "Invalid credentials"))
          else if secret.None? || secret.value == "" then Err(Error(InternalServerError, "SECRET_KEY environment variable is not set"))
          else Ok(Token(sign(TokenClaims(u.name, u.id), secret.value)))
    }

    /**
     * A user saved as `createUser` builds it, with the hash dropped by the schema,
     * can never log in: `bcrypt.compare` is handed no hash and throws.
     */
    lemma LoginFailsForUserAsWritten(name: Arg, password: Arg, compare: (string, string) -> bool,
                                     secret: Option<string>, sign: (TokenClaims, string) -> string,
                                     id: Id, email: string, hashed: string, now: Time)
      requires Valid() && Truthy(name) && Truthy(password)
      requires FirstUserNamed(name.text) == Some(NewUserAsWritten(id, name.text, email, hashed, now))
      ensures Login(name, password, compare, secret, sign) == Err(Error(Uncoded, "data and hash arguments required"))
    {
    }

    /**
     * With the hash kept, the user found by name logs in with the password whose hash
     * was stored, provided a secret is configured; the token signs that user.
     */
    lemma LoginSucceedsForNewUser(name: Arg, password: Arg, hash: string -> string, compare: (string, string) -> bool,
                                  secret: Option<string>, sign: (TokenClaims, string) -> string,
                                  id: Id, email: string, now: Time)
      requires Valid() && Truthy(name) && Truthy(password)
      requires FirstUserNamed(name.text) == Some(NewUser(id, name.text, email, hash(password.text), now))
      requires compare(password.text, hash(password.text))
      requires secret.Some? && secret.value != ""
      ensures Login(name, password, compare, secret, sign) == Ok(Token(sign(TokenClaims(name.text, id), secret.value)))
    {
    }

    // ------------------------------------------------------------ mutations

    /**
     * `Mutation.createUser`: name and email are required, then the password must have
     * at least eight characters; the document is validated and inserted, a clash on
     * the `_id` or the unique email index reporting "name must be unique".
     */
    method CreateUser(name: Arg, email: Arg, password: Arg, hash: string -> string, newId: Id, now: Time)
      returns (r: Result<User>)
      requires Valid()
      modifies this
      ensures Valid()
      ensures issues == old(issues) && issueOrder == old(issueOrder)
      ensures comments == old(comments) && commentOrder == old(commentOrder)
      ensures r.Err? ==> unchanged(this)
      ensures !Truthy(name) || !Truthy(email) ==> r == Err(Error(BadUserInput, "name and email are required"))
      ensures Truthy(name) && Truthy(email) && !password.Given? ==> r.Err? && r.error.code == Uncoded
      ensures Truthy(name) && Truthy(email) && password.Given? && |password.text| < MinPasswordLength ==>
        r == Err(Error(BadUserInput, "password requires more than 8 characters"))
      ensures Truthy(name) && Truthy(email) && password.Given? && |password.text| >= MinPasswordLength ==>
        var u := NewUser(newId, name.text, email.text, hash(password.text), now);
        if !ValidUser(u) then r == Err(Error(BadUserInput, "saving person failed"))
        else if newId in old(users) || EmailTaken(old(users), u.email) then r == Err(Error(BadUserInput, "name must be unique"))
        else r == Ok(u) && users == old(users)[newId := u] && userOrder == old(userOrder) + [newId]
    {
      if !Truthy(name) || !Truthy(email) {
        return Err(Error(BadUserInput, "name and email are required"));
      }
      if !password.Given? {
        return Err(Error(Uncoded, "Cannot read properties of undefined (reading 'length')"));
      }
      if |password.text| < MinPasswordLength {
        return Err(Error(BadUserInput, "password requires more than 8 characters"));
      }
      var hashed := hash(password.text);
      var user := NewUser(newId, name.text, email.text, hashed, now);
      if !ValidUser(user) {
        return Err(Error(BadUserInput, "saving person failed"));
      }
      if newId in users || EmailTaken(users, user.email) {
        return Err(Error(BadUserInput, "name must be unique"));
      }
      InsertUser(user);
      r := Ok(user);
    }

    /**
     * `Mutation.deleteUser`: the id is required; `findOneAndDelete` returns the removed
     * user, or null when there is none. Issues and comments referring to the user are
     * left as they are.
     */
    method DeleteUser(id: Arg) returns (r: Result<Option<User>>)
      requires Valid()
      modifies this`users, this`userOrder
      ensures Valid()
      ensures !Truthy(id) ==> r == Err(Error(BadUserInput, "user id must be input")) && unchanged(this)
      ensures Truthy(id) && id.text !in old(users) ==> r == Ok(None) && unchanged(this)
      ensures Truthy(id) && id.text in old(users) ==>
        r == Ok(Some(old(users)[id.text])) && users == old(users) - {id.text}
        && IsSubseq(userOrder, old(userOrder))
    {
      if !Truthy(id) {
        return Err(Error(BadUserInput, "user id must be input"));
      }
      if id.text !in users {
        return Ok(None);
      }
      var removed := users[id.text];
      UsersRemove(userOrder, users, id.text);
      users := users - {id.text};
      userOrder := Filter(userOrder, (k: Id) => k != id.text);
      r := Ok(Some(removed));
    }

    /** `user.save()` of a new, checked document: the insert of `createUser`. */
    method InsertUser(user: User)
      requires UsersValid()
      requires user.id !in users && !EmailTaken(users, user.email)
      requires ValidUser(user) && NoDuplicates(user.assignedIssues)
      modifies this`users, this`userOrder
      ensures UsersValid()
      ensures users == old(users)[user.id := user] && userOrder == old(userOrder) + [user.id]
    {
      UsersInsert(userOrder, users, user);
      users := users[user.id := user];
      userOrder := userOrder + [user.id];
    }

    /**
     * `User.findByIdAndUpdate(userId, {$addToSet: {assignedIssues: issueId}})` of
     * `assignIssue`: the issue is listed once however often it is assigned.
     */
    method AddAssignedIssue(user: User, issueId: Id, now: Time)
      requires Valid() && user.id in users && users[user.id] == user
      modifies this`users
      ensures Valid()
      ensures users == old(users)[user.id := WithAssignedIssue(user, issueId, now)]
    {
      var updated := users[user.id := WithAssignedIssue(user, issueId, now)];
      assert UsersOk(userOrder, updated) by { UsersAddAssigned(userOrder, users, user.id, issueId, now); }
      users := updated;
    }

    /** The writes of `assignIssue` once both documents are found. */
    method ApplyAssignment(issue: Issue, user: User, now: Time) returns (saved: Issue)
      requires Valid()
      requires issue.id in issues && issues[issue.id] == issue
      requires user.id in users && users[user.id] == user
      modifies this`issues, this`issueOrder, this`users
      ensures Valid()
      ensures issueOrder == old(issueOrder)
      ensures saved == AssignTo(issue, user.id, now)
      ensures issues == old(issues)[issue.id := saved]
      ensures users == old(users)[user.id := WithAssignedIssue(user, issue.id, now)]
    {
      var updated := AssignTo(issue, user.id, now);
      assert ValidIssue(updated) by {
        assert ValidIssue(issues[issue.id]);
        assert updated.title == issue.title && updated.description == issue.description;
      }
      assert Touch(updated, now) == updated;
      AddAssignedIssue(user, issue.id, now);
      saved := SaveIssue(updated, now);
    }

    /** `issue.save()`: runs the pre-save hook, then writes the document (inserting it when new). */
    method SaveIssue(issue: Issue, now: Time) returns (saved: Issue)
      requires Valid() && ValidIssue(issue)
      modifies this`issues, this`issueOrder
      ensures Valid()
      ensures saved == Touch(issue, now)
      ensures issues == old(issues)[issue.id := saved]
      ensures issueOrder == if issue.id in old(issues) then old(issueOrder) else old(issueOrder) + [issue.id]
    {
      saved := Touch(issue, now);
      IssuesPut(issueOrder, issues, saved);
      if saved.id !in issues {
        issueOrder := issueOrder + [saved.id];
      }
      issues := issues[saved.id := saved];
    }

    /**
     * `Mutation.createIssue`: title and description are required; the issue starts
     * OPEN, unassigned and without comments, with its description trimmed and its
     * title as given. A document the schema rejects is not saved.
     */
    method CreateIssue(title: Arg, description: Arg, newId: Id, now: Time) returns (r: Result<Issue>)
      requires Valid()
      modifies this`issues, this`issueOrder
      ensures Valid()
      ensures r.Err? ==> unchanged(this)
      ensures !Truthy(title) || !Truthy(description) ==> r == Err(Error(BadUserInput, "title and description is required"))
      ensures Truthy(title) && Truthy(description) ==>
        var i := NewIssue(newId, title.text, Trim(description.text), now);
        if !ValidIssue(i) || newId in old(issues) then r == Err(Error(BadUserInput, "failed to save the issue"))
        else r == Ok(i) && issues == old(issues)[newId := i] && issueOrder == old(issueOrder) + [newId]
    {
      if !Truthy(title) || !Truthy(description) {
        return Err(Error(BadUserInput, "title and description is required"));
      }
      var issue := NewIssue(newId, title.text, Trim(description.text), now);
      if !ValidIssue(Touch(issue, now)) || newId in issues {
        return Err(Error(BadUserInput, "failed to save the issue"));
      }
      var saved := SaveIssue(issue, now);
      r := Ok(saved);
    }

    /**
     * `Mutation.assignIssue`: both ids are required; the user is looked up before the
     * issue. The issue gets the assignee and status ASSIGNED whatever its status was,
     * and the issue id is added to the user's `assignedIssues` as to a set. The
     * previous assignee's list is not touched.
     */
    method AssignIssue(id: Arg, userId: Arg, now: Time) returns (r: Result<Issue>)
      requires Valid()
      modifies this`issues, this`issueOrder, this`users
      ensures Valid()
      ensures comments == old(comments) && userOrder == old(userOrder) && issueOrder == old(issueOrder)
      ensures r.Err? ==> unchanged(this)
      ensures !Truthy(id) || !Truthy(userId) ==> r == Err(Error(BadUserInput, "id and userId is required"))
      ensures Truthy(id) && Truthy(userId) && userId.text !in old(users) ==> r == Err(Error(NotFound, "user not found"))
      ensures Truthy(id) && Truthy(userId) && userId.text in old(users) && id.text !in old(issues) ==>
        r == Err(Error(NotFound, "issue not found"))
      ensures Truthy(id) && Truthy(userId) && userId.text in old(users) && id.text in old(issues) ==>
        && r == Ok(AssignTo(old(issues)[id.text], userId.text, now))
        && issues == old(issues)[id.text := r.value]
        && users == old(users)[userId.text := WithAssignedIssue(old(users)[userId.text], id.text, now)]
    {
      if !Truthy(id) || !Truthy(userId) {
        return Err(Error(BadUserInput, "id and userId is required"));
      }
      if userId.text !in users {
        return Err(Error(NotFound, "user not found"));
      }
      var user := users[userId.text];
      if id.text !in issues {
        return Err(Error(NotFound, "issue not found"));
      }
      var saved := ApplyAssignment(issues[id.text], user, now);
      r := Ok(saved);
    }

    /**
     * `Mutation.updateIssueStatus`: id and status are required and the issue must
     * exist; any status of the enumeration is accepted whatever the current one, and
     * only `status` and `updatedAt` change. A name outside the enumeration fails the
     * schema's enum validator when the issue is saved.
     */
    method UpdateIssueStatus(id: Arg, status: Arg, now: Time) returns (r: Result<Issue>)
      requires Valid()
      modifies this`issues, this`issueOrder
      ensures Valid()
      ensures issueOrder == old(issueOrder)
      ensures r.Err? ==> unchanged(this)
      ensures !Truthy(id) || !Truthy(status) ==> r == Err(Error(BadUserInput, "id and status is required"))
      ensures Truthy(id) && Truthy(status) && id.text !in old(issues) ==> r == Err(Error(NotFound, "issue not found"))
      ensures Truthy(id) && Truthy(status) && id.text in old(issues) && ParseStatus(status.text).None? ==>
        r.Err? && r.error.code == Uncoded
      ensures Truthy(id) && Truthy(status) && id.text in old(issues) && ParseStatus(status.text).Some? ==>
        r == Ok(WithStatus(old(issues)[id.text], ParseStatus(status.text).value, now))
        && issues == old(issues)[id.text := r.value]
    {
      if !Truthy(id) || !Truthy(status) {
        return Err(Error(BadUserInput, "id and status is required"));
      }
      if id.text !in issues {
        return Err(Error(NotFound, "issue not found"));
      }
      var issue := issues[id.text];
      var parsed := ParseStatus(status.text);
      if parsed.None? {
        return Err(Error(Uncoded, "Issue validation failed: status is not a valid enum value"));
      }
      issue := issue.(status := parsed.value);
      issue := issue.(updatedAt := now);
      var saved := SaveIssue(issue, now);
      r := Ok(saved);
    }

    /**
     * `Mutation.addComment`: issue id and content are required, then the author; the
     * author must exist, then the issue. The comment is inserted and its id pushed at
     * the end of the issue's `comments`; no other issue changes.
     */
    method AddComment(content: Arg, author: Arg, issueId: Arg, newId: Id, now: Time) returns (r: Result<Comment>)
      requires Valid()
      modifies this`comments, this`commentOrder, this`issues
      ensures Valid()
      ensures issueOrder == old(issueOrder)
      ensures r.Err? ==> unchanged(this)
      ensures !Truthy(issueId) || !Truthy(content) ==> r == Err(Error(BadUserInput, "issueId and content is required"))
      ensures Truthy(issueId) && Truthy(content) && !Truthy(author) ==> r == Err(Error(BadUserInput, "author is required"))
      ensures Truthy(issueId) && Truthy(content) && Truthy(author) && author.text !in old(users) ==>
        r == Err(Error(NotFound, "user not found"))
      ensures Truthy(issueId) && Truthy(content) && Truthy(author) && author.text in old(users) && issueId.text !in old(issues) ==>
        r == Err(Error(NotFound, "issue not found"))
      ensures Truthy(issueId) && Truthy(content) && Truthy(author) && author.text in old(users) && issueId.text in old(issues) ==>
        if newId in old(comments) then r.Err? && r.error.code == Uncoded
        else
          && r == Ok(Comment(newId, content.text, author.text, issueId.text, now))
          && comments == old(comments)[newId := r.value]
          && commentOrder == old(commentOrder) + [newId]
          && issues == old(issues)[issueId.text := WithComment(old(issues)[issueId.text], newId)]
    {
      if !Truthy(issueId) || !Truthy(content) {
        return Err(Error(BadUserInput, "issueId and content is required"));
      }
      if !Truthy(author) {
        return Err(Error(BadUserInput, "author is required"));
      }
      if author.text !in users {
        return Err(Error(NotFound, "user not found"));
      }
      var user := users[author.text];
      if issueId.text !in issues {
        return Err(Error(NotFound, "issue not found"));
      }
      var issue := issues[issueId.text];
      var comment := Comment(newId, content.text, user.id, issue.id, now);
      if newId in comments {
        return Err(Error(Uncoded, "E11000 duplicate key error collection: comments"));
      }
      CommentsInsert(commentOrder, comments, comment);
      IssuesPut(issueOrder, issues, WithComment(issue, comment.id));
      comments := comments[newId := comment];
      commentOrder := commentOrder + [newId];

      issues := issues[issue.id := WithComment(issue, comment.id)];
      r := Ok(comment);
    }
  }
}

/**
 * The three persisted record kinds (users, issues, comments) and the constraints
 * their mongoose schemas enforce when a document is saved.
 */
module Models {
  import opened Optional
  import opened Domain
  import opened Text
  import opened Seqs

  /** `minLength` of `User.name`. */
  const MinNameLength: nat := 5
  /** `minLength` of `Issue.title`. */
  const MinTitleLength: nat := 5
  /** `minLength` of `Issue.description`. */
  const MinDescriptionLength: nat := 5
  /** `minLength` of `Comment.content`. */
  const MinContentLength: nat := 1

  /**
   * A user document. `hashPwd` is the bcrypt hash of the password, absent when the
   * document was saved without one; `createdAt`/`updatedAt` come from the schema's
   * `timestamps` option.
   */
  datatype User = User(
    id: Id, name: string, email: string, hashPwd: Option<string>,
    assignedIssues: seq<Id>, createdAt: Time, updatedAt: Time)

  /** An issue document. `assignedTo` references a user, `comments` lists comment ids. */
  datatype Issue = Issue(
    id: Id, title: string, description: string, status: Status,
    createdAt: Time, updatedAt: Time, assignedTo: Option<Id>, comments: seq<Id>)

  /** A comment document: its author and the issue it belongs to are references. */
  datatype Comment = Comment(id: Id, content: string, author: Id, issue: Id, createdAt: Time)

  // ---------------------------------------------------------------- users

  /** The `lowercase: true` setter of `User.email`. */
  function NormalizeEmail(email: string): (r: string)
    ensures |r| == |email| && IsLower(r)
    ensures IsLower(email) ==> r == email
  {
    LowerIsFixedPoint(email);
    ToLower(email)
  }

  /** Normalising an already normalised address changes nothing. */
  lemma NormalizeEmailIdempotent(email: string)
    ensures NormalizeEmail(NormalizeEmail(email)) == NormalizeEmail(email)
  {
    ToLowerIdempotent(email);
  }

  /** `\w`: an ASCII letter, digit or underscore. */
  predicate IsWordChar(c: char) {
    ('a' <= c <= 'z') || ('A' <= c <= 'Z') || ('0' <= c <= '9') || c == '_'
  }

  predicate IsSeparator(c: char) {
    c == '.' || c == '-'
  }

  /**
   * `s[i..hi]` is in the language of `([.-]?\w+)*`: runs of word characters, each
   * optionally preceded by one dot or hyphen. (Indices rather than slices keep the
   * recursion cheap to reason about.)
   */
  predicate DottedTailIn(s: string, i: nat, hi: nat)
    requires i <= hi <= |s|
    decreases hi - i
  {
    if i == hi then true
    else if IsWordChar(s[i]) then DottedTailIn(s, i + 1, hi)
    else IsSeparator(s[i]) && i + 1 < hi && IsWordChar(s[i + 1]) && DottedTailIn(s, i + 2, hi)
  }

  /** `s[lo..hi]` is in the language of `\w+([.-]?\w+)*`: a word character, then a dotted tail. */
  predicate DottedWordIn(s: string, lo: nat, hi: nat)
    requires lo <= hi <= |s|
  {
    lo < hi && IsWordChar(s[lo]) && DottedTailIn(s, lo + 1, hi)
  }

  /**
   * `s[lo..hi]` is in the language of `\w+([.-]?\w+)*(\.\w{2,3})+`: a dotted word
   * whose last separator is a dot followed by two or three word characters.
   */
  predicate EmailDomainIn(s: string, lo: nat, hi: nat)
    requires lo <= hi <= |s|
  {
    && DottedWordIn(s, lo, hi)
    && ((hi - lo >= 3 && s[hi - 3] == '.')
        || (hi - lo >= 4 && s[hi - 4] == '.' && IsWordChar(s[hi - 3]) && IsWordChar(s[hi - 2])))
  }

  /** The index of the first `@` in `s` at or after `i`, or `|s|` when there is none. */
  function AtSignFrom(s: string, i: nat): (k: nat)
    requires i <= |s|
    ensures i <= k <= |s|
    ensures k < |s| ==> s[k] == '@'
    ensures forall j :: i <= j < k ==> s[j] != '@'
    decreases |s| - i
  {
    if i == |s| || s[i] == '@' then i else AtSignFrom(s, i + 1)
  }

  /**
   * The `match` validator of `User.email`: `local@domain` in the languages above.
   * Neither language contains `@`, so the only candidate split is at the first one.
   */
  predicate EmailMatches(email: string) {
    EmailMatchesFrom(email, 0)
  }

  /** Scanning from `i` for the first `@`: the text before it must be a dotted word and the rest a domain. */
  predicate EmailMatchesFrom(email: string, i: nat)
    requires i <= |email|
    decreases |email| - i
  {
    if i == |email| then false
    else if email[i] == '@' then DottedWordIn(email, 0, i) && EmailDomainIn(email, i + 1, |email|)
    else EmailMatchesFrom(email, i + 1)
  }

  /** What the user schema accepts for a stored user. */
  predicate ValidUser(u: User) {
    && |u.name| >= MinNameLength
    && u.email != ""
    && IsLower(u.email)
    && EmailMatches(u.email)
  }

  /** Validity depends on the name and the address only. */
  lemma ValidUserFields(u: User, v: User)
    requires ValidUser(u) && v.name == u.name && v.email == u.email
    ensures ValidUser(v)
  {
  }

  /** The `unique` index on `User.email`: no two stored users share an address. */
  ghost predicate UniqueEmails(users: map<Id, User>) {
    forall a, b :: a in users && b in users && users[a].email == users[b].email ==> a == b
  }

  /** The document `new User({name, email, hashPwd})` saves, with the password hash kept. */
  function NewUser(id: Id, name: string, email: string, hashed: string, now: Time): (u: User)
    ensures u.email == NormalizeEmail(email) && u.hashPwd == Some(hashed)
    ensures u.assignedIssues == [] && u.createdAt == now && u.updatedAt == now
  {
    User(id, name, NormalizeEmail(email), Some(hashed), [], now, now)
  }

  /**
   * The same document as the schema in users.ts actually casts it: the schema
   * declares no `hashPwd` path, and mongoose's strict mode drops undeclared fields.
   */
  function NewUserAsWritten(id: Id, name: string, email: string, hashed: string, now: Time): (u: User)
    ensures u.hashPwd.None? && u == NewUser(id, name, email, hashed, now).(hashPwd := None)
  {
    User(id, name, NormalizeEmail(email), None, [], now, now)
  }

  /** A new user passes validation exactly when its name is long enough and its lower-cased address matches. */
  lemma NewUserValid(id: Id, name: string, email: string, hashed: string, now: Time)
    ensures ValidUser(NewUser(id, name, email, hashed, now))
        <==> |name| >= MinNameLength && EmailMatches(NormalizeEmail(email))
  {
    NormalizeEmailIdempotent(email);
  }

  /**
   * An address splits at its first `@`: when the local part has none, the address
   * validates exactly when the local part is a dotted word and the rest a domain.
   */
  lemma EmailSplit(local: string, domain: string)
    requires forall k :: 0 <= k < |local| ==> local[k] != '@'
    ensures AtSignFrom(local + "@" + domain, 0) == |local|
    ensures EmailMatches(local + "@" + domain)
        <==> DottedWordIn(local, 0, |local|) && EmailDomainIn(domain, 0, |domain|)
  {
    var e := local + "@" + domain;
    assert |local| < |e| && AtSignFrom(e, 0) == |local| by { JoinAtSign(local, domain); }
    assert DottedWordIn(e, 0, |local|) <==> DottedWordIn(local, 0, |local|) by { JoinLocalPart(local, domain); }
    assert EmailDomainIn(e, |local| + 1, |e|) <==> EmailDomainIn(domain, 0, |domain|) by { JoinDomain(local, domain); }
    MatchesSplitAt(e, |local|);
  }

  /** The first `@` of `local + "@" + domain` is the one between them. */
  lemma JoinAtSign(local: string, domain: string)
    requires forall k :: 0 <= k < |local| ==> local[k] != '@'
    ensures |local| < |local + "@" + domain| && AtSignFrom(local + "@" + domain, 0) == |local|
  {
    EmailParts(local, domain);
    AtSignFromFirst(local + "@" + domain, 0, |local|);
  }

  /** The part before the `@` is a dotted word exactly when `local` is. */
  lemma JoinLocalPart(local: string, domain: string)
    ensures DottedWordIn(local + "@" + domain, 0, |local|) <==> DottedWordIn(local, 0, |local|)
  {
    EmailParts(local, domain);
    LocalPartShift(local + "@" + domain, local);
  }

  /** The part after the `@` is a domain exactly when `domain` is. */
  lemma JoinDomain(local: string, domain: string)
    ensures |local + "@" + domain| == |local| + 1 + |domain|
    ensures EmailDomainIn(local + "@" + domain, |local| + 1, |local + "@" + domain|)
        <==> EmailDomainIn(domain, 0, |domain|)
  {
    EmailParts(local, domain);
    DomainShift(local + "@" + domain, domain, |local| + 1);
  }

  /** Once the first `@` is known, matching is matching the two sides of it. */
  lemma MatchesSplitAt(e: string, k: nat)
    requires k < |e| && AtSignFrom(e, 0) == k
    ensures EmailMatches(e) <==> DottedWordIn(e, 0, k) && EmailDomainIn(e, k + 1, |e|)
  {
    MatchesFromFirstAtSign(e, 0);
  }

  /** The scan from `i` splits at the first `@` at or after `i`, and fails when there is none. */
  lemma {:induction false} MatchesFromFirstAtSign(e: string, i: nat)
    requires i <= |e|
    ensures EmailMatchesFrom(e, i) <==>
      AtSignFrom(e, i) < |e| && DottedWordIn(e, 0, AtSignFrom(e, i)) && EmailDomainIn(e, AtSignFrom(e, i) + 1, |e|)
    decreases |e| - i
  {
    if i < |e| && e[i] != '@' {
      MatchesFromFirstAtSign(e, i + 1);
    }
  }

  /** The characters of `local + "@" + domain`, position by position. */
  lemma EmailParts(local: string, domain: string)
    ensures |local + "@" + domain| == |local| + 1 + |domain|
    ensures forall k :: 0 <= k < |local| ==> (local + "@" + domain)[k] == local[k]
    ensures (local + "@" + domain)[|local|] == '@'
    ensures forall k :: |local| + 1 <= k < |local| + 1 + |domain| ==> (local + "@" + domain)[k] == domain[k - |local| - 1]
  {
  }

  /** Searching from `i` stops at the first `@` at or after `i`. */
  lemma {:induction false} AtSignFromFirst(s: string, i: nat, k: nat)
    requires i <= k < |s| && s[k] == '@'
    requires forall j :: i <= j < k ==> s[j] != '@'
    ensures AtSignFrom(s, i) == k
    decreases k - i
  {
    if i < k {
      AtSignFromFirst(s, i + 1, k);
    }
  }

  lemma LocalPartShift(e: string, local: string)
    requires |local| <= |e|
    requires forall k :: 0 <= k < |local| ==> e[k] == local[k]
    ensures DottedWordIn(e, 0, |local|) <==> DottedWordIn(local, 0, |local|)
  {
    if |local| > 0 {
      DottedTailShift(e, local, 1, 1, |local| - 1);
    }
  }

  lemma DomainShift(e: string, domain: string, off: nat)
    requires off + |domain| == |e|
    requires forall k :: off <= k < |e| ==> e[k] == domain[k - off]
    ensures EmailDomainIn(e, off, |e|) <==> EmailDomainIn(domain, 0, |domain|)
  {
    if |domain| > 0 {
      DottedTailShift(e, domain, off + 1, 1, |domain| - 1);
    }
    if |domain| >= 3 {
      assert e[|e| - 3] == domain[|domain| - 3] && e[|e| - 2] == domain[|domain| - 2];
    }
    if |domain| >= 4 {
      assert e[|e| - 4] == domain[|domain| - 4];
    }
  }

  /** The tail languages only look at the characters in range: equal ranges agree. */
  lemma {:induction false} DottedTailShift(s: string, t: string, i: nat, j: nat, n: nat)
    requires i + n <= |s| && j + n <= |t|
    requires forall k :: i <= k < i + n ==> s[k] == t[k - i + j]
    ensures DottedTailIn(s, i, i + n) <==> DottedTailIn(t, j, j + n)
    decreases n
  {
    if n >= 2 {
      DottedTailShift(s, t, i + 1, j + 1, n - 1);
      DottedTailShift(s, t, i + 2, j + 2, n - 2);
    } else if n == 1 {
      DottedTailShift(s, t, i + 1, j + 1, 0);
    }
  }

  /** A run of word characters is a dotted tail. */
  lemma {:induction false} WordsAreDottedTail(s: string, i: nat, hi: nat)
    requires i <= hi <= |s|
    requires forall k :: i <= k < hi ==> IsWordChar(s[k])
    ensures DottedTailIn(s, i, hi)
    decreases hi - i
  {
    if i < hi {
      WordsAreDottedTail(s, i + 1, hi);
    }
  }

  /** "alice@example.com" validates. */
  lemma EmailAccepted()
    ensures EmailMatches("alice@example.com")
  {
    var local, domain := "alice", "example.com";
    WordsAreDottedTail(local, 1, 5);
    WordsAreDottedTail(domain, 8, 11);
    assert DottedTailIn(domain, 7, 11);
    WordsAreDottedTail(domain, 1, 7);
    DottedTailJoin(domain, 1, 7, 11);
    EmailSplit(local, domain);
    assert local + "@" + domain == "alice@example.com";
  }

  /** A dotted tail followed by a dotted tail is a dotted tail. */
  lemma {:induction false} DottedTailJoin(s: string, i: nat, m: nat, hi: nat)
    requires i <= m <= hi <= |s|
    requires DottedTailIn(s, i, m) && DottedTailIn(s, m, hi)
    ensures DottedTailIn(s, i, hi)
    decreases m - i
  {
    if i < m {
      if IsWordChar(s[i]) {
        DottedTailJoin(s, i + 1, m, hi);
      } else {
        DottedTailJoin(s, i + 2, m, hi);
      }
    }
  }

  /** A domain without a two- or three-letter top level does not validate. */
  lemma EmailRejected()
    ensures !EmailMatches("alice@example")
  {
    EmailSplit("alice", "example");
    assert "alice" + "@" + "example" == "alice@example";
  }

  // ---------------------------------------------------------------- issues

  /** The fields `assignIssue` sets on the fetched issue before saving it. */
  function AssignTo(i: Issue, userId: Id, now: Time): (r: Issue)
    ensures r.assignedTo == Some(userId) && r.status == Assigned && r.updatedAt == now
    ensures r.(assignedTo := i.assignedTo, status := i.status, updatedAt := i.updatedAt) == i
  {
    i.(assignedTo := Some(userId), status := Assigned, updatedAt := now)
  }

  /** The fields `updateIssueStatus` sets on the fetched issue before saving it. */
  function WithStatus(i: Issue, s: Status, now: Time): (r: Issue)
    ensures r.status == s && r.updatedAt == now
    ensures r.(status := i.status, updatedAt := i.updatedAt) == i
  {
    i.(status := s, updatedAt := now)
  }

  /**
   * `findByIdAndUpdate(user, {$addToSet: {assignedIssues: issue}})`; the user schema's
   * timestamps option also stamps `updatedAt`.
   */
  function WithAssignedIssue(u: User, issueId: Id, now: Time): (r: User)
    ensures issueId in r.assignedIssues && r.updatedAt == now
    ensures r.(assignedIssues := u.assignedIssues, updatedAt := u.updatedAt) == u
  {
    u.(assignedIssues := AddToSet(u.assignedIssues, issueId), updatedAt := now)
  }

  /**
   * Assigning the same issue to a user twice lists it once: the second
   * `$addToSet` leaves the list as the first made it, and the issue occurs in it
   * exactly once.
   */
  lemma AssignTwiceListedOnce(u: User, issueId: Id, t1: Time, t2: Time)
    requires NoDuplicates(u.assignedIssues)
    ensures WithAssignedIssue(WithAssignedIssue(u, issueId, t1), issueId, t2).assignedIssues
         == WithAssignedIssue(u, issueId, t1).assignedIssues
    ensures multiset(WithAssignedIssue(WithAssignedIssue(u, issueId, t1), issueId, t2).assignedIssues)[issueId] == 1
  {
    AddToSetIdempotent(u.assignedIssues, issueId);
    AddToSetOnce(u.assignedIssues, issueId);
  }

  /**
   * `findByIdAndUpdate(issue, {$push: {comments: comment}})`: appends, and leaves
   * `updatedAt` alone (no save hook runs and the issue schema has no timestamps option).
   */
  function WithComment(i: Issue, commentId: Id): (r: Issue)
    ensures |r.comments| == |i.comments| + 1 && r.comments[|i.comments|] == commentId
    ensures r.(comments := i.comments) == i && r.comments[..|i.comments|] == i.comments
  {
    i.(comments := i.comments + [commentId])
  }

  /** What the issue schema accepts: a title and a description of at least five characters. */
  predicate ValidIssue(i: Issue) {
    |i.title| >= MinTitleLength && |i.description| >= MinDescriptionLength
  }

  /** A new issue with the schema's defaults: status OPEN, no assignee, no comments. */
  function NewIssue(id: Id, title: string, description: string, now: Time): (i: Issue)
    ensures i.status == Open && i.assignedTo.None? && i.comments == []
    ensures i.title == title && i.description == description
    ensures i.createdAt == now && i.updatedAt == now
  {
    Issue(id, title, description, Open, now, now, None, [])
  }

  /** The `pre('save')` hook: every save stamps `updatedAt` with the current time and changes nothing else. */
  function Touch(i: Issue, now: Time): (r: Issue)
    ensures r.updatedAt == now
    ensures r.(updatedAt := i.updatedAt) == i
  {
    i.(updatedAt := now)
  }

  /** The hook never changes whether a document validates. */
  lemma TouchKeepsValidity(i: Issue, now: Time)
    ensures ValidIssue(Touch(i, now)) <==> ValidIssue(i)
  {
  }

  /** Saving twice at the same time is saving once. */
  lemma TouchIdempotent(i: Issue, now: Time)
    ensures Touch(Touch(i, now), now) == Touch(i, now)
  {
  }

  /** The title is validated untrimmed: five spaces are a valid title. */
  lemma BlankTitleAccepted(id: Id, now: Time)
    ensures ValidIssue(NewIssue(id, "     ", "Steps to reproduce", now))
  {
  }

  /** The description is validated after the resolver trims it: padding up to five characters does not help. */
  lemma PaddedDescriptionRejected(id: Id, now: Time)
    ensures |"  ab  "| >= MinDescriptionLength
    ensures !ValidIssue(NewIssue(id, "A real title", Trim("  ab  "), now))
  {
    var t := Trim("  ab  ");
    assert t != [] ==> !IsWhitespace(t[0]);
    TrimIsSlice("  ab  ");
  }

  // ---------------------------------------------------------------- comments

  /** What the comment schema accepts: non-empty content and both references present. */
  predicate ValidComment(c: Comment) {
    |c.content| >= MinContentLength && c.author != "" && c.issue != ""
  }
}

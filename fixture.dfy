/**
 * The sample records the in-memory server is started with, and what its
 * resolvers answer on them.
 */
module Fixture {
  import opened Optional
  import opened Domain
  import opened Seqs
  import opened InMemory

  const Alice: Id := "u1a2b3c4-d5e6-789f-1011-121314151617"
  const Bob: Id := "u2b3c4d5-e6f7-8901-1121-314151617181"
  const Carol: Id := "u3c4d5e6-f7g8-9011-2131-415161718192"

  const LoginBug: Id := "i1a2b3c4-d5e6-789f-1011-121314151617"
  const DarkMode: Id := "i2b3c4d5-e6f7-8901-1121-314151617181"
  const Migration: Id := "i3c4d5e6-f7g8-9011-2131-415161718192"
  const Typo: Id := "i4d5e6f7-g8h9-0121-3141-516171819202"
  const Pipeline: Id := "i5e6f7g8-h9i0-1213-1415-161718192021"

  const SampleUsers: seq<MemUser> := [
    MemUser(Alice, "Alice Johnson", "alice@example.com"),
    MemUser(Bob, "Bob Smith", "bob@example.com"),
    MemUser(Carol, "Carol Williams", "carol@example.com")
  ]

  const SampleIssues: seq<MemIssue> := [
    MemIssue(LoginBug, "Bug in login flow", "Users are unable to log in with valid credentials.",
             Open, Null, "2025-08-01T10:00:00Z", "2025-08-01T10:00:00Z"),
    MemIssue(DarkMode, "Add dark mode", "Implement dark mode for the dashboard.",
             Assigned, Given(Alice), "2025-08-02T09:30:00Z", "2025-08-02T09:30:00Z"),
    MemIssue(Migration, "Database schema migration", "Refactor schema to support comments on issues.",
             InProgress, Given(Bob), "2025-08-03T08:45:00Z", "2025-08-04T15:20:00Z"),
    MemIssue(Typo, "Fix typo on homepage", "Correct the spelling of 'Welcom' to 'Welcome'.",
             Resolved, Given(Carol), "2025-08-05T11:10:00Z", "2025-08-05T12:00:00Z"),
    MemIssue(Pipeline, "Implement CI/CD pipeline", "Set up GitHub Actions for automated testing and deployment.",
             Closed, Given(Alice), "2025-08-06T14:00:00Z", "2025-08-07T09:00:00Z")
  ]

  /** The sample comments carry `issueId` and `author`, not `issue` and `authorId`. */
  const SampleComments: seq<MemComment> := [
    MemComment("c1a2b3c4-d5e6-789f-1011-121314151617", "I think this is caused by the new auth middleware.",
               Omitted, Omitted, Given(LoginBug), Given(Bob), "2025-08-01T12:15:00Z"),
    MemComment("c2b3c4d5-e6f7-8901-1121-314151617181", "Yes, I can reproduce this locally. Working on a fix.",
               Omitted, Omitted, Given(LoginBug), Given(Alice), "2025-08-01T13:45:00Z"),
    MemComment("c3c4d5e6-f7g8-9011-2131-415161718192", "Dark mode should also support system preferences.",
               Omitted, Omitted, Given(DarkMode), Given(Carol), "2025-08-02T10:00:00Z"),
    MemComment("c4d5e6f7-g8h9-0121-3141-516171819202", "Schema migration might break old data, need to plan carefully.",
               Omitted, Omitted, Given(Migration), Given(Alice), "2025-08-03T09:00:00Z"),
    MemComment("c5e6f7g8-h9i0-1213-1415-161718192021", "Typo fixed and merged into main branch \U{1F389}",
               Omitted, Omitted, Given(Typo), Given(Carol), "2025-08-05T12:05:00Z"),
    MemComment("c6f7g8h9-i0j1-2131-4151-617181920212", "CI/CD pipeline successfully deployed to staging.",
               Omitted, Omitted, Given(Pipeline), Given(Bob), "2025-08-07T09:30:00Z")
  ]

  const Sample: MemData := MemData(SampleUsers, SampleIssues, SampleComments)

  /** `issuesCount` ignores its arguments and counts the whole array: five issues. */
  lemma SampleCount(db: MemData)
    requires db == Sample
    ensures IssuesCount(db) == 5
  {
  }

  /** A filter over five elements that keeps only the first. */
  lemma KeepsFirstOfFive<T(!new)>(s: seq<T>, keep: T -> bool)
    requires |s| == 5 && keep(s[0]) && !keep(s[1]) && !keep(s[2]) && !keep(s[3]) && !keep(s[4])
    ensures Filter(s, keep) == [s[0]]
  {
    assert Filter(s[4..], keep) == [] by {
      assert s[5..] == [];
      FilterStep(s, keep, 4);
    }
    assert Filter(s[3..], keep) == [] by {
      FilterStep(s, keep, 3);
    }
    assert Filter(s[2..], keep) == [] by {
      FilterStep(s, keep, 2);
    }
    assert Filter(s[1..], keep) == [] by {
      FilterStep(s, keep, 1);
    }
    assert Filter(s[0..], keep) == [s[0]] by {
      FilterStep(s, keep, 0);
    }
    assert s[0..] == s;
  }

  /** A filter over five elements that keeps only the second and the fifth. */
  lemma KeepsSecondAndFifthOfFive<T(!new)>(s: seq<T>, keep: T -> bool)
    requires |s| == 5 && !keep(s[0]) && keep(s[1]) && !keep(s[2]) && !keep(s[3]) && keep(s[4])
    ensures Filter(s, keep) == [s[1], s[4]]
  {
    assert Filter(s[4..], keep) == [s[4]] by {
      assert s[5..] == [];
      FilterStep(s, keep, 4);
    }
    assert Filter(s[3..], keep) == [s[4]] by {
      FilterStep(s, keep, 3);
    }
    assert Filter(s[2..], keep) == [s[4]] by {
      FilterStep(s, keep, 2);
    }
    assert Filter(s[1..], keep) == [s[1], s[4]] by {
      FilterStep(s, keep, 1);
    }
    assert Filter(s[0..], keep) == [s[1], s[4]] by {
      FilterStep(s, keep, 0);
    }
    assert s[0..] == s;
  }

  /** `issues(status: "OPEN")` returns the one open issue. */
  lemma OpenIssues(db: MemData)
    requires db == Sample
    ensures Issues(db, Given("OPEN"), Omitted) == [SampleIssues[0]]
  {
    var s, keep := db.issues, (i: MemIssue) => IssueSelected(i, Given("OPEN"), Omitted);
    assert keep(s[0]);
    assert !keep(s[1]) && !keep(s[2]) && !keep(s[3]) && !keep(s[4]);
    KeepsFirstOfFive(s, keep);
  }

  /** `issues(assignedTo: Alice)` returns "Add dark mode" and then "Implement CI/CD pipeline". */
  lemma AliceIssues(db: MemData)
    requires db == Sample
    ensures Issues(db, Omitted, Given(Alice)) == [SampleIssues[1], SampleIssues[4]]
    ensures SampleIssues[1].title == "Add dark mode" && SampleIssues[4].title == "Implement CI/CD pipeline"
  {
    var s, keep := db.issues, (i: MemIssue) => IssueSelected(i, Omitted, Given(Alice));
    assert keep(s[1]) && keep(s[4]);
    assert !keep(s[0]) && !keep(s[2]) && !keep(s[3]);
    KeepsSecondAndFifthOfFive(s, keep);
  }

  /** A filter over six elements that keeps only the first two. */
  lemma KeepsFirstTwoOfSix<T(!new)>(s: seq<T>, keep: T -> bool)
    requires |s| == 6 && keep(s[0]) && keep(s[1])
    requires !keep(s[2]) && !keep(s[3]) && !keep(s[4]) && !keep(s[5])
    ensures Filter(s, keep) == [s[0], s[1]]
  {
    assert Filter(s[5..], keep) == [] by {
      assert s[6..] == [];
      FilterStep(s, keep, 5);
    }
    assert Filter(s[4..], keep) == [] by {
      FilterStep(s, keep, 4);
    }
    assert Filter(s[3..], keep) == [] by {
      FilterStep(s, keep, 3);
    }
    assert Filter(s[2..], keep) == [] by {
      FilterStep(s, keep, 2);
    }
    assert Filter(s[1..], keep) == [s[1]] by {
      FilterStep(s, keep, 1);
    }
    assert Filter(s[0..], keep) == [s[0], s[1]] by {
      FilterStep(s, keep, 0);
    }
    assert s[0..] == s;
  }

  /** As written, `Issue.comments` finds no comment on the login issue: no sample comment has an `issue` field. */
  lemma LoginBugCommentsAsWritten(db: MemData)
    requires db == Sample
    ensures IssueCommentsAsWritten(db, db.issues[0]) == []
  {
    CommentsWithoutIssueField(db, db.issues[0]);
  }

  /** Reading `issueId`, `Issue.comments` finds Bob's and Alice's comments on the login issue. */
  lemma LoginBugComments(db: MemData)
    requires db == Sample
    ensures IssueComments(db, db.issues[0]) == [db.comments[0], db.comments[1]]
  {
    var s, keep := db.comments, (c: MemComment) => c.issueId == Given(LoginBug);
    assert keep(s[0]) && keep(s[1]);
    assert !keep(s[2]) && !keep(s[3]) && !keep(s[4]) && !keep(s[5]);
    KeepsFirstTwoOfSix(s, keep);
  }

  /** As written, `Comment.author` resolves no sample comment's author: none has an `authorId` field. */
  lemma FirstCommentAuthorAsWritten(db: MemData)
    requires db == Sample
    ensures CommentAuthorAsWritten(db, db.comments[0]) == None
  {
  }

  /** Reading `author`, the first sample comment resolves to Bob. */
  lemma FirstCommentAuthor(db: MemData)
    requires db == Sample
    ensures CommentAuthor(db, db.comments[0]) == Some(db.users[1])
  {
    var r := CommentAuthor(db, db.comments[0]);
    assert r.Some? by {
      assert db.users[1] in db.users && db.users[1].id == Bob;
    }
    assert r.value == db.users[1];
  }
}

/** The users page's per-user assignment counts and its three totals. */
module UsersList {
  import opened Optional
  import opened Seqs
  import opened Client

  /** A user with the number of issues assigned to them. */
  datatype UserWithCount = UserWithCount(user: ClientUser, assignedIssuesCount: nat)

  /** `usersWithIssueCount`: each user paired with the length of their `assignedIssues`. */
  function UsersWithIssueCount(users: seq<ClientUser>): (r: seq<UserWithCount>)
    ensures |r| == |users|
    ensures forall k :: 0 <= k < |users| ==> r[k].user == users[k]
    ensures forall k :: 0 <= k < |users| ==> r[k].assignedIssuesCount == |users[k].assignedIssues|
  {
    seq(|users|, k requires 0 <= k < |users| => UserWithCount(users[k], |users[k].assignedIssues|))
  }

  /** A user with at least one assigned issue. */
  predicate IsActive(u: ClientUser) {
    |u.assignedIssues| > 0
  }

  /** The number of active users, counted one user at a time. */
  function CountActive(users: seq<ClientUser>): nat {
    if users == [] then 0
    else (if IsActive(users[0]) then 1 else 0) + CountActive(users[1..])
  }

  /** "Active Users": how many users have at least one assigned issue. */
  function ActiveUsers(users: seq<ClientUser>): (n: nat)
    ensures n == CountActive(users)
    ensures n <= |users|
    ensures n == 0 <==> forall u :: u in users ==> !IsActive(u)
  {
    var keep := (u: ClientUser) => IsActive(u);
    var active := Filter(users, keep);
    assert active != [] ==> active[0] in active;
    FilterCountsActive(users, keep);
    |active|
  }

  /** Filtering on activity keeps as many users as there are active ones. */
  lemma {:induction false} FilterCountsActive(users: seq<ClientUser>, keep: ClientUser -> bool)
    requires forall u :: keep(u) == IsActive(u)
    ensures |Filter(users, keep)| == CountActive(users)
    decreases |users|
  {
    if users != [] {
      FilterCountsActive(users[1..], keep);
    }
  }

  /**
   * "Total Assignments": the `reduce` summing assignment counts, from the left.
   * No user holds more than the total, and the total is zero only when nobody holds an issue.
   */
  function TotalAssignments(users: seq<ClientUser>): (r: nat)
    ensures forall k :: 0 <= k < |users| ==> |users[k].assignedIssues| <= r
    ensures r == 0 <==> forall k :: 0 <= k < |users| ==> users[k].assignedIssues == []
  {
    if users == [] then 0
    else
      var init := users[..|users| - 1];
      assert forall k :: 0 <= k < |init| ==> init[k] == users[k];
      TotalAssignments(init) + |users[|users| - 1].assignedIssues|
  }

  /** Adding a user at the front adds their count: the sum does not depend on the direction of the fold. */
  lemma {:induction false} TotalAssignmentsCons(u: ClientUser, users: seq<ClientUser>)
    ensures TotalAssignments([u] + users) == |u.assignedIssues| + TotalAssignments(users)
    decreases |users|
  {
    if users != [] {
      var last := |users| - 1;
      assert ([u] + users)[..|users|] == [u] + users[..last];
      TotalAssignmentsCons(u, users[..last]);
    } else {
      assert ([u] + users)[..0] == [];
    }
  }

  /** Every active user holds at least one assignment, so there are at least as many assignments as active users. */
  lemma {:induction false} ActiveUsersAtMostAssignments(users: seq<ClientUser>)
    ensures ActiveUsers(users) <= TotalAssignments(users)
    decreases |users|
  {
    if users != [] {
      ActiveUsersAtMostAssignments(users[1..]);
      assert users == [users[0]] + users[1..];
      TotalAssignmentsCons(users[0], users[1..]);
    }
  }

  /** There are no assignments at all exactly when no user is active. */
  lemma {:induction false} NoAssignmentsIffNoActive(users: seq<ClientUser>)
    ensures TotalAssignments(users) == 0 <==> ActiveUsers(users) == 0
    decreases |users|
  {
    if users != [] {
      NoAssignmentsIffNoActive(users[1..]);
      assert users == [users[0]] + users[1..];
      TotalAssignmentsCons(users[0], users[1..]);
      assert forall u :: u in users <==> u == users[0] || u in users[1..];
    }
  }

  /**
   * The badge beside a user's name: none for a user without issues, otherwise
   * the count followed by "issue", pluralised unless the count is 1.
   */
  function IssueBadge(count: nat): (r: Option<string>)
    ensures r.None? <==> count == 0
    ensures r.Some? ==> r.value == (if count == 1 then "issue" else "issues")
  {
    if count > 0 then Some(if count != 1 then "issues" else "issue") else None
  }
}

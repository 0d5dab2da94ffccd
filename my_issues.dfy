/**
 * The "My Issues" page: the issues assigned to the signed-in user, searched
 * by title, filtered by status and shown most recently updated first, and
 * its status-only edit handler.
 */
module MyIssues {
  import opened Optional
  import opened Domain
  import opened Text
  import opened Seqs
  import opened Client
  import opened Sorting
  import IssuesList

  /**
   * The variables of the assignments query, or nothing when the query is
   * skipped: it only runs for a signed-in user with a non-empty id.
   */
  function AssignmentsQuery(user: Option<ClientUser>): (r: Option<Id>)
    ensures r.None? <==> user.None? || user.value.id == ""
    ensures r.Some? ==> r.value == user.value.id && r.value != ""
  {
    if user.Some? && user.value.id != "" then Some(user.value.id) else None
  }

  /** The search box of this page looks at titles only, ignoring case. */
  predicate TitleMatches(i: ClientIssue, query: string) {
    Includes(ToLower(i.title), ToLower(query))
  }

  /** An issue passes the title search and the status selector. */
  predicate Listed(i: ClientIssue, query: string, statusFilter: string) {
    TitleMatches(i, query) && IssuesList.MatchesStatus(i, statusFilter)
  }

  /** The sort key of the page's comparator: the time of the last update. */
  function UpdatedKey(i: ClientIssue): int {
    i.updatedAt
  }

  /** `filteredIssues`: no data lists nothing; otherwise the listed issues, newest first. */
  function MyFilteredIssues(data: Option<seq<ClientIssue>>, query: string, statusFilter: string)
    : (r: seq<ClientIssue>)
    ensures data.None? ==> r == []
    ensures forall i :: i in r <==> data.Some? && i in data.value && Listed(i, query, statusFilter)
    ensures Descending(r, UpdatedKey)
  {
    var issues := if data.Some? then data.value else [];
    var kept := Filter(issues, (i: ClientIssue) => Listed(i, query, statusFilter));
    var r := SortDescending(kept, UpdatedKey);
    assert forall i :: i in r <==> i in multiset(r);
    assert forall i :: i in kept <==> i in multiset(kept);
    r
  }

  /** The sort keeps every listed issue as often as the filter does: the list is a permutation of the filtered issues. */
  lemma MyFilteredIssuesPermutes(issues: seq<ClientIssue>, query: string, statusFilter: string)
    ensures multiset(MyFilteredIssues(Some(issues), query, statusFilter))
         == multiset(Filter(issues, (i: ClientIssue) => Listed(i, query, statusFilter)))
  {
  }

  /** Issues updated at the same moment are listed in the order the server returned them. */
  lemma MyFilteredIssuesKeepTies(issues: seq<ClientIssue>, query: string, statusFilter: string, t: Time)
    ensures WithKey(MyFilteredIssues(Some(issues), query, statusFilter), UpdatedKey, t)
         == WithKey(Filter(issues, (i: ClientIssue) => Listed(i, query, statusFilter)), UpdatedKey, t)
  {
    SortIsStable(Filter(issues, (i: ClientIssue) => Listed(i, query, statusFilter)), UpdatedKey, t);
  }

  /**
   * `handleEditIssue`: no mutation for OPEN, `updateIssueStatus` for any
   * other status; the success toast follows unless that mutation failed.
   */
  method HandleEditIssue(data: IssuePayload, out: Outbox, accepts: Request -> bool)
    modifies out
    ensures data.status == Open ==> out.sent == old(out.sent)
    ensures data.status != Open ==>
      out.sent == old(out.sent) + [UpdateIssueStatusRequest(ArgOf(data.id), Given(StatusName(data.status)))]
    ensures out.toasts == old(out.toasts) + [
      if data.status == Open || accepts(UpdateIssueStatusRequest(ArgOf(data.id), Given(StatusName(data.status))))
      then SuccessToast("Issue status updated successfully")
      else ErrorToast("Failed to update issue status. Please try again")]
  {
    if data.status != Open {
      var request := UpdateIssueStatusRequest(ArgOf(data.id), Given(StatusName(data.status)));
      out.Send(request);
      if !accepts(request) {
        out.Show(ErrorToast("Failed to update issue status. Please try again"));
        return;
      }
    }
    out.Show(SuccessToast("Issue status updated successfully"));
  }
}

/**
 * The issues page: the search, status and assignee filters over the issue
 * list, and the mutation its edit form sends.
 */
module IssuesList {
  import opened Optional
  import opened Domain
  import opened Text
  import opened Seqs
  import opened Client

  /** The search box: the query occurs, ignoring case, in the title or in the description. */
  predicate MatchesSearch(i: ClientIssue, query: string) {
    Includes(ToLower(i.title), ToLower(query)) || Includes(ToLower(i.description), ToLower(query))
  }

  /** The status selector: `"all"`, or the name of the one status to show. */
  predicate MatchesStatus(i: ClientIssue, statusFilter: string) {
    statusFilter == "all" || StatusName(i.status) == statusFilter
  }

  /** The assignee selector: `"all"`, `"unassigned"`, or the id of a user. */
  predicate MatchesAssignee(i: ClientIssue, assigneeFilter: string) {
    assigneeFilter == "all"
    || (assigneeFilter == "unassigned" && i.assignedTo.None?)
    || (i.assignedTo.Some? && i.assignedTo.value.id == assigneeFilter)
  }

  /** An issue is listed when it passes all three filters. */
  predicate Shown(i: ClientIssue, query: string, statusFilter: string, assigneeFilter: string) {
    MatchesSearch(i, query) && MatchesStatus(i, statusFilter) && MatchesAssignee(i, assigneeFilter)
  }

  /** `filteredIssues`: the issues passing every filter, in the order the server returned them. */
  function FilteredIssues(issues: seq<ClientIssue>, query: string, statusFilter: string, assigneeFilter: string)
    : (r: seq<ClientIssue>)
    ensures forall i :: i in r <==> i in issues && Shown(i, query, statusFilter, assigneeFilter)
    ensures IsSubseq(r, issues) && |r| <= |issues|
  {
    Filter(issues, (i: ClientIssue) => Shown(i, query, statusFilter, assigneeFilter))
  }

  /** The search ignores case, in the query as in the issue. */
  lemma SearchIgnoresCase(i: ClientIssue, query: string)
    ensures MatchesSearch(i, query) <==> MatchesSearch(i, ToLower(query))
    ensures MatchesSearch(i, query) <==>
      (exists k :: OccursAt(ToLower(i.title), ToLower(query), k))
      || (exists k :: OccursAt(ToLower(i.description), ToLower(query), k))
  {
    ToLowerIdempotent(query);
  }

  /** What each kind of assignee selection lets through. */
  lemma AssigneeFilterMeaning(i: ClientIssue, assigneeFilter: string)
    ensures assigneeFilter == "all" ==> MatchesAssignee(i, assigneeFilter)
    ensures assigneeFilter == "unassigned" ==>
      (MatchesAssignee(i, assigneeFilter) <==> i.assignedTo.None? || i.assignedTo.value.id == "unassigned")
    ensures assigneeFilter != "all" && assigneeFilter != "unassigned" ==>
      (MatchesAssignee(i, assigneeFilter) <==> exists u :: i.assignedTo == Some(u) && u.id == assigneeFilter)
  {
    if i.assignedTo.Some? {
      var u := i.assignedTo.value;
      assert i.assignedTo == Some(u);
    }
  }

  /** With an empty search and both selectors on "all", every issue is listed, in order. */
  lemma NoFilterShowsAll(issues: seq<ClientIssue>)
    ensures FilteredIssues(issues, "", "all", "all") == issues
  {
    forall i | i in issues ensures Shown(i, "", "all", "all") {
      IncludesEmpty(ToLower(i.title));
    }
    FilterKeepsAll(issues, (i: ClientIssue) => Shown(i, "", "all", "all"));
  }

  /** The filters are conjoined: applying them one after another lists the same issues in the same order. */
  lemma FiltersCompose(issues: seq<ClientIssue>, query: string, statusFilter: string, assigneeFilter: string)
    ensures FilteredIssues(issues, query, statusFilter, assigneeFilter)
         == Filter(Filter(Filter(issues, (i: ClientIssue) => MatchesSearch(i, query)),
                          (i: ClientIssue) => MatchesStatus(i, statusFilter)),
                   (i: ClientIssue) => MatchesAssignee(i, assigneeFilter))
  {
    var p := (i: ClientIssue) => MatchesSearch(i, query);
    var q := (i: ClientIssue) => MatchesStatus(i, statusFilter);
    var r := (i: ClientIssue) => MatchesAssignee(i, assigneeFilter);
    FilterThree(issues, p, q, r, (i: ClientIssue) => Shown(i, query, statusFilter, assigneeFilter));
  }

  /** The id of the payload's assignee, if it has one (`issueData.assignedTo?.id`). */
  function AssigneeId(data: IssuePayload): (r: Option<Id>)
    ensures r.Some? <==> data.assignedTo.Some?
    ensures r.Some? ==> r.value == data.assignedTo.value.id
  {
    if data.assignedTo.Some? then Some(data.assignedTo.value.id) else None
  }

  /**
   * The one mutation `handleEditIssue` sends: `assignIssue` for an issue saved
   * as OPEN, `updateIssueStatus` with the chosen status otherwise.
   */
  function EditRequest(data: IssuePayload): (r: Request)
    ensures r.AssignIssueRequest? <==> data.status == Open
    ensures r.UpdateIssueStatusRequest? <==> data.status != Open
    ensures r.AssignIssueRequest? ==> r.id == ArgOf(data.id) && r.userId == ArgOf(AssigneeId(data))
    ensures r.UpdateIssueStatusRequest? ==> r.id == ArgOf(data.id) && r.status.Given? && ParseStatus(r.status.text) == Some(data.status)
  {
    if data.status == Open then AssignIssueRequest(ArgOf(data.id), ArgOf(AssigneeId(data)))
    else
      ParseStatusName(data.status);
      UpdateIssueStatusRequest(ArgOf(data.id), Given(StatusName(data.status)))
  }

  /** The toast after the edit mutation settles. */
  function EditToast(data: IssuePayload, accepted: bool): (t: Toast)
    ensures t.ErrorToast? <==> !accepted
  {
    if !accepted then ErrorToast("Failed to update issue. Please try again")
    else if data.status == Open then SuccessToast("Issue assigned successfully")
    else SuccessToast("Issue status updated successfully!")
  }

  /**
   * The `createIssue` mutation built from the form's payload: of the spread
   * payload, only the title and the description are variables of the mutation.
   */
  function CreateRequest(data: IssuePayload): (r: Request)
    ensures r.CreateIssueRequest? && r.title == Given(data.title) && r.description == Given(data.description)
  {
    CreateIssueRequest(Given(data.title), Given(data.description))
  }

  /** The toast after the create mutation settles. */
  function CreateToast(accepted: bool): (t: Toast)
    ensures t.ErrorToast? <==> !accepted
    ensures accepted ==> t.message == "Issue created successfully!"
    ensures !accepted ==> t.message == "Failed to create issue.Please try again."
  {
    if accepted then SuccessToast("Issue created successfully!")
    else ErrorToast("Failed to create issue.Please try again.")
  }

  /** The page's filter state and its create and edit handlers. */
  class IssuesListPage {
    var searchQuery: string
    var statusFilter: string
    var assigneeFilter: string

    /** The page opens with an empty search and both selectors on "all". */
    constructor ()
      ensures searchQuery == "" && statusFilter == "all" && assigneeFilter == "all"
    {
      searchQuery := "";
      statusFilter := "all";
      assigneeFilter := "all";
    }

    /** The issues the page lists. */
    function Visible(issues: seq<ClientIssue>): (r: seq<ClientIssue>)
      reads this
      ensures IsSubseq(r, issues)
      ensures forall i :: i in r <==> i in issues && Shown(i, searchQuery, statusFilter, assigneeFilter)
    {
      FilteredIssues(issues, searchQuery, statusFilter, assigneeFilter)
    }

    /** Typing in the search box or choosing in a selector. */
    method SetFilters(query: string, status: string, assignee: string)
      modifies this
      ensures searchQuery == query && statusFilter == status && assigneeFilter == assignee
    {
      searchQuery, statusFilter, assigneeFilter := query, status, assignee;
    }

    /** `handleCreateIssue`: one `createIssue` mutation, then one toast saying how it went. */
    method HandleCreateIssue(data: IssuePayload, out: Outbox, accepts: Request -> bool)
      modifies out
      ensures out.sent == old(out.sent) + [CreateRequest(data)]
      ensures out.toasts == old(out.toasts) + [CreateToast(accepts(CreateRequest(data)))]
    {
      var request := CreateIssueRequest(Given(data.title), Given(data.description));
      out.Send(request);
      if accepts(request) {
        out.Show(SuccessToast("Issue created successfully!"));
      } else {
        out.Show(ErrorToast("Failed to create issue.Please try again."));
      }
    }

    /**
     * `handleEditIssue`: exactly one mutation is sent, and one toast says how
     * it went. The page's own state does not change.
     */
    method HandleEditIssue(data: IssuePayload, out: Outbox, accepts: Request -> bool)
      modifies out
      ensures out.sent == old(out.sent) + [EditRequest(data)]
      ensures out.toasts == old(out.toasts) + [EditToast(data, accepts(EditRequest(data)))]
    {
      var request: Request;
      if data.status == Open {
        request := AssignIssueRequest(ArgOf(data.id), ArgOf(AssigneeId(data)));
      } else {
        request := UpdateIssueStatusRequest(ArgOf(data.id), Given(StatusName(data.status)));
      }
      out.Send(request);
      if !accepts(request) {
        out.Show(ErrorToast("Failed to update issue. Please try again"));
      } else if data.status == Open {
        out.Show(SuccessToast("Issue assigned successfully"));
      } else {
        out.Show(SuccessToast("Issue status updated successfully!"));
      }
    }
  }
}

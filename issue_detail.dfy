/**
 * The page of one issue: its own badge colours, the lookup of the assignee,
 * the local form state, and the comment and edit handlers.
 */
module IssueDetail {
  import opened Optional
  import opened Domain
  import opened Text
  import opened Seqs
  import opened Client
  import Models
  import Utils

  /** The page's own `getStatusBadgeColor`, which has no case for ASSIGNED. */
  function LocalBadgeColor(status: string): (r: string)
    ensures r == "" <==> ParseStatus(status).None? || status == "ASSIGNED"
  {
    if status == "OPEN" then "text-red-700 bg-red-100 border-red-200"
    else if status == "IN_PROGRESS" then "text-blue-700 bg-blue-100 border-blue-200"
    else if status == "RESOLVED" then "text-green-700 bg-green-100 border-green-200"
    else if status == "CLOSED" then "text-gray-700 bg-gray-100 border-gray-200"
    else ""
  }

  /** The page's colours agree with the shared ones except on ASSIGNED, which gets no colour here. */
  lemma LocalBadgeColorDiffersOnAssigned(status: string)
    ensures status != "ASSIGNED" ==> LocalBadgeColor(status) == Utils.BadgeColor(status)
    ensures LocalBadgeColor("ASSIGNED") == "" != Utils.BadgeColor("ASSIGNED")
  {
    assert ParseStatus("ASSIGNED") == Some(Assigned);
  }

  /** `assignedUser`: the listed user whose id is the issue's assignee id; none for an unassigned issue. */
  function AssignedUser(users: seq<ClientUser>, issue: ClientIssue): (r: Option<ClientUser>)
    ensures issue.assignedTo.None? ==> r.None?
    ensures issue.assignedTo.Some? ==>
      (r.None? <==> forall u :: u in users ==> u.id != issue.assignedTo.value.id)
    ensures r.Some? ==> r.value in users && issue.assignedTo.Some? && r.value.id == issue.assignedTo.value.id
  {
    Find(users, (u: ClientUser) => issue.assignedTo.Some? && u.id == issue.assignedTo.value.id)
  }

  /** The assignee selection the page starts from: the assignee's id, or "unassigned" when there is none. */
  function InitialAssignee(issue: ClientIssue): (r: string)
    ensures r != ""
    ensures issue.assignedTo.None? ==> r == "unassigned"
    ensures issue.assignedTo.Some? && issue.assignedTo.value.id != "" ==> r == issue.assignedTo.value.id
  {
    if issue.assignedTo.Some? && issue.assignedTo.value.id != "" then issue.assignedTo.value.id
    else "unassigned"
  }

  /** The author every comment written on this page is attributed to: a fixed user id. */
  const DefaultAuthor: Id := "u2b3c4d5-e6f7-8901-1121-314151617181"

  /** The comment the page builds from the input, the issue, the new id and the time. */
  function NewComment(content: string, issueId: Id, newId: Id, now: Time): (c: ClientComment)
    ensures c.content == content && c.issueId == issueId && c.author == DefaultAuthor
    ensures c.id == newId && c.createdAt == now
  {
    ClientComment(newId, content, DefaultAuthor, issueId, now)
  }

  /** An assignee selection that names a user: neither empty nor "unassigned". */
  predicate NamesUser(assignedToId: string) {
    assignedToId != "" && assignedToId != "unassigned"
  }

  /** The state of the issue page. */
  class IssueDetailPage {
    var status: Status
    var assignedToId: string
    var newComment: string
    var comments: seq<ClientComment>

    /** Before the issue arrives: OPEN, no assignee selection, an empty input and no local comments. */
    constructor ()
      ensures status == Open && assignedToId == "" && newComment == "" && comments == []
    {
      status := Open;
      assignedToId := "";
      newComment := "";
      comments := [];
    }

    /** When the issue arrives, the form copies its status and its assignee. */
    method Load(issue: ClientIssue)
      modifies this`status, this`assignedToId
      ensures status == issue.status && assignedToId == InitialAssignee(issue)
    {
      status := issue.status;
      if issue.assignedTo.Some? && issue.assignedTo.value.id != "" {
        assignedToId := issue.assignedTo.value.id;
      } else {
        assignedToId := "unassigned";
      }
    }

    /**
     * `handleAddComment`: a blank input does nothing. Otherwise the comment is
     * sent; once the server accepts it, it is appended to the local list and
     * the input is cleared. A rejected mutation leaves the page as it was.
     */
    method HandleAddComment(issueId: Id, newId: Id, now: Time, out: Outbox, accepts: Request -> bool)
      modifies this`comments, this`newComment, out`sent
      ensures var request := AddCommentRequest(NewComment(old(newComment), issueId, newId, now));
              if Trim(old(newComment)) == "" then
                out.sent == old(out.sent) && comments == old(comments) && newComment == old(newComment)
              else
                out.sent == old(out.sent) + [request]
                && (accepts(request) ==> comments == old(comments) + [request.comment] && newComment == "")
                && (!accepts(request) ==> comments == old(comments) && newComment == old(newComment))
    {
      if Trim(newComment) == "" {
        return;
      }
      var comment := NewComment(newComment, issueId, newId, now);
      var request := AddCommentRequest(comment);
      out.Send(request);
      if !accepts(request) {
        return;
      }
      comments := comments + [comment];
      newComment := "";
    }

    /**
     * `handleEditIssue`: `assignIssue` first when the selection names a user,
     * then `updateIssueStatus` with the selected status. A rejected
     * `assignIssue` stops the handler before the status is sent.
     */
    method HandleEditIssue(issueId: Id, out: Outbox, accepts: Request -> bool)
      modifies out`sent
      ensures var assign := AssignIssueRequest(Given(issueId), Given(assignedToId));
              var update := UpdateIssueStatusRequest(Given(issueId), Given(StatusName(status)));
              out.sent == old(out.sent) + (
                if !NamesUser(assignedToId) then [update]
                else if accepts(assign) then [assign, update]
                else [assign])
    {
      if assignedToId != "" && assignedToId != "unassigned" {
        var assign := AssignIssueRequest(Given(issueId), Given(assignedToId));
        out.Send(assign);
        if !accepts(assign) {
          return;
        }
      }
      out.Send(UpdateIssueStatusRequest(Given(issueId), Given(StatusName(status))));
    }
  }

  /**
   * The status update is the last write: on the server, assigning and then
   * setting the chosen status leaves the chosen status, not ASSIGNED, with
   * the new assignee kept.
   */
  lemma StatusUpdateWinsOverAssign(i: Models.Issue, userId: Id, s: Status, t1: Time, t2: Time)
    ensures Models.WithStatus(Models.AssignTo(i, userId, t1), s, t2).status == s
    ensures Models.WithStatus(Models.AssignTo(i, userId, t1), s, t2).assignedTo == Some(userId)
  {
  }
}

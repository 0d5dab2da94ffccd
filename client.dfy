/**
 * What the web client sees of the tracker: the records its GraphQL queries
 * return, the partial issue its forms hand to their parents, and the outside
 * world its handlers act on (mutations sent to the server, toasts shown).
 */
module Client {
  import opened Optional
  import opened Domain

  /** A user as queried; `assignedIssues` is reduced to the ids of the issues. */
  datatype ClientUser = ClientUser(id: Id, name: string, email: string, assignedIssues: seq<Id>)

  /** An issue as queried, with its assignee resolved (or null). */
  datatype ClientIssue = ClientIssue(
    id: Id, title: string, description: string, status: Status,
    assignedTo: Option<ClientUser>, createdAt: Time, updatedAt: Time)

  /** A comment as the issue page builds it. */
  datatype ClientComment = ClientComment(id: Id, content: string, author: Id, issueId: Id, createdAt: Time)

  /**
   * The `Partial<Issue>` a form hands to its parent's save handler: `id` only
   * when an existing issue is edited, `assignedTo` only when a user was chosen.
   */
  datatype IssuePayload = IssuePayload(
    id: Option<Id>, title: string, description: string, status: Status,
    assignedTo: Option<ClientUser>)

  /** An optional string as the GraphQL variable it becomes: `undefined` when absent. */
  function ArgOf(x: Option<string>): (a: Arg)
    ensures x.None? <==> a.Omitted?
    ensures x.Some? ==> a == Given(x.value)
  {
    if x.Some? then Given(x.value) else Omitted
  }

  /** A mutation the client sends, with the variables it sets. */
  datatype Request =
    | AssignIssueRequest(id: Arg, userId: Arg)
    | UpdateIssueStatusRequest(id: Arg, status: Arg)
    | AddCommentRequest(comment: ClientComment)
    | CreateIssueRequest(title: Arg, description: Arg)

  /** A `sonner` toast. */
  datatype Toast = SuccessToast(message: string) | ErrorToast(message: string)

  /**
   * The effects of the client's handlers, in the order they happen: the
   * mutations sent and the toasts shown. Whether the server accepts a
   * mutation is not decided here; each handler is told by an `accepts`
   * parameter.
   */
  class Outbox {
    var sent: seq<Request>
    var toasts: seq<Toast>

    constructor ()
      ensures sent == [] && toasts == []
    {
      sent := [];
      toasts := [];
    }

    /** Send one mutation. */
    method Send(r: Request)
      modifies this`sent
      ensures sent == old(sent) + [r]
    {
      sent := sent + [r];
    }

    /** Show one toast. */
    method Show(t: Toast)
      modifies this`toasts
      ensures toasts == old(toasts) + [t]
    {
      toasts := toasts + [t];
    }
  }
}

/**
 * The dialog that creates or edits an issue: its form state, the reset when
 * it opens, the save guard and the payload it hands to its parent.
 */
module IssueModal {
  import opened Optional
  import opened Domain
  import opened Text
  import opened Seqs
  import opened Client

  /** The assignee selection for an issue being edited: its assignee's id, or "unassigned". */
  function EditAssignee(issue: ClientIssue): (r: string)
    ensures issue.assignedTo.None? ==> r == "unassigned"
    ensures issue.assignedTo.Some? ==> r == issue.assignedTo.value.id
  {
    if issue.assignedTo.Some? then issue.assignedTo.value.id else "unassigned"
  }

  /** `users.find` on the selected id: the first listed user with that id. */
  function SelectedUser(users: seq<ClientUser>, assigneeId: string): (r: Option<ClientUser>)
    ensures r.None? <==> forall u :: u in users ==> u.id != assigneeId
    ensures r.Some? ==> r.value in users && r.value.id == assigneeId
  {
    Find(users, (u: ClientUser) => u.id == assigneeId)
  }

  /**
   * The payload `handleSave` builds: trimmed title and description, the
   * status, the selected user (none for "unassigned" or an id no listed
   * user has), and the id only when an issue is being edited.
   */
  function BuildPayload(title: string, description: string, status: Status, assigneeId: string,
                        users: seq<ClientUser>, issue: Option<ClientIssue>): (r: IssuePayload)
    ensures r.title == Trim(title) && r.description == Trim(description) && r.status == status
    ensures r.assignedTo.Some? ==>
      assigneeId != "unassigned" && r.assignedTo.value in users && r.assignedTo.value.id == assigneeId
    ensures r.assignedTo.None? <==> assigneeId == "unassigned" || forall u :: u in users ==> u.id != assigneeId
    ensures r.id.Some? <==> issue.Some?
    ensures r.id.Some? ==> r.id.value == issue.value.id
  {
    IssuePayload(
      if issue.Some? then Some(issue.value.id) else None,
      Trim(title), Trim(description), status,
      if assigneeId == "unassigned" then None else SelectedUser(users, assigneeId))
  }

  /**
   * The form of the dialog. `saved` lists the payloads handed to the parent's
   * `onSave`, in order; `open` is what the dialog last asked of `onOpenChange`.
   */
  class IssueForm {
    var title: string
    var description: string
    var status: Status
    var assigneeId: string
    var isLoading: bool
    var open: bool
    var saved: seq<IssuePayload>

    /** The initial state: an empty form, OPEN, no assignee selection, not saving. */
    constructor (open: bool)
      ensures title == "" && description == "" && status == Open && assigneeId == ""
      ensures !isLoading && this.open == open && saved == []
    {
      title, description, status, assigneeId := "", "", Open, "";
      isLoading := false;
      this.open := open;
      saved := [];
    }

    /**
     * The reset effect. When the dialog is open it copies the issue being
     * edited, or clears the form for a new one; when closed it does nothing.
     */
    method Reset(isOpen: bool, issue: Option<ClientIssue>)
      modifies this`title, this`description, this`status, this`assigneeId
      ensures !isOpen ==> title == old(title) && description == old(description)
                          && status == old(status) && assigneeId == old(assigneeId)
      ensures isOpen && issue.Some? ==>
        title == issue.value.title && description == issue.value.description
        && status == issue.value.status && assigneeId == EditAssignee(issue.value)
      ensures isOpen && issue.None? ==>
        title == "" && description == "" && status == Open && assigneeId == "unassigned"
    {
      if isOpen {
        if issue.Some? {
          title := issue.value.title;
          description := issue.value.description;
          status := issue.value.status;
          assigneeId := if issue.value.assignedTo.Some? then issue.value.assignedTo.value.id else "unassigned";
        } else {
          title := "";
          description := "";
          status := Open;
          assigneeId := "unassigned";
        }
      }
    }

    /** The save guard: both the title and the description have something besides whitespace. */
    predicate CanSave()
      reads this`title, this`description
    {
      Trim(title) != "" && Trim(description) != ""
    }

    /** The Save button is disabled while saving and whenever the guard would reject. */
    predicate SaveDisabled()
      reads this`title, this`description, this`isLoading
    {
      !CanSave() || isLoading
    }

    /** The Save button is enabled exactly when the form is filled in and no save is running. */
    lemma SaveEnabledIff()
      ensures !SaveDisabled() <==> !isLoading && !AllWhitespace(title) && !AllWhitespace(description)
    {
      TrimEmptyIffBlank(title);
      TrimEmptyIffBlank(description);
    }

    /** What a guarded save hands over is already trimmed and not blank. */
    lemma PayloadTrimmed(users: seq<ClientUser>, issue: Option<ClientIssue>)
      requires CanSave()
      ensures var p := BuildPayload(title, description, status, assigneeId, users, issue);
              p.title != "" && Trim(p.title) == p.title && p.description != "" && Trim(p.description) == p.description
    {
      TrimIdempotent(title);
      TrimIdempotent(description);
    }

    /** Hand `data` to `onSave` and ask to close; the loading flag is raised for the duration. */
    method Submit(data: IssuePayload)
      modifies this`isLoading, this`open, this`saved
      ensures saved == old(saved) + [data] && !open && !isLoading
    {
      isLoading := true;
      saved := saved + [data];
      open := false;
      isLoading := false;
    }

    /**
     * `handleSave`: a rejected form changes nothing. Otherwise the payload
     * goes to `onSave`, the dialog asks to close, and the loading flag,
     * raised for the duration, is down again.
     */
    method HandleSave(users: seq<ClientUser>, issue: Option<ClientIssue>)
      modifies this`isLoading, this`open, this`saved
      ensures !old(CanSave()) ==> isLoading == old(isLoading) && open == old(open) && saved == old(saved)
      ensures old(CanSave()) ==>
        saved == old(saved) + [BuildPayload(title, description, status, assigneeId, users, issue)] && !open && !isLoading
    {
      if CanSave() {
        Submit(BuildPayload(title, description, status, assigneeId, users, issue));
      }
    }
  }
}

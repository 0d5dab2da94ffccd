/**
 * The client's status tables: the options of the status selectors and the
 * badge colour of each status.
 */
module Utils {
  import opened Optional
  import opened Domain
  import opened Seqs

  /** An entry of a status selector: its value and the caption shown (`label` in the client). */
  datatype StatusOption = StatusOption(value: Status, caption: string)

  /** An entry of a status filter, whose value may also be `"all"`. */
  datatype FilterOption = FilterOption(value: string, caption: string)

  /** `STATUS_OPTIONS`, in the order the selectors show them. */
  const StatusOptions: seq<StatusOption> := [
    StatusOption(Open, "Open"),
    StatusOption(InProgress, "In Progress"),
    StatusOption(Resolved, "Resolved"),
    StatusOption(Closed, "Closed"),
    StatusOption(Assigned, "Assigned")
  ]

  /** The values of a list of status options. */
  function OptionValues(options: seq<StatusOption>): (r: seq<Status>)
    ensures |r| == |options|
    ensures forall k :: 0 <= k < |options| ==> r[k] == options[k].value
  {
    seq(|options|, k requires 0 <= k < |options| => options[k].value)
  }

  /** `STATUS_OPTIONS` offers every status, and each exactly once. */
  lemma StatusOptionsEachOnce()
    ensures |StatusOptions| == 5
    ensures forall s :: s in OptionValues(StatusOptions)
    ensures NoDuplicates(OptionValues(StatusOptions))
  {
    var v := OptionValues(StatusOptions);
    assert v == [Open, InProgress, Resolved, Closed, Assigned];
    forall s ensures s in v {
      match s
      case Open => assert v[0] == s;
      case InProgress => assert v[1] == s;
      case Resolved => assert v[2] == s;
      case Closed => assert v[3] == s;
      case Assigned => assert v[4] == s;
    }
  }

  /** A status option as a filter option, its value written by name. */
  function AsFilterOption(o: StatusOption): (f: FilterOption)
    ensures f.caption == o.caption && ParseStatus(f.value) == Some(o.value)
  {
    ParseStatusName(o.value);
    FilterOption(StatusName(o.value), o.caption)
  }

  /** `STATUS_OPTIONS_WITH_ALL`: "All Status" followed by the status options. */
  function StatusOptionsWithAll(): (r: seq<FilterOption>)
    ensures |r| == |StatusOptions| + 1
    ensures r[0] == FilterOption("all", "All Status")
    ensures forall k :: 0 <= k < |StatusOptions| ==> r[k + 1] == AsFilterOption(StatusOptions[k])
  {
    [FilterOption("all", "All Status")]
      + seq(|StatusOptions|, k requires 0 <= k < |StatusOptions| => AsFilterOption(StatusOptions[k]))
  }

  /** No status is named "all", so the first filter entry never hides a status. */
  lemma AllIsNoStatus()
    ensures ParseStatus("all") == None
    ensures forall k :: 1 <= k < |StatusOptionsWithAll()| ==> StatusOptionsWithAll()[k].value != "all"
  {
    var r := StatusOptionsWithAll();
    forall k | 1 <= k < |r| ensures r[k].value != "all" {
      assert ParseStatus(r[k].value).Some?;
    }
  }

  /** `getStatusBadgeColor`: the Tailwind classes of a status badge. */
  function BadgeColor(status: string): (r: string)
    ensures ParseStatus(status).None? <==> r == ""
  {
    if status == "OPEN" then "text-red-700 bg-red-100 border-red-200"
    else if status == "IN_PROGRESS" then "text-blue-700 bg-blue-100 border-blue-200"
    else if status == "RESOLVED" then "text-green-700 bg-green-100 border-green-200"
    else if status == "CLOSED" then "text-gray-700 bg-gray-100 border-gray-200"
    else if status == "ASSIGNED" then "text-amber-700 bg-amber-100 border-amber-200"
    else ""
  }

  /** Different statuses get different, non-empty badge colours. */
  lemma BadgeColorsDistinct(s: Status, t: Status)
    ensures BadgeColor(StatusName(s)) != ""
    ensures s != t ==> BadgeColor(StatusName(s)) != BadgeColor(StatusName(t))
  {
    ParseStatusName(s);
  }
}

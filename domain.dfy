/**
 * Vocabulary shared by every part of the issue tracker: identifiers, time,
 * the issue status enumeration, GraphQL arguments and the error taxonomy.
 */
module Domain {
  import opened Optional

  /** Document identifiers (MongoDB ObjectIds and fixture UUIDs) as opaque strings. */
  type Id = string

  /** A point in time; the source writes ISO-8601 strings, which order like these integers. */
  type Time = int

  /** The `IssueStatus` enumeration. */
  datatype Status = Open | Assigned | InProgress | Resolved | Closed

  /** The wire name of a status. */
  function StatusName(s: Status): string {
    match s
    case Open => "OPEN"
    case Assigned => "ASSIGNED"
    case InProgress => "IN_PROGRESS"
    case Resolved => "RESOLVED"
    case Closed => "CLOSED"
  }

  /** The status whose wire name is `name`, if any (the enum validator of the issue schema). */
  function ParseStatus(name: string): (r: Option<Status>)
    ensures r.Some? ==> StatusName(r.value) == name
    ensures r.None? ==> forall s :: StatusName(s) != name
  {
    if name == "OPEN" then Some(Open)
    else if name == "ASSIGNED" then Some(Assigned)
    else if name == "IN_PROGRESS" then Some(InProgress)
    else if name == "RESOLVED" then Some(Resolved)
    else if name == "CLOSED" then Some(Closed)
    else None
  }

  /** Parsing inverts naming: distinct statuses have distinct names. */
  lemma ParseStatusName(s: Status)
    ensures ParseStatus(StatusName(s)) == Some(s)
  {
  }

  /**
   * One GraphQL argument as a resolver sees it: left out of the request
   * (`undefined`), given as `null`, or given as a string.
   */
  datatype Arg = Omitted | Null | Given(text: string)

  /** JavaScript truthiness of an argument: present, not null and not the empty string. */
  predicate Truthy(a: Arg) {
    a.Given? && a.text != ""
  }

  /**
   * The `extensions.code` of a `GraphQLError`. `Uncoded` is an error the resolver
   * raises without a code, or an exception it does not catch; the GraphQL server
   * reports those as INTERNAL_SERVER_ERROR.
   */
  datatype ErrorCode = BadUserInput | NotFound | Unauthenticated | InternalServerError | Uncoded

  datatype Error = Error(code: ErrorCode, message: string)

  /** What a resolver returns: its value, or the error it throws. */
  datatype Result<+T> = Ok(value: T) | Err(error: Error)
}

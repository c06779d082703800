/** Shared vocabulary of the package-tracking backend: optional values, the
    package status enum, and the JavaScript truthiness tests that the route
    handlers apply to request fields (`if (!tenant_id)`, `status || null`). */
module Prelude {

  datatype Option<+T> = None | Some(value: T)

  /** Lifecycle status of a package; the only values any handler writes. */
  datatype Status = Arrived | PickedUp | Returned

  /** The text stored in `current_status` and `package_status_log.status`. */
  function StatusName(s: Status): string
  {
    match s
    case Arrived => "ARRIVED"
    case PickedUp => "PICKED_UP"
    case Returned => "RETURNED"
  }

  /** `["ARRIVED", "PICKED_UP", "RETURNED"].includes(s)`, returning the status it names. */
  function ParseStatus(s: string): (r: Option<Status>)
    ensures r.Some? <==> s in {"ARRIVED", "PICKED_UP", "RETURNED"}
    ensures r.Some? ==> StatusName(r.value) == s
  {
    if s == "ARRIVED" then Some(Arrived)
    else if s == "PICKED_UP" then Some(PickedUp)
    else if s == "RETURNED" then Some(Returned)
    else None
  }

  /** A string request field JavaScript treats as true: present and not "". */
  predicate Truthy(o: Option<string>)
  {
    o.Some? && o.value != ""
  }

  /** A numeric id field JavaScript treats as true: present and not 0. */
  predicate TruthyId(o: Option<int>)
  {
    o.Some? && o.value != 0
  }

  /** `x || null` on a string field. */
  function OrNull(o: Option<string>): (r: Option<string>)
    ensures r.Some? <==> Truthy(o)
    ensures r.Some? ==> r == o
  {
    if Truthy(o) then o else None
  }

  /** `x || ""` on a string field. */
  function OrEmpty(o: Option<string>): (r: string)
    ensures Truthy(o) ==> r == o.value
    ensures !Truthy(o) ==> r == ""
  {
    if Truthy(o) then o.value else ""
  }

  /** The status a request names, when it names one of the three (`status && allowed.includes(status)`). */
  function Requested(status: Option<string>): (r: Option<Status>)
    ensures r.Some? <==> Truthy(status) && ParseStatus(status.value).Some?
    ensures r.Some? ==> StatusName(r.value) == status.value
  {
    if Truthy(status) then ParseStatus(status.value) else None
  }

  /** Some member of a non-empty set; it lets a `:|` choice name its witness. */
  ghost function Witness<T>(s: set<T>): (x: T)
    requires |s| > 0
    ensures x in s
  {
    var x :| x in s; x
  }

  /** What a handler sends back: the HTTP status code and the `message` field. */
  datatype Reply = Reply(code: int, message: string)
}

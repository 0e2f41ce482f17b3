/**
 * The record types of BandTrack Lite (src/lib/definitions.ts), and the two
 * string enumerations whose text values the forms produce.
 */
module Definitions {
  import opened Wrappers
  import opened JsBuiltins

  /** `DnrCapacity`: the four values of `dnrCapacities`, "both" included. */
  datatype DnrCapacity = Dnr300 | Dnr600 | Both | NoDnr

  /** The text value of each capacity, as listed in `dnrCapacities`. */
  function CapacityName(c: DnrCapacity): (name: string)
  {
    match c
    case Dnr300 => "300dnr"
    case Dnr600 => "600dnr"
    case Both => "both"
    case NoDnr => "none"
  }

  /** `z.enum(dnrCapacities)`: accepts exactly the four listed text values. */
  function ParseDnrCapacity(s: string): (r: Option<DnrCapacity>)
    ensures r.Some? ==> CapacityName(r.value) == s
    ensures r.None? <==> forall c :: CapacityName(c) != s
  {
    if s == "300dnr" then Some(Dnr300)
    else if s == "600dnr" then Some(Dnr600)
    else if s == "both" then Some(Both)
    else if s == "none" then Some(NoDnr)
    else None
  }

  lemma ParseCapacityName(c: DnrCapacity)
    ensures ParseDnrCapacity(CapacityName(c)) == Some(c)
  {
  }

  /** `qualityStatuses`: the three outcomes of a quality check on returned goods. */
  datatype QualityStatus = Good | Damaged | NeedsRework

  function QualityStatusName(q: QualityStatus): (name: string)
  {
    match q
    case Good => "Good"
    case Damaged => "Damaged"
    case NeedsRework => "Needs Rework"
  }

  /** `z.enum(qualityStatuses)`: accepts exactly the three listed text values. */
  function ParseQualityStatus(s: string): (r: Option<QualityStatus>)
    ensures r.Some? ==> QualityStatusName(r.value) == s
    ensures r.None? <==> forall q :: QualityStatusName(q) != s
  {
    if s == "Good" then Some(Good)
    else if s == "Damaged" then Some(Damaged)
    else if s == "Needs Rework" then Some(NeedsRework)
    else None
  }

  lemma ParseQualityStatusName(q: QualityStatus)
    ensures ParseQualityStatus(QualityStatusName(q)) == Some(q)
  {
  }

  /** `InHouseEmployee` (= `BaseEmployee`). */
  datatype InHouseEmployee = InHouseEmployee(id: string, name: string, workType: string, contact: string)

  /** `Subcontractor`: a `BaseEmployee` with a `dnrCapacity`. */
  datatype Subcontractor = Subcontractor(id: string, name: string, workType: string, contact: string, dnrCapacity: DnrCapacity)

  /**
   * What the add dialog hands to `onSave`: an `InHouseEmployee` or a
   * `Subcontractor` without its `id`. The two are told apart only by whether
   * the `dnrCapacity` field is present.
   */
  datatype NewPerson = NewPerson(name: string, workType: string, contact: string, dnrCapacity: Option<DnrCapacity>)

  /** The instant an ISO date string denotes, in milliseconds since the epoch. */
  datatype IsoDate = IsoDate(epochMs: int)

  /** `MaterialDispatch`; `subcontractorName` is optional. */
  datatype MaterialDispatch = MaterialDispatch(
    id: string,
    subcontractorId: string,
    subcontractorName: Option<string>,
    materialType: string,
    quantity: real,
    dispatchDate: IsoDate)

  /** `MaterialReturn`; `subcontractorName` is optional. */
  datatype MaterialReturn = MaterialReturn(
    id: string,
    subcontractorId: string,
    subcontractorName: Option<string>,
    quantity: real,
    qualityStatus: QualityStatus,
    returnDate: IsoDate)

  /** The ids of a dispatch ledger, in ledger order. */
  function DispatchIds(ds: seq<MaterialDispatch>): (ids: seq<string>)
  {
    Map(ds, (d: MaterialDispatch) => d.id)
  }

  /** The ids of a return ledger, in ledger order. */
  function ReturnIds(rs: seq<MaterialReturn>): (ids: seq<string>)
  {
    Map(rs, (r: MaterialReturn) => r.id)
  }

  /** A permission name, such as "fullAccess" or "manageDispatch". */
  type Permission = string

  /**
   * The application user. `permissions` may be absent: the user that the
   * authentication context builds carries only `id`, `username` and `role`.
   */
  datatype User = User(id: string, username: string, role: string, permissions: Option<seq<Permission>>)
}

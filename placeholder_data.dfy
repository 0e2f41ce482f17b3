/**
 * The seed state (src/lib/placeholder-data.ts) and the conventions its
 * comments state: a subcontractor id's prefix names its capacity ("3-" for
 * 300dnr, "6-" for 600dnr, "S-" for none), and a "both" subcontractor is kept
 * as two records.
 */
module PlaceholderData {
  import opened Wrappers
  import opened JsBuiltins
  import opened Definitions
  import opened Ledger

  const PlaceholderInHouseEmployees: seq<InHouseEmployee> := [
    InHouseEmployee("emp-2", "Bob The Builder", "Cutting", "555-0101"),
    InHouseEmployee("emp-4", "Diana Prince", "Quality Check", "555-0103")
  ]

  const PlaceholderSubcontractors: seq<Subcontractor> := [
    Subcontractor("6-1", "Alice Wonderland", "Sewing", "555-0100", Dnr600),
    Subcontractor("3-2", "Charlie Chaplin", "Embroidery", "555-0102", Dnr300),
    Subcontractor("3-3", "Edward Scissorhands", "Pattern Making", "555-0104", Dnr300),
    Subcontractor("6-4", "Edward Scissorhands", "Pattern Making", "555-0104", Dnr600),
    Subcontractor("S-5", "Fiona Gallagher", "Finishing", "555-0105", NoDnr)
  ]

  /** One day, in milliseconds. */
  const DayMs: int := 86400000

  /** The seed dispatches; `seedClock` is the clock reading when the module loads. */
  function PlaceholderDispatches(seedClock: int): (ds: seq<MaterialDispatch>)
  {
    [
      MaterialDispatch("disp1", "6-1", Some("Alice Wonderland"), "Fabric A", 100.0, IsoDate(seedClock)),
      MaterialDispatch("disp2", "3-2", Some("Charlie Chaplin"), "Threads", 50.0, IsoDate(seedClock - DayMs))
    ]
  }

  /** The seed returns; `seedClock` is the clock reading when the module loads. */
  function PlaceholderReturns(seedClock: int): (rs: seq<MaterialReturn>)
  {
    [
      MaterialReturn("ret1", "6-1", Some("Alice Wonderland"), 95.0, Good, IsoDate(seedClock)),
      MaterialReturn("ret2", "3-2", Some("Charlie Chaplin"), 5.0, Damaged, IsoDate(seedClock - 2 * DayMs))
    ]
  }

  /** The capacity an id's prefix stands for, if it has one of the three prefixes. */
  function CapacityOfId(id: string): (r: Option<DnrCapacity>)
    ensures r != Some(Both)
    ensures r == Some(Dnr300) <==> |id| >= 2 && id[..2] == "3-"
    ensures r == Some(Dnr600) <==> |id| >= 2 && id[..2] == "6-"
    ensures r == Some(NoDnr) <==> |id| >= 2 && id[..2] == "S-"
  {
    if StartsWith(id, "3-") then Some(Dnr300)
    else if StartsWith(id, "6-") then Some(Dnr600)
    else if StartsWith(id, "S-") then Some(NoDnr)
    else None
  }

  /** A subcontractor whose id prefix agrees with its stored capacity. */
  predicate IdEncodesCapacity(s: Subcontractor)
  {
    CapacityOfId(s.id) == Some(s.dnrCapacity)
  }

  /** The roster-wide convention: every id encodes its capacity, so none stores "both". */
  predicate CapacityEncoded(subs: seq<Subcontractor>)
  {
    forall i :: 0 <= i < |subs| ==> IdEncodesCapacity(subs[i])
  }

  function SubcontractorIds(subs: seq<Subcontractor>): (ids: seq<string>)
  {
    Map(subs, (s: Subcontractor) => s.id)
  }

  function InHouseIds(emps: seq<InHouseEmployee>): (ids: seq<string>)
  {
    Map(emps, (e: InHouseEmployee) => e.id)
  }

  /** Two records that together stand for one "both" subcontractor. */
  predicate IsSplitPair(a: Subcontractor, b: Subcontractor)
  {
    && a.name == b.name && a.workType == b.workType && a.contact == b.contact
    && a.dnrCapacity == Dnr300 && b.dnrCapacity == Dnr600
  }

  /** A ledger record names an existing subcontractor, and its stored name is that one's. */
  predicate Resolves(subs: seq<Subcontractor>, subcontractorId: string, name: Option<string>)
  {
    SubcontractorById(subs, subcontractorId).Some?
    && name == Some(SubcontractorById(subs, subcontractorId).value.name)
  }

  /** A roster that keeps the encoding stores no "both" record. */
  lemma EncodedRosterStoresNoBoth(subs: seq<Subcontractor>)
    requires CapacityEncoded(subs)
    ensures forall s :: s in subs ==> s.dnrCapacity != Both
  {
    forall s | s in subs
      ensures s.dnrCapacity != Both
    {
      var i :| 0 <= i < |subs| && subs[i] == s;
      assert IdEncodesCapacity(subs[i]);
    }
  }

  /** Ids are unique within each seed collection. */
  lemma SeedIdsDistinct()
    ensures Distinct(SubcontractorIds(PlaceholderSubcontractors))
    ensures Distinct(InHouseIds(PlaceholderInHouseEmployees))
  {
  }

  /** Every seed subcontractor's id prefix matches its capacity, so none stores "both". */
  lemma SeedCapacityEncoded()
    ensures CapacityEncoded(PlaceholderSubcontractors)
    ensures forall s :: s in PlaceholderSubcontractors ==> s.dnrCapacity != Both
  {
    EncodedRosterStoresNoBoth(PlaceholderSubcontractors);
  }

  /** The subcontractor who was "both" is kept as a 300dnr record and a 600dnr record. */
  lemma SeedSplitsBoth()
    ensures IsSplitPair(PlaceholderSubcontractors[2], PlaceholderSubcontractors[3])
    ensures PlaceholderSubcontractors[2].id != PlaceholderSubcontractors[3].id
  {
  }

  /** Every seed dispatch and return names an existing subcontractor by id and by name. */
  lemma SeedReferencesResolve(seedClock: int)
    ensures forall d :: d in PlaceholderDispatches(seedClock) ==>
              Resolves(PlaceholderSubcontractors, d.subcontractorId, d.subcontractorName)
    ensures forall r :: r in PlaceholderReturns(seedClock) ==>
              Resolves(PlaceholderSubcontractors, r.subcontractorId, r.subcontractorName)
  {
  }

  /** Seed quantities are all at least 1, as the form schemas demand. */
  lemma SeedQuantitiesPositive(seedClock: int)
    ensures forall d :: d in PlaceholderDispatches(seedClock) ==> d.quantity >= 1.0
    ensures forall r :: r in PlaceholderReturns(seedClock) ==> r.quantity >= 1.0
  {
  }

  /** The seed ledgers are numbered "disp1".."dispN" and "ret1".."retN", so the pages' next id is fresh. */
  lemma SeedLedgersWellNumbered(seedClock: int)
    ensures WellNumbered("disp", DispatchIds(PlaceholderDispatches(seedClock)))
    ensures WellNumbered("ret", ReturnIds(PlaceholderReturns(seedClock)))
  {
    assert NatToString(1) == [DigitChar(1)] == "1";
    assert NatToString(2) == [DigitChar(2)] == "2";
    var dIds := DispatchIds(PlaceholderDispatches(seedClock));
    assert dIds[0] == "disp1" == "disp" + NatToString(1);
    assert dIds[1] == "disp2" == "disp" + NatToString(2);
    ConsecutiveIdsAreWellNumbered("disp", dIds);
    var rIds := ReturnIds(PlaceholderReturns(seedClock));
    assert rIds[0] == "ret1" == "ret" + NatToString(1);
    assert rIds[1] == "ret2" == "ret" + NatToString(2);
    ConsecutiveIdsAreWellNumbered("ret", rIds);
  }
}

/**
 * The roster page (src/app/employees/page.tsx): two lists of people and the
 * add dialog's open flag. Saving a person prepends one record, with id
 * "emp" + the clock reading, to the list chosen by whether the person has a
 * `dnrCapacity`. No range-based id is allocated and "both" is stored as one
 * record, so the seed's id/capacity convention is not kept by saves.
 */
module Employees {
  import opened Wrappers
  import opened JsBuiltins
  import opened Definitions
  import opened PlaceholderData

  /** `emp${Date.now()}`: the id every saved person gets. */
  function NewEmployeeId(now: nat): (id: string)
    ensures 3 < |id| && id[..3] == "emp"
    ensures forall i :: 3 <= i < |id| ==> '0' <= id[i] <= '9'
    ensures DecimalValue(id[3..]) == now
    ensures 1 <= now ==> id[3] != '0'
  {
    var id := "emp" + NatToString(now);
    assert id[3..] == NatToString(now);
    NatToStringIsDecimal(now);
    id
  }

  /**
   * The subcontractor list after `handleSaveEmployee(p)` at clock reading
   * `now`: `{ ...person, id }` is prepended when `p` has a capacity.
   */
  function SubcontractorsAfterSave(subs: seq<Subcontractor>, p: NewPerson, now: nat): (subs': seq<Subcontractor>)
    ensures p.dnrCapacity.None? ==> subs' == subs
    ensures p.dnrCapacity.Some? ==>
      && |subs'| == |subs| + 1 && subs'[1..] == subs
      && subs'[0] == Subcontractor(NewEmployeeId(now), p.name, p.workType, p.contact, p.dnrCapacity.value)
  {
    if p.dnrCapacity.Some? then [Subcontractor(NewEmployeeId(now), p.name, p.workType, p.contact, p.dnrCapacity.value)] + subs
    else subs
  }

  /**
   * The in-house list after `handleSaveEmployee(p)` at clock reading `now`:
   * `{ ...person, id }` is prepended when `p` has no capacity.
   */
  function InHouseAfterSave(emps: seq<InHouseEmployee>, p: NewPerson, now: nat): (emps': seq<InHouseEmployee>)
    ensures p.dnrCapacity.Some? ==> emps' == emps
    ensures p.dnrCapacity.None? ==>
      && |emps'| == |emps| + 1 && emps'[1..] == emps
      && emps'[0] == InHouseEmployee(NewEmployeeId(now), p.name, p.workType, p.contact)
  {
    if p.dnrCapacity.Some? then emps
    else [InHouseEmployee(NewEmployeeId(now), p.name, p.workType, p.contact)] + emps
  }

  /**
   * A save grows exactly one list by one record, at its head, with the old
   * list as its tail: the subcontractor list when a capacity is present, the
   * in-house list otherwise.
   */
  lemma SaveGrowsExactlyOneList(subs: seq<Subcontractor>, emps: seq<InHouseEmployee>, p: NewPerson, now: nat)
    ensures var subs', emps' := SubcontractorsAfterSave(subs, p, now), InHouseAfterSave(emps, p, now);
      if p.dnrCapacity.Some? then
        && |subs'| == |subs| + 1 && subs'[1..] == subs && emps' == emps
        && subs'[0] == Subcontractor(NewEmployeeId(now), p.name, p.workType, p.contact, p.dnrCapacity.value)
      else
        && |emps'| == |emps| + 1 && emps'[1..] == emps && subs' == subs
        && emps'[0] == InHouseEmployee(NewEmployeeId(now), p.name, p.workType, p.contact)
  {
  }

  /** "both" is stored as it was entered: one record, not a 300dnr/600dnr pair. */
  lemma BothIsStoredUnsplit(subs: seq<Subcontractor>, p: NewPerson, now: nat)
    requires p.dnrCapacity == Some(Both)
    ensures |SubcontractorsAfterSave(subs, p, now)| == |subs| + 1
    ensures SubcontractorsAfterSave(subs, p, now)[0].dnrCapacity == Both
  {
  }

  /** An "emp" id carries none of the three capacity prefixes. */
  lemma NewEmployeeIdHasNoCapacity(now: nat)
    ensures CapacityOfId(NewEmployeeId(now)) == None
  {
    var id := NewEmployeeId(now);
    assert id[..2] == "em";
  }

  /**
   * Whatever subcontractor is saved, the list afterwards breaks the seed's
   * id/capacity convention: saves do not preserve it.
   */
  lemma SaveBreaksCapacityEncoding(subs: seq<Subcontractor>, p: NewPerson, now: nat)
    requires p.dnrCapacity.Some?
    ensures !CapacityEncoded(SubcontractorsAfterSave(subs, p, now))
  {
    NewEmployeeIdHasNoCapacity(now);
    assert !IdEncodesCapacity(SubcontractorsAfterSave(subs, p, now)[0]);
  }

  /** The convention holds for the seed and fails after saving any subcontractor into it. */
  lemma SeedConventionNotPreserved(p: NewPerson, now: nat)
    requires p.dnrCapacity.Some?
    ensures CapacityEncoded(PlaceholderSubcontractors)
    ensures !CapacityEncoded(SubcontractorsAfterSave(PlaceholderSubcontractors, p, now))
  {
    SeedCapacityEncoded();
    SaveBreaksCapacityEncoding(PlaceholderSubcontractors, p, now);
  }

  /** Saves at distinct clock readings get distinct ids. */
  lemma NewEmployeeIdsDistinct(a: nat, b: nat)
    requires a != b
    ensures NewEmployeeId(a) != NewEmployeeId(b)
  {
    PrefixedInjective("emp", NatToString(a), NatToString(b));
    NatToStringInjective(a, b);
  }

  /** A new id never collides with a seed id of either list ("emp-2" has a '-' where the new id has a digit). */
  lemma NewEmployeeIdAvoidsSeed(now: nat)
    ensures NewEmployeeId(now) !in InHouseIds(PlaceholderInHouseEmployees)
    ensures NewEmployeeId(now) !in SubcontractorIds(PlaceholderSubcontractors)
  {
    var id := NewEmployeeId(now);
    assert '0' <= id[3] <= '9';
    NewEmployeeIdHasNoCapacity(now);
  }

  class EmployeesPage {
    var inHouseEmployees: seq<InHouseEmployee>
    var subcontractors: seq<Subcontractor>
    var isAddDialogOpen: bool

    /** The state before the mount effect: both lists empty, dialog closed. */
    constructor ()
      ensures inHouseEmployees == [] && subcontractors == [] && !isAddDialogOpen
    {
      inHouseEmployees := [];
      subcontractors := [];
      isAddDialogOpen := false;
    }

    /** The mount effect: both lists take the seed values. */
    method LoadPlaceholders()
      modifies this
      ensures inHouseEmployees == PlaceholderInHouseEmployees
      ensures subcontractors == PlaceholderSubcontractors
      ensures isAddDialogOpen == old(isAddDialogOpen)
    {
      inHouseEmployees := PlaceholderInHouseEmployees;
      subcontractors := PlaceholderSubcontractors;
    }

    /** `setIsAddDialogOpen(open)`: the "Add New" button and the dialog's `onOpenChange`. */
    method SetAddDialogOpen(open: bool)
      modifies this
      ensures isAddDialogOpen == open
      ensures inHouseEmployees == old(inHouseEmployees) && subcontractors == old(subcontractors)
    {
      isAddDialogOpen := open;
    }

    /** `handleSaveEmployee(person)` with `Date.now()` read as `now`; the dialog ends closed. */
    method SaveEmployee(person: NewPerson, now: nat)
      modifies this
      ensures subcontractors == SubcontractorsAfterSave(old(subcontractors), person, now)
      ensures inHouseEmployees == InHouseAfterSave(old(inHouseEmployees), person, now)
      ensures !isAddDialogOpen
    {
      var newId := NewEmployeeId(now);
      if person.dnrCapacity.Some? {
        subcontractors := [Subcontractor(newId, person.name, person.workType, person.contact, person.dnrCapacity.value)] + subcontractors;
      } else {
        inHouseEmployees := [InHouseEmployee(newId, person.name, person.workType, person.contact)] + inHouseEmployees;
      }
      isAddDialogOpen := false;
    }
  }
}

/**
 * The dispatch manager (src/app/dispatch/page.tsx): a ledger of material
 * dispatches, newest first. A submit is validated by the form schema, then
 * allowed only to a user holding "manageDispatch" (or "fullAccess"); it adds
 * one record with id "disp" + (length + 1) at the front.
 */
module Dispatch {
  import opened Wrappers
  import opened JsBuiltins
  import opened Definitions
  import opened Permissions
  import opened Ledger
  import opened PlaceholderData

  const ManageDispatch: Permission := "manageDispatch"

  /** The form's values; `quantity` is the number the schema has already coerced. */
  datatype DispatchFormValues = DispatchFormValues(subcontractorId: string, materialType: string, quantity: real)

  /**
   * `dispatchFormSchema`: `min(1)` on the two texts (a length in UTF-16 code
   * units) and at least 1 unit sent; a text of length at least 1 is exactly a
   * non-empty one.
   */
  predicate DispatchFormValid(v: DispatchFormValues): (ok: bool)
    ensures ok <==> v.subcontractorId != "" && v.materialType != "" && v.quantity >= 1.0
  {
    Utf16Length(v.subcontractorId) >= 1 && Utf16Length(v.materialType) >= 1 && v.quantity >= 1.0
  }

  /** `canManageDispatch`: a present user whose list holds "fullAccess" or "manageDispatch". */
  predicate CanManageDispatch(user: Option<User>): (ok: bool)
    ensures ok <==>
      user.Some? && user.value.permissions.Some? &&
      (FullAccess in user.value.permissions.value || ManageDispatch in user.value.permissions.value)
  {
    user.Some? && HasPermission(user, ManageDispatch)
  }

  datatype SubmitOutcome = Invalid | PermissionDenied | Created

  /** The record `onSubmit` builds for a ledger of `count` records, at clock reading `now`. */
  function NewDispatch(subs: seq<Subcontractor>, count: nat, v: DispatchFormValues, now: int): (d: MaterialDispatch)
    ensures d.id == NextId("disp", count)
    ensures d.subcontractorId == v.subcontractorId && d.materialType == v.materialType && d.quantity == v.quantity
    ensures d.subcontractorName == NameFor(subs, v.subcontractorId)
    ensures d.dispatchDate == IsoDate(now)
  {
    MaterialDispatch(NextId("disp", count), v.subcontractorId, NameFor(subs, v.subcontractorId),
                     v.materialType, v.quantity, IsoDate(now))
  }

  /**
   * The auth context builds users without a permission list, so no signed-in
   * user, administrator included, passes the dispatch gate.
   */
  lemma AuthContextUserCannotDispatch(uid: string, email: Option<string>, adminEmail: Option<string>)
    ensures !CanManageDispatch(Some(AuthContextUser(uid, email, adminEmail)))
  {
    AuthContextUserIsDenied(uid, email, adminEmail, ManageDispatch);
  }

  class DispatchPage {
    var dispatches: seq<MaterialDispatch>
    var subcontractorOptions: seq<Subcontractor>

    /**
     * The ledger's invariant: ids are numbered so that the next one is fresh,
     * every quantity meets the schema, and every stored name is the one the
     * lookup gives for its subcontractor id.
     */
    ghost predicate Valid()
      reads this
    {
      && WellNumbered("disp", DispatchIds(dispatches))
      && (forall i :: 0 <= i < |dispatches| ==> dispatches[i].quantity >= 1.0)
      && (forall i :: 0 <= i < |dispatches| ==>
            dispatches[i].subcontractorName == NameFor(subcontractorOptions, dispatches[i].subcontractorId))
    }

    /** The state before the mount effect: no dispatches, no options. */
    constructor ()
      ensures Valid()
      ensures dispatches == [] && subcontractorOptions == []
    {
      dispatches := [];
      subcontractorOptions := [];
    }

    /** The mount effect: the seed dispatches and subcontractors (the seed was built at `seedClock`). */
    method LoadPlaceholders(seedClock: int)
      modifies this
      ensures Valid()
      ensures dispatches == PlaceholderDispatches(seedClock)
      ensures subcontractorOptions == PlaceholderSubcontractors
    {
      dispatches := PlaceholderDispatches(seedClock);
      subcontractorOptions := PlaceholderSubcontractors;
      SeedLedgersWellNumbered(seedClock);
      SeedReferencesResolve(seedClock);
      SeedQuantitiesPositive(seedClock);
      forall i | 0 <= i < |dispatches|
        ensures dispatches[i].subcontractorName == NameFor(subcontractorOptions, dispatches[i].subcontractorId)
      {
        assert dispatches[i] in PlaceholderDispatches(seedClock);
      }
    }

    /**
     * `form.handleSubmit(onSubmit)` for the signed-in `user` at clock
     * reading `now`: invalid values and a user without the permission leave
     * the ledger as it was; otherwise one new record goes to the front.
     */
    method Submit(user: Option<User>, v: DispatchFormValues, now: int) returns (outcome: SubmitOutcome)
      requires Valid()
      modifies this
      ensures Valid()
      ensures subcontractorOptions == old(subcontractorOptions)
      ensures outcome == (if !DispatchFormValid(v) then Invalid
                          else if !CanManageDispatch(user) then PermissionDenied
                          else Created)
      ensures outcome == Created ==>
        dispatches == [NewDispatch(subcontractorOptions, |old(dispatches)|, v, now)] + old(dispatches)
      ensures outcome != Created ==> dispatches == old(dispatches)
      ensures outcome == Created ==> NextId("disp", |old(dispatches)|) !in DispatchIds(old(dispatches))
    {
      if !DispatchFormValid(v) {
        return Invalid;
      }
      if !CanManageDispatch(user) {
        return PermissionDenied;
      }
      var d := NewDispatch(subcontractorOptions, |dispatches|, v, now);
      NextIdIsFresh("disp", DispatchIds(dispatches));
      PrependNextIdKeepsNumbering("disp", DispatchIds(dispatches));
      assert DispatchIds([d] + dispatches) == [d.id] + DispatchIds(dispatches);
      dispatches := [d] + dispatches;
      outcome := Created;
    }
  }
}

/**
 * The return logger (src/app/returns/page.tsx): a ledger of returned goods,
 * newest first. A submit is validated by the form schema and needs no
 * permission; it adds one record with id "ret" + (length + 1) at the front.
 */
module Returns {
  import opened Wrappers
  import opened JsBuiltins
  import opened Definitions
  import opened Ledger
  import opened PlaceholderData

  /** The form's values; `qualityStatus` is absent until one is chosen. */
  datatype ReturnFormValues = ReturnFormValues(subcontractorId: string, quantity: real, qualityStatus: Option<string>)

  /** What `returnFormSchema` yields from values it accepts. */
  datatype ReturnData = ReturnData(subcontractorId: string, quantity: real, qualityStatus: QualityStatus)

  /**
   * `returnFormSchema`: a subcontractor is chosen (`min(1)`, a length in
   * UTF-16 code units), at least 1 unit is returned, and the status is one
   * of `qualityStatuses`.
   */
  function ParseReturnForm(v: ReturnFormValues): (r: Option<ReturnData>)
    ensures r.Some? <==> |v.subcontractorId| >= 1 && v.quantity >= 1.0
                         && v.qualityStatus.Some? && ParseQualityStatus(v.qualityStatus.value).Some?
    ensures r.Some? ==> r.value.subcontractorId == v.subcontractorId && r.value.quantity == v.quantity
                        && QualityStatusName(r.value.qualityStatus) == v.qualityStatus.value
  {
    if Utf16Length(v.subcontractorId) < 1 || v.quantity < 1.0 || v.qualityStatus.None? then None
    else
      var q := ParseQualityStatus(v.qualityStatus.value);
      if q.None? then None else Some(ReturnData(v.subcontractorId, v.quantity, q.value))
  }

  /** The record `onSubmit` builds for a ledger of `count` records, at clock reading `now`. */
  function NewReturn(subs: seq<Subcontractor>, count: nat, data: ReturnData, now: int): (r: MaterialReturn)
    ensures r.id == NextId("ret", count)
    ensures r.subcontractorId == data.subcontractorId && r.quantity == data.quantity
    ensures r.qualityStatus == data.qualityStatus
    ensures r.subcontractorName == NameFor(subs, data.subcontractorId)
    ensures r.returnDate == IsoDate(now)
  {
    MaterialReturn(NextId("ret", count), data.subcontractorId, NameFor(subs, data.subcontractorId),
                   data.quantity, data.qualityStatus, IsoDate(now))
  }

  /** Every quality status can be logged: the schema accepts each status's text. */
  lemma EveryStatusAccepted(id: string, quantity: real, q: QualityStatus)
    requires |id| >= 1 && quantity >= 1.0
    ensures ParseReturnForm(ReturnFormValues(id, quantity, Some(QualityStatusName(q)))) == Some(ReturnData(id, quantity, q))
  {
    ParseQualityStatusName(q);
  }

  class ReturnsPage {
    var materialReturns: seq<MaterialReturn>
    var subcontractorOptions: seq<Subcontractor>

    /**
     * The ledger's invariant: ids are numbered so that the next one is fresh,
     * every quantity meets the schema, and every stored name is the one the
     * lookup gives for its subcontractor id.
     */
    ghost predicate Valid()
      reads this
    {
      && WellNumbered("ret", ReturnIds(materialReturns))
      && (forall i :: 0 <= i < |materialReturns| ==> materialReturns[i].quantity >= 1.0)
      && (forall i :: 0 <= i < |materialReturns| ==>
            materialReturns[i].subcontractorName == NameFor(subcontractorOptions, materialReturns[i].subcontractorId))
    }

    /** The state before the mount effect: no returns, no options. */
    constructor ()
      ensures Valid()
      ensures materialReturns == [] && subcontractorOptions == []
    {
      materialReturns := [];
      subcontractorOptions := [];
    }

    /** The mount effect: the seed returns and subcontractors (the seed was built at `seedClock`). */
    method LoadPlaceholders(seedClock: int)
      modifies this
      ensures Valid()
      ensures materialReturns == PlaceholderReturns(seedClock)
      ensures subcontractorOptions == PlaceholderSubcontractors
    {
      materialReturns := PlaceholderReturns(seedClock);
      subcontractorOptions := PlaceholderSubcontractors;
      SeedLedgersWellNumbered(seedClock);
      SeedReferencesResolve(seedClock);
      SeedQuantitiesPositive(seedClock);
      forall i | 0 <= i < |materialReturns|
        ensures materialReturns[i].subcontractorName == NameFor(subcontractorOptions, materialReturns[i].subcontractorId)
      {
        assert materialReturns[i] in PlaceholderReturns(seedClock);
      }
    }

    /**
     * `form.handleSubmit(onSubmit)` at clock reading `now`: values the schema
     * rejects leave the ledger as it was; any accepted values add one record
     * at the front. There is no permission check.
     */
    method Submit(v: ReturnFormValues, now: int) returns (logged: bool)
      requires Valid()
      modifies this
      ensures Valid()
      ensures subcontractorOptions == old(subcontractorOptions)
      ensures logged <==> ParseReturnForm(v).Some?
      ensures logged ==>
        materialReturns == [NewReturn(subcontractorOptions, |old(materialReturns)|, ParseReturnForm(v).value, now)] + old(materialReturns)
      ensures !logged ==> materialReturns == old(materialReturns)
      ensures logged ==> NextId("ret", |old(materialReturns)|) !in ReturnIds(old(materialReturns))
    {
      var data := ParseReturnForm(v);
      if data.None? {
        return false;
      }
      var r := NewReturn(subcontractorOptions, |materialReturns|, data.value, now);
      NextIdIsFresh("ret", ReturnIds(materialReturns));
      PrependNextIdKeepsNumbering("ret", ReturnIds(materialReturns));
      assert ReturnIds([r] + materialReturns) == [r.id] + ReturnIds(materialReturns);
      materialReturns := [r] + materialReturns;
      logged := true;
    }
  }
}

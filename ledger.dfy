/**
 * What the dispatch and return ledgers share: the lookup of the
 * subcontractor a record names, and the numbering of record ids
 * (`prefix + (length + 1)`), with the invariant that keeps the next id fresh.
 */
module Ledger {
  import opened Wrappers
  import opened JsBuiltins
  import opened Definitions

  /** `subcontractorOptions.find(s => s.id === id)`: the first subcontractor with that id. */
  function SubcontractorById(subs: seq<Subcontractor>, id: string): (r: Option<Subcontractor>)
    ensures r.Some? ==> r.value in subs && r.value.id == id
    ensures r.Some? ==> exists k :: 0 <= k < |subs| && subs[k] == r.value && forall j :: 0 <= j < k ==> subs[j].id != id
    ensures r.None? <==> forall s :: s in subs ==> s.id != id
  {
    Find(subs, (s: Subcontractor) => s.id == id)
  }

  /** The optional `subcontractorName` stored with a record: `selected?.name`. */
  function NameFor(subs: seq<Subcontractor>, id: string): (r: Option<string>)
    ensures r.Some? <==> exists s :: s in subs && s.id == id
    ensures r.Some? ==> exists k :: 0 <= k < |subs| && subs[k].id == id && subs[k].name == r.value && forall j :: 0 <= j < k ==> subs[j].id != id
  {
    var found := SubcontractorById(subs, id);
    if found.Some? then Some(found.value.name) else None
  }

  /** How many records a ledger page lists as recent. */
  const RecentCount: nat := 5

  /** The "recent" list of either ledger page: `records.slice(0, 5)`, newest first. */
  function Recent<T>(records: seq<T>): (r: seq<T>)
    ensures |r| == if |records| < RecentCount then |records| else RecentCount
    ensures forall i :: 0 <= i < |r| ==> r[i] == records[i]
  {
    SliceHead(records, RecentCount)
  }

  /** The id a ledger page gives to the record it adds to `count` existing ones. */
  function NextId(prefix: string, count: nat): (id: string)
    ensures |prefix| < |id| && id[..|prefix|] == prefix
    ensures forall i :: |prefix| <= i < |id| ==> '0' <= id[i] <= '9'
    ensures DecimalValue(id[|prefix|..]) == count + 1
    ensures id[|prefix|] != '0'
  {
    var id := prefix + NatToString(count + 1);
    assert id[|prefix|..] == NatToString(count + 1);
    NatToStringIsDecimal(count + 1);
    id
  }

  ghost predicate Distinct(ids: seq<string>)
  {
    forall i, j :: 0 <= i < j < |ids| ==> ids[i] != ids[j]
  }

  /** No id of the form `prefix + m` with `m` beyond the ledger's length is in use. */
  ghost predicate NoIdBeyond(prefix: string, ids: seq<string>)
  {
    forall m: nat :: |ids| < m ==> prefix + NatToString(m) !in ids
  }

  /** The invariant under which numbering by length never reuses an id. */
  ghost predicate WellNumbered(prefix: string, ids: seq<string>)
  {
    Distinct(ids) && NoIdBeyond(prefix, ids)
  }

  /** Under the invariant, the next id is not yet in the ledger. */
  lemma NextIdIsFresh(prefix: string, ids: seq<string>)
    requires WellNumbered(prefix, ids)
    ensures NextId(prefix, |ids|) !in ids
  {
  }

  /** Prepending a record with the next id keeps the invariant. */
  lemma PrependNextIdKeepsNumbering(prefix: string, ids: seq<string>)
    requires WellNumbered(prefix, ids)
    ensures WellNumbered(prefix, [NextId(prefix, |ids|)] + ids)
  {
    var next := NextId(prefix, |ids|);
    var ids' := [next] + ids;
    forall m: nat | |ids'| < m
      ensures prefix + NatToString(m) !in ids'
    {
      NatToStringInjective(m, |ids| + 1);
      PrefixedInjective(prefix, NatToString(m), NatToString(|ids| + 1));
      assert prefix + NatToString(m) !in ids;
    }
  }

  /** The ledger holding `prefix + 1` .. `prefix + n`, in any order and without repeats, is well numbered. */
  lemma ConsecutiveIdsAreWellNumbered(prefix: string, ids: seq<string>)
    requires Distinct(ids)
    requires forall i :: 0 <= i < |ids| ==> exists k: nat :: 1 <= k <= |ids| && ids[i] == prefix + NatToString(k)
    ensures WellNumbered(prefix, ids)
  {
    forall m: nat | |ids| < m
      ensures prefix + NatToString(m) !in ids
    {
      if prefix + NatToString(m) in ids {
        var i :| 0 <= i < |ids| && ids[i] == prefix + NatToString(m);
        var k: nat :| 1 <= k <= |ids| && ids[i] == prefix + NatToString(k);
        PrefixedInjective(prefix, NatToString(m), NatToString(k));
        NatToStringInjective(m, k);
      }
    }
  }
}

/** The criterion and regularizer dispatch tables of `TBPTT` and their lookups. */
module Dispatch {
  import opened Wrappers

  /** One key/value pair of a Python dict, kept in insertion order. */
  datatype Entry<V> = Entry(key: string, value: V)

  /** Value of `criterion_dict`: element 1 "input is spk (else mem)", element 2 "time-varying targets". */
  datatype CriterionFlags = CriterionFlags(lossSpk: bool, timeVarTargets: bool)

  const CriterionTable: seq<Entry<CriterionFlags>> := [
    Entry("mse_membrane_loss", CriterionFlags(false, true)),
    Entry("ce_max_membrane_loss", CriterionFlags(false, false)),
    Entry("ce_rate_loss", CriterionFlags(true, false)),
    Entry("ce_count_loss", CriterionFlags(true, false)),
    Entry("mse_count_loss", CriterionFlags(true, false))
  ]

  /** `reg_dict`: the value says whether the regularizer reads the spike record. */
  const RegTable: seq<Entry<bool>> := [Entry("l1_rate_sparsity", true)]

  /** The `TypeError` raised when `counter` is nonzero after the criterion loop. */
  datatype LookupError = CriterionNotRecognised

  /** What the criterion lookup leaves behind: `loss_spk` (maybe unbound) and `time_var_targets`. */
  datatype CriterionSpec = CriterionSpec(lossSpk: Option<bool>, timeVarTargets: bool)

  /** Keys of a dict are distinct. */
  ghost predicate DistinctKeys<V>(t: seq<Entry<V>>) {
    forall p, q :: 0 <= p < q < |t| ==> t[p].key != t[q].key
  }

  /** The value stored under `name`, if any (first match). */
  function Find<V>(t: seq<Entry<V>>, name: string): (r: Option<V>)
    ensures r.Some? <==> exists j :: 0 <= j < |t| && t[j].key == name
    ensures r.Some? ==> exists j :: 0 <= j < |t| && t[j].key == name && t[j].value == r.value
  {
    if t == [] then None
    else if t[0].key == name then (assert t[0].key == name; Some(t[0].value))
    else
      var r := Find(t[1..], name);
      assert forall j :: 0 < j < |t| ==> t[j] == t[1..][j - 1];
      assert r.Some? ==> exists j :: 0 <= j < |t[1..]| && t[1..][j].key == name && t[1..][j].value == r.value;
      r
  }

  /** Extending a dict with a key it does not yet hold. */
  lemma {:induction false} FindSnoc<V>(t: seq<Entry<V>>, e: Entry<V>, name: string)
    ensures Find(t + [e], name) ==
      if Find(t, name).Some? then Find(t, name) else if e.key == name then Some(e.value) else None
  {
    if t == [] {
      assert t + [e] == [e];
      assert [e][1..] == [];
    } else {
      assert (t + [e])[1..] == t[1..] + [e];
      FindSnoc(t[1..], e, name);
    }
  }

  lemma CriterionKeysDistinct()
    ensures DistinctKeys(CriterionTable)
  {
    assert |CriterionTable[0].key| == 17 && |CriterionTable[1].key| == 20 && |CriterionTable[2].key| == 12;
    assert |CriterionTable[3].key| == 13 && |CriterionTable[4].key| == 14;
  }

  function SpecOf(found: Option<CriterionFlags>, criterionTimeVarTargets: bool): CriterionSpec {
    match found
    case None => CriterionSpec(None, false)
    case Some(f) => CriterionSpec(Some(f.lossSpk), f.timeVarTargets && criterionTimeVarTargets)
  }

  /**
   * The criterion lookup as a function of the criterion's `__name__` and of its
   * `time_var_targets` attribute.
   */
  function CriterionOf(name: string, criterionTimeVarTargets: bool): (r: CriterionSpec)
    ensures r.lossSpk.Some? <==> exists j :: 0 <= j < |CriterionTable| && CriterionTable[j].key == name
    ensures forall j :: 0 <= j < |CriterionTable| && CriterionTable[j].key == name ==>
      r.lossSpk == Some(CriterionTable[j].value.lossSpk) &&
      r.timeVarTargets == (CriterionTable[j].value.timeVarTargets && criterionTimeVarTargets)
    ensures r.lossSpk.None? ==> !r.timeVarTargets
  {
    CriterionKeysDistinct();
    SpecOf(Find(CriterionTable, name), criterionTimeVarTargets)
  }

  /** The regularizer lookup; `None` when no regularizer is given or its name is not in `reg_dict`. */
  function RegularizerOf(regularization: Option<string>): (r: Option<bool>)
    ensures r.Some? <==> regularization == Some("l1_rate_sparsity")
    ensures r.Some? ==> r.value
  {
    match regularization
    case None => None
    case Some(name) => Find(RegTable, name)
  }

  /** What one more iteration of the criterion loop does to the lookup so far. */
  lemma CriterionLoopStep(j: nat, name: string, criterionTimeVarTargets: bool)
    requires j < |CriterionTable|
    ensures SpecOf(Find(CriterionTable[..j + 1], name), criterionTimeVarTargets) ==
      if CriterionTable[j].key == name then
        CriterionSpec(Some(CriterionTable[j].value.lossSpk), CriterionTable[j].value.timeVarTargets && criterionTimeVarTargets)
      else SpecOf(Find(CriterionTable[..j], name), criterionTimeVarTargets)
  {
    CriterionKeysDistinct();
    FindSnoc(CriterionTable[..j], CriterionTable[j], name);
    assert CriterionTable[..j + 1] == CriterionTable[..j] + [CriterionTable[j]];
    if CriterionTable[j].key == name {
      assert Find(CriterionTable[..j], name).None?;
    }
  }

  /**
   * Lines 127-140: walks `criterion_dict` in order, decrementing `counter` on every
   * iteration. `counter` therefore always ends at 0 and the `TypeError` is never raised.
   */
  method LookupCriterion(name: string, criterionTimeVarTargets: bool) returns (r: Result<CriterionSpec, LookupError>)
    ensures r.Success?
    ensures r == Success(CriterionOf(name, criterionTimeVarTargets))
  {
    var timeVarTargets := false;
    var lossSpk: Option<bool> := None;
    var counter := |CriterionTable|;
    var j := 0;
    while j < |CriterionTable|
      invariant 0 <= j <= |CriterionTable|
      invariant counter == |CriterionTable| - j
      invariant CriterionSpec(lossSpk, timeVarTargets) == SpecOf(Find(CriterionTable[..j], name), criterionTimeVarTargets)
    {
      CriterionLoopStep(j, name, criterionTimeVarTargets);
      if CriterionTable[j].key == name {
        lossSpk := Some(CriterionTable[j].value.lossSpk);
        timeVarTargets := CriterionTable[j].value.timeVarTargets;
        if timeVarTargets {
          timeVarTargets := criterionTimeVarTargets;
        }
      }
      counter := counter - 1;
      j := j + 1;
    }
    assert CriterionTable[..j] == CriterionTable;
    if counter != 0 {
      return Failure(CriterionNotRecognised);
    }
    r := Success(CriterionSpec(lossSpk, timeVarTargets));
  }

  /** Lines 142-145: `reg_spk` is bound only when a regularizer is given and its name matches. */
  method LookupRegularizer(regularization: Option<string>) returns (regSpk: Option<bool>)
    ensures regSpk == RegularizerOf(regularization)
  {
    regSpk := None;
    if regularization.Some? {
      var j := 0;
      while j < |RegTable|
        invariant 0 <= j <= |RegTable|
        invariant regSpk == Find(RegTable[..j], regularization.value)
      {
        FindSnoc(RegTable[..j], RegTable[j], regularization.value);
        assert RegTable[..j + 1] == RegTable[..j] + [RegTable[j]];
        if RegTable[j].key == regularization.value {
          regSpk := Some(RegTable[j].value);
        }
        j := j + 1;
      }
      assert RegTable[..j] == RegTable;
    }
  }
}

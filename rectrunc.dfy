/**
 * `_rec_trunc` (snntorch/backprop.py:578-601): appends the step's spikes and membrane
 * potential to the window records that the criterion and the regularizer will read.
 * `TBPTT` does not call it.
 */
module RecTrunc {

  /** A Python list the helper appends to in place. */
  class TensorList<X> {
    var items: seq<X>

    constructor (init: seq<X>)
      ensures items == init
    {
      items := init;
    }

    /** `list.append(x)`. */
    method Append(x: X)
      modifies this
      ensures items == old(items) + [x]
    {
      items := items + [x];
    }
  }

  /** The two records the helper can append to. */
  datatype Dest = SpkRec | MemRec

  /**
   * The appends `_rec_trunc` makes, in order. With a regularizer: the spikes when both
   * flags are set, then the spikes and the membrane when the flags differ, else the
   * membrane. Without one: the spikes iff `loss_spk`, else the membrane.
   */
  function Plan(regularization: bool, lossSpk: bool, regSpk: bool): (r: seq<Dest>)
    ensures 1 <= |r| <= 2
    ensures |r| == 2 ==> r == [SpkRec, MemRec]
  {
    if regularization then
      (if lossSpk && regSpk then [SpkRec] else []) + (if lossSpk != regSpk then [SpkRec, MemRec] else [MemRec])
    else if lossSpk then [SpkRec]
    else [MemRec]
  }

  /** The values the appends of `plan` add, in order. */
  function Values<X>(plan: seq<Dest>, spk: X, mem: X): (r: seq<X>)
    ensures |r| == |plan|
    ensures forall j :: 0 <= j < |plan| ==> r[j] == if plan[j] == SpkRec then spk else mem
  {
    if plan == [] then [] else [if plan[0] == SpkRec then spk else mem] + Values(plan[1..], spk, mem)
  }

  /** The appends of `plan` that go to `d`. */
  function Only(plan: seq<Dest>, d: Dest): (r: seq<Dest>)
    ensures forall j :: 0 <= j < |r| ==> r[j] == d
    ensures |r| <= |plan|
  {
    if plan == [] then [] else (if plan[0] == d then [plan[0]] else []) + Only(plan[1..], d)
  }

  /**
   * With a regularizer the membrane record always gets exactly one entry and the spike
   * record gets one iff either flag is set, before the membrane; without one exactly one
   * record gets one entry: the spike record iff `loss_spk`.
   */
  lemma PlanShape(regularization: bool, lossSpk: bool, regSpk: bool)
    ensures var plan := Plan(regularization, lossSpk, regSpk);
      |Only(plan, MemRec)| == (if regularization || !lossSpk then 1 else 0) &&
      |Only(plan, SpkRec)| == (if lossSpk || (regularization && regSpk) then 1 else 0) &&
      (regularization ==> plan[|plan| - 1] == MemRec) &&
      (!regularization ==> |plan| == 1)
  {
  }

  /**
   * `_rec_trunc(spk, mem, regularization, loss_spk, reg_spk, spk_rec_trunc, mem_rec_trunc)`.
   * When both arguments are the same list, that list receives every append in order.
   * Entries already in the lists are kept.
   */
  method RecTrunc<X>(spk: X, mem: X, regularization: bool, lossSpk: bool, regSpk: bool,
                     spkRec: TensorList<X>, memRec: TensorList<X>)
    modifies spkRec, memRec
    ensures spkRec != memRec ==>
      var plan := Plan(regularization, lossSpk, regSpk);
      spkRec.items == old(spkRec.items) + Values(Only(plan, SpkRec), spk, mem) &&
      memRec.items == old(memRec.items) + Values(Only(plan, MemRec), spk, mem)
    ensures spkRec == memRec ==>
      spkRec.items == old(spkRec.items) + Values(Plan(regularization, lossSpk, regSpk), spk, mem)
  {
    if regularization {
      if lossSpk && regSpk {
        spkRec.Append(spk);
      }
      if lossSpk != regSpk {
        spkRec.Append(spk);
        memRec.Append(mem);
      } else {
        memRec.Append(mem);
      }
    } else {
      if lossSpk {
        spkRec.Append(spk);
      } else {
        memRec.Append(mem);
      }
    }
  }
}

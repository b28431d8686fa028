/** `neurons_dict` of `TBPTT`: neuron classes keyed by the `utils.is_*` flags. */
module Neurons {

  datatype NeuronClass = Lapicque | Leaky | Synaptic | Alpha | Stein

  /** The module-level flags `utils.is_lapicque` ... `utils.is_stein`, read once at setup. */
  datatype Flags = Flags(isLapicque: bool, isLeaky: bool, isSynaptic: bool, isAlpha: bool, isStein: bool)

  predicate AnyFlag(f: Flags) {
    f.isLapicque || f.isLeaky || f.isSynaptic || f.isAlpha || f.isStein
  }

  /** The class inserted last under the key `True`, in the dict literal's order. */
  function LastFlagged(f: Flags): NeuronClass
    requires AnyFlag(f)
  {
    if f.isStein then Stein
    else if f.isAlpha then Alpha
    else if f.isSynaptic then Synaptic
    else if f.isLeaky then Leaky
    else Lapicque
  }

  /**
   * The dict literal at lines 99-105. Its keys are the flag values, so entries with equal
   * flags collapse into one key and the later class overwrites the earlier one.
   */
  function NeuronsDict(f: Flags): (d: map<bool, NeuronClass>)
    ensures true in d <==> AnyFlag(f)
    ensures true in d ==> d[true] == LastFlagged(f)
    ensures false in d <==> !(f.isLapicque && f.isLeaky && f.isSynaptic && f.isAlpha && f.isStein)
  {
    map[f.isLapicque := Lapicque][f.isLeaky := Leaky][f.isSynaptic := Synaptic][f.isAlpha := Alpha][f.isStein := Stein]
  }

  /**
   * The detach loop at lines 240-244 read off the dict: it visits each key and acts only
   * on a truthy one, calling `detach_hidden` on the class stored under `True`.
   */
  function DictDetach(d: map<bool, NeuronClass>): (r: seq<NeuronClass>)
    ensures |r| <= 1
    ensures forall c :: c in r <==> true in d && d[true] == c
  {
    if true in d then [d[true]] else []
  }

  /** The classes whose `detach_hidden` runs at a window close, in closed form. */
  function DetachTargets(f: Flags): seq<NeuronClass> {
    if AnyFlag(f) then [LastFlagged(f)] else []
  }

  /**
   * The closed form is what the dict-driven loop does: at most one class is ever
   * detached, none when no flag is set, and otherwise the last flagged class of the
   * literal.
   */
  lemma DetachTargetsIsDictLoop(f: Flags)
    ensures DetachTargets(f) == DictDetach(NeuronsDict(f))
    ensures |DetachTargets(f)| <= 1
    ensures DetachTargets(f) == [] <==> !AnyFlag(f)
  {
    var d := NeuronsDict(f);
    if AnyFlag(f) {
      assert true in d;
      assert d[true] == LastFlagged(f);
    } else {
      assert d.Keys == {false};
    }
  }
}

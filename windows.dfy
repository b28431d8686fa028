/**
 * What each batch hands to the network, the criterion and the optimizer, read off the
 * schedule: the input of every forward call, the record and target of every criterion
 * call, and the zero_grad / backward / step order of the updates.
 */
module Windows {
  import opened Wrappers
  import opened Neurons
  import opened Events
  import opened Dispatch
  import opened Schedule
  import opened Arith

  lemma {:induction false} ProjectForwardsSilent<D, T, X>(data: D, timeVar: bool, lo: nat, hi: nat, f: Event<D, T> -> seq<X>)
    requires lo <= hi
    requires forall x :: f(Forward(x)) == []
    ensures Project(Forwards<D, T>(data, timeVar, lo, hi), f) == []
    decreases hi - lo
  {
    if hi > lo {
      var e: Event<D, T> := Forward(InputAt(data, timeVar, hi - 1));
      ProjectForwardsSilent(data, timeVar, lo, hi - 1, f);
      ProjectConcat(Forwards<D, T>(data, timeVar, lo, hi - 1), [e], f);
      ProjectSingle(e, f);
    }
  }

  /** Forward calls never reach the optimizer. */
  lemma ForwardsNoUpdates<D, T>(data: D, timeVar: bool, lo: nat, hi: nat)
    requires lo <= hi
    ensures Project(Forwards<D, T>(data, timeVar, lo, hi), UpdateOf<D, T>) == []
  {
    ProjectForwardsSilent(data, timeVar, lo, hi, UpdateOf<D, T>);
  }

  /** Forward calls never reach the criterion. */
  lemma ForwardsNoCalls<D, T>(data: D, timeVar: bool, lo: nat, hi: nat)
    requires lo <= hi
    ensures Project(Forwards<D, T>(data, timeVar, lo, hi), CallOf<D, T>) == []
  {
    ProjectForwardsSilent(data, timeVar, lo, hi, CallOf<D, T>);
  }

  lemma {:induction false} ProjectDetachSilent<D, T, X>(cs: seq<NeuronClass>, f: Event<D, T> -> seq<X>)
    requires forall c :: f(Detach(c)) == []
    ensures Project(DetachEvents<D, T>(cs), f) == []
  {
    if cs != [] {
      var e: Event<D, T> := Detach(cs[0]);
      ProjectDetachSilent(cs[1..], f);
      ProjectConcat([e], DetachEvents<D, T>(cs[1..]), f);
      ProjectSingle(e, f);
    }
  }

  /** What a window close shows through `f`, call by call. */
  lemma ProjectClose<D, T, X>(ctx: Ctx, losses: Losses<T>, i: nat, lo: nat, hi: nat, target: Target<T>, f: Event<D, T> -> seq<X>)
    requires lo <= hi
    requires forall c :: f(Detach(c)) == []
    ensures var c := Close<D, T>(ctx, losses, i, lo, hi, target);
      Project(c.events, f) ==
      f(Criterion(LossSignal(ctx, i, lo, hi), target)) +
      (if ctx.regularized then f(Regularize(RegSignal(ctx, i, lo, hi))) else []) +
      (f(ZeroGrad) + f(Backward(c.loss)) + f(OptimizerStep))
  {
    var c := Close<D, T>(ctx, losses, i, lo, hi, target);
    var crit: Event<D, T> := Criterion(LossSignal(ctx, i, lo, hi), target);
    var reg: seq<Event<D, T>> := if ctx.regularized then [Regularize(RegSignal(ctx, i, lo, hi))] else [];
    var update: seq<Event<D, T>> := [ZeroGrad, Backward(c.loss), OptimizerStep];
    var detach: seq<Event<D, T>> := DetachEvents(ctx.detach);
    assert c.events == [crit] + reg + update + detach;
    ProjectConcat([crit] + reg + update, detach, f);
    ProjectConcat([crit] + reg, update, f);
    ProjectConcat([crit], reg, f);
    ProjectSingle(crit, f);
    if ctx.regularized {
      ProjectSingle(reg[0], f);
    }
    assert update == [ZeroGrad] + [Backward(c.loss)] + [OptimizerStep];
    ProjectConcat([ZeroGrad] + [Backward(c.loss)], [OptimizerStep], f);
    ProjectConcat<D, T, X>([ZeroGrad], [Backward(c.loss)], f);
    ProjectSingle<D, T, X>(ZeroGrad, f);
    ProjectSingle<D, T, X>(Backward(c.loss), f);
    ProjectSingle<D, T, X>(OptimizerStep, f);
    ProjectDetachSilent(ctx.detach, f);
  }

  /** A close shows the optimizer exactly one zero_grad, backward, step, in that order. */
  lemma CloseUpdates<D, T>(ctx: Ctx, losses: Losses<T>, i: nat, lo: nat, hi: nat, target: Target<T>)
    requires lo <= hi
    ensures Project(Close<D, T>(ctx, losses, i, lo, hi, target).events, UpdateOf<D, T>) == [ZeroGradKind, BackwardKind, StepKind]
  {
    var c := Close<D, T>(ctx, losses, i, lo, hi, target);
    ProjectClose<D, T, Kind>(ctx, losses, i, lo, hi, target, UpdateOf<D, T>);
    assert UpdateOf<D, T>(Criterion(LossSignal(ctx, i, lo, hi), target)) == [];
    assert UpdateOf<D, T>(Regularize(RegSignal(ctx, i, lo, hi))) == [];
    assert UpdateOf<D, T>(ZeroGrad) == [ZeroGradKind];
    assert UpdateOf<D, T>(Backward(c.loss)) == [BackwardKind];
    assert UpdateOf<D, T>(OptimizerStep) == [StepKind];
  }

  /** A close calls the network no more. */
  lemma CloseInputs<D, T>(ctx: Ctx, losses: Losses<T>, i: nat, lo: nat, hi: nat, target: Target<T>)
    requires lo <= hi
    ensures Project(Close<D, T>(ctx, losses, i, lo, hi, target).events, InputOf<D, T>) == []
  {
    var c := Close<D, T>(ctx, losses, i, lo, hi, target);
    ProjectClose<D, T, Input<D>>(ctx, losses, i, lo, hi, target, InputOf<D, T>);
    assert InputOf<D, T>(Criterion(LossSignal(ctx, i, lo, hi), target)) == [];
    assert InputOf<D, T>(Regularize(RegSignal(ctx, i, lo, hi))) == [];
    assert InputOf<D, T>(ZeroGrad) == [];
    assert InputOf<D, T>(Backward(c.loss)) == [];
    assert InputOf<D, T>(OptimizerStep) == [];
  }

  /** The full window `m` through `f`: its forward calls, then its close. */
  lemma FullWindowProject<D, T, X>(ctx: Ctx, losses: Losses<T>, b: Batch<D, T>, i: nat, kc: nat, m: nat, f: Event<D, T> -> seq<X>)
    requires ValidCtx(ctx) && m * ctx.k + ctx.k <= ctx.numSteps
    ensures var lo := m * ctx.k;
      var c := Close<D, T>(ctx, losses, i, lo, lo + ctx.k, FullTarget(ctx, b.targets, kc + m));
      (m + 1) * ctx.k < ctx.numSteps + ctx.k &&
      Project(WindowsSeg(ctx, losses, b, i, kc, m + 1).log, f) ==
      Project(WindowsSeg(ctx, losses, b, i, kc, m).log, f) +
      Project(Forwards<D, T>(b.data, ctx.timeVar, lo, lo + ctx.k), f) + Project(c.events, f)
  {
    var lo := m * ctx.k;
    var prev := WindowsSeg(ctx, losses, b, i, kc, m).log;
    var fw := Forwards<D, T>(b.data, ctx.timeVar, lo, lo + ctx.k);
    var c := Close<D, T>(ctx, losses, i, lo, lo + ctx.k, FullTarget(ctx, b.targets, kc + m));
    WindowsSegNext(ctx, losses, b, i, kc, m, lo);
    ProjectConcat(prev + fw, c.events, f);
    ProjectConcat(prev, fw, f);
  }

  /** The remainder window `m` through `f`: its forward calls, then its close. */
  lemma RemainderProject<D, T, X>(ctx: Ctx, losses: Losses<T>, b: Batch<D, T>, i: nat, kc: nat, m: nat, f: Event<D, T> -> seq<X>)
    requires ValidCtx(ctx) && m * ctx.k < ctx.numSteps < m * ctx.k + ctx.k
    ensures var lo := m * ctx.k;
      var c := Close<D, T>(ctx, losses, i, lo, ctx.numSteps, RemainderTarget(ctx, b.targets, kc + m));
      (m + 1) * ctx.k < ctx.numSteps + ctx.k && m == ctx.numSteps / ctx.k && lo + ctx.numSteps % ctx.k == ctx.numSteps &&
      Project(WindowsSeg(ctx, losses, b, i, kc, m + 1).log, f) ==
      Project(WindowsSeg(ctx, losses, b, i, kc, m).log, f) +
      Project(Forwards<D, T>(b.data, ctx.timeVar, lo, ctx.numSteps), f) + Project(c.events, f)
  {
    var lo := m * ctx.k;
    var prev := WindowsSeg(ctx, losses, b, i, kc, m).log;
    var fw := Forwards<D, T>(b.data, ctx.timeVar, lo, ctx.numSteps);
    var c := Close<D, T>(ctx, losses, i, lo, ctx.numSteps, RemainderTarget(ctx, b.targets, kc + m));
    RemainderNext(ctx, losses, b, i, kc, m, lo);
    DivModUnique(ctx.numSteps, ctx.k, m, ctx.numSteps - lo);
    ProjectConcat(prev + fw, c.events, f);
    ProjectConcat(prev, fw, f);
  }

  /** The last step of window `p`, plus one. */
  function WindowHi(ctx: Ctx, p: nat): nat {
    if p * ctx.k + ctx.k <= ctx.numSteps then p * ctx.k + ctx.k else ctx.numSteps
  }

  /** The target window `p` hands the criterion. */
  function WindowTarget<T>(ctx: Ctx, targets: T, kc: nat, p: nat): Target<T>
    requires ctx.k >= 1
  {
    if p * ctx.k + ctx.k <= ctx.numSteps then FullTarget(ctx, targets, kc + p) else RemainderTarget(ctx, targets, kc + p)
  }

  /** Window `p` through `f`, full or remainder: its forward calls, then its close. */
  lemma WindowStep<D, T, X>(ctx: Ctx, losses: Losses<T>, b: Batch<D, T>, i: nat, kc: nat, p: nat, f: Event<D, T> -> seq<X>)
    requires ValidCtx(ctx) && p * ctx.k < ctx.numSteps
    ensures p * ctx.k <= WindowHi(ctx, p) && (p + 1) * ctx.k < ctx.numSteps + ctx.k
    ensures Project(WindowsSeg(ctx, losses, b, i, kc, p + 1).log, f) ==
      Project(WindowsSeg(ctx, losses, b, i, kc, p).log, f) +
      Project(Forwards<D, T>(b.data, ctx.timeVar, p * ctx.k, WindowHi(ctx, p)), f) +
      Project(Close<D, T>(ctx, losses, i, p * ctx.k, WindowHi(ctx, p), WindowTarget(ctx, b.targets, kc, p)).events, f)
  {
    if p * ctx.k + ctx.k <= ctx.numSteps {
      FullWindowProject(ctx, losses, b, i, kc, p, f);
    } else {
      RemainderProject(ctx, losses, b, i, kc, p, f);
    }
  }

  /** A batch through `f`: its reset, then its `ceil(num_steps / K)` windows. */
  lemma BatchProject<D, T, X>(ctx: Ctx, losses: Losses<T>, b: Batch<D, T>, i: nat, kc: nat, f: Event<D, T> -> seq<X>)
    requires ValidCtx(ctx)
    ensures CeilDiv(ctx.numSteps, ctx.k) * ctx.k < ctx.numSteps + ctx.k &&
      Project(BatchSeg(ctx, losses, b, i, kc).log, f) ==
      f(Reset) + Project(WindowsSeg(ctx, losses, b, i, kc, CeilDiv(ctx.numSteps, ctx.k)).log, f)
  {
    CeilDivIsCeiling(ctx.numSteps, ctx.k);
    var w := WindowsSeg(ctx, losses, b, i, kc, CeilDiv(ctx.numSteps, ctx.k)).log;
    ProjectConcat([Reset], w, f);
    ProjectSingle(Reset, f);
  }

  // ---------------------------------------------------------------------------------
  // Forward inputs (lines 169-186): step `s` gets `data[s]` when `time_var`, else `data`.

  lemma {:induction false} ForwardsInputs<D, T>(data: D, timeVar: bool, lo: nat, hi: nat)
    requires lo <= hi
    ensures var r := Project(Forwards<D, T>(data, timeVar, lo, hi), InputOf<D, T>);
      |r| == hi - lo && forall j :: 0 <= j < |r| ==> r[j] == InputAt(data, timeVar, lo + j)
    decreases hi - lo
  {
    if hi > lo {
      var e: Event<D, T> := Forward(InputAt(data, timeVar, hi - 1));
      ForwardsInputs<D, T>(data, timeVar, lo, hi - 1);
      ProjectConcat(Forwards<D, T>(data, timeVar, lo, hi - 1), [e], InputOf<D, T>);
      ProjectSingle(e, InputOf<D, T>);
    }
  }

  /** Appending the inputs of steps `lo .. hi-1` to those of steps `0 .. lo-1`. */
  lemma InputsExtend<D>(a: seq<Input<D>>, c: seq<Input<D>>, data: D, timeVar: bool, lo: nat, hi: nat)
    requires lo <= hi
    requires |a| == lo && forall s :: 0 <= s < |a| ==> a[s] == InputAt(data, timeVar, s)
    requires |c| == hi - lo && forall j :: 0 <= j < |c| ==> c[j] == InputAt(data, timeVar, lo + j)
    ensures |a + c| == hi && forall s :: 0 <= s < hi ==> (a + c)[s] == InputAt(data, timeVar, s)
  {
    forall s | 0 <= s < hi
      ensures (a + c)[s] == InputAt(data, timeVar, s)
    {
      if s >= lo {
        assert (a + c)[s] == c[s - lo];
      }
    }
  }

  /** Window `p` adds the inputs of its steps `p*K .. hi-1`. */
  lemma InputsStep<D, T>(ctx: Ctx, losses: Losses<T>, b: Batch<D, T>, i: nat, kc: nat, p: nat)
    requires ValidCtx(ctx) && p * ctx.k < ctx.numSteps
    ensures p * ctx.k <= WindowHi(ctx, p) && (p + 1) * ctx.k < ctx.numSteps + ctx.k
    ensures Project(WindowsSeg(ctx, losses, b, i, kc, p + 1).log, InputOf<D, T>) ==
      Project(WindowsSeg(ctx, losses, b, i, kc, p).log, InputOf<D, T>) +
      Project(Forwards<D, T>(b.data, ctx.timeVar, p * ctx.k, WindowHi(ctx, p)), InputOf<D, T>)
  {
    WindowStep(ctx, losses, b, i, kc, p, InputOf<D, T>);
    CloseInputs<D, T>(ctx, losses, i, p * ctx.k, WindowHi(ctx, p), WindowTarget(ctx, b.targets, kc, p));
  }

  lemma {:induction false} WindowsInputs<D, T>(ctx: Ctx, losses: Losses<T>, b: Batch<D, T>, i: nat, kc: nat, m: nat)
    requires ValidCtx(ctx) && m * ctx.k < ctx.numSteps + ctx.k
    ensures var r := Project(WindowsSeg(ctx, losses, b, i, kc, m).log, InputOf<D, T>);
      |r| == (if m * ctx.k <= ctx.numSteps then m * ctx.k else ctx.numSteps) &&
      forall s :: 0 <= s < |r| ==> r[s] == InputAt(b.data, ctx.timeVar, s)
  {
    if m > 0 {
      var p := m - 1;
      var lo := p * ctx.k;
      MulSucc(p, ctx.k);
      WindowsInputs(ctx, losses, b, i, kc, p);
      InputsStep(ctx, losses, b, i, kc, p);
      var hi := WindowHi(ctx, p);
      ForwardsInputs<D, T>(b.data, ctx.timeVar, lo, hi);
      InputsExtend(Project(WindowsSeg(ctx, losses, b, i, kc, p).log, InputOf<D, T>),
                   Project(Forwards<D, T>(b.data, ctx.timeVar, lo, hi), InputOf<D, T>), b.data, ctx.timeVar, lo, hi);
    }
  }

  /**
   * A batch calls the network `num_steps` times, in step order; the call at step `s`
   * gets `data[s]` when `time_var`, else the whole of `data`.
   */
  lemma BatchInputs<D, T>(ctx: Ctx, losses: Losses<T>, b: Batch<D, T>, i: nat, kc: nat)
    requires ValidCtx(ctx)
    ensures var r := Project(BatchSeg(ctx, losses, b, i, kc).log, InputOf<D, T>);
      |r| == ctx.numSteps &&
      forall s :: 0 <= s < |r| ==> r[s] == if ctx.timeVar then At(b.data, s) else Whole(b.data)
  {
    var q := CeilDiv(ctx.numSteps, ctx.k);
    BatchProject(ctx, losses, b, i, kc, InputOf<D, T>);
    CeilDivIsCeiling(ctx.numSteps, ctx.k);
    WindowsInputs(ctx, losses, b, i, kc, q);
  }

  // ---------------------------------------------------------------------------------
  // Criterion calls (lines 210-225 and 259-274).

  /** Length of window `p`: `K` for the full ones, `num_steps % K` for the remainder. */
  function WindowLen(ctx: Ctx, p: nat): nat
    requires ValidCtx(ctx)
  {
    if p < ctx.numSteps / ctx.k then ctx.k else ctx.numSteps % ctx.k
  }

  /**
   * The criterion call closing window `p` of batch `i`, entered with `K_count == kc`:
   * the record of the window's steps, and the target slice of the same length starting
   * at `(kc + p) * K`, or the whole target.
   */
  function WindowCall<T>(ctx: Ctx, targets: T, i: nat, kc: nat, p: nat): Call<T>
    requires ValidCtx(ctx)
  {
    var lo := p * ctx.k;
    var len := WindowLen(ctx, p);
    Call(LossSignal(ctx, i, lo, lo + len),
         if ctx.timeVarTargets then TargetSlice(targets, (kc + p) * ctx.k, (kc + p) * ctx.k + len) else AllTargets(targets))
  }

  /** The close of full window `m` makes exactly the call `WindowCall` describes. */
  lemma FullWindowCall<D, T>(ctx: Ctx, losses: Losses<T>, b: Batch<D, T>, i: nat, kc: nat, m: nat)
    requires ValidCtx(ctx) && m * ctx.k + ctx.k <= ctx.numSteps
    ensures var lo := m * ctx.k;
      Project(Close<D, T>(ctx, losses, i, lo, lo + ctx.k, FullTarget(ctx, b.targets, kc + m)).events, CallOf<D, T>) ==
      [WindowCall(ctx, b.targets, i, kc, m)]
  {
    var lo := m * ctx.k;
    MulSucc(m, ctx.k);
    MulSucc(kc + m, ctx.k);
    DivLowerBound(ctx.numSteps, ctx.k, m + 1);
    ProjectClose<D, T, Call<T>>(ctx, losses, i, lo, lo + ctx.k, FullTarget(ctx, b.targets, kc + m), CallOf<D, T>);
  }

  /** The close of the remainder window `m` makes exactly the call `WindowCall` describes. */
  lemma RemainderCall<D, T>(ctx: Ctx, losses: Losses<T>, b: Batch<D, T>, i: nat, kc: nat, m: nat)
    requires ValidCtx(ctx) && m * ctx.k < ctx.numSteps < m * ctx.k + ctx.k
    ensures var lo := m * ctx.k;
      Project(Close<D, T>(ctx, losses, i, lo, ctx.numSteps, RemainderTarget(ctx, b.targets, kc + m)).events, CallOf<D, T>) ==
      [WindowCall(ctx, b.targets, i, kc, m)]
  {
    var lo := m * ctx.k;
    DivModUnique(ctx.numSteps, ctx.k, m, ctx.numSteps - lo);
    ProjectClose<D, T, Call<T>>(ctx, losses, i, lo, ctx.numSteps, RemainderTarget(ctx, b.targets, kc + m), CallOf<D, T>);
  }

  lemma CallsExtend<T>(a: seq<Call<T>>, c: Call<T>, ctx: Ctx, targets: T, i: nat, kc: nat, m: nat)
    requires ValidCtx(ctx)
    requires |a| == m && forall p :: 0 <= p < |a| ==> a[p] == WindowCall(ctx, targets, i, kc, p)
    requires c == WindowCall(ctx, targets, i, kc, m)
    ensures |a + [c]| == m + 1 && forall p :: 0 <= p < m + 1 ==> (a + [c])[p] == WindowCall(ctx, targets, i, kc, p)
  {
  }

  /** The close of window `p` makes exactly the call `WindowCall` describes. */
  lemma CloseCall<D, T>(ctx: Ctx, losses: Losses<T>, b: Batch<D, T>, i: nat, kc: nat, p: nat)
    requires ValidCtx(ctx) && p * ctx.k < ctx.numSteps
    ensures p * ctx.k <= WindowHi(ctx, p)
    ensures Project(Close<D, T>(ctx, losses, i, p * ctx.k, WindowHi(ctx, p), WindowTarget(ctx, b.targets, kc, p)).events, CallOf<D, T>) ==
      [WindowCall(ctx, b.targets, i, kc, p)]
  {
    if p * ctx.k + ctx.k <= ctx.numSteps {
      FullWindowCall(ctx, losses, b, i, kc, p);
    } else {
      RemainderCall(ctx, losses, b, i, kc, p);
    }
  }

  /** Window `p` adds its one criterion call. */
  lemma CallsStep<D, T>(ctx: Ctx, losses: Losses<T>, b: Batch<D, T>, i: nat, kc: nat, p: nat)
    requires ValidCtx(ctx) && p * ctx.k < ctx.numSteps
    ensures (p + 1) * ctx.k < ctx.numSteps + ctx.k
    ensures Project(WindowsSeg(ctx, losses, b, i, kc, p + 1).log, CallOf<D, T>) ==
      Project(WindowsSeg(ctx, losses, b, i, kc, p).log, CallOf<D, T>) + [WindowCall(ctx, b.targets, i, kc, p)]
  {
    WindowStep(ctx, losses, b, i, kc, p, CallOf<D, T>);
    ForwardsNoCalls<D, T>(b.data, ctx.timeVar, p * ctx.k, WindowHi(ctx, p));
    CloseCall(ctx, losses, b, i, kc, p);
  }

  lemma {:induction false} WindowsCalls<D, T>(ctx: Ctx, losses: Losses<T>, b: Batch<D, T>, i: nat, kc: nat, m: nat)
    requires ValidCtx(ctx) && m * ctx.k < ctx.numSteps + ctx.k
    ensures var r := Project(WindowsSeg(ctx, losses, b, i, kc, m).log, CallOf<D, T>);
      |r| == m && forall p :: 0 <= p < m ==> r[p] == WindowCall(ctx, b.targets, i, kc, p)
  {
    if m > 0 {
      MulSucc(m - 1, ctx.k);
      WindowsCalls(ctx, losses, b, i, kc, m - 1);
      CallsStep(ctx, losses, b, i, kc, m - 1);
      CallsExtend(Project(WindowsSeg(ctx, losses, b, i, kc, m - 1).log, CallOf<D, T>),
                  WindowCall(ctx, b.targets, i, kc, m - 1), ctx, b.targets, i, kc, m - 1);
    }
  }

  /** A batch calls the criterion once per window, in window order, as `WindowCall` says. */
  lemma BatchCalls<D, T>(ctx: Ctx, losses: Losses<T>, b: Batch<D, T>, i: nat, kc: nat)
    requires ValidCtx(ctx)
    ensures var r := Project(BatchSeg(ctx, losses, b, i, kc).log, CallOf<D, T>);
      |r| == CeilDiv(ctx.numSteps, ctx.k) &&
      forall p :: 0 <= p < |r| ==> r[p] == WindowCall(ctx, b.targets, i, kc, p)
  {
    BatchProject(ctx, losses, b, i, kc, CallOf<D, T>);
    WindowsCalls(ctx, losses, b, i, kc, CeilDiv(ctx.numSteps, ctx.k));
  }

  /**
   * The windows of a batch tile its steps: window 0 starts at step 0, every window but
   * the last holds `K` steps and ends where the next starts, and the last ends at
   * `num_steps`. No window is empty.
   */
  lemma WindowsTile(ctx: Ctx, p: nat)
    requires ValidCtx(ctx) && p < CeilDiv(ctx.numSteps, ctx.k)
    ensures 1 <= WindowLen(ctx, p) <= ctx.k
    ensures p + 1 < CeilDiv(ctx.numSteps, ctx.k) ==> WindowLen(ctx, p) == ctx.k && p * ctx.k + ctx.k == (p + 1) * ctx.k
    ensures p + 1 == CeilDiv(ctx.numSteps, ctx.k) ==> p * ctx.k + WindowLen(ctx, p) == ctx.numSteps
  {
    var n, K := ctx.numSteps, ctx.k;
    var q := n / K;
    DivModParts(n, K);
    MulSucc(p, K);
  }

  /**
   * With time-varying targets, the first batch (`K_count == 0`) gives window `p` the
   * target slice of its own steps: `targets[p*K : p*K + len]`, `len` being the length of
   * the record it gets. Without them every window gets the whole target.
   */
  lemma FirstBatchTargets<D, T>(ctx: Ctx, losses: Losses<T>, b: Batch<D, T>, p: nat)
    requires ValidCtx(ctx) && p < CeilDiv(ctx.numSteps, ctx.k)
    ensures var r := Project(BatchSeg(ctx, losses, b, 0, 0).log, CallOf<D, T>);
      p < |r| && |r[p].signal| == WindowLen(ctx, p) &&
      r[p].target == if ctx.timeVarTargets then TargetSlice(b.targets, p * ctx.k, p * ctx.k + |r[p].signal|) else AllTargets(b.targets)
  {
    BatchCalls(ctx, losses, b, 0, 0);
  }

  /**
   * The criterion reads the spike record (slot 0) iff the matched table entry's first
   * flag is set, else the membrane (the last output); the regularizer reads the spikes
   * iff it is `l1_rate_sparsity`.
   */
  lemma RecordChoice(cfg: Config, k: int)
    requires ValidArgs(cfg, k) && k <= cfg.numSteps
    ensures var ctx := Resolve(cfg, k);
      (ctx.lossSpk <==> exists j :: 0 <= j < |CriterionTable| && CriterionTable[j].key == cfg.criterionName &&
                                    CriterionTable[j].value.lossSpk) &&
      (ctx.regSpk <==> cfg.regularization == Some("l1_rate_sparsity")) &&
      ctx.memSlot == cfg.numReturn - 1
  {
    var spec := CriterionOf(cfg.criterionName, cfg.criterionTimeVarTargets);
    if spec.lossSpk == Some(true) {
      var j :| 0 <= j < |CriterionTable| && CriterionTable[j].key == cfg.criterionName;
      assert CriterionTable[j].value.lossSpk;
    }
  }
  // ---------------------------------------------------------------------------------
  // Update order (lines 236-238 and 285-287).

  /** `u` updates, each zero_grad, then backward, then step. */
  function Cycle(u: nat): (r: seq<Kind>)
    ensures |r| == 3 * u
  {
    if u == 0 then [] else Cycle(u - 1) + [ZeroGradKind, BackwardKind, StepKind]
  }

  /** `Cycle(u)` is zero_grad, backward, step, read off the position modulo 3. */
  lemma {:induction false} CyclePattern(u: nat)
    ensures forall j :: 0 <= j < 3 * u ==> Cycle(u)[j] == if j % 3 == 0 then ZeroGradKind else if j % 3 == 1 then BackwardKind else StepKind
  {
    if u > 0 {
      CyclePattern(u - 1);
      forall j | 3 * (u - 1) <= j < 3 * u
        ensures Cycle(u)[j] == if j % 3 == 0 then ZeroGradKind else if j % 3 == 1 then BackwardKind else StepKind
      {
        DivModUnique(j, 3, u - 1, j - 3 * (u - 1));
      }
    }
  }

  lemma {:induction false} CycleConcat(a: nat, b: nat)
    ensures Cycle(a) + Cycle(b) == Cycle(a + b)
  {
    if b > 0 {
      CycleConcat(a, b - 1);
      assert Cycle(a) + Cycle(b) == Cycle(a) + Cycle(b - 1) + [ZeroGradKind, BackwardKind, StepKind];
    }
  }

  /** Window `p` adds one zero_grad, backward, step. */
  lemma UpdatesStep<D, T>(ctx: Ctx, losses: Losses<T>, b: Batch<D, T>, i: nat, kc: nat, p: nat)
    requires ValidCtx(ctx) && p * ctx.k < ctx.numSteps
    ensures (p + 1) * ctx.k < ctx.numSteps + ctx.k
    ensures Project(WindowsSeg(ctx, losses, b, i, kc, p + 1).log, UpdateOf<D, T>) ==
      Project(WindowsSeg(ctx, losses, b, i, kc, p).log, UpdateOf<D, T>) + [ZeroGradKind, BackwardKind, StepKind]
  {
    WindowStep(ctx, losses, b, i, kc, p, UpdateOf<D, T>);
    ForwardsNoUpdates<D, T>(b.data, ctx.timeVar, p * ctx.k, WindowHi(ctx, p));
    CloseUpdates<D, T>(ctx, losses, i, p * ctx.k, WindowHi(ctx, p), WindowTarget(ctx, b.targets, kc, p));
  }

  lemma {:induction false} WindowsUpdates<D, T>(ctx: Ctx, losses: Losses<T>, b: Batch<D, T>, i: nat, kc: nat, m: nat)
    requires ValidCtx(ctx) && m * ctx.k < ctx.numSteps + ctx.k
    ensures Project(WindowsSeg(ctx, losses, b, i, kc, m).log, UpdateOf<D, T>) == Cycle(m)
  {
    if m > 0 {
      MulSucc(m - 1, ctx.k);
      WindowsUpdates(ctx, losses, b, i, kc, m - 1);
      UpdatesStep(ctx, losses, b, i, kc, m - 1);
      assert Cycle(m) == Cycle(m - 1) + [ZeroGradKind, BackwardKind, StepKind];
    }
  }

  /** A batch updates the weights once per window. */
  lemma BatchUpdates<D, T>(ctx: Ctx, losses: Losses<T>, b: Batch<D, T>, i: nat, kc: nat)
    requires ValidCtx(ctx)
    ensures Project(BatchSeg(ctx, losses, b, i, kc).log, UpdateOf<D, T>) == Cycle(CeilDiv(ctx.numSteps, ctx.k))
  {
    BatchProject(ctx, losses, b, i, kc, UpdateOf<D, T>);
    WindowsUpdates(ctx, losses, b, i, kc, CeilDiv(ctx.numSteps, ctx.k));
  }

  lemma {:induction false} BatchesUpdates<D, T>(ctx: Ctx, losses: Losses<T>, loader: seq<Batch<D, T>>, j: nat)
    requires ValidCtx(ctx) && j <= |loader|
    ensures Project(BatchesSeg(ctx, losses, loader, j).log, UpdateOf<D, T>) == Cycle(j * CeilDiv(ctx.numSteps, ctx.k))
  {
    if j > 0 {
      var q := CeilDiv(ctx.numSteps, ctx.k);
      BatchesUpdates(ctx, losses, loader, j - 1);
      BatchesSegNext(ctx, losses, loader, j - 1);
      var prev := BatchesSeg(ctx, losses, loader, j - 1);
      var bs := BatchSeg(ctx, losses, loader[j - 1], j - 1, prev.kCount);
      ProjectConcat(prev.log, bs.log, UpdateOf<D, T>);
      BatchUpdates(ctx, losses, loader[j - 1], j - 1, prev.kCount);
      CycleConcat((j - 1) * q, q);
      MulSucc(j - 1, q);
    }
  }

  /**
   * Every weight update of a completed run is zero_grad, backward, step, in that order,
   * with no other optimizer or backward call between: the run's such calls are the
   * pattern repeated `ceil(num_steps / K)` times per batch.
   */
  lemma RunUpdateOrder<D, T>(cfg: Config, k: int, loader: seq<Batch<D, T>>, losses: Losses<T>)
    requires ValidArgs(cfg, k)
    ensures var o := Run(cfg, k, loader, losses);
      o.result.Success? ==> Project(o.log, UpdateOf<D, T>) == Cycle(|loader| * CeilDiv(cfg.numSteps, k))
  {
    var o := Run(cfg, k, loader, losses);
    if o.result.Success? {
      RunErrors(cfg, k, loader, losses);
      assert k <= cfg.numSteps;
      var ctx := Resolve(cfg, k);
      if !LookupsOk(cfg) && |loader| > 0 {
        RunUnbound(cfg, k, loader, losses);
      } else {
        RunCompletes(cfg, k, loader, losses);
        var s := BatchesSeg(ctx, losses, loader, |loader|);
        ProjectConcat([Reset], s.log, UpdateOf<D, T>);
        ProjectSingle(Reset, UpdateOf<D, T>);
        BatchesUpdates(ctx, losses, loader, |loader|);
      }
    }
  }
}

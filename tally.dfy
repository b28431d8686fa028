/**
 * How often the schedule calls each collaborator: per window close, per batch and
 * over the whole run, and the zero_grad / backward / step order of every update.
 */
module Tally {
  import opened Neurons
  import opened Events
  import opened Schedule
  import opened Arith

  /** The calls one window close makes, by kind. */
  function PerClose(ctx: Ctx, k: Kind): nat {
    match k
    case CriterionKind => 1
    case RegularizeKind => if ctx.regularized then 1 else 0
    case ZeroGradKind => 1
    case BackwardKind => 1
    case StepKind => 1
    case DetachKind => |ctx.detach|
    case _ => 0
  }

  /**
   * The calls one batch makes, by kind: one reset, `num_steps` forward calls, and
   * `ceil(num_steps / K)` window closes.
   */
  function PerBatch(ctx: Ctx, k: Kind): nat
    requires ValidCtx(ctx)
  {
    (if k == ResetKind then 1 else 0) + (if k == ForwardKind then ctx.numSteps else 0) +
    CeilDiv(ctx.numSteps, ctx.k) * PerClose(ctx, k)
  }

  lemma CountSingle<D, T>(e: Event<D, T>, k: Kind)
    ensures Count([e], k) == if KindOf(e) == k then 1 else 0
  {
    assert [e][1..] == [];
  }

  lemma {:induction false} DetachCount<D, T>(cs: seq<NeuronClass>, k: Kind)
    ensures Count(DetachEvents<D, T>(cs), k) == if k == DetachKind then |cs| else 0
  {
    if cs != [] {
      DetachCount<D, T>(cs[1..], k);
      CountConcat<D, T>([Detach(cs[0])], DetachEvents(cs[1..]), k);
      CountSingle<D, T>(Detach(cs[0]), k);
    }
  }

  lemma {:induction false} ForwardsCount<D, T>(data: D, timeVar: bool, lo: nat, hi: nat, k: Kind)
    requires lo <= hi
    ensures Count(Forwards<D, T>(data, timeVar, lo, hi), k) == if k == ForwardKind then hi - lo else 0
    decreases hi - lo
  {
    if hi > lo {
      ForwardsCount<D, T>(data, timeVar, lo, hi - 1, k);
      CountConcat(Forwards<D, T>(data, timeVar, lo, hi - 1), [Forward(InputAt(data, timeVar, hi - 1))], k);
      CountSingle<D, T>(Forward(InputAt(data, timeVar, hi - 1)), k);
    }
  }

  lemma LossCallsCount<D, T>(ctx: Ctx, i: nat, lo: nat, hi: nat, target: Target<T>, k: Kind)
    requires lo <= hi
    ensures Count(LossCalls<D, T>(ctx, i, lo, hi, target), k) ==
      (if k == CriterionKind then 1 else 0) + (if k == RegularizeKind && ctx.regularized then 1 else 0)
  {
    var crit: seq<Event<D, T>> := [Criterion(LossSignal(ctx, i, lo, hi), target)];
    var reg: seq<Event<D, T>> := if ctx.regularized then [Regularize(RegSignal(ctx, i, lo, hi))] else [];
    CountConcat(crit, reg, k);
    CountSingle(crit[0], k);
    if ctx.regularized {
      CountSingle(reg[0], k);
    }
  }

  lemma UpdateCount<D, T>(loss: real, k: Kind)
    ensures Count<D, T>([ZeroGrad, Backward(loss), OptimizerStep], k) ==
      (if k == ZeroGradKind then 1 else 0) + (if k == BackwardKind then 1 else 0) + (if k == StepKind then 1 else 0)
  {
    var update: seq<Event<D, T>> := [ZeroGrad, Backward(loss), OptimizerStep];
    assert update == [ZeroGrad] + ([Backward(loss)] + [OptimizerStep]);
    CountConcat<D, T>([ZeroGrad], [Backward(loss)] + [OptimizerStep], k);
    CountConcat<D, T>([Backward(loss)], [OptimizerStep], k);
    CountSingle<D, T>(ZeroGrad, k);
    CountSingle<D, T>(Backward(loss), k);
    CountSingle<D, T>(OptimizerStep, k);
  }

  /** Every close makes the same calls, whatever its window and target. */
  lemma CloseCount<D, T>(ctx: Ctx, losses: Losses<T>, i: nat, lo: nat, hi: nat, target: Target<T>, k: Kind)
    requires lo <= hi
    ensures Count(Close<D, T>(ctx, losses, i, lo, hi, target).events, k) == PerClose(ctx, k)
  {
    var loss := WindowLoss(ctx, losses, i, lo, hi, target);
    var calls: seq<Event<D, T>> := LossCalls(ctx, i, lo, hi, target);
    var update: seq<Event<D, T>> := [ZeroGrad, Backward(loss), OptimizerStep];
    var detach: seq<Event<D, T>> := DetachEvents(ctx.detach);
    CountConcat(calls + update, detach, k);
    CountConcat(calls, update, k);
    LossCallsCount<D, T>(ctx, i, lo, hi, target, k);
    UpdateCount<D, T>(loss, k);
    DetachCount<D, T>(ctx.detach, k);
  }

  lemma CountParts<D, T>(a: seq<Event<D, T>>, b: seq<Event<D, T>>, c: seq<Event<D, T>>, k: Kind, nb: nat, nc: nat)
    requires Count(b, k) == nb && Count(c, k) == nc
    ensures Count(a + b + c, k) == Count(a, k) + nb + nc
  {
    CountConcat(a + b, c, k);
    CountConcat(a, b, k);
  }

  /** The calls of one full window: its forward calls and its close. */
  function PerWindow(ctx: Ctx, k: Kind): nat {
    PerClose(ctx, k) + if k == ForwardKind then ctx.k else 0
  }

  lemma WindowCount<D, T>(ctx: Ctx, losses: Losses<T>, b: Batch<D, T>, i: nat, kc: nat, m: nat, k: Kind)
    requires ValidCtx(ctx) && m * ctx.k + ctx.k <= ctx.numSteps
    ensures Count(WindowsSeg(ctx, losses, b, i, kc, m + 1).log, k) == Count(WindowsSeg(ctx, losses, b, i, kc, m).log, k) + PerWindow(ctx, k)
  {
    var lo := m * ctx.k;
    var prev := WindowsSeg(ctx, losses, b, i, kc, m).log;
    var f := Forwards<D, T>(b.data, ctx.timeVar, lo, lo + ctx.k);
    var target := FullTarget(ctx, b.targets, kc + m);
    var c := Close<D, T>(ctx, losses, i, lo, lo + ctx.k, target).events;
    WindowsSegNext(ctx, losses, b, i, kc, m, lo);
    ForwardsCount<D, T>(b.data, ctx.timeVar, lo, lo + ctx.k, k);
    CloseCount<D, T>(ctx, losses, i, lo, lo + ctx.k, target, k);
    CountParts(prev, f, c, k, if k == ForwardKind then ctx.k else 0, PerClose(ctx, k));
  }

  lemma {:induction false} WindowsCount<D, T>(ctx: Ctx, losses: Losses<T>, b: Batch<D, T>, i: nat, kc: nat, m: nat, k: Kind)
    requires ValidCtx(ctx) && m * ctx.k <= ctx.numSteps
    ensures Count(WindowsSeg(ctx, losses, b, i, kc, m).log, k) == m * PerWindow(ctx, k)
  {
    if m > 0 {
      MulSucc(m - 1, ctx.k);
      WindowsCount(ctx, losses, b, i, kc, m - 1, k);
      WindowCount(ctx, losses, b, i, kc, m - 1, k);
      MulSucc(m - 1, PerWindow(ctx, k));
    }
  }

  lemma BatchArith(q: nat, K: nat, rem: nat, pc: nat, fwd: bool)
    ensures q * (pc + if fwd then K else 0) + (if rem != 0 then pc + (if fwd then rem else 0) else 0) ==
      (if fwd then q * K + rem else 0) + (q + if rem != 0 then 1 else 0) * pc
  {
    MulSucc(q, pc);
  }

  /** A batch whose steps `K` divides: a reset and `num_steps / K` full windows. */
  lemma DividedBatchCount<D, T>(ctx: Ctx, losses: Losses<T>, b: Batch<D, T>, i: nat, kc: nat, k: Kind)
    requires ValidCtx(ctx) && ctx.numSteps % ctx.k == 0
    ensures Count(BatchSeg(ctx, losses, b, i, kc).log, k) ==
      (if k == ResetKind then 1 else 0) + Count(WindowsSeg(ctx, losses, b, i, kc, ctx.numSteps / ctx.k).log, k)
  {
    var full := WindowsSeg(ctx, losses, b, i, kc, ctx.numSteps / ctx.k).log;
    assert CeilDiv(ctx.numSteps, ctx.k) == ctx.numSteps / ctx.k;
    assert BatchSeg(ctx, losses, b, i, kc).log == [Reset] + full;
    CountConcat<D, T>([Reset], full, k);
    CountSingle<D, T>(Reset, k);
  }

  /** A batch with a remainder: a reset, the full windows, then the remainder window. */
  lemma RemainderBatchCount<D, T>(ctx: Ctx, losses: Losses<T>, b: Batch<D, T>, i: nat, kc: nat, k: Kind)
    requires ValidCtx(ctx) && ctx.numSteps % ctx.k != 0
    ensures Count(BatchSeg(ctx, losses, b, i, kc).log, k) ==
      (if k == ResetKind then 1 else 0) + Count(WindowsSeg(ctx, losses, b, i, kc, ctx.numSteps / ctx.k).log, k) +
      PerClose(ctx, k) + (if k == ForwardKind then ctx.numSteps % ctx.k else 0)
  {
    var n, K := ctx.numSteps, ctx.k;
    var q := n / K;
    var lo := q * K;
    var full := WindowsSeg(ctx, losses, b, i, kc, q).log;
    RemainderBatch(ctx, losses, b, i, kc);
    var fw := Forwards<D, T>(b.data, ctx.timeVar, lo, n);
    var target := RemainderTarget(ctx, b.targets, kc + q);
    var c := Close<D, T>(ctx, losses, i, lo, n, target).events;
    assert BatchSeg(ctx, losses, b, i, kc).log == [Reset] + full + fw + c;
    ForwardsCount<D, T>(b.data, ctx.timeVar, lo, n, k);
    CloseCount<D, T>(ctx, losses, i, lo, n, target, k);
    CountParts([Reset] + full, fw, c, k, if k == ForwardKind then n - lo else 0, PerClose(ctx, k));
    CountConcat<D, T>([Reset], full, k);
    CountSingle<D, T>(Reset, k);
  }

  /** One batch: a reset, `num_steps` forward calls and `ceil(num_steps / K)` closes. */
  lemma BatchCount<D, T>(ctx: Ctx, losses: Losses<T>, b: Batch<D, T>, i: nat, kc: nat, k: Kind)
    requires ValidCtx(ctx)
    ensures Count(BatchSeg(ctx, losses, b, i, kc).log, k) == PerBatch(ctx, k)
  {
    var n, K := ctx.numSteps, ctx.k;
    var q, rem := n / K, n % K;
    if rem == 0 {
      DividedBatchCount(ctx, losses, b, i, kc, k);
    } else {
      RemainderBatchCount(ctx, losses, b, i, kc, k);
    }
    DivModParts(n, K);
    WindowsCount(ctx, losses, b, i, kc, q, k);
    BatchArith(q, K, rem, PerClose(ctx, k), k == ForwardKind);
  }

  lemma {:induction false} BatchesCount<D, T>(ctx: Ctx, losses: Losses<T>, loader: seq<Batch<D, T>>, j: nat, k: Kind)
    requires ValidCtx(ctx) && j <= |loader|
    ensures Count(BatchesSeg(ctx, losses, loader, j).log, k) == j * PerBatch(ctx, k)
  {
    if j > 0 {
      BatchesCount(ctx, losses, loader, j - 1, k);
      BatchesSegNext(ctx, losses, loader, j - 1);
      var prev := BatchesSeg(ctx, losses, loader, j - 1);
      var b := BatchSeg(ctx, losses, loader[j - 1], j - 1, prev.kCount);
      CountConcat(prev.log, b.log, k);
      BatchCount(ctx, losses, loader[j - 1], j - 1, prev.kCount, k);
      MulSucc(j - 1, PerBatch(ctx, k));
    }
  }

  /**
   * A completed run: the setup reset, then every batch's calls. A failed run has made
   * no weight update.
   */
  lemma RunCount<D, T>(cfg: Config, k: int, loader: seq<Batch<D, T>>, losses: Losses<T>, kind: Kind)
    requires ValidArgs(cfg, k)
    ensures var o := Run(cfg, k, loader, losses);
      o.result.Success? ==>
        k <= cfg.numSteps &&
        Count(o.log, kind) == (if kind == ResetKind then 1 else 0) + |loader| * PerBatch(Resolve(cfg, k), kind)
    ensures var o := Run(cfg, k, loader, losses);
      o.result.Failure? ==> Updates(o.log) == 0
  {
    if k <= cfg.numSteps {
      var ctx := Resolve(cfg, k);
      if !LookupsOk(cfg) && |loader| > 0 {
        RunUnbound(cfg, k, loader, losses);
        var pre := [Reset, Reset] + Forwards<D, T>(loader[0].data, cfg.timeVar, 0, k);
        var r1: seq<Event<D, T>> := [Reset];
        assert [Reset, Reset] == r1 + r1;
        CountConcat<D, T>([Reset], [Reset], StepKind);
        CountSingle<D, T>(Reset, StepKind);
        ForwardsCount<D, T>(loader[0].data, cfg.timeVar, 0, k, StepKind);
        CountConcat<D, T>([Reset, Reset], Forwards(loader[0].data, cfg.timeVar, 0, k), StepKind);
        var e: Event<D, T> := Criterion(LossSignal(ctx, 0, 0, k), FullTarget(ctx, loader[0].targets, 0));
        CountConcat(pre, [e], StepKind);
        CountSingle(e, StepKind);
      } else {
        RunCompletes(cfg, k, loader, losses);
        var s := BatchesSeg(ctx, losses, loader, |loader|);
        CountConcat<D, T>([Reset], s.log, kind);
        CountSingle<D, T>(Reset, kind);
        BatchesCount(ctx, losses, loader, |loader|, kind);
      }
    }
  }

  /** A completed run makes `ceil(num_steps / k)` weight updates per batch. */
  lemma RunUpdates<D, T>(cfg: Config, k: int, loader: seq<Batch<D, T>>, losses: Losses<T>)
    requires ValidArgs(cfg, k)
    ensures var o := Run(cfg, k, loader, losses);
      o.result.Success? ==> Updates(o.log) == |loader| * CeilDiv(cfg.numSteps, k)
  {
    RunCount(cfg, k, loader, losses, StepKind);
  }

  /** A completed run resets the network once at setup and once per batch. */
  lemma RunResets<D, T>(cfg: Config, k: int, loader: seq<Batch<D, T>>, losses: Losses<T>)
    requires ValidArgs(cfg, k)
    ensures var o := Run(cfg, k, loader, losses);
      o.result.Success? ==> Count(o.log, ResetKind) == |loader| + 1
  {
    RunCount(cfg, k, loader, losses, ResetKind);
  }

  /** A completed run calls the network `num_steps` times per batch. */
  lemma RunForwards<D, T>(cfg: Config, k: int, loader: seq<Batch<D, T>>, losses: Losses<T>)
    requires ValidArgs(cfg, k)
    ensures var o := Run(cfg, k, loader, losses);
      o.result.Success? ==> Count(o.log, ForwardKind) == |loader| * cfg.numSteps
  {
    RunCount(cfg, k, loader, losses, ForwardKind);
  }

  /** A completed run detaches every detached class once per weight update. */
  lemma RunDetaches<D, T>(cfg: Config, k: int, loader: seq<Batch<D, T>>, losses: Losses<T>)
    requires ValidArgs(cfg, k)
    ensures var o := Run(cfg, k, loader, losses);
      o.result.Success? ==>
        Count(o.log, DetachKind) == (|loader| * CeilDiv(cfg.numSteps, k)) * |DetachTargets(cfg.flags)|
  {
    var o := Run(cfg, k, loader, losses);
    RunCount(cfg, k, loader, losses, DetachKind);
    if o.result.Success? {
      MulAssoc(|loader|, CeilDiv(cfg.numSteps, k), |DetachTargets(cfg.flags)|);
    }
  }

  /**
   * A completed run of `TBPTT` with window `k`: `ceil(num_steps / k)` weight updates per
   * batch, one reset per batch plus the one at setup, `num_steps` forward calls per batch,
   * and one `detach_hidden` per update for the single detached neuron class, if any.
   */
  lemma RunTally<D, T>(cfg: Config, k: int, loader: seq<Batch<D, T>>, losses: Losses<T>)
    requires ValidArgs(cfg, k)
    ensures var o := Run(cfg, k, loader, losses);
      o.result.Success? ==>
        Updates(o.log) == |loader| * CeilDiv(cfg.numSteps, k) &&
        Count(o.log, ResetKind) == |loader| + 1 &&
        Count(o.log, ForwardKind) == |loader| * cfg.numSteps &&
        Count(o.log, DetachKind) == Updates(o.log) * |DetachTargets(cfg.flags)| &&
        |DetachTargets(cfg.flags)| <= 1
  {
    RunUpdates(cfg, k, loader, losses);
    RunResets(cfg, k, loader, losses);
    RunForwards(cfg, k, loader, losses);
    RunDetaches(cfg, k, loader, losses);
    DetachTargetsIsDictLoop(cfg.flags);
  }
}

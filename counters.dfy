/**
 * The two counters `TBPTT` carries from window to window: `K_count`, which places each
 * target slice, and `loss_avg`, the weighted sum of the window losses it returns.
 */
module Counters {
  import opened Events
  import opened Schedule
  import opened Arith
  import opened Windows

  // ---------------------------------------------------------------------------------
  // K_count (lines 246 and 289): incremented by every full window, reset to 0 only by
  // the remainder window.

  lemma {:induction false} WindowsKCount<D, T>(ctx: Ctx, losses: Losses<T>, b: Batch<D, T>, i: nat, kc: nat, m: nat)
    requires ValidCtx(ctx) && m * ctx.k <= ctx.numSteps
    ensures WindowsSeg(ctx, losses, b, i, kc, m).kCount == kc + m
  {
    if m > 0 {
      MulSucc(m - 1, ctx.k);
      WindowsKCount(ctx, losses, b, i, kc, m - 1);
      WindowsSegNext(ctx, losses, b, i, kc, m - 1, (m - 1) * ctx.k);
    }
  }

  /**
   * After a batch entered with `K_count == kc`, `K_count` is `kc + num_steps / K` when K
   * divides `num_steps`, and 0 otherwise.
   */
  lemma BatchKCount<D, T>(ctx: Ctx, losses: Losses<T>, b: Batch<D, T>, i: nat, kc: nat)
    requires ValidCtx(ctx)
    ensures BatchSeg(ctx, losses, b, i, kc).kCount ==
      if ctx.numSteps % ctx.k == 0 then kc + ctx.numSteps / ctx.k else 0
  {
    if ctx.numSteps % ctx.k == 0 {
      DivModParts(ctx.numSteps, ctx.k);
      assert CeilDiv(ctx.numSteps, ctx.k) == ctx.numSteps / ctx.k;
      WindowsKCount(ctx, losses, b, i, kc, ctx.numSteps / ctx.k);
    } else {
      RemainderBatch(ctx, losses, b, i, kc);
    }
  }

  /**
   * `K_count` is never reset between batches: when K divides `num_steps` it has grown to
   * `j * (num_steps / K)` after `j` batches; otherwise every batch leaves it at 0.
   */
  lemma {:induction false} LoaderKCount<D, T>(ctx: Ctx, losses: Losses<T>, loader: seq<Batch<D, T>>, j: nat)
    requires ValidCtx(ctx) && j <= |loader|
    ensures BatchesSeg(ctx, losses, loader, j).kCount ==
      if ctx.numSteps % ctx.k == 0 then j * (ctx.numSteps / ctx.k) else 0
  {
    if j > 0 {
      LoaderKCount(ctx, losses, loader, j - 1);
      BatchesSegNext(ctx, losses, loader, j - 1);
      var prev := BatchesSeg(ctx, losses, loader, j - 1);
      BatchKCount(ctx, losses, loader[j - 1], j - 1, prev.kCount);
      MulSucc(j - 1, ctx.numSteps / ctx.k);
    }
  }

  /**
   * Hence, with time-varying targets and K dividing `num_steps`, the first window of the
   * second batch is compared with `targets[num_steps : num_steps + K]` of that batch,
   * not with its first K targets.
   */
  lemma SecondBatchFirstTarget<D, T>(ctx: Ctx, losses: Losses<T>, loader: seq<Batch<D, T>>)
    requires ValidCtx(ctx) && ctx.numSteps % ctx.k == 0 && ctx.timeVarTargets && |loader| >= 2
    ensures var kc := BatchesSeg(ctx, losses, loader, 1).kCount;
      var r := Project(BatchSeg(ctx, losses, loader[1], 1, kc).log, CallOf<D, T>);
      |r| > 0 && r[0].target == TargetSlice(loader[1].targets, ctx.numSteps, ctx.numSteps + ctx.k)
  {
    var kc := BatchesSeg(ctx, losses, loader, 1).kCount;
    LoaderKCount(ctx, losses, loader, 1);
    DivModParts(ctx.numSteps, ctx.k);
    CeilDivIsCeiling(ctx.numSteps, ctx.k);
    BatchCalls(ctx, losses, loader[1], 1, kc);
    MulSucc(kc, ctx.k);
  }

  // ---------------------------------------------------------------------------------
  // loss_avg (lines 234 and 283): a full window adds its loss divided by num_steps / K,
  // the remainder window adds its loss divided by num_steps % K.

  /** Every criterion call returns `c` and every regularizer call `r`. */
  ghost predicate ConstantLosses<T(!new)>(losses: Losses<T>, c: real, r: real) {
    (forall s, t :: losses.criterion(s, t) == c) && (forall s :: losses.regularizer(s) == r)
  }

  /** What one window's loss is, then. */
  function WindowValue(ctx: Ctx, c: real, r: real): real {
    c + if ctx.regularized then r else 0.0
  }

  /** What a full window adds to `loss_avg` when its loss is `v`. */
  function FullShare(ctx: Ctx, v: real): real
    requires ValidCtx(ctx)
  {
    v / FullDivisor(ctx)
  }

  /** What one batch adds to `loss_avg` when every window's loss is `v`. */
  function BatchLoss(ctx: Ctx, v: real): real
    requires ValidCtx(ctx)
  {
    (ctx.numSteps / ctx.k) as real * FullShare(ctx, v) +
    (if ctx.numSteps % ctx.k == 0 then 0.0 else v / (ctx.numSteps % ctx.k) as real)
  }

  /** `m` copies of `x` added up, as the loops add them; `ScaledIsMul` says it is `m * x`. */
  function Scaled(m: nat, x: real): real {
    if m == 0 then 0.0 else Scaled(m - 1, x) + x
  }

  lemma {:induction false} ScaledIsMul(m: nat, x: real)
    ensures Scaled(m, x) == (m as real) * x
  {
    if m > 0 {
      ScaledIsMul(m - 1, x);
      assert ((m - 1) as real) * x + x == (m as real) * x;
    }
  }

  /** `BatchLoss` with the full windows' shares added up one by one. */
  lemma BatchLossScaled(ctx: Ctx, v: real)
    requires ValidCtx(ctx)
    ensures BatchLoss(ctx, v) == Scaled(ctx.numSteps / ctx.k, FullShare(ctx, v)) +
      (if ctx.numSteps % ctx.k == 0 then 0.0 else v / (ctx.numSteps % ctx.k) as real)
  {
    ScaledIsMul(ctx.numSteps / ctx.k, FullShare(ctx, v));
  }

  lemma CloseLoss<D, T(!new)>(ctx: Ctx, losses: Losses<T>, c: real, r: real, i: nat, lo: nat, hi: nat, target: Target<T>)
    requires ConstantLosses(losses, c, r) && lo <= hi
    ensures Close<D, T>(ctx, losses, i, lo, hi, target).loss == WindowValue(ctx, c, r)
  {
  }

  /** A full window adds its loss divided by `num_steps / K`. */
  lemma FullWindowLoss<D, T(!new)>(ctx: Ctx, losses: Losses<T>, c: real, r: real, b: Batch<D, T>, i: nat, kc: nat, p: nat)
    requires ValidCtx(ctx) && ConstantLosses(losses, c, r) && p * ctx.k + ctx.k <= ctx.numSteps
    ensures (p + 1) * ctx.k <= ctx.numSteps
    ensures WindowsSeg(ctx, losses, b, i, kc, p + 1).loss ==
      WindowsSeg(ctx, losses, b, i, kc, p).loss + FullShare(ctx, WindowValue(ctx, c, r))
  {
    var lo := p * ctx.k;
    WindowsSegNext(ctx, losses, b, i, kc, p, lo);
    MulSucc(p, ctx.k);
    CloseLoss<D, T>(ctx, losses, c, r, i, lo, lo + ctx.k, FullTarget(ctx, b.targets, kc + p));
  }

  lemma {:induction false} WindowsLoss<D, T(!new)>(ctx: Ctx, losses: Losses<T>, c: real, r: real, b: Batch<D, T>, i: nat, kc: nat, m: nat)
    requires ValidCtx(ctx) && ConstantLosses(losses, c, r) && m * ctx.k <= ctx.numSteps
    ensures WindowsSeg(ctx, losses, b, i, kc, m).loss == Scaled(m, FullShare(ctx, WindowValue(ctx, c, r)))
  {
    if m > 0 {
      MulSucc(m - 1, ctx.k);
      WindowsLoss(ctx, losses, c, r, b, i, kc, m - 1);
      FullWindowLoss(ctx, losses, c, r, b, i, kc, m - 1);
    }
  }

  /** When K divides `num_steps`, a batch is its `num_steps / K` full windows. */
  lemma DividedBatchLossConst<D, T(!new)>(ctx: Ctx, losses: Losses<T>, c: real, r: real, b: Batch<D, T>, i: nat, kc: nat)
    requires ValidCtx(ctx) && ConstantLosses(losses, c, r) && ctx.numSteps % ctx.k == 0
    ensures BatchSeg(ctx, losses, b, i, kc).loss == Scaled(ctx.numSteps / ctx.k, FullShare(ctx, WindowValue(ctx, c, r)))
  {
    DivModParts(ctx.numSteps, ctx.k);
    assert CeilDiv(ctx.numSteps, ctx.k) == ctx.numSteps / ctx.k;
    WindowsLoss(ctx, losses, c, r, b, i, kc, ctx.numSteps / ctx.k);
  }

  /** Otherwise the remainder window adds its loss divided by `num_steps % K`. */
  lemma RemainderBatchLossConst<D, T(!new)>(ctx: Ctx, losses: Losses<T>, c: real, r: real, b: Batch<D, T>, i: nat, kc: nat)
    requires ValidCtx(ctx) && ConstantLosses(losses, c, r) && ctx.numSteps % ctx.k != 0
    ensures BatchSeg(ctx, losses, b, i, kc).loss ==
      Scaled(ctx.numSteps / ctx.k, FullShare(ctx, WindowValue(ctx, c, r))) + WindowValue(ctx, c, r) / (ctx.numSteps % ctx.k) as real
  {
    var q := ctx.numSteps / ctx.k;
    DivModParts(ctx.numSteps, ctx.k);
    WindowsLoss(ctx, losses, c, r, b, i, kc, q);
    RemainderBatch(ctx, losses, b, i, kc);
    CloseLoss<D, T>(ctx, losses, c, r, i, q * ctx.k, ctx.numSteps, RemainderTarget(ctx, b.targets, kc + q));
  }

  /** With constant losses, a batch adds `BatchLoss` to `loss_avg`, whatever `K_count` is. */
  lemma BatchLossConst<D, T(!new)>(ctx: Ctx, losses: Losses<T>, c: real, r: real, b: Batch<D, T>, i: nat, kc: nat)
    requires ValidCtx(ctx) && ConstantLosses(losses, c, r)
    ensures BatchSeg(ctx, losses, b, i, kc).loss == BatchLoss(ctx, WindowValue(ctx, c, r))
  {
    if ctx.numSteps % ctx.k == 0 {
      DividedBatchLossConst(ctx, losses, c, r, b, i, kc);
    } else {
      RemainderBatchLossConst(ctx, losses, c, r, b, i, kc);
    }
    BatchLossScaled(ctx, WindowValue(ctx, c, r));
  }

  lemma {:induction false} LoaderLoss<D, T(!new)>(ctx: Ctx, losses: Losses<T>, c: real, r: real, loader: seq<Batch<D, T>>, j: nat)
    requires ValidCtx(ctx) && ConstantLosses(losses, c, r) && j <= |loader|
    ensures BatchesSeg(ctx, losses, loader, j).loss == Scaled(j, BatchLoss(ctx, WindowValue(ctx, c, r)))
  {
    if j > 0 {
      LoaderLoss(ctx, losses, c, r, loader, j - 1);
      BatchesSegNext(ctx, losses, loader, j - 1);
      var prev := BatchesSeg(ctx, losses, loader, j - 1);
      BatchLossConst(ctx, losses, c, r, loader[j - 1], j - 1, prev.kCount);
    }
  }

  /**
   * With constant losses a completed run returns `BatchLoss` once per batch, added up: the
   * sum over all batches, not their mean.
   */
  lemma RunLoss<D, T(!new)>(cfg: Config, k: int, loader: seq<Batch<D, T>>, losses: Losses<T>, c: real, r: real)
    requires ValidArgs(cfg, k) && ConstantLosses(losses, c, r)
    ensures var o := Run(cfg, k, loader, losses);
      o.result.Success? ==>
      o.result.value == Scaled(|loader|, BatchLoss(Resolve(cfg, k), WindowValue(Resolve(cfg, k), c, r)))
  {
    var o := Run(cfg, k, loader, losses);
    if o.result.Success? {
      RunErrors(cfg, k, loader, losses);
      if !LookupsOk(cfg) && |loader| > 0 {
        RunUnbound(cfg, k, loader, losses);
      } else {
        RunCompletes(cfg, k, loader, losses);
        LoaderLoss(Resolve(cfg, k), losses, c, r, loader, |loader|);
      }
    }
  }

  /** When K divides `num_steps` a batch's share is the window loss: the windows are averaged. */
  lemma DividedBatchLoss(ctx: Ctx, v: real)
    requires ValidCtx(ctx) && ctx.numSteps % ctx.k == 0
    ensures BatchLoss(ctx, v) == v
  {
    var q := ctx.numSteps / ctx.k;
    DivModParts(ctx.numSteps, ctx.k);
    assert FullDivisor(ctx) == q as real;
    assert q >= 1;
  }

  /**
   * When it does not, the remainder window weighs more than a full one: with 10 steps and
   * K = 3 a batch adds 1.9 times the window loss, 0.3 for each full window and 1 for the
   * one-step remainder.
   */
  lemma RemainderWeightExample(ctx: Ctx, v: real)
    requires ctx.numSteps == 10 && ctx.k == 3 && 1 <= ctx.memSlot <= 3
    ensures BatchLoss(ctx, v) == 1.9 * v
  {
    assert ctx.numSteps / ctx.k == 3 && ctx.numSteps % ctx.k == 1;
    assert FullDivisor(ctx) == 10.0 / 3.0;
  }
}

/**
 * The windowed training schedule of `TBPTT`, defined window by window: it is the
 * reference against which the loop in `Backprop.TBPTT` is proved.
 */
module Schedule {
  import opened Wrappers
  import opened Neurons
  import opened Events
  import opened Dispatch
  import opened Arith

  /** Exceptions that escape `TBPTT`. */
  datatype Error =
    | ValueError                // K > num_steps
    | CriterionTypeError        // the `TypeError` of the criterion check
    | UnboundLossSpk            // criterion name not in the table: `loss_spk` read while unbound
    | UnboundRegSpk             // regularizer name not in the table: `reg_spk` read while unbound

  /**
   * The arguments of `TBPTT` other than K and the data. `numReturn` is what
   * `utils._final_layer_check(net)` reports; `flags` are the `utils.is_*` globals.
   */
  datatype Config = Config(
    numSteps: int,
    timeVar: bool,
    criterionName: string,
    criterionTimeVarTargets: bool,
    regularization: Option<string>,
    numReturn: int,
    flags: Flags)

  /** One `(data, targets)` pair yielded by the data loader. */
  datatype Batch<D, T> = Batch(data: D, targets: T)

  /** The criterion and the regularizer, as opaque functions of what they are given. */
  datatype Losses<!T> = Losses(criterion: (seq<Output>, Target<T>) -> real, regularizer: seq<Output> -> real)

  /** What the caller must provide: a positive K and a network returning 2, 3 or 4 values. */
  predicate ValidArgs(cfg: Config, k: int) {
    k >= 1 && 2 <= cfg.numReturn <= 4
  }

  /** Both lookups bound the variable that a window close reads. */
  predicate LookupsOk(cfg: Config) {
    CriterionOf(cfg.criterionName, cfg.criterionTimeVarTargets).lossSpk.Some? &&
    (cfg.regularization.Some? ==> RegularizerOf(cfg.regularization).Some?)
  }

  /** The configuration after setup (lines 92-147): resolved flags and the window length. */
  datatype Ctx = Ctx(
    numSteps: nat,
    k: nat,
    timeVar: bool,
    lossSpk: bool,
    timeVarTargets: bool,
    regularized: bool,
    regSpk: bool,
    memSlot: nat,
    detach: seq<NeuronClass>)

  predicate ValidCtx(ctx: Ctx) {
    1 <= ctx.k <= ctx.numSteps && 1 <= ctx.memSlot <= 3
  }

  function Resolve(cfg: Config, k: int): (ctx: Ctx)
    requires ValidArgs(cfg, k) && k <= cfg.numSteps
    ensures ValidCtx(ctx)
  {
    var spec := CriterionOf(cfg.criterionName, cfg.criterionTimeVarTargets);
    Ctx(cfg.numSteps, k, cfg.timeVar, spec.lossSpk == Some(true), spec.timeVarTargets,
        cfg.regularization.Some?, RegularizerOf(cfg.regularization) == Some(true),
        cfg.numReturn - 1, DetachTargets(cfg.flags))
  }

  /** The outputs in slot `slot` of the forward calls at steps `lo .. hi-1` of batch `i`. */
  function Outputs(i: nat, lo: nat, hi: nat, slot: nat): (r: seq<Output>)
    requires lo <= hi
    ensures |r| == hi - lo
    ensures forall j :: 0 <= j < |r| ==> r[j] == Out(i, lo + j, slot)
    decreases hi - lo
  {
    if hi == lo then [] else Outputs(i, lo, hi - 1, slot) + [Out(i, hi - 1, slot)]
  }

  /** The stacked record the criterion reads: spikes (slot 0) iff `loss_spk`, else membrane. */
  function LossSignal(ctx: Ctx, i: nat, lo: nat, hi: nat): seq<Output>
    requires lo <= hi
  {
    Outputs(i, lo, hi, if ctx.lossSpk then 0 else ctx.memSlot)
  }

  /** The stacked record the regularizer reads: spikes iff `reg_spk`, else membrane. */
  function RegSignal(ctx: Ctx, i: nat, lo: nat, hi: nat): seq<Output>
    requires lo <= hi
  {
    Outputs(i, lo, hi, if ctx.regSpk then 0 else ctx.memSlot)
  }

  function InputAt<D>(data: D, timeVar: bool, step: nat): Input<D> {
    if timeVar then At(data, step) else Whole(data)
  }

  /** The forward calls of steps `lo .. hi-1`. */
  function Forwards<D, T>(data: D, timeVar: bool, lo: nat, hi: nat): (r: seq<Event<D, T>>)
    requires lo <= hi
    decreases hi - lo
  {
    if hi == lo then [] else Forwards(data, timeVar, lo, hi - 1) + [Forward(InputAt(data, timeVar, hi - 1))]
  }

  function DetachEvents<D, T>(cs: seq<NeuronClass>): seq<Event<D, T>> {
    if cs == [] then [] else [Detach(cs[0])] + DetachEvents(cs[1..])
  }

  /** The criterion and regularizer calls of a window close, in the order the source makes them. */
  function LossCalls<D, T>(ctx: Ctx, i: nat, lo: nat, hi: nat, target: Target<T>): seq<Event<D, T>>
    requires lo <= hi
  {
    [Criterion(LossSignal(ctx, i, lo, hi), target)] + (if ctx.regularized then [Regularize(RegSignal(ctx, i, lo, hi))] else [])
  }

  /** The window's loss: criterion value plus the regularizer's term when one is given. */
  function WindowLoss<T>(ctx: Ctx, losses: Losses<T>, i: nat, lo: nat, hi: nat, target: Target<T>): real
    requires lo <= hi
  {
    losses.criterion(LossSignal(ctx, i, lo, hi), target) +
    (if ctx.regularized then losses.regularizer(RegSignal(ctx, i, lo, hi)) else 0.0)
  }

  datatype Closed<D, T> = Closed(events: seq<Event<D, T>>, loss: real)

  /**
   * Closing the window of steps `lo .. hi-1` of batch `i`: the loss calls, one
   * zero_grad/backward/step on exactly this window's loss, then the detach broadcast.
   */
  function Close<D, T>(ctx: Ctx, losses: Losses<T>, i: nat, lo: nat, hi: nat, target: Target<T>): Closed<D, T>
    requires lo <= hi
  {
    var loss := WindowLoss(ctx, losses, i, lo, hi, target);
    Closed(LossCalls(ctx, i, lo, hi, target) + [ZeroGrad, Backward(loss), OptimizerStep] + DetachEvents(ctx.detach), loss)
  }

  /** Target of a full window closed while `K_count == kCount`. */
  function FullTarget<T>(ctx: Ctx, targets: T, kCount: nat): Target<T> {
    if ctx.timeVarTargets then TargetSlice(targets, kCount * ctx.k, (kCount + 1) * ctx.k) else AllTargets(targets)
  }

  /** Target of the remainder window closed while `K_count == kCount`. */
  function RemainderTarget<T>(ctx: Ctx, targets: T, kCount: nat): Target<T>
    requires ctx.k >= 1
  {
    if ctx.timeVarTargets then TargetSlice(targets, kCount * ctx.k, kCount * ctx.k + ctx.numSteps % ctx.k)
    else AllTargets(targets)
  }

  /** `num_steps / K` in true division: a full window's loss is divided by it. */
  function FullDivisor(ctx: Ctx): real
    requires ctx.k >= 1
  {
    ctx.numSteps as real / ctx.k as real
  }

  /** A stretch of the run: its events, what it adds to `loss_avg`, and `K_count` after it. */
  datatype Seg<D, T> = Seg(log: seq<Event<D, T>>, loss: real, kCount: nat)

  /**
   * The first `m` windows of batch `i`, entered with `K_count == kc`. Window `p` starts at
   * step `p*K`; it is a full window of `K` steps when those fit, otherwise the remainder
   * window of the last `num_steps % K` steps.
   */
  function WindowsSeg<D, T>(ctx: Ctx, losses: Losses<T>, b: Batch<D, T>, i: nat, kc: nat, m: nat): Seg<D, T>
    requires ValidCtx(ctx) && m * ctx.k < ctx.numSteps + ctx.k
    decreases m, 0
  {
    if m == 0 then Seg([], 0.0, kc)
    else if m * ctx.k <= ctx.numSteps then WithFullWindow(ctx, losses, b, i, kc, m - 1)
    else WithRemainder(ctx, losses, b, i, kc, m - 1)
  }

  /**
   * The first `m` windows, then the full window `m` of steps `lo .. lo+K-1` (lines
   * 198-250): its target is the slice at `K_count == kc + m`, its loss is divided by
   * `num_steps / K`, and `K_count` is incremented.
   */
  function WithFullWindow<D, T>(ctx: Ctx, losses: Losses<T>, b: Batch<D, T>, i: nat, kc: nat, m: nat): Seg<D, T>
    requires ValidCtx(ctx) && m * ctx.k + ctx.k <= ctx.numSteps
    decreases m, 1
  {
    var prev := WindowsSeg(ctx, losses, b, i, kc, m);
    var lo := m * ctx.k;
    var c := Close(ctx, losses, i, lo, lo + ctx.k, FullTarget(ctx, b.targets, kc + m));
    Seg(prev.log + Forwards(b.data, ctx.timeVar, lo, lo + ctx.k) + c.events,
        prev.loss + c.loss / FullDivisor(ctx),
        kc + m + 1)
  }

  /**
   * The first `m` windows, then the remainder window `m` of steps `lo .. num_steps-1`
   * (lines 252-297): its loss is divided by `num_steps % K`, and `K_count` is set to 0.
   */
  function WithRemainder<D, T>(ctx: Ctx, losses: Losses<T>, b: Batch<D, T>, i: nat, kc: nat, m: nat): Seg<D, T>
    requires ValidCtx(ctx) && m * ctx.k < ctx.numSteps < m * ctx.k + ctx.k
    decreases m, 1
  {
    var prev := WindowsSeg(ctx, losses, b, i, kc, m);
    var lo := m * ctx.k;
    DivModUnique(ctx.numSteps, ctx.k, m, ctx.numSteps - lo);
    var c := Close(ctx, losses, i, lo, ctx.numSteps, RemainderTarget(ctx, b.targets, kc + m));
    Seg(prev.log + Forwards(b.data, ctx.timeVar, lo, ctx.numSteps) + c.events,
        prev.loss + c.loss / (ctx.numSteps % ctx.k) as real,
        0)
  }

  /** One more full window, the `w`-th, which covers steps `lo .. lo+K-1`. */
  lemma WindowsSegNext<D, T>(ctx: Ctx, losses: Losses<T>, b: Batch<D, T>, i: nat, kc: nat, w: nat, lo: nat)
    requires ValidCtx(ctx) && lo == w * ctx.k && lo + ctx.k <= ctx.numSteps
    ensures var c := Close(ctx, losses, i, lo, lo + ctx.k, FullTarget(ctx, b.targets, kc + w));
      var prev := WindowsSeg(ctx, losses, b, i, kc, w);
      (w + 1) * ctx.k < ctx.numSteps + ctx.k &&
      WindowsSeg(ctx, losses, b, i, kc, w + 1) ==
      Seg(prev.log + Forwards(b.data, ctx.timeVar, lo, lo + ctx.k) + c.events, prev.loss + c.loss / FullDivisor(ctx), kc + w + 1)
  {
    MulSucc(w, ctx.k);
    assert WindowsSeg(ctx, losses, b, i, kc, w + 1) == WithFullWindow(ctx, losses, b, i, kc, w);
  }

  /** The remainder window, the `w`-th, which covers steps `lo .. num_steps-1`. */
  lemma RemainderNext<D, T>(ctx: Ctx, losses: Losses<T>, b: Batch<D, T>, i: nat, kc: nat, w: nat, lo: nat)
    requires ValidCtx(ctx) && lo == w * ctx.k && lo < ctx.numSteps < lo + ctx.k
    ensures ctx.numSteps % ctx.k == ctx.numSteps - lo
    ensures var c := Close(ctx, losses, i, lo, ctx.numSteps, RemainderTarget(ctx, b.targets, kc + w));
      var prev := WindowsSeg(ctx, losses, b, i, kc, w);
      (w + 1) * ctx.k < ctx.numSteps + ctx.k &&
      WindowsSeg(ctx, losses, b, i, kc, w + 1) ==
      Seg(prev.log + Forwards(b.data, ctx.timeVar, lo, ctx.numSteps) + c.events,
          prev.loss + c.loss / (ctx.numSteps % ctx.k) as real, 0)
  {
    DivModUnique(ctx.numSteps, ctx.k, w, ctx.numSteps - lo);
    MulSucc(w, ctx.k);
    assert WindowsSeg(ctx, losses, b, i, kc, w + 1) == WithRemainder(ctx, losses, b, i, kc, w);
  }

  /**
   * Batch `i`, entered with `K_count == kc`: a reset, then `ceil(num_steps / K)` windows:
   * `num_steps / K` full ones and the remainder when `num_steps % K != 0`.
   */
  function BatchSeg<D, T>(ctx: Ctx, losses: Losses<T>, b: Batch<D, T>, i: nat, kc: nat): Seg<D, T>
    requires ValidCtx(ctx)
  {
    CeilDivIsCeiling(ctx.numSteps, ctx.k);
    var s := WindowsSeg(ctx, losses, b, i, kc, CeilDiv(ctx.numSteps, ctx.k));
    Seg([Reset] + s.log, s.loss, s.kCount)
  }

  /**
   * When `K` does not divide `num_steps`, the batch ends with the remainder window after
   * `num_steps / K` full ones, and `K_count` is back at 0.
   */
  lemma RemainderBatch<D, T>(ctx: Ctx, losses: Losses<T>, b: Batch<D, T>, i: nat, kc: nat)
    requires ValidCtx(ctx) && ctx.numSteps % ctx.k != 0
    ensures var w := ctx.numSteps / ctx.k;
      var lo := w * ctx.k;
      lo + ctx.numSteps % ctx.k == ctx.numSteps &&
      var c := Close(ctx, losses, i, lo, ctx.numSteps, RemainderTarget(ctx, b.targets, kc + w));
      var prev := WindowsSeg(ctx, losses, b, i, kc, w);
      BatchSeg(ctx, losses, b, i, kc) ==
      Seg([Reset] + prev.log + Forwards(b.data, ctx.timeVar, lo, ctx.numSteps) + c.events,
          prev.loss + c.loss / (ctx.numSteps % ctx.k) as real, 0)
  {
    var w := ctx.numSteps / ctx.k;
    var lo := w * ctx.k;
    DivModParts(ctx.numSteps, ctx.k);
    RemainderNext(ctx, losses, b, i, kc, w, lo);
    assert CeilDiv(ctx.numSteps, ctx.k) == w + 1;
    var prev := WindowsSeg(ctx, losses, b, i, kc, w);
    var f: seq<Event<D, T>> := Forwards(b.data, ctx.timeVar, lo, ctx.numSteps);
    var c: Closed<D, T> := Close(ctx, losses, i, lo, ctx.numSteps, RemainderTarget(ctx, b.targets, kc + w));
    assert [Reset] + (prev.log + f + c.events) == [Reset] + prev.log + f + c.events;
  }

  /** The first `j` batches of the loader, starting with `K_count == 0`. */
  function BatchesSeg<D, T>(ctx: Ctx, losses: Losses<T>, loader: seq<Batch<D, T>>, j: nat): Seg<D, T>
    requires ValidCtx(ctx) && j <= |loader|
    decreases j
  {
    if j == 0 then Seg([], 0.0, 0)
    else
      var prev := BatchesSeg(ctx, losses, loader, j - 1);
      var b := BatchSeg(ctx, losses, loader[j - 1], j - 1, prev.kCount);
      Seg(prev.log + b.log, prev.loss + b.loss, b.kCount)
  }

  datatype Outcome<D, T> = Outcome(result: Result<real, Error>, log: seq<Event<D, T>>)

  /**
   * The whole call of `TBPTT(net, loader, num_steps, ..., K=k)`: its result and its calls.
   * A failed lookup is read at the first window close, which is always the full window
   * ending at step K-1 of the first batch.
   */
  function Run<D, T>(cfg: Config, k: int, loader: seq<Batch<D, T>>, losses: Losses<T>): Outcome<D, T>
    requires ValidArgs(cfg, k)
  {
    if k > cfg.numSteps then Outcome(Failure(ValueError), [])
    else
      var ctx := Resolve(cfg, k);
      if !LookupsOk(cfg) && |loader| > 0 then
        var pre := [Reset, Reset] + Forwards(loader[0].data, cfg.timeVar, 0, k);
        if CriterionOf(cfg.criterionName, cfg.criterionTimeVarTargets).lossSpk.None? then
          Outcome(Failure(UnboundLossSpk), pre)
        else
          Outcome(Failure(UnboundRegSpk), pre + [Criterion(LossSignal(ctx, 0, 0, k), FullTarget(ctx, loader[0].targets, 0))])
      else
        var s := BatchesSeg(ctx, losses, loader, |loader|);
        Outcome(Success(s.loss), [Reset] + s.log)
  }

  /**
   * `TBPTT` raises `ValueError` exactly when `K > num_steps`, and then before any call;
   * the criterion's `TypeError` never escapes.
   */
  lemma RunErrors<D, T>(cfg: Config, k: int, loader: seq<Batch<D, T>>, losses: Losses<T>)
    requires ValidArgs(cfg, k)
    ensures var o := Run(cfg, k, loader, losses);
      (o.result == Failure(ValueError) <==> k > cfg.numSteps) &&
      (k > cfg.numSteps ==> o.log == []) &&
      o.result != Failure(CriterionTypeError)
  {
  }

  /** `Run` when every lookup binds its variable, or when there is no batch to read it. */
  lemma RunCompletes<D, T>(cfg: Config, k: int, loader: seq<Batch<D, T>>, losses: Losses<T>)
    requires ValidArgs(cfg, k) && k <= cfg.numSteps && (LookupsOk(cfg) || |loader| == 0)
    ensures var s := BatchesSeg(Resolve(cfg, k), losses, loader, |loader|);
      Run(cfg, k, loader, losses) == Outcome(Success(s.loss), [Reset] + s.log)
  {
  }

  /** `Run` when a lookup failed and the first window close reads the unbound variable. */
  lemma RunUnbound<D, T>(cfg: Config, k: int, loader: seq<Batch<D, T>>, losses: Losses<T>)
    requires ValidArgs(cfg, k) && k <= cfg.numSteps && !LookupsOk(cfg) && |loader| > 0
    ensures var ctx := Resolve(cfg, k);
      var pre := [Reset, Reset] + Forwards(loader[0].data, cfg.timeVar, 0, k);
      Run(cfg, k, loader, losses) ==
      if CriterionOf(cfg.criterionName, cfg.criterionTimeVarTargets).lossSpk.None? then Outcome(Failure(UnboundLossSpk), pre)
      else Outcome(Failure(UnboundRegSpk), pre + [Criterion(LossSignal(ctx, 0, 0, k), FullTarget(ctx, loader[0].targets, 0))])
  {
  }

  /**
   * What the batch loop reports, lifted to the whole call: `log` is what the loop
   * recorded after the setup reset.
   */
  lemma RunFromLoader<D, T>(cfg: Config, k: int, loader: seq<Batch<D, T>>, losses: Losses<T>,
                            lossSpk: Option<bool>, regSpk: Option<bool>, r: Result<real, Error>, log: seq<Event<D, T>>)
    requires ValidArgs(cfg, k) && k <= cfg.numSteps
    requires lossSpk == CriterionOf(cfg.criterionName, cfg.criterionTimeVarTargets).lossSpk
    requires regSpk == RegularizerOf(cfg.regularization)
    requires r.Success? <==> |loader| == 0 || (lossSpk.Some? && (cfg.regularization.Some? ==> regSpk.Some?))
    requires r.Success? ==>
      var s := BatchesSeg(Resolve(cfg, k), losses, loader, |loader|);
      r.value == s.loss && log == s.log
    requires r.Failure? ==>
      var pre := [Reset] + Forwards(loader[0].data, cfg.timeVar, 0, k);
      if lossSpk.None? then r == Failure(UnboundLossSpk) && log == pre
      else r == Failure(UnboundRegSpk) && log == pre + [Criterion(LossSignal(Resolve(cfg, k), 0, 0, k), FullTarget(Resolve(cfg, k), loader[0].targets, 0))]
    ensures Run(cfg, k, loader, losses) == Outcome(r, [Reset] + log)
  {
    if r.Failure? {
      RunUnbound(cfg, k, loader, losses);
      var fw: seq<Event<D, T>> := Forwards(loader[0].data, cfg.timeVar, 0, k);
      assert [Reset] + ([Reset] + fw) == [Reset, Reset] + fw;
    } else {
      RunCompletes(cfg, k, loader, losses);
    }
  }

  /** One more batch of the loader. */
  lemma BatchesSegNext<D, T>(ctx: Ctx, losses: Losses<T>, loader: seq<Batch<D, T>>, j: nat)
    requires ValidCtx(ctx) && j < |loader|
    ensures var prev := BatchesSeg(ctx, losses, loader, j);
      var b := BatchSeg(ctx, losses, loader[j], j, prev.kCount);
      BatchesSeg(ctx, losses, loader, j + 1) == Seg(prev.log + b.log, prev.loss + b.loss, b.kCount)
  {
  }
}

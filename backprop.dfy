/** `TBPTT`, `BPTT` and `RTRL` of snntorch/backprop.py. */
module Backprop {
  import opened Wrappers
  import opened Neurons
  import opened Events
  import opened Dispatch
  import opened Schedule
  import opened Arith
  import opened Tally

  lemma ConcatAssoc<X>(a: seq<X>, b: seq<X>, c: seq<X>)
    ensures (a + b) + c == a + (b + c)
  {
  }

  lemma ConcatEmpty<X>(a: seq<X>)
    ensures a + [] == a && [] + a == a
  {
  }

  /** The locals `TBPTT` sets up (lines 92-147) agree with the resolved configuration. */
  ghost predicate Agrees(ctx: Ctx, numSteps: nat, K: nat, lossSpk: Option<bool>, timeVarTargets: bool,
                         regularization: Option<string>, regSpk: Option<bool>, detach: seq<NeuronClass>)
  {
    ValidCtx(ctx) && ctx.numSteps == numSteps && ctx.k == K && ctx.detach == detach && ctx.timeVarTargets == timeVarTargets &&
    (lossSpk.Some? ==> ctx.lossSpk == lossSpk.value) && ctx.regularized == regularization.Some? &&
    (regSpk.Some? ==> ctx.regSpk == regSpk.value)
  }

  /** Both variables a window close reads are bound. */
  predicate Bound(lossSpk: Option<bool>, regularization: Option<string>, regSpk: Option<bool>) {
    lossSpk.Some? && (regularization.Some? ==> regSpk.Some?)
  }

  /**
   * One forward call `net(data)` at step `step` of batch `i` (lines 169-196): the network
   * returns 2, 3 or 4 values; the spikes are the first and the membrane the last.
   */
  method NetForward(numReturn: int, i: nat, step: nat) returns (spk: Output, mem: Output)
    requires 2 <= numReturn <= 4
    ensures spk == Out(i, step, 0) && mem == Out(i, step, numReturn - 1)
  {
    if numReturn == 2 {
      spk, mem := Out(i, step, 0), Out(i, step, 1);
    } else if numReturn == 3 {
      spk, mem := Out(i, step, 0), Out(i, step, 2);
    } else {
      spk, mem := Out(i, step, 0), Out(i, step, 3);
    }
  }

  /**
   * Lines 203-231 (and 256-280): stack the records, call the criterion on the spike
   * record iff `loss_spk`, else on the membrane record, then add the regularizer's term.
   * Reading `loss_spk` or `reg_spk` while unbound raises.
   */
  method EvaluateWindow<D(!new), T(!new)>(ghost ctx: Ctx, losses: Losses<T>, lossSpk: Option<bool>, regularization: Option<string>,
                              regSpk: Option<bool>, spkRecTrunc: seq<Output>, memRecTrunc: seq<Output>, target: Target<T>,
                              ghost i: nat, ghost lo: nat, ghost hi: nat)
    returns (r: Result<real, Error>, calls: seq<Event<D, T>>)
    requires lo <= hi
    requires spkRecTrunc == Outputs(i, lo, hi, 0) && memRecTrunc == Outputs(i, lo, hi, ctx.memSlot)
    requires lossSpk.Some? ==> ctx.lossSpk == lossSpk.value
    requires ctx.regularized == regularization.Some?
    requires regSpk.Some? ==> ctx.regSpk == regSpk.value
    ensures lossSpk.None? ==> r == Failure(UnboundLossSpk) && calls == []
    ensures lossSpk.Some? && regularization.Some? && regSpk.None? ==>
      r == Failure(UnboundRegSpk) && calls == [Criterion(LossSignal(ctx, i, lo, hi), target)]
    ensures Bound(lossSpk, regularization, regSpk) ==>
      r == Success(WindowLoss(ctx, losses, i, lo, hi, target)) && calls == LossCalls(ctx, i, lo, hi, target)
  {
    calls := [];
    if lossSpk.None? {
      return Failure(UnboundLossSpk), calls;
    }
    var signal := if lossSpk.value then spkRecTrunc else memRecTrunc;
    var loss := losses.criterion(signal, target);
    calls := calls + [Criterion(signal, target)];
    if regularization.Some? {
      if regSpk.None? {
        return Failure(UnboundRegSpk), calls;
      }
      var regSignal := if regSpk.value then spkRecTrunc else memRecTrunc;
      loss := loss + losses.regularizer(regSignal);
      calls := calls + [Regularize(regSignal)];
    }
    r := Success(loss);
  }

  /**
   * Lines 199-245: close the full window of steps `lo .. lo+K-1`, the `w`-th of batch `i`,
   * entered with `K_count == kCount` and `loss_trunc == 0`. On success the returned
   * `loss_avg` and log are those of the schedule after `w + 1` windows of the batch.
   */
  method CloseFullWindow<D(!new), T(!new)>(ghost ctx: Ctx, losses: Losses<T>, numSteps: nat, K: nat,
                               lossSpk: Option<bool>, timeVarTargets: bool, regularization: Option<string>,
                               regSpk: Option<bool>, detach: seq<NeuronClass>, b: Batch<D, T>, i: nat,
                               ghost kc: nat, ghost w: nat, ghost lo: nat, ghost lossAvg0: real, kCount: nat,
                               lossTrunc: real, lossAvg: real, spkRecTrunc: seq<Output>, memRecTrunc: seq<Output>,
                               events: seq<Event<D, T>>)
    returns (r: Result<real, Error>, eventsOut: seq<Event<D, T>>)
    requires Agrees(ctx, numSteps, K, lossSpk, timeVarTargets, regularization, regSpk, detach)
    requires kCount == kc + w && lo == w * K && lo + K <= numSteps && lossTrunc == 0.0
    requires spkRecTrunc == Outputs(i, lo, lo + K, 0) && memRecTrunc == Outputs(i, lo, lo + K, ctx.memSlot)
    requires events == [Reset] + WindowsSeg(ctx, losses, b, i, kc, w).log + Forwards(b.data, ctx.timeVar, lo, lo + K)
    requires lossAvg == lossAvg0 + WindowsSeg(ctx, losses, b, i, kc, w).loss
    ensures (w + 1) * K == lo + K
    ensures r.Success? <==> Bound(lossSpk, regularization, regSpk)
    ensures r.Success? ==>
      r.value == lossAvg0 + WindowsSeg(ctx, losses, b, i, kc, w + 1).loss &&
      eventsOut == [Reset] + WindowsSeg(ctx, losses, b, i, kc, w + 1).log &&
      WindowsSeg(ctx, losses, b, i, kc, w + 1).kCount == kCount + 1
    ensures r.Failure? ==>
      if lossSpk.None? then r == Failure(UnboundLossSpk) && eventsOut == events
      else r == Failure(UnboundRegSpk) && eventsOut == events + [Criterion(LossSignal(ctx, i, lo, lo + K), FullTarget(ctx, b.targets, kCount))]
  {
    var target := if timeVarTargets then TargetSlice(b.targets, kCount * K, (kCount + 1) * K) else AllTargets(b.targets);
    var res, calls := EvaluateWindow(ctx, losses, lossSpk, regularization, regSpk,
                                     spkRecTrunc, memRecTrunc, target, i, lo, lo + K);
    if res.Failure? {
      ConcatEmpty(events);
      return Failure(res.error), events + calls;
    }
    var loss := res.value;
    var lossTotal := lossTrunc + loss;
    var share := loss / (numSteps as real / K as real);
    var closing := calls + [ZeroGrad, Backward(lossTotal), OptimizerStep] + DetachEvents(detach);
    eventsOut := events + closing;
    r := Success(lossAvg + share);

    ghost var prev := WindowsSeg(ctx, losses, b, i, kc, w);
    ghost var f := Forwards(b.data, ctx.timeVar, lo, lo + K);
    ghost var c: Closed<D, T> := Close(ctx, losses, i, lo, lo + K, FullTarget(ctx, b.targets, kc + w));
    assert target == FullTarget(ctx, b.targets, kc + w);
    assert lossTotal == c.loss && closing == c.events && share == c.loss / FullDivisor(ctx);
    WindowsSegNext(ctx, losses, b, i, kc, w, lo);
    ConcatAssoc([Reset], prev.log, f);
    ConcatAssoc([Reset], prev.log + f, closing);
  }

  /**
   * Lines 252-297: close the remainder window of steps `lo .. num_steps-1` of batch `i`,
   * after its `w == num_steps / K` full windows, when `num_steps % K != 0`. The loss is
   * divided by the remainder's length; on success the returned `loss_avg` and log are
   * those of the whole batch.
   */
  method CloseRemainder<D(!new), T(!new)>(ghost ctx: Ctx, losses: Losses<T>, numSteps: nat, K: nat,
                              lossSpk: Option<bool>, timeVarTargets: bool, regularization: Option<string>,
                              regSpk: Option<bool>, detach: seq<NeuronClass>, b: Batch<D, T>, i: nat,
                              ghost kc: nat, ghost w: nat, ghost lo: nat, ghost lossAvg0: real, kCount: nat,
                              lossTrunc: real, lossAvg: real, spkRecTrunc: seq<Output>, memRecTrunc: seq<Output>,
                              events: seq<Event<D, T>>)
    returns (r: Result<real, Error>, eventsOut: seq<Event<D, T>>)
    requires Agrees(ctx, numSteps, K, lossSpk, timeVarTargets, regularization, regSpk, detach)
    requires numSteps % K != 0 && w == numSteps / K && lo == w * K && lo + numSteps % K == numSteps
    requires kCount == kc + w && lossTrunc == 0.0
    requires spkRecTrunc == Outputs(i, lo, numSteps, 0) && memRecTrunc == Outputs(i, lo, numSteps, ctx.memSlot)
    requires events == [Reset] + WindowsSeg(ctx, losses, b, i, kc, w).log + Forwards(b.data, ctx.timeVar, lo, numSteps)
    requires lossAvg == lossAvg0 + WindowsSeg(ctx, losses, b, i, kc, w).loss
    ensures r.Success? <==> Bound(lossSpk, regularization, regSpk)
    ensures r.Success? ==>
      var s := BatchSeg(ctx, losses, b, i, kc);
      r.value == lossAvg0 + s.loss && eventsOut == s.log && s.kCount == 0
    ensures r.Failure? ==>
      if lossSpk.None? then r == Failure(UnboundLossSpk) && eventsOut == events
      else r == Failure(UnboundRegSpk) && eventsOut == events + [Criterion(LossSignal(ctx, i, lo, numSteps), RemainderTarget(ctx, b.targets, kCount))]
  {
    var target := if timeVarTargets then TargetSlice(b.targets, kCount * K, kCount * K + numSteps % K) else AllTargets(b.targets);
    var res, calls := EvaluateWindow(ctx, losses, lossSpk, regularization, regSpk,
                                     spkRecTrunc, memRecTrunc, target, i, lo, numSteps);
    if res.Failure? {
      ConcatEmpty(events);
      return Failure(res.error), events + calls;
    }
    var loss := res.value;
    var lossTotal := lossTrunc + loss;
    var share := loss / (numSteps % K) as real;
    var closing := calls + [ZeroGrad, Backward(lossTotal), OptimizerStep] + DetachEvents(detach);
    eventsOut := events + closing;
    r := Success(lossAvg + share);

    ghost var c: Closed<D, T> := Close(ctx, losses, i, lo, numSteps, RemainderTarget(ctx, b.targets, kc + w));
    assert target == RemainderTarget(ctx, b.targets, kc + w);
    assert lossTotal == c.loss && closing == c.events && share == c.loss / (numSteps % K) as real;
    RemainderBatch(ctx, losses, b, i, kc);
  }

  /**
   * The locals of the step loop that outlive one step: `step_trunc`, `K_count`,
   * `loss_trunc`, `loss_avg` and the two window records.
   */
  datatype Locals = Locals(stepTrunc: nat, kCount: nat, lossTrunc: real, lossAvg: real,
                           spkRecTrunc: seq<Output>, memRecTrunc: seq<Output>)

  /**
   * The step loop of batch `i`, entered with `K_count == kc` and `loss_avg == lossAvg0`,
   * with the step counter at `step`: `w` full windows are closed and the open one starts
   * at `lo` and has recorded `step_trunc <= K` steps.
   */
  ghost predicate Within<D, T>(ctx: Ctx, losses: Losses<T>, b: Batch<D, T>, i: nat, kc: nat, lossAvg0: real,
                               step: nat, w: nat, lo: nat, s: Locals, events: seq<Event<D, T>>)
    requires ValidCtx(ctx)
  {
    lo <= step <= ctx.numSteps && step == lo + s.stepTrunc && s.stepTrunc <= ctx.k && lo == w * ctx.k &&
    s.kCount == kc + w && WindowsSeg(ctx, losses, b, i, kc, w).kCount == s.kCount && s.lossTrunc == 0.0 &&
    s.spkRecTrunc == Outputs(i, lo, step, 0) && s.memRecTrunc == Outputs(i, lo, step, ctx.memSlot) &&
    events == [Reset] + WindowsSeg(ctx, losses, b, i, kc, w).log + Forwards(b.data, ctx.timeVar, lo, step) &&
    s.lossAvg == lossAvg0 + WindowsSeg(ctx, losses, b, i, kc, w).loss
  }

  /** The same, just before step `step`: a full window has already been closed. */
  ghost predicate InBatch<D, T>(ctx: Ctx, losses: Losses<T>, b: Batch<D, T>, i: nat, kc: nat, lossAvg0: real,
                                step: nat, w: nat, lo: nat, s: Locals, events: seq<Event<D, T>>)
    requires ValidCtx(ctx)
  {
    Within(ctx, losses, b, i, kc, lossAvg0, step, w, lo, s, events) && s.stepTrunc < ctx.k
  }

  /** Right after the close of full window `w`: a new, empty window opens at `step`. */
  lemma AfterClose<D, T>(ctx: Ctx, losses: Losses<T>, b: Batch<D, T>, i: nat, kc: nat, lossAvg0: real,
                         w: nat, step: nat, lossAvg: real, events: seq<Event<D, T>>)
    requires ValidCtx(ctx) && step == (w + 1) * ctx.k && step <= ctx.numSteps
    requires WindowsSeg(ctx, losses, b, i, kc, w + 1).kCount == kc + w + 1
    requires lossAvg == lossAvg0 + WindowsSeg(ctx, losses, b, i, kc, w + 1).loss
    requires events == [Reset] + WindowsSeg(ctx, losses, b, i, kc, w + 1).log
    ensures InBatch(ctx, losses, b, i, kc, lossAvg0, step, w + 1, step, Locals(0, kc + w + 1, 0.0, lossAvg, [], []), events)
  {
    ConcatEmpty(events);
    assert Forwards<D, T>(b.data, ctx.timeVar, step, step) == [];
  }

  /** In the first window of a batch the log holds the reset and the window's forward calls. */
  lemma FirstWindow<D, T>(ctx: Ctx, losses: Losses<T>, b: Batch<D, T>, i: nat, kc: nat, lossAvg0: real,
                          step: nat, s: Locals, events: seq<Event<D, T>>)
    requires ValidCtx(ctx) && Within(ctx, losses, b, i, kc, lossAvg0, step, 0, 0, s, events)
    ensures events == [Reset] + Forwards(b.data, ctx.timeVar, 0, step)
  {
    assert WindowsSeg(ctx, losses, b, i, kc, 0).log == [];
  }

  /**
   * The first part of one iteration of the step loop (lines 169-198): the forward call
   * on the step's input and the records of its outputs.
   */
  method Advance<D(!new), T(!new)>(ghost ctx: Ctx, losses: Losses<T>, numSteps: nat, timeVar: bool, numReturn: int,
                                   b: Batch<D, T>, i: nat, ghost kc: nat, ghost lossAvg0: real, ghost w: nat, ghost lo: nat,
                                   step: nat, s: Locals, events: seq<Event<D, T>>)
    returns (s': Locals, eventsOut: seq<Event<D, T>>)
    requires ValidCtx(ctx) && ctx.numSteps == numSteps
    requires ctx.timeVar == timeVar && ctx.memSlot == numReturn - 1 && 2 <= numReturn <= 4
    requires step < numSteps && InBatch(ctx, losses, b, i, kc, lossAvg0, step, w, lo, s, events)
    ensures Within(ctx, losses, b, i, kc, lossAvg0, step + 1, w, lo, s', eventsOut)
  {
    var x := if timeVar then At(b.data, step) else Whole(b.data);
    var spk, mem := NetForward(numReturn, i, step);
    ConcatAssoc([Reset] + WindowsSeg(ctx, losses, b, i, kc, w).log, Forwards(b.data, timeVar, lo, step), [Forward(x)]);
    eventsOut := events + [Forward(x)];
    s' := s.(stepTrunc := s.stepTrunc + 1, spkRecTrunc := s.spkRecTrunc + [spk], memRecTrunc := s.memRecTrunc + [mem]);
  }

  /**
   * The second part (lines 199-250): when `step_trunc` has reached `K`, the close of the
   * full window, after which the window locals are reset. Only that close can fail, and
   * only at the first one.
   */
  method Settle<D(!new), T(!new)>(ghost ctx: Ctx, losses: Losses<T>, numSteps: nat, K: nat, timeVar: bool,
                                  lossSpk: Option<bool>, timeVarTargets: bool, regularization: Option<string>,
                                  regSpk: Option<bool>, detach: seq<NeuronClass>, b: Batch<D, T>, i: nat,
                                  ghost kc: nat, ghost lossAvg0: real, ghost w: nat, ghost lo: nat,
                                  step: nat, s: Locals, events: seq<Event<D, T>>)
    returns (r: Result<Locals, Error>, ghost w': nat, ghost lo': nat, eventsOut: seq<Event<D, T>>)
    requires Agrees(ctx, numSteps, K, lossSpk, timeVarTargets, regularization, regSpk, detach)
    requires ctx.timeVar == timeVar
    requires Within(ctx, losses, b, i, kc, lossAvg0, step, w, lo, s, events)
    requires w > 0 ==> Bound(lossSpk, regularization, regSpk)
    ensures r.Success? ==>
      InBatch(ctx, losses, b, i, kc, lossAvg0, step, w', lo', r.value, eventsOut) &&
      (w' > 0 ==> Bound(lossSpk, regularization, regSpk))
    ensures r.Success? && w' != w ==>
      w' == w + 1 && |s.spkRecTrunc| == K && |s.memRecTrunc| == K &&
      r.value.stepTrunc == 0 && r.value.lossTrunc == 0.0 && r.value.spkRecTrunc == [] && r.value.memRecTrunc == []
    ensures r.Failure? ==>
      var pre := [Reset] + Forwards(b.data, timeVar, 0, K);
      w == 0 && !Bound(lossSpk, regularization, regSpk) &&
      if lossSpk.None? then r == Failure(UnboundLossSpk) && eventsOut == pre
      else r == Failure(UnboundRegSpk) && eventsOut == pre + [Criterion(LossSignal(ctx, i, 0, K), FullTarget(ctx, b.targets, kc))]
  {
    w', lo' := w, lo;
    if s.stepTrunc < K {
      return Success(s), w', lo', events;
    }
    var res;
    res, eventsOut := CloseFullWindow(ctx, losses, numSteps, K, lossSpk, timeVarTargets, regularization, regSpk,
                                      detach, b, i, kc, w, lo, lossAvg0, s.kCount, s.lossTrunc, s.lossAvg,
                                      s.spkRecTrunc, s.memRecTrunc, events);
    if res.Failure? {
      FirstWindow(ctx, losses, b, i, kc, lossAvg0, step, s, events);
      return Failure(res.error), w', lo', eventsOut;
    }
    w', lo' := w + 1, step;
    AfterClose(ctx, losses, b, i, kc, lossAvg0, w, step, res.value, eventsOut);
    r := Success(Locals(0, s.kCount + 1, 0.0, res.value, [], []));
  }

  /** The locals between two batches: no window is open and its records are empty. */
  predicate Idle(s: Locals) {
    s.stepTrunc == 0 && s.lossTrunc == 0.0 && s.spkRecTrunc == [] && s.memRecTrunc == []
  }

  /**
   * The body of the batch loop of `TBPTT` (lines 163-297) for batch `i`, entered with the
   * locals `s0`. On success the new `loss_avg`, the events and the new `K_count` are those
   * of the batch's schedule, and the last close has left the locals idle again; a failure
   * can only be the unbound read at the first close.
   */
  method TrainBatch<D(!new), T(!new)>(ghost ctx: Ctx, losses: Losses<T>, numSteps: nat, K: nat, timeVar: bool, numReturn: int,
                                      lossSpk: Option<bool>, timeVarTargets: bool, regularization: Option<string>,
                                      regSpk: Option<bool>, detach: seq<NeuronClass>,
                                      b: Batch<D, T>, i: nat, s0: Locals)
    returns (r: Result<Locals, Error>, events: seq<Event<D, T>>)
    requires Agrees(ctx, numSteps, K, lossSpk, timeVarTargets, regularization, regSpk, detach)
    requires ctx.timeVar == timeVar && ctx.memSlot == numReturn - 1 && Idle(s0)
    ensures r.Success? <==> Bound(lossSpk, regularization, regSpk)
    ensures r.Success? ==>
      var s := BatchSeg(ctx, losses, b, i, s0.kCount);
      r.value == Locals(0, s.kCount, 0.0, s0.lossAvg + s.loss, [], []) && events == s.log
    ensures r.Failure? ==>
      var pre := [Reset] + Forwards(b.data, timeVar, 0, K);
      if lossSpk.None? then r == Failure(UnboundLossSpk) && events == pre
      else r == Failure(UnboundRegSpk) && events == pre + [Criterion(LossSignal(ctx, i, 0, K), FullTarget(ctx, b.targets, s0.kCount))]
  {
    var s := s0;
    events := [Reset];  // utils.reset(net) at the start of each batch
    ghost var kc, lossAvg := s0.kCount, s0.lossAvg;
    ghost var w: nat, lo: nat := 0, 0;
    ConcatEmpty(events);

    var step := 0;
    while step < numSteps
      invariant step <= numSteps
      invariant InBatch(ctx, losses, b, i, kc, lossAvg, step, w, lo, s, events)
      invariant w > 0 ==> Bound(lossSpk, regularization, regSpk)
    {
      s, events := Advance(ctx, losses, numSteps, timeVar, numReturn, b, i, kc, lossAvg, w, lo, step, s, events);
      var res;
      res, w, lo, events := Settle(ctx, losses, numSteps, K, timeVar, lossSpk, timeVarTargets, regularization,
                                   regSpk, detach, b, i, kc, lossAvg, w, lo, step + 1, s, events);
      if res.Failure? {
        return Failure(res.error), events;
      }
      s := res.value;
      step := step + 1;
    }
    DivModUnique(numSteps, K, w, s.stepTrunc);

    // The remainder test follows the step loop, whose last `step` is `num_steps - 1`.
    if numSteps % K != 0 {
      var res;
      res, events := CloseRemainder(ctx, losses, numSteps, K, lossSpk, timeVarTargets, regularization, regSpk,
                                    detach, b, i, kc, w, lo, lossAvg, s.kCount, s.lossTrunc, s.lossAvg,
                                    s.spkRecTrunc, s.memRecTrunc, events);
      match res
      case Failure(e) => return Failure(e), events;
      case Success(v) => return Success(Locals(0, 0, 0.0, v, [], [])), events;
    }
    assert CeilDiv(numSteps, K) == w;
    r := Success(s);
  }

  /**
   * The batch loop of `TBPTT` (lines 161-297) over the whole loader, from the locals set
   * at lines 149-157. Every batch starts with the locals idle and `K_count` as the
   * previous batch left it.
   */
  method TrainLoader<D(!new), T(!new)>(ghost ctx: Ctx, losses: Losses<T>, numSteps: nat, K: nat, timeVar: bool, numReturn: int,
                           lossSpk: Option<bool>, timeVarTargets: bool, regularization: Option<string>,
                           regSpk: Option<bool>, detach: seq<NeuronClass>, loader: seq<Batch<D, T>>)
    returns (r: Result<real, Error>, events: seq<Event<D, T>>)
    requires Agrees(ctx, numSteps, K, lossSpk, timeVarTargets, regularization, regSpk, detach)
    requires ctx.timeVar == timeVar && ctx.memSlot == numReturn - 1
    ensures r.Success? <==> |loader| == 0 || Bound(lossSpk, regularization, regSpk)
    ensures r.Success? ==>
      var s := BatchesSeg(ctx, losses, loader, |loader|);
      r.value == s.loss && events == s.log
    ensures r.Failure? ==>
      var pre := [Reset] + Forwards(loader[0].data, timeVar, 0, K);
      if lossSpk.None? then r == Failure(UnboundLossSpk) && events == pre
      else r == Failure(UnboundRegSpk) && events == pre + [Criterion(LossSignal(ctx, 0, 0, K), FullTarget(ctx, loader[0].targets, 0))]
  {
    var s := Locals(0, 0, 0.0, 0.0, [], []);
    events := [];
    var i := 0;
    while i < |loader|
      invariant 0 <= i <= |loader|
      invariant i > 0 ==> Bound(lossSpk, regularization, regSpk)
      invariant Idle(s)
      invariant events == BatchesSeg(ctx, losses, loader, i).log
      invariant s.lossAvg == BatchesSeg(ctx, losses, loader, i).loss
      invariant s.kCount == BatchesSeg(ctx, losses, loader, i).kCount
    {
      var res, batchEvents := TrainBatch(ctx, losses, numSteps, K, timeVar, numReturn, lossSpk, timeVarTargets,
                                         regularization, regSpk, detach, loader[i], i, s);
      if res.Failure? {
        ConcatEmpty(batchEvents);
        return Failure(res.error), events + batchEvents;
      }
      BatchesSegNext(ctx, losses, loader, i);
      events := events + batchEvents;
      s := res.value;
      i := i + 1;
    }
    r := Success(s.lossAvg);
  }

  /**
   * Truncated backpropagation through time (lines 9-300). The counters and records are
   * the locals of the source; the returned log lists the calls made into the network,
   * the criterion, the regularizer and the optimizer.
   */
  method TBPTT<D(!new), T(!new)>(cfg: Config, k: int, loader: seq<Batch<D, T>>, losses: Losses<T>)
    returns (r: Result<real, Error>, log: seq<Event<D, T>>)
    requires ValidArgs(cfg, k)
    ensures Outcome(r, log) == Run(cfg, k, loader, losses)
  {
    log := [];
    if k > cfg.numSteps {
      RunErrors(cfg, k, loader, losses);
      return Failure(ValueError), log;
    }
    var numSteps: nat, K: nat := cfg.numSteps, k;
    log := log + [Reset];  // utils.reset(net=net) before the tables are built
    var detach := DetachTargets(cfg.flags);
    var crit := LookupCriterion(cfg.criterionName, cfg.criterionTimeVarTargets);
    if crit.Failure? {
      return Failure(CriterionTypeError), log;
    }
    var lossSpk, timeVarTargets := crit.value.lossSpk, crit.value.timeVarTargets;
    var regSpk := LookupRegularizer(cfg.regularization);
    ghost var ctx := Resolve(cfg, k);

    var res, events := TrainLoader(ctx, losses, numSteps, K, cfg.timeVar, cfg.numReturn, lossSpk, timeVarTargets,
                                   cfg.regularization, regSpk, detach, loader);
    RunFromLoader(cfg, k, loader, losses, lossSpk, regSpk, res, events);
    r, log := res, log + events;
  }

  /**
   * Backpropagation through time (lines 384-394): `TBPTT` with one window spanning the
   * whole batch, so each batch makes a single weight update.
   */
  method BPTT<D(!new), T(!new)>(cfg: Config, loader: seq<Batch<D, T>>, losses: Losses<T>)
    returns (r: Result<real, Error>, log: seq<Event<D, T>>)
    requires ValidArgs(cfg, cfg.numSteps)
    ensures Outcome(r, log) == Run(cfg, cfg.numSteps, loader, losses)
    ensures r.Success? ==> Updates(log) == |loader|
  {
    r, log := TBPTT(cfg, cfg.numSteps, loader, losses);
    RunTally(cfg, cfg.numSteps, loader, losses);
    DivModUnique(cfg.numSteps, cfg.numSteps, 1, 0);
    assert CeilDiv(cfg.numSteps, cfg.numSteps) == 1;
  }

  /**
   * Real-time recurrent learning (lines 481-491): `TBPTT` with windows of one step, so
   * each batch makes `num_steps` weight updates.
   */
  method RTRL<D(!new), T(!new)>(cfg: Config, loader: seq<Batch<D, T>>, losses: Losses<T>)
    returns (r: Result<real, Error>, log: seq<Event<D, T>>)
    requires ValidArgs(cfg, 1)
    ensures Outcome(r, log) == Run(cfg, 1, loader, losses)
    ensures r.Success? ==> Updates(log) == |loader| * cfg.numSteps
  {
    r, log := TBPTT(cfg, 1, loader, losses);
    RunTally(cfg, 1, loader, losses);
  }
}

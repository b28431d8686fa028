/**
 * What the scheduler hands to its opaque collaborators. The network, criterion,
 * regularizer and optimizer are not modelled; every call into them is one event.
 */
module Events {
  import opened Neurons

  /** The `slot`-th value returned by the network's forward call at `step` of batch number `batch`. */
  datatype Output = Out(batch: nat, step: nat, slot: nat)

  /** The forward input: `data` unchanged, or its time slice `data[step]`. */
  datatype Input<D> = Whole(data: D) | At(data: D, step: nat)

  /** The target handed to the criterion: `targets` unchanged, or `targets[lo:hi]`. */
  datatype Target<T> = AllTargets(targets: T) | TargetSlice(targets: T, lo: int, hi: int)

  datatype Event<D, T> =
    | Reset                                               // utils.reset(net)
    | Forward(x: Input<D>)                                // net(x)
    | Criterion(signal: seq<Output>, target: Target<T>)  // criterion(stacked record, target)
    | Regularize(signal: seq<Output>)                     // regularization(stacked record)
    | ZeroGrad                                            // optimizer.zero_grad()
    | Backward(loss: real)                                // loss_trunc.backward()
    | OptimizerStep                                       // optimizer.step()
    | Detach(neuron: NeuronClass)                         // neurons_dict[...].detach_hidden()

  datatype Kind = ResetKind | ForwardKind | CriterionKind | RegularizeKind | ZeroGradKind | BackwardKind | StepKind | DetachKind

  function KindOf<D, T>(e: Event<D, T>): Kind {
    match e
    case Reset => ResetKind
    case Forward(_) => ForwardKind
    case Criterion(_, _) => CriterionKind
    case Regularize(_) => RegularizeKind
    case ZeroGrad => ZeroGradKind
    case Backward(_) => BackwardKind
    case OptimizerStep => StepKind
    case Detach(_) => DetachKind
  }

  /** Number of events of kind `k` in `log`. */
  function Count<D, T>(log: seq<Event<D, T>>, k: Kind): nat {
    if log == [] then 0 else (if KindOf(log[0]) == k then 1 else 0) + Count(log[1..], k)
  }

  /** Number of weight updates (`optimizer.step()` calls) in `log`. */
  function Updates<D, T>(log: seq<Event<D, T>>): nat {
    Count(log, StepKind)
  }

  lemma {:induction false} CountConcat<D, T>(a: seq<Event<D, T>>, b: seq<Event<D, T>>, k: Kind)
    ensures Count(a + b, k) == Count(a, k) + Count(b, k)
  {
    if a == [] {
      assert a + b == b;
    } else {
      assert (a + b)[0] == a[0];
      assert (a + b)[1..] == a[1..] + b;
      CountConcat(a[1..], b, k);
    }
  }

  /** One call of the criterion: what it was given. */
  datatype Call<T> = Call(signal: seq<Output>, target: Target<T>)

  /** What `f` picks out of each event of `log`, in order. */
  function Project<D, T, X>(log: seq<Event<D, T>>, f: Event<D, T> -> seq<X>): seq<X> {
    if log == [] then [] else f(log[0]) + Project(log[1..], f)
  }

  /** The input of a forward call. */
  function InputOf<D, T>(e: Event<D, T>): seq<Input<D>> {
    if e.Forward? then [e.x] else []
  }

  /** What a criterion call was given. */
  function CallOf<D, T>(e: Event<D, T>): seq<Call<T>> {
    if e.Criterion? then [Call(e.signal, e.target)] else []
  }

  /** The kind of an optimizer or backward call. */
  function UpdateOf<D, T>(e: Event<D, T>): seq<Kind> {
    if e.ZeroGrad? || e.Backward? || e.OptimizerStep? then [KindOf(e)] else []
  }

  lemma {:induction false} ProjectConcat<D, T, X>(a: seq<Event<D, T>>, b: seq<Event<D, T>>, f: Event<D, T> -> seq<X>)
    ensures Project(a + b, f) == Project(a, f) + Project(b, f)
  {
    if a == [] {
      assert a + b == b;
    } else {
      assert (a + b)[0] == a[0];
      assert (a + b)[1..] == a[1..] + b;
      ProjectConcat(a[1..], b, f);
    }
  }

  lemma ProjectSingle<D, T, X>(e: Event<D, T>, f: Event<D, T> -> seq<X>)
    ensures Project([e], f) == f(e)
  {
    assert [e][1..] == [];
  }
}

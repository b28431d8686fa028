# Truncated backpropagation through time in snntorch: a Dafny model

This project models the training scheduler of snntorch's `backprop` module:
- `TBPTT`, which trains a spiking network in windows of `K` time steps;
- its two parameterisations `BPTT` (`K = num_steps`) and `RTRL` (`K = 1`);
- the criterion and regularizer lookup tables;
- the unused record helper `_rec_trunc`.

The network, the criterion, the regularizer and the optimizer are opaque collaborators. The model does not compute tensors. Instead, every call the scheduler makes into a collaborator is an `Event` in a log:
- `utils.reset`;
- each forward call and what it was given;
- each criterion call, with its stacked record and its target slice;
- each regularizer call;
- `zero_grad`, `backward` and `step`;
- each `detach_hidden`.

The criterion and regularizer are arbitrary functions (`Losses`) from what they are given to a `real` loss. The forward call at step `s` of batch `i` returns the symbolic outputs `Out(i, s, slot)`, so a record is exactly the list of steps it came from.

The model is organised by module:
- `Backprop` holds `TBPTT` as an imperative method with the source's nested loops and locals: `step_trunc`, `K_count`, `loss_trunc`, `loss_avg` and the two window records. It is split into methods along the loop structure:
  - `TrainLoader` is the batch loop;
  - `TrainBatch` is the step loop;
  - `Advance` and `Settle` are one step;
  - `CloseFullWindow` and `CloseRemainder` are the window closes;
  - `EvaluateWindow` is the criterion and regularizer calls.
- `Schedule` defines the reference that `TBPTT` is proved against. `Run` gives the result and the log of a whole call, window by window:
  - `WindowsSeg`, `WithFullWindow` and `WithRemainder` for the windows;
  - `BatchSeg` for one batch;
  - `BatchesSeg` for the loader.
  `TBPTT` ensures `Outcome(r, log) == Run(...)`.
- `Tally`, `Windows` and `Counters` prove what `Run` does:
  - how many calls of each kind a run makes;
  - the input of every forward call;
  - the record and target of every criterion call;
  - the zero_grad / backward / step order;
  - the evolution of `K_count`;
  - the weighting of window losses into the returned `loss_avg`.
- `Dispatch` holds the two lookup tables. `Neurons` holds `neurons_dict` and which classes a window close detaches.
- `RecTrunc` models `_rec_trunc` on a mutable list class. It covers the case where both list arguments are the same list.

The model follows the code as written:
- `K_count` is not reset when a batch starts. Only the remainder window sets it to 0 (`Counters.LoaderKCount`).
- `loss_avg` is not reset per batch and is never divided by the number of batches (`Counters.RunLoss`). The docstring at snntorch/backprop.py:82 nevertheless calls it the average loss for one epoch.
- `neurons_dict` is keyed by the `utils.is_*` flag values. So a close detaches at most one neuron class, not every recurrent unit (`Neurons.DetachTargetsIsDictLoop`).
- Besides the reset at the start of each batch, `utils.reset` also runs once at setup, before the batch loop (`Tally.RunResets`).

## Model

| member | source | states |
|---|---|---|
| Neurons.NeuronsDict | snntorch/backprop.py:99-105 | The dict literal keyed by the five flag values. Equal keys collapse: the key `True` is present iff some flag is set, and it then holds the last flagged class of the literal. The key `False` is present iff some flag is clear. |
| Neurons.DictDetach | snntorch/backprop.py:240-244 | The detach loop acts only on the truthy key, so it detaches at most one class: the one stored under `True`, if that key is present. |
| Neurons.DetachTargetsIsDictLoop | snntorch/backprop.py:240-244 | The detach loop over the flag-keyed `neurons_dict` detaches exactly the closed-form `DetachTargets`: at most one class, none iff no flag is set, otherwise the last flagged class of the literal. |
| Dispatch.CriterionOf | snntorch/backprop.py:110-135 | `loss_spk` is bound iff the criterion's name is a table key, and then equals that entry's first flag. `time_var_targets` is the entry's second flag and the criterion's own attribute; it is false when no entry matches. |
| Dispatch.RegularizerOf | snntorch/backprop.py:142-145 | `reg_spk` is bound iff a regularizer named `l1_rate_sparsity` is given, and then it is true. |
| Dispatch.LookupCriterion | snntorch/backprop.py:127-140 | The criterion loop always succeeds: `counter` ends at 0, so the `TypeError` is never raised. Its result is `CriterionOf` of the name and attribute. |
| Dispatch.LookupRegularizer | snntorch/backprop.py:142-145 | The regularizer loop binds `reg_spk` exactly as `RegularizerOf` says. |
| Schedule.Run | snntorch/backprop.py:9-300 | The reference for a whole call. It raises `ValueError` with no call made when `K > num_steps`. When a lookup left `loss_spk` or `reg_spk` unbound and the loader is nonempty, it fails at the first close of the first batch, after the setup reset, the batch reset and `K` forward calls. Otherwise it succeeds with the summed `loss_avg` of all batches, and the log is the setup reset followed by every batch's calls. |
| Schedule.WithFullWindow | snntorch/backprop.py:198-250 | A full window `m` runs its `K` forward calls and then its close. The target is the slice at `K_count == kc + m`, the loss is added to `loss_avg` divided by `num_steps / K`, and `K_count` becomes `kc + m + 1`. |
| Schedule.WithRemainder | snntorch/backprop.py:252-297 | The remainder window runs the last `num_steps % K` forward calls and then its close. The target is the slice of that length at `K_count * K`, the loss is divided by `num_steps % K`, and `K_count` becomes 0. |
| Schedule.RunErrors | snntorch/backprop.py:92-93 | Read off `Run`, and hence true of `Backprop.TBPTT`, whose outcome is `Run`'s: `TBPTT` raises `ValueError` iff `K > num_steps`, and then before any call into the network. The criterion `TypeError` never escapes. |
| Schedule.RunUnbound | snntorch/backprop.py:210-231 | Read off `Run`, and hence true of `Backprop.TBPTT`. With an unmatched criterion or regularizer and a nonempty loader, the first close of the first batch reads the unbound variable and raises. It does so after two resets and `K` forward calls, and for an unbound `reg_spk` also after the criterion call. |
| Backprop.NetForward | snntorch/backprop.py:169-186 | For 2, 3 or 4 returned values, the spikes are the first output and the membrane is the last. |
| Backprop.EvaluateWindow | snntorch/backprop.py:203-231 | The criterion gets the spike record iff `loss_spk`, else the membrane record, plus the regularizer's term on the record `reg_spk` selects. An unbound `loss_spk` raises before any call; an unbound `reg_spk` raises after the criterion call. |
| Backprop.CloseFullWindow | snntorch/backprop.py:199-250 | A full-window close succeeds iff both lookups are bound. Its new `loss_avg`, log and `K_count` are those of the schedule after one more full window. |
| Backprop.CloseRemainder | snntorch/backprop.py:252-297 | A remainder-window close succeeds iff both lookups are bound. Its new `loss_avg` and log are those of the whole batch, and the batch leaves `K_count` at 0. |
| Backprop.Advance | snntorch/backprop.py:169-198 | One step makes one forward call on `data[step]` or `data`, appends the step's spikes and membrane to the records, and increments `step_trunc`. |
| Backprop.Settle | snntorch/backprop.py:198-250 | When `step_trunc` reaches `K`, the window is closed with both records holding exactly `K` entries. Afterwards `step_trunc`, `loss_trunc` and both records are empty again. Only the first close can fail. |
| Backprop.TrainBatch | snntorch/backprop.py:162-297 | One batch makes the calls of the schedule's `BatchSeg`, adds its loss to `loss_avg` and leaves `K_count` as the schedule says. It leaves `step_trunc`, `loss_trunc` and the records idle. It succeeds iff the lookups are bound. |
| Backprop.TrainLoader | snntorch/backprop.py:149-297 | The batch loop starts every batch with idle locals and the previous `K_count`; its result and log are those of `BatchesSeg` over the whole loader. |
| Backprop.TBPTT | snntorch/backprop.py:9-300 | The whole call returns what `Run` says: its result and the log of every collaborator call. |
| Backprop.BPTT | snntorch/backprop.py:384-394 | `BPTT` is `TBPTT` with `K = num_steps`, and a completed run makes one weight update per batch. |
| Backprop.RTRL | snntorch/backprop.py:481-491 | `RTRL` is `TBPTT` with `K = 1`, and a completed run makes `num_steps` weight updates per batch. |
| Tally.CloseCount | snntorch/backprop.py:210-244 | Every window close makes:<br>• one criterion call;<br>• one regularizer call iff a regularizer is given;<br>• one zero_grad, one backward and one step;<br>• one detach per detached class;<br>• no reset and no forward call. |
| Tally.BatchCount | snntorch/backprop.py:162-297 | A batch makes one reset, `num_steps` forward calls and `ceil(num_steps / K)` window closes. |
| Tally.RunCount | snntorch/backprop.py:161-297 | A completed run makes the setup reset plus the calls of every batch, by kind. A failed run has made no weight update. |
| Tally.RunUpdates | snntorch/backprop.py:199-287 | A completed run makes `ceil(num_steps / K)` weight updates per batch. |
| Tally.RunResets | snntorch/backprop.py:97-167 | A completed run resets the network once at setup and once per batch. |
| Tally.RunForwards | snntorch/backprop.py:169-186 | A completed run calls the network `num_steps` times per batch. |
| Tally.RunDetaches | snntorch/backprop.py:240-297 | A completed run detaches each detached class once per weight update. |
| Tally.RunTally | snntorch/backprop.py:161-297 | The four counts above together, and at most one class is detached. |
| Windows.CloseUpdates | snntorch/backprop.py:236-238 | A close shows the optimizer exactly zero_grad, backward, step, in that order. |
| Windows.BatchInputs | snntorch/backprop.py:169-186 | A batch calls the network `num_steps` times in step order. The call at step `s` gets `data[s]` when `time_var`, else the whole `data`. |
| Windows.BatchCalls | snntorch/backprop.py:210-274 | A batch calls the criterion once per window, in window order. Window `p` gets the record of its own steps and the target of the same length starting at `(K_count + p) * K`, or the whole target. |
| Windows.WindowsTile | snntorch/backprop.py:198-252 | The windows tile the steps: none is empty, each but the last holds `K` steps and ends where the next starts, and the last ends at `num_steps`. |
| Windows.FirstBatchTargets | snntorch/backprop.py:210-269 | In the first batch, with time-varying targets, window `p` gets `targets[p*K : p*K + len]`, where `len` is its record's length. Otherwise it gets the whole target. |
| Windows.RecordChoice | snntorch/backprop.py:110-147 | The criterion reads the spikes iff the matched entry's first flag is set; the regularizer reads the spikes iff it is `l1_rate_sparsity`; the membrane is the network's last output. |
| Windows.CyclePattern | snntorch/backprop.py:236-238 | In the update pattern, position `j` is zero_grad, backward or step according to `j % 3`. |
| Windows.BatchUpdates | snntorch/backprop.py:236-287 | A batch's optimizer and backward calls are the pattern repeated once per window. |
| Windows.RunUpdateOrder | snntorch/backprop.py:236-287 | A completed run's optimizer and backward calls are zero_grad, backward, step repeated `ceil(num_steps / K)` times per batch, with nothing interleaved. |
| Counters.WindowsKCount | snntorch/backprop.py:246-247 | Each full window increments `K_count` by one. |
| Counters.BatchKCount | snntorch/backprop.py:246-289 | A batch adds `num_steps / K` to `K_count` when `K` divides `num_steps`, and otherwise leaves it at 0. |
| Counters.LoaderKCount | snntorch/backprop.py:150-289 | `K_count` is never reset between batches: after `j` batches it is `j * (num_steps / K)` when `K` divides `num_steps`, else 0. |
| Counters.SecondBatchFirstTarget | snntorch/backprop.py:210-220 | With time-varying targets and `K` dividing `num_steps`, the second batch's first window gets `targets[num_steps : num_steps + K]`. |
| Counters.BatchLossConst | snntorch/backprop.py:233-283 | With constant losses, a batch adds `(num_steps / K)` full windows' loss divided by `num_steps / K`, plus the remainder's loss divided by `num_steps % K`. |
| Counters.RunLoss | snntorch/backprop.py:152-300 | With constant losses, a completed run returns the batch share summed over all batches, not averaged. |
| Counters.DividedBatchLoss | snntorch/backprop.py:234-234 | When `K` divides `num_steps`, a batch adds exactly the window loss. |
| Counters.RemainderWeightExample | snntorch/backprop.py:234-283 | With `num_steps = 10` and `K = 3`, a batch adds 1.9 times the window loss. |
| RecTrunc.TensorList.Append | snntorch/backprop.py:591-591 | `list.append` adds one element at the end and keeps the others. |
| RecTrunc.Plan | snntorch/backprop.py:589-601 | The appends of `_rec_trunc`, in order. There are one or two; when there are two, the spike append comes before the membrane append. |
| RecTrunc.PlanShape | snntorch/backprop.py:589-601 | With a regularizer, the membrane list always gets one entry, and the spike list gets one before it iff either flag is set. Without one, exactly one list gets one entry: the spike list iff `loss_spk`. |
| RecTrunc.RecTrunc | snntorch/backprop.py:578-601 | `_rec_trunc` appends to each list exactly what the table says and keeps existing entries. When both arguments are one list, it appends all entries to it in order. |

## Left out

- Tensor numerics: `torch.stack`, the bodies of the criterion and regularizer, `backward` and `optimizer.step` are foreign calls. They appear only as events, and the losses are arbitrary functions to `real`.
- Floating point: losses and the weights `1 / (num_steps / K)` and `1 / (num_steps % K)` are exact reals.
- Counters.RunLoss: states the returned sum with `Scaled` (repeated addition) rather than a product. `Counters.ScaledIsMul` proves the two equal.
- Devices and `net.train()`: placement and mode switching do not affect the schedule.
- The data loader is a finite sequence of `(data, targets)` pairs, not an iterator.
- `utils.reset`, `utils._final_layer_check` and `detach_hidden` are not part of this model. Their effects are an event, the arity `numReturn`, and the `utils.is_*` flags given as inputs.
- `K <= 0` is excluded by the precondition `ValidArgs` (`k >= 1`). The source's behaviour there depends on `num_steps` and on the loader. When `num_steps >= 1` and the loader is nonempty:
  - `K = 0` never closes a window, and `num_steps % K` at line 252 raises `ZeroDivisionError` at the end of the first batch;
  - a negative `K` never closes a full window. Line 252 closes one window of all `num_steps` steps per batch when `num_steps % K` is nonzero; that remainder is Python's floor modulo, which lies in `(K, 0]`. The window's loss is divided by that negative remainder.
- When `K <= num_steps <= 0`, `range(num_steps)` is empty and `step` is never bound. Line 252 then raises `UnboundLocalError` at the first batch, and with an empty loader the call returns 0.
- Backprop.BPTT: its precondition `ValidArgs(cfg, cfg.numSteps)` excludes `num_steps <= 0`. There the source calls `TBPTT` with `K = num_steps`, the `K > num_steps` test does not fire, `range(num_steps)` is empty, and line 252 reads the unbound `step`. That raises `UnboundLocalError` at the first batch; with an empty loader the call returns 0.
- A network arity outside 2..4 is a precondition. The source would leave `spk` and `mem` unbound rather than raise a named error.
- The regularizer is identified by its `__name__`, as `Option<string>`. `regularization=False` is `None`, and any given regularizer counts as truthy.
- The criterion is identified by its `__name__` and its `time_var_targets` attribute.
- The remainder close follows the step loop, where `step == num_steps - 1` always holds because `num_steps >= K >= 1`. So only `num_steps % K` is tested.
- `_rec_trunc` with its `False` default lists: calling `.append` on `False` raises `AttributeError`. The model requires real lists.
- `BPTF` does nothing: its body is only a docstring.
- The three-value unpack in the `TBPTT` docstring's example: the code returns `loss_avg` alone.

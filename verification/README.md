# Discrete PPO agent: transition buffer, GAE and clipped surrogate

This project models the learning core of a discrete-action Proximal Policy
Optimization agent (PPO-Clip with Generalized Advantage Estimation) and proves
properties of that model in Dafny. The agent has two parts:

- **`ReplayBuffer`** (memory.py). Six parallel lists hold one rollout: states,
  "values" (which actually receive the next states), actions, log-probabilities,
  rewards and done flags. `generate_batches` cuts a shuffled `arange(n)` into
  `n // batch_size` contiguous batches.
- **`DiscretePPOAgent`** (agent.py) has three pieces:
  - `remember` forwards one transition to the buffer.
  - `calc_adv_and_returns` does three things. It computes TD residuals with the critic. It runs the backward GAE loop. It computes the return targets.
  - `learn` has a fixed shape. It computes advantages and returns once. It then runs `n_epochs` rounds of `generate_batches` with one update step per batch. It ends by clearing the buffer. Each update step minimises the clipped surrogate loss and the squared-error critic loss.

The model has four modules:

- `Memory` (memory.dfy) is a class `ReplayBuffer`.
  - Its six lists are `seq` fields. `StoreTransition` and `ClearMemory` reassign them.
  - `Valid()` says the six lists have equal length. `Contents()` views them as a sequence of `Transition`s.
  - The outcome of `np.random.shuffle` is a caller-supplied permutation of `[0, n)`, and every batching fact is proved for every such permutation.
  - Python's floor division by the batch size is written out: a zero batch size raises `ZeroDivisionError`, modelled as an `Err` result, and a negative one yields no batches.
- `Advantage` (advantage.dfy) holds the pieces of `calc_adv_and_returns`:
  - The residuals are `TdResiduals`.
  - The GAE recursion with boundary `adv[N] = 0` is `AdvantageAt`/`Gae`. It is proved equal to a closed form: the discounted sum of the residuals up to the end of the step's episode.
  - The imperative loop is `CalcAdvAndReturns`. It appends to a list that starts as `[0]`, then reverses it and drops the last element. It is proved to compute `Gae`.
- `Surrogate` (surrogate.dfy) holds `torch.clamp`, the per-sample clipped surrogate, the actor loss with its entropy bonus, the critic loss, and the log-probability ratios.
- `Agent` (agent.dfy) is a class `DiscretePPOAgent` with its configuration, `Remember` and `Learn`. The critic is a function `S -> real`. `Learn` returns the update steps it performs: the batch and the rows gathered for it.

The residual is `reward + gamma * V(next_state) - V(state)` at every step,
terminal or not (agent.py:65). `1 - done` masks only the propagation of the
next step's advantage (agent.py:69). So a one-step episode that ends in a
terminal state gets the advantage `reward + gamma * V(next_state) - V(state)`,
not `reward - V(state)`, and its return target is
`reward + gamma * V(next_state)`; see `Advantage.TerminalReturn`.

Several lemmas below (`GaeRecurrence`, `ZeroDiscount`, `SampleLogRatioLocal`)
are close to the definitions they are about and need no proof steps. The
substantial proofs are the loop invariant of `Advantage.CalcAdvAndReturns`,
which ties the reversed, truncated list to the GAE recursion, the induction of
`Advantage.GaeIsEpisodeSum` behind `Advantage.EpisodeIsolation`, and the
batching lemmas behind `Memory.ReplayBuffer.GenerateBatches`.

## Model

| member | source | states |
|---|---|---|
| Memory.ReplayBuffer.constructor | memory.py:5-12 | the buffer keeps the given batch size and starts with six empty lists |
| Memory.ReplayBuffer.StoreTransition | memory.py:35-41 | each list grows by exactly the new item, placed last; earlier entries and the batch size are unchanged and the lists stay parallel |
| Memory.ReplayBuffer.ClearMemory | memory.py:43-49 | all six lists become empty; the batch size is unchanged |
| Memory.ReplayBuffer.Sample | memory.py:14-22 | returns the six lists as stored, in insertion order, all of one length, and changes nothing |
| Memory.ReplayBuffer.GenerateBatches | memory.py:24-33 | raises exactly when the batch size is 0; otherwise returns `n // batch_size` batches (none for a negative size), each of `batch_size` indices below n, no index twice; fewer than `batch_size` transitions give no batches; the stored lists are not modified |
| Memory.FloorDiv | memory.py:26 | Python's `//`: the quotient rounded toward minus infinity, for both signs of the divisor |
| Memory.NegativeSizeNoBatches | memory.py:26 | a negative batch size gives a non-positive batch count, so `range(n_batches)` is empty |
| Memory.Arange | memory.py:27 | `np.arange(n)`: n indices, index i at position i, strictly increasing |
| Memory.PermutationFacts | memory.py:27-28 | a shuffle of `arange(n)` has length n, holds every index below n, and holds each exactly once |
| Memory.Batches | memory.py:29-32 | consecutive slices of the shuffle: each batch holds `size` indices taken from it, and there are none exactly when fewer than `size` indices are left |
| Memory.BatchCount | memory.py:26-32 | the number of full slices `k` satisfies `k * size <= n < k * size + size` |
| Memory.BatchSlice | memory.py:29-32 | batch p is the slice `ids[p*size : (p+1)*size]`, and that slice lies inside the shuffle |
| Memory.BatchAt | memory.py:29-32 | element k of batch p is element `p*size + k` of the shuffle |
| Memory.BatchesShape | memory.py:25-32 | `n // size` batches (none for a negative size), each of exactly `size` indices, all in `[0, n)` |
| Memory.BatchesDisjoint | memory.py:27-32 | no index occurs twice, within a batch or across batches |
| Memory.BatchesCover | memory.py:26-32 | an index is in some batch exactly when it is not among the dropped tail of the shuffle; when `size` divides n every index is in a batch |
| Advantage.Evaluate | agent.py:63-64 | the critic gives one value per state |
| Advantage.TdResiduals | agent.py:65 | one residual `r + gamma*V(s') - V(s)` per step |
| Advantage.NotDone | agent.py:69 | `1 - done`: 0 exactly at a terminal step, 1 otherwise |
| Advantage.AdvantageAt | agent.py:67-72 | the advantage of step t by the backward recursion with `adv[N] = 0`; zero when every residual from t on is zero, and the residual itself when the discount is zero |
| Advantage.Gae | agent.py:67-72 | the advantage list has one entry per residual, and is all zeros when every residual is zero |
| Advantage.Returns | agent.py:74 | one return target per step, from which subtracting the value gives back the advantage |
| Advantage.Reverse | agent.py:71 | `list.reverse()`: same length, first and last elements trade places |
| Advantage.ReverseInvolution | agent.py:71 | reversing twice gives the list back |
| Advantage.GaeRecurrence | agent.py:69 | for t < N-1, `adv[t] = delta[t] + gamma*lambda*adv[t+1]*(1 - done[t])` |
| Advantage.TerminalNoLeak | agent.py:69 | a terminal step, and the last step, have advantage equal to their own residual |
| Advantage.ZeroDiscount | agent.py:69 | with `gamma*lambda == 0` the advantages are the residuals |
| Advantage.GaeIsEpisodeSum | agent.py:67-72 | the advantage of step t is the discounted sum of the residuals from t to the end of t's episode |
| Advantage.EpisodeIsolation | agent.py:67-72 | two rollouts that agree up to a terminal step have the same advantages up to it, whatever follows |
| Advantage.TerminalReturn | agent.py:65-74 | at a terminal step the return target is `reward + gamma * V(next state)` |
| Advantage.CriticAdvantages | agent.py:60-72 | the advantages of a rollout: one per step |
| Advantage.CalcAdvAndReturns | agent.py:60-76 | the backward loop with reversal and truncation yields exactly `Gae` of the residuals with discount `gamma*lambda`; `returns[t] = adv[t] + V(s_t)`, using the advantages before normalisation |
| Surrogate.Clamp | agent.py:108 | `torch.clamp`: inside `[lo, hi]` when `lo <= hi`, the identity inside the range, the nearer bound outside it, and `hi` when `hi < lo` |
| Surrogate.ClippedSurrogate | agent.py:106-113 | never above `ratio*A`, equal to it when `1-eps <= ratio <= 1+eps`, never above the clipped term, and always one of the two |
| Surrogate.Min | agent.py:113 | `torch.min` of two values: at most both, and equal to one of them |
| Surrogate.Weighted | agent.py:106 | `advantages[batch] * prob_ratio`, one entry per sample; with every ratio 1 it is the advantages |
| Surrogate.Surrogates | agent.py:106-113 | the elementwise min of the unclipped and clipped objectives: never above the unclipped one, and equal to it when every ratio is inside the clip range |
| Surrogate.Mean | agent.py:112-113 | `torch.mean` of a non-empty batch: the mean times the batch size is the sum |
| Surrogate.SurrogatePiecewise | agent.py:106-113 | the case form of PPO-Clip: `min(ratio, 1+eps)*A` for `A >= 0`, `max(ratio, 1-eps)*A` for `A < 0` |
| Surrogate.NoIncentiveBeyondClip | agent.py:106-113 | past the clip bound in the direction the advantage rewards, the objective no longer depends on the ratio |
| Surrogate.ActorLoss | agent.py:106-114 | `-mean(min(weighted, clipped)) - c * entropy`, never below the loss of the unclipped objective |
| Surrogate.ActorLossInsideClip | agent.py:106-114 | with every ratio inside the clip range, the actor loss equals the unclipped loss |
| Surrogate.SquaredErrors | agent.py:124 | `(critic_value - returns[batch]).pow(2)`: one error per sample, none negative, all zero when values equal targets |
| Surrogate.CriticLoss | agent.py:123-124 | the mean squared error is non-negative and is zero when the values equal the targets |
| Surrogate.JointLogRatio | agent.py:102-104 | as written: every sample of the batch gets the same log ratio, summed over the whole batch |
| Surrogate.JointLogRatioCounterexample | agent.py:102-104 | with new log-probs `[1, 0]` and old `[0, 0]`, sample 1 gets joint log ratio 1 but its own log ratio is 0 |
| Surrogate.JointIsSumOfSamples | agent.py:102-104 | the joint log ratio is the sum of the per-sample log ratios |
| Surrogate.SingletonBatchAgrees | agent.py:102-104 | for a batch of one sample the joint and per-sample ratios agree |
| Surrogate.SampleLogRatio | agent.py:102-104 | corrected: one log ratio per sample |
| Surrogate.SampleLogRatioLocal | agent.py:102-104 | a sample's log ratio depends only on its own log-probabilities, and is 0 when they are unchanged |
| Surrogate.SampleRatios | agent.py:102-104 | corrected: one ratio per sample, 1 for a sample whose log-probability did not change |
| Surrogate.JointRatios | agent.py:102-104 | as written: the same ratio for every sample of the batch |
| Surrogate.UnitRatiosLoss | agent.py:106-114 | with every ratio 1 and a non-negative clip the actor loss is minus the mean advantage minus the entropy bonus |
| Surrogate.BatchActorLoss | agent.py:100-114 | corrected actor loss of a batch; before the actor moves it is minus the mean advantage minus the entropy bonus |
| Surrogate.JointBatchActorLoss | agent.py:100-114 | as-written actor loss of a batch; equal to the corrected one on a batch of one sample, and also minus the mean advantage minus the entropy bonus before the actor moves |
| Surrogate.JointLossCounterexample | agent.py:102-114 | with new log-probs `[1, 0]`, old `[0, 0]`, advantages `[1, 1]` and an exponential with `exp(0) = 1`, `exp(1) = 2`, the as-written loss is -2 and the corrected loss is -1.5 |
| Agent.Gather | agent.py:96-98 | `xs[batch]`: one row per index, each row from xs; indexing with `arange(n)` gives xs |
| Agent.EpochCount | agent.py:93 | the iterations of `range(n_epochs)`: `n_epochs` when it is not negative, none otherwise |
| Agent.EpochBatches | agent.py:93-95 | the batches of all epochs in visiting order, each of `batch_size` indices |
| Agent.EpochBatchesCount | agent.py:93-95 | over all epochs, `learn` visits `n_epochs * (n // batch_size)` batches |
| Agent.EpochBatchesAt | agent.py:93-95 | batch j of epoch e is visited at position `e * (n // batch_size) + j`: each epoch's batches once, in order, after the earlier epochs |
| Agent.EpochBatchesShortBuffer | agent.py:93-95 | with fewer transitions than `batch_size` no batch is visited in any epoch |
| Agent.StepActorLoss | agent.py:100-114 | the actor loss of one update step with per-sample ratios; while the actor still gives the stored log-probabilities it is minus the mean advantage of the batch minus the entropy bonus |
| Agent.StepActorLossAsWritten | agent.py:100-114 | the actor loss of one update step with the joint ratio of agent.py; equal to `StepActorLoss` for a batch of one sample |
| Agent.StepCriticLoss | agent.py:123-124 | the critic loss of one update step: non-negative, and zero when the critic's values equal the batch's return targets |
| Agent.VisitBatches | agent.py:95-98 | one update step per batch, in order, each with the states, actions, old log-probabilities, advantages and returns at its indices |
| Agent.DiscretePPOAgent.constructor | agent.py:7-34 | stores the hyper-parameters, with the source's defaults, and creates an empty buffer with the given batch size |
| Agent.DiscretePPOAgent.Remember | agent.py:36-37 | appends one transition whose `values` slot is the next state |
| Agent.DiscretePPOAgent.Learn | agent.py:78-133 | fails exactly when the batch size is 0 and there is at least one epoch, then leaves the buffer untouched; otherwise performs the update steps for every epoch's batches in order, with the advantages and returns of the whole buffer, and ends with the buffer cleared; a buffer shorter than the batch size gives no steps |

## Left out

- The actor and critic networks, `choose_action` (agent.py:47-58), `dist.log_prob`, `dist.entropy`, `backward`, the optimizers and `clip_grad_norm_` (agent.py:100-131) are not modelled. These are library calls and gradient numerics. The critic is a function argument. Log-probabilities, entropy and critic outputs are inputs of the loss functions. `max_grad_norm` is only stored.
- `Agent.DiscretePPOAgent.Learn`: the advantages in each update step are the ones before the normalisation at agent.py:75. That normalisation, `(adv - mean) / (std + 1e-8)`, needs a square root and floating-point behaviour (NaN for an empty or one-element buffer), so it is not modelled.
- `Agent.DiscretePPOAgent.Learn` does not compute losses, since it has no network outputs. `StepActorLoss` and `StepCriticLoss` take them as inputs for one step.
- `Agent.StepActorLoss`: uses the per-sample ratio, not the joint ratio of agent.py:102-104 (see Findings). For batches of two or more samples whose log-probabilities moved differently its value differs from the program's. The program's loss is `Agent.StepActorLossAsWritten`.
- `torch.exp` is not modelled. Where a ratio is needed, the exponential is a function parameter (`Surrogate.BatchActorLoss`).
- `np.random.shuffle` (memory.py:28) is replaced by a permutation the caller supplies, one per epoch for `Learn`.
- Checkpoint saving and loading (agent.py:39-45) is file I/O and is not modelled.
- `env_name`, `alpha`, `input_dims` and `n_actions` (agent.py:9-21, 28-33) only configure networks and file names.
- Conversions to tensors and devices (agent.py:83-87) are not modelled.
- All arithmetic is on exact reals. Floating-point rounding, NaN and infinities are not modelled.
- `Surrogate.CriticLoss` states only one direction: the loss is zero when values equal targets. It does not state that a zero loss forces them equal.
- A zero batch size makes `generate_batches` raise in Python. Here it is an `Err` result, and `Learn` stops without clearing the buffer.

## Findings

| source | as written | input that shows it | evidently intended | confidence | as-written member | corrected member |
|---|---|---|---|---|---|---|
| agent.py:102-104 | `new_probs.sum(-1, keepdim=True) - old_probs.sum(-1, keepdim=True)`: for a discrete policy the log-probabilities of a batch are one-dimensional, so the sum runs over the whole batch. Every sample then gets one joint ratio. | batch of two samples, new log-probs `[1, 0]`, old `[0, 0]`: sample 1 gets log ratio 1 (ratio e) although its own probability did not change | the per-sample ratio `exp(new[i] - old[i])` of PPO-Clip, which sums over action dimensions only | medium, not executed | Surrogate.JointLogRatioCounterexample | Surrogate.SampleLogRatioLocal |

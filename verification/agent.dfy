/** The PPO agent of agent.py with its networks abstracted: the critic is a
    function from states to values, and the actor and optimizer steps are
    not modelled. What remains is the agent's configuration, `remember`, and
    the control skeleton of `learn`: one advantage computation on the whole
    buffer, `n_epochs` calls of `generate_batches`, one update step per batch
    in order, and `clear_memory` at the end. */
module Agent {
  import opened Memory
  import opened Advantage
  import Surrogate

  /** What one update step of `learn` works on: the indices of its batch and
      the states, actions, old log-probabilities, advantages and return
      targets gathered at those indices. */
  datatype UpdateStep<S, A> = UpdateStep(batch: seq<int>, states: seq<S>, actions: seq<A>,
                                         oldLogProbs: seq<real>, advantages: seq<real>, targets: seq<real>)

  ghost predicate InRange(batch: seq<int>, n: int)
  {
    forall k :: 0 <= k < |batch| ==> 0 <= batch[k] < n
  }

  /** Fancy indexing `xs[batch]`: one row per index, every row taken from xs;
      indexing with `arange(n)` gives xs itself. */
  function Gather<T>(xs: seq<T>, batch: seq<int>): (g: seq<T>)
    requires InRange(batch, |xs|)
    ensures |g| == |batch|
    ensures forall k :: 0 <= k < |g| ==> g[k] in xs
    ensures batch == Arange(|xs|) ==> g == xs
  {
    seq(|batch|, k requires 0 <= k < |batch| => xs[batch[k]])
  }

  /** The batches of every epoch, in the order `learn` visits them: each of
      `size` indices drawn from one of the shuffles. */
  function EpochBatches(shuffles: seq<seq<int>>, size: int): (bs: seq<seq<int>>)
    requires size != 0 || |shuffles| == 0
    ensures forall j :: 0 <= j < |bs| ==> |bs[j]| == size
    decreases |shuffles|
  {
    if |shuffles| == 0 then []
    else EpochBatches(shuffles[..|shuffles| - 1], size) + Batches(shuffles[|shuffles| - 1], size)
  }

  ghost predicate AllPermutations(shuffles: seq<seq<int>>, n: nat)
  {
    forall e :: 0 <= e < |shuffles| ==> IsPermutation(shuffles[e], n)
  }

  /** The number of iterations of `range(n_epochs)`: `n_epochs` itself when
      it is not negative, and none for a negative count. */
  function EpochCount(nEpochs: int): (c: nat)
    ensures nEpochs >= 0 ==> c == nEpochs
    ensures nEpochs < 0 ==> c == 0
  {
    if nEpochs > 0 then nEpochs else 0
  }

  /** `steps` are the update steps for `batches`, in order, each gathering
      its batch from the sampled lists and the advantages and returns. */
  ghost predicate StepsMatch<S, A>(steps: seq<UpdateStep<S, A>>, batches: seq<seq<int>>, states: seq<S>,
                                   actions: seq<A>, logProbs: seq<real>, adv: seq<real>, rets: seq<real>)
  {
    |steps| == |batches| && |actions| == |states| && |logProbs| == |states| &&
    |adv| == |states| && |rets| == |states| &&
    forall j :: 0 <= j < |steps| ==>
      InRange(batches[j], |states|) &&
      steps[j] == UpdateStep(batches[j], Gather(states, batches[j]), Gather(actions, batches[j]),
                             Gather(logProbs, batches[j]), Gather(adv, batches[j]), Gather(rets, batches[j]))
  }

  lemma StepsMatchAppend<S, A>(steps: seq<UpdateStep<S, A>>, batches: seq<seq<int>>, states: seq<S>,
                               actions: seq<A>, logProbs: seq<real>, adv: seq<real>, rets: seq<real>,
                               batch: seq<int>)
    requires StepsMatch(steps, batches, states, actions, logProbs, adv, rets) && InRange(batch, |states|)
    ensures StepsMatch(steps + [UpdateStep(batch, Gather(states, batch), Gather(actions, batch),
                                           Gather(logProbs, batch), Gather(adv, batch), Gather(rets, batch))],
                       batches + [batch], states, actions, logProbs, adv, rets)
  {
  }

  /** Every epoch contributes `n // size` batches, so `learn` performs
      `n_epochs * (n // batch_size)` update steps. */
  lemma {:induction false} EpochBatchesCount(shuffles: seq<seq<int>>, size: int, n: nat)
    requires size > 0 && AllPermutations(shuffles, n)
    ensures |EpochBatches(shuffles, size)| == |shuffles| * (n / size)
    decreases |shuffles|
  {
    if |shuffles| > 0 {
      var m := |shuffles| - 1;
      var q := n / size;
      PrefixPermutations(shuffles, n, m);
      EpochBatchesCount(shuffles[..m], size, n);
      BatchesShape(shuffles[m], size, n);
      MulSucc(m, q);
    }
  }

  lemma MulSucc(m: int, q: int)
    ensures (m + 1) * q == m * q + q
  {
  }

  lemma PrefixPermutations(shuffles: seq<seq<int>>, n: nat, m: int)
    requires AllPermutations(shuffles, n) && 0 <= m <= |shuffles|
    ensures AllPermutations(shuffles[..m], n)
  {
    forall e | 0 <= e < m
      ensures IsPermutation(shuffles[..m][e], n)
    {
      assert shuffles[..m][e] == shuffles[e];
    }
  }

  /** The j-th batch of epoch e is the j-th batch `generate_batches` cut from
      that epoch's shuffle: each epoch's batches are visited once, in order,
      after those of the epochs before it. */
  lemma {:induction false} EpochBatchesAt(shuffles: seq<seq<int>>, size: int, n: nat, e: int, j: int)
    requires size > 0 && AllPermutations(shuffles, n)
    requires 0 <= e < |shuffles| && 0 <= j < |Batches(shuffles[e], size)|
    ensures 0 <= e * (n / size) + j < |EpochBatches(shuffles, size)|
    ensures EpochBatches(shuffles, size)[e * (n / size) + j] == Batches(shuffles[e], size)[j]
    decreases |shuffles|
  {
    var m := |shuffles| - 1;
    var q := n / size;
    var prefix := EpochBatches(shuffles[..m], size);
    PrefixPermutations(shuffles, n, m);
    BatchesShape(shuffles[e], size, n);
    EpochBatchesCount(shuffles, size, n);
    EpochBatchesCount(shuffles[..m], size, n);
    BatchesShape(shuffles[m], size, n);
    MulMonotone(e, m, q);
    if e < m {
      EpochBatchesAt(shuffles[..m], size, n, e, j);
      assert shuffles[..m][e] == shuffles[e];
      MulGap(e, m, q);
    }
  }

  /** With fewer transitions than `batch_size` there is nothing to visit in
      any epoch. */
  lemma {:induction false} EpochBatchesShortBuffer(shuffles: seq<seq<int>>, size: int, n: nat)
    requires size > n && AllPermutations(shuffles, n)
    ensures EpochBatches(shuffles, size) == []
    decreases |shuffles|
  {
    if |shuffles| > 0 {
      var m := |shuffles| - 1;
      PrefixPermutations(shuffles, n, m);
      EpochBatchesShortBuffer(shuffles[..m], size, n);
      PermutationFacts(shuffles[m], n);
    }
  }

  /** The actor loss of one update step with per-sample ratios, given the
      updated actor's log-probabilities of the step's actions and its mean
      entropy. On the first step of the first epoch the actor has not moved
      yet: its log-probabilities are the stored ones, and the loss is minus
      the mean advantage of the batch minus the entropy bonus. */
  function StepActorLoss<S, A>(step: UpdateStep<S, A>, exp: real -> real, newLogProbs: seq<real>,
                               policyClip: real, entropyCoefficient: real, entropy: real): (r: real)
    requires |step.oldLogProbs| == |newLogProbs| == |step.advantages| > 0
    ensures exp(0.0) == 1.0 && policyClip >= 0.0 && newLogProbs == step.oldLogProbs ==>
      r == -Surrogate.Mean(step.advantages) - entropyCoefficient * entropy
  {
    Surrogate.BatchActorLoss(exp, newLogProbs, step.oldLogProbs, step.advantages,
                             policyClip, entropyCoefficient, entropy)
  }

  /** The actor loss of one update step as agent.py:102-114 computes it, with
      one joint ratio for the whole batch; it agrees with `StepActorLoss` on a
      batch of one sample. */
  function StepActorLossAsWritten<S, A>(step: UpdateStep<S, A>, exp: real -> real, newLogProbs: seq<real>,
                                        policyClip: real, entropyCoefficient: real, entropy: real): (r: real)
    requires |step.oldLogProbs| == |newLogProbs| == |step.advantages| > 0
    ensures |step.advantages| == 1 ==>
      r == StepActorLoss(step, exp, newLogProbs, policyClip, entropyCoefficient, entropy)
  {
    Surrogate.JointBatchActorLoss(exp, newLogProbs, step.oldLogProbs, step.advantages,
                                  policyClip, entropyCoefficient, entropy)
  }

  /** The critic loss of one update step, given the critic's values of the
      step's states: never negative, and zero when the critic predicts every
      return target of the batch. */
  function StepCriticLoss<S, A>(step: UpdateStep<S, A>, criticValues: seq<real>): (r: real)
    requires |step.targets| == |criticValues| > 0
    ensures r >= 0.0
    ensures criticValues == step.targets ==> r == 0.0
  {
    Surrogate.CriticLoss(criticValues, step.targets)
  }

  /** `steps` are what `learn` visits for a buffer holding the given lists:
      the update steps of every epoch's batches, in order, with the
      advantages and returns of `calc_adv_and_returns`. */
  ghost predicate LearnOutcome<S, A>(steps: seq<UpdateStep<S, A>>, shuffles: seq<seq<int>>, size: int,
                                     critic: S -> real, gamma: real, gaeLambda: real,
                                     states: seq<S>, nextStates: seq<S>, actions: seq<A>, logProbs: seq<real>,
                                     rewards: seq<real>, dones: seq<bool>)
  {
    (size != 0 || |shuffles| == 0) &&
    |nextStates| == |states| && |rewards| == |states| && |dones| == |states| &&
    var adv := CriticAdvantages(critic, states, nextStates, rewards, dones, gamma, gaeLambda);
    StepsMatch(steps, EpochBatches(shuffles, size), states, actions, logProbs,
               adv, Returns(adv, Evaluate(critic, states)))
  }

  /** The inner loop of `learn`: one update step per batch, in order, each
      gathering its batch's rows. `visited` are the batches of the earlier
      steps. */
  method VisitBatches<S, A>(steps: seq<UpdateStep<S, A>>, ghost visited: seq<seq<int>>, batches: seq<seq<int>>,
                            states: seq<S>, actions: seq<A>, logProbs: seq<real>, adv: seq<real>, rets: seq<real>)
    returns (out: seq<UpdateStep<S, A>>)
    requires StepsMatch(steps, visited, states, actions, logProbs, adv, rets)
    requires AllInRange(batches, |states|)
    ensures StepsMatch(out, visited + batches, states, actions, logProbs, adv, rets)
  {
    out := steps;
    var j := 0;
    while j < |batches|
      invariant 0 <= j <= |batches|
      invariant StepsMatch(out, visited + batches[..j], states, actions, logProbs, adv, rets)
    {
      var batch := batches[j];
      StepsMatchAppend(out, visited + batches[..j], states, actions, logProbs, adv, rets, batch);
      assert visited + batches[..j + 1] == visited + batches[..j] + [batch];
      out := out + [UpdateStep(batch, Gather(states, batch), Gather(actions, batch), Gather(logProbs, batch),
                               Gather(adv, batch), Gather(rets, batch))];
      j := j + 1;
    }
    assert batches[..j] == batches;
  }

  class DiscretePPOAgent<S, A> {
    const gamma: real
    const gaeLambda: real
    const policyClip: real
    const nEpochs: int
    const entropyCoefficient: real
    const maxGradNorm: real
    const memory: ReplayBuffer<S, A>

    ghost predicate Valid()
      reads this, memory
    {
      memory.Valid()
    }

    /** The hyper-parameters with the source's defaults, and an empty buffer
        of the given batch size. */
    constructor (gamma: real := 0.99, gaeLambda: real := 0.95, policyClip: real := 0.1, batchSize: int := 64,
                 nEpochs: int := 10, maxGradNorm: real := 0.5, entropyCoefficient: real := 0.01)
      ensures Valid() && fresh(memory)
      ensures memory.Contents() == [] && memory.batchSize == batchSize
      ensures this.gamma == gamma && this.gaeLambda == gaeLambda && this.policyClip == policyClip
      ensures this.nEpochs == nEpochs && this.maxGradNorm == maxGradNorm
      ensures this.entropyCoefficient == entropyCoefficient
    {
      this.gamma := gamma;
      this.gaeLambda := gaeLambda;
      this.policyClip := policyClip;
      this.nEpochs := nEpochs;
      this.maxGradNorm := maxGradNorm;
      this.entropyCoefficient := entropyCoefficient;
      memory := new ReplayBuffer(batchSize);
    }

    /** `remember` forwards to `store_transition`, the next state going into
        the buffer's `values` slot. */
    method Remember(state: S, nextState: S, action: A, logProb: real, reward: real, done: bool)
      requires Valid()
      modifies memory
      ensures Valid()
      ensures memory.Contents() == old(memory.Contents()) + [Transition(state, nextState, action, logProb, reward, done)]
      ensures memory.values == old(memory.values) + [nextState]
    {
      memory.StoreTransition(state, nextState, action, logProb, reward, done);
    }

    /** `learn`: the advantages and returns of the whole buffer, then for each
        epoch the batches of `generate_batches` (its shuffle taken from
        `shuffles`), one update step per batch, and finally `clear_memory`.
        A zero batch size raises on the first epoch, before the buffer is
        cleared. */
    method Learn(critic: S -> real, shuffles: seq<seq<int>>) returns (r: Result<seq<UpdateStep<S, A>>>)
      requires Valid()
      requires |shuffles| == EpochCount(nEpochs) && AllPermutations(shuffles, |memory.states|)
      modifies memory
      ensures Valid()
      ensures r.Err? <==> memory.batchSize == 0 && nEpochs > 0
      ensures r.Err? ==> unchanged(memory)
      ensures r.Ok? ==> memory.Contents() == []
      ensures r.Ok? ==>
        LearnOutcome(r.value, shuffles, memory.batchSize, critic, gamma, gaeLambda, old(memory.states),
                     old(memory.values), old(memory.actions), old(memory.probs), old(memory.rewards),
                     old(memory.dones))
      ensures |old(memory.states)| < memory.batchSize ==> r == Ok([])
    {
      var s, v, a, p, rw, d := memory.Sample();
      var adv, rets := CalcAdvAndReturns(critic, s, v, rw, d, gamma, gaeLambda);
      var b := memory.batchSize;
      var steps: seq<UpdateStep<S, A>> := [];
      var epoch := 0;
      while epoch < nEpochs
        invariant 0 <= epoch <= |shuffles|
        invariant unchanged(memory)
        invariant epoch > 0 ==> b != 0
        invariant StepsMatch(steps, EpochBatches(shuffles[..epoch], b), s, a, p, adv, rets)
      {
        var batches := memory.GenerateBatches(shuffles[epoch]);
        if batches.Err? {
          return Err(batches.error);
        }
        assert shuffles[..epoch + 1][..epoch] == shuffles[..epoch];
        steps := VisitBatches(steps, EpochBatches(shuffles[..epoch], b), batches.value, s, a, p, adv, rets);
        epoch := epoch + 1;
      }
      assert shuffles[..epoch] == shuffles;
      assert LearnOutcome(steps, shuffles, b, critic, gamma, gaeLambda, s, v, a, p, rw, d);
      if |s| < b {
        EpochBatchesShortBuffer(shuffles, b, |s|);
      }
      memory.ClearMemory();
      r := Ok(steps);
    }
  }
}

/** Advantage and return estimation of the PPO agent (agent.py,
    `calc_adv_and_returns`): one-step TD residuals, the backward Generalized
    Advantage Estimation recursion, and the return targets of the critic. The
    critic is a function from states to values, evaluated once, without
    gradients, on the drained buffer. */
module Advantage {

  /** `1 - done` for a boolean done flag: 0 exactly for a terminal step,
      1 otherwise. */
  function NotDone(done: bool): (m: real)
    ensures m == 0.0 || m == 1.0
    ensures m == 0.0 <==> done
  {
    if done then 0.0 else 1.0
  }

  /** The critic applied to every state of a batch. */
  function Evaluate<S>(critic: S -> real, xs: seq<S>): (vs: seq<real>)
    ensures |vs| == |xs|
  {
    seq(|xs|, i requires 0 <= i < |xs| => critic(xs[i]))
  }

  /** `deltas = rewards + gamma * values_ - values`. Note that nothing masks the
      bootstrap term with `1 - done`: a terminal step still adds
      `gamma * values_[t]`. */
  function TdResiduals(rewards: seq<real>, values: seq<real>, nextValues: seq<real>, gamma: real): (deltas: seq<real>)
    requires |values| == |rewards| && |nextValues| == |rewards|
    ensures |deltas| == |rewards|
  {
    seq(|rewards|, t requires 0 <= t < |rewards| => rewards[t] + gamma * nextValues[t] - values[t])
  }

  /** The GAE recursion with its boundary: `adv[N] = 0` and, for t < N,
      `adv[t] = delta[t] + discount * adv[t+1] * (1 - done[t])`, where the
      discount is `gamma * gae_lambda`. */
  function AdvantageAt(deltas: seq<real>, dones: seq<bool>, discount: real, t: int): (a: real)
    requires |dones| == |deltas| && 0 <= t <= |deltas|
    ensures (forall i :: t <= i < |deltas| ==> deltas[i] == 0.0) ==> a == 0.0
    ensures discount == 0.0 && t < |deltas| ==> a == deltas[t]
    decreases |deltas| - t
  {
    if t == |deltas| then 0.0
    else deltas[t] + discount * AdvantageAt(deltas, dones, discount, t + 1) * NotDone(dones[t])
  }

  /** The advantages of all N steps. Where every residual from step t on is
      zero (the critic is exact there), the advantage of t is zero. */
  function Gae(deltas: seq<real>, dones: seq<bool>, discount: real): (adv: seq<real>)
    requires |dones| == |deltas|
    ensures |adv| == |deltas|
    ensures (forall i :: 0 <= i < |deltas| ==> deltas[i] == 0.0) ==> forall t :: 0 <= t < |adv| ==> adv[t] == 0.0
  {
    seq(|deltas|, t requires 0 <= t < |deltas| => AdvantageAt(deltas, dones, discount, t))
  }

  /** `returns = adv + values`, elementwise: subtracting the values gives the
      advantages back. */
  function Returns(adv: seq<real>, values: seq<real>): (rets: seq<real>)
    requires |values| == |adv|
    ensures |rets| == |adv|
    ensures forall t :: 0 <= t < |adv| ==> rets[t] - values[t] == adv[t]
  {
    seq(|adv|, t requires 0 <= t < |adv| => adv[t] + values[t])
  }

  /** The in-place `list.reverse()`: the first and last elements trade
      places. */
  function Reverse<T>(s: seq<T>): (r: seq<T>)
    ensures |r| == |s|
    ensures |s| > 0 ==> r[0] == s[|s| - 1] && r[|r| - 1] == s[0]
  {
    seq(|s|, i requires 0 <= i < |s| => s[|s| - 1 - i])
  }

  /** Reversing twice gives the list back. */
  lemma ReverseInvolution<T>(s: seq<T>)
    ensures Reverse(Reverse(s)) == s
  {
  }

  /** The recurrence the backward loop follows, read on the finished list:
      each advantage is its residual plus the discounted advantage of the next
      step, cut by `1 - done`. */
  lemma GaeRecurrence(deltas: seq<real>, dones: seq<bool>, discount: real, t: int)
    requires |dones| == |deltas| && 0 <= t < |deltas| - 1
    ensures Gae(deltas, dones, discount)[t]
      == deltas[t] + discount * Gae(deltas, dones, discount)[t + 1] * NotDone(dones[t])
  {
  }

  /** The last step never bootstraps, and a terminal step does not bootstrap
      from the step after it. */
  lemma TerminalNoLeak(deltas: seq<real>, dones: seq<bool>, discount: real, t: int)
    requires |dones| == |deltas| && 0 <= t < |deltas| && (dones[t] || t == |deltas| - 1)
    ensures Gae(deltas, dones, discount)[t] == deltas[t]
  {
    if !dones[t] {
      assert AdvantageAt(deltas, dones, discount, t + 1) == 0.0;
    }
  }

  /** With `gamma * gae_lambda == 0` no residual propagates backwards. */
  lemma ZeroDiscount(deltas: seq<real>, dones: seq<bool>)
    requires |dones| == |deltas|
    ensures Gae(deltas, dones, 0.0) == deltas
  {
  }

  /** `xs[0] + c * xs[1] + c^2 * xs[2] + ...`. */
  function DiscountedSum(xs: seq<real>, c: real): real
    decreases |xs|
  {
    if |xs| == 0 then 0.0 else xs[0] + c * DiscountedSum(xs[1..], c)
  }

  /** The last step of the episode that step t belongs to: the first terminal
      step at or after t, or the last stored step. */
  function EpisodeEnd(dones: seq<bool>, t: int): (e: int)
    requires 0 <= t < |dones|
    ensures t <= e < |dones|
    ensures dones[e] || e == |dones| - 1
    ensures forall k :: t <= k < e ==> !dones[k]
    decreases |dones| - t
  {
    if dones[t] || t == |dones| - 1 then t else EpisodeEnd(dones, t + 1)
  }

  /** The closed form of GAE: the advantage of step t is the discounted sum of
      the TD residuals from t to the end of t's episode. */
  lemma {:induction false} GaeIsEpisodeSum(deltas: seq<real>, dones: seq<bool>, discount: real, t: int)
    requires |dones| == |deltas| && 0 <= t < |deltas|
    ensures Gae(deltas, dones, discount)[t] ==
      DiscountedSum(deltas[t .. EpisodeEnd(dones, t) + 1], discount)
  {
    EpisodeSumFrom(deltas, dones, discount, t);
  }

  lemma {:induction false} EpisodeSumFrom(deltas: seq<real>, dones: seq<bool>, discount: real, t: int)
    requires |dones| == |deltas| && 0 <= t < |deltas|
    ensures AdvantageAt(deltas, dones, discount, t) ==
      DiscountedSum(deltas[t .. EpisodeEnd(dones, t) + 1], discount)
    decreases |deltas| - t
  {
    var e := EpisodeEnd(dones, t);
    var window := deltas[t .. e + 1];
    assert window[1..] == deltas[t + 1 .. e + 1];
    if e == t {
      assert window[1..] == [];
    } else {
      EpisodeSumFrom(deltas, dones, discount, t + 1);
      assert EpisodeEnd(dones, t + 1) == e;
    }
  }

  lemma EpisodeEndBefore(dones: seq<bool>, t: int, k: int)
    requires 0 <= k <= t < |dones| && dones[t]
    ensures EpisodeEnd(dones, k) <= t
  {
  }

  /** Nothing after a terminal step reaches the advantages up to it: two
      rollouts that agree up to a terminal step t have the same advantages up
      to t, whatever follows. */
  lemma EpisodeIsolation(d1: seq<real>, n1: seq<bool>, d2: seq<real>, n2: seq<bool>, discount: real, t: int)
    requires |n1| == |d1| && |n2| == |d2| && 0 <= t < |d1| && t < |d2|
    requires d1[..t + 1] == d2[..t + 1] && n1[..t + 1] == n2[..t + 1] && n1[t]
    ensures Gae(d1, n1, discount)[..t + 1] == Gae(d2, n2, discount)[..t + 1]
  {
    forall k | 0 <= k <= t
      ensures Gae(d1, n1, discount)[k] == Gae(d2, n2, discount)[k]
    {
      IsolationAt(d1, n1, d2, n2, discount, t, k);
    }
  }

  lemma IsolationAt(d1: seq<real>, n1: seq<bool>, d2: seq<real>, n2: seq<bool>, discount: real, t: int, k: int)
    requires |n1| == |d1| && |n2| == |d2| && 0 <= k <= t && t < |d1| && t < |d2|
    requires d1[..t + 1] == d2[..t + 1] && n1[..t + 1] == n2[..t + 1] && n1[t]
    ensures Gae(d1, n1, discount)[k] == Gae(d2, n2, discount)[k]
  {
    GaeIsEpisodeSum(d1, n1, discount, k);
    GaeIsEpisodeSum(d2, n2, discount, k);
    EpisodeEndBefore(n1, t, k);
    SameEpisodeEnd(n1, n2, k, t);
    var e := EpisodeEnd(n1, k);
    assert d1[k .. e + 1] == d1[..t + 1][k .. e + 1];
    assert d2[k .. e + 1] == d2[..t + 1][k .. e + 1];
  }

  lemma {:induction false} SameEpisodeEnd(n1: seq<bool>, n2: seq<bool>, k: int, t: int)
    requires 0 <= k <= t < |n1| && t < |n2| && n1[..t + 1] == n2[..t + 1] && n1[t]
    ensures EpisodeEnd(n1, k) == EpisodeEnd(n2, k)
    decreases t - k
  {
    assert n1[k] == n1[..t + 1][k] && n2[k] == n2[..t + 1][k];
    if k < t {
      SameEpisodeEnd(n1, n2, k + 1, t);
    }
  }

  /** At a terminal step the return target is `reward + gamma * V(next state)`:
      the residual of agent.py still bootstraps from the critic's value of the
      next state, only the advantage of the following step is cut. */
  lemma TerminalReturn(rewards: seq<real>, values: seq<real>, nextValues: seq<real>, dones: seq<bool>,
                       gamma: real, gaeLambda: real, t: int)
    requires |values| == |rewards| && |nextValues| == |rewards| && |dones| == |rewards|
    requires 0 <= t < |rewards| && dones[t]
    ensures Returns(Gae(TdResiduals(rewards, values, nextValues, gamma), dones, gamma * gaeLambda), values)[t]
      == rewards[t] + gamma * nextValues[t]
  {
    TerminalNoLeak(TdResiduals(rewards, values, nextValues, gamma), dones, gamma * gaeLambda, t);
  }

  /** The advantages of a rollout under a critic: its TD residuals, then
      GAE with discount `gamma * gae_lambda`. */
  function CriticAdvantages<S>(critic: S -> real, states: seq<S>, nextStates: seq<S>, rewards: seq<real>,
                               dones: seq<bool>, gamma: real, gaeLambda: real): (adv: seq<real>)
    requires |nextStates| == |states| && |rewards| == |states| && |dones| == |states|
    ensures |adv| == |states|
  {
    Gae(TdResiduals(rewards, Evaluate(critic, states), Evaluate(critic, nextStates), gamma), dones, gamma * gaeLambda)
  }

  /** `calc_adv_and_returns` without the normalisation of the advantages: the
      critic's values of the states and of the next states, the TD residuals,
      the backward loop over reversed residuals and done flags appending to a
      list that starts as `[0]`, then the reversal, the dropped last element,
      and the returns from the un-normalised advantages. */
  method CalcAdvAndReturns<S>(critic: S -> real, states: seq<S>, newStates: seq<S>, rewards: seq<real>,
                              dones: seq<bool>, gamma: real, gaeLambda: real)
    returns (adv: seq<real>, rets: seq<real>)
    requires |newStates| == |states| && |rewards| == |states| && |dones| == |states|
    ensures adv == CriticAdvantages(critic, states, newStates, rewards, dones, gamma, gaeLambda)
    ensures rets == Returns(adv, Evaluate(critic, states))
    ensures |rets| == |states|
    ensures forall t :: 0 <= t < |states| ==> rets[t] == adv[t] + critic(states[t])
  {
    var values := Evaluate(critic, states);
    var values_ := Evaluate(critic, newStates);
    var deltas := TdResiduals(rewards, values, values_, gamma);
    var n := |deltas|;
    var acc := [0.0];
    var k := 0;
    while k < n
      invariant 0 <= k <= n && |acc| == k + 1
      invariant forall j :: 0 <= j <= k ==> acc[j] == AdvantageAt(deltas, dones, gamma * gaeLambda, n - j)
    {
      var delta, done := deltas[n - 1 - k], dones[n - 1 - k];
      var advantage := delta + gamma * gaeLambda * acc[|acc| - 1] * NotDone(done);
      acc := acc + [advantage];
      k := k + 1;
    }
    acc := Reverse(acc);
    adv := acc[..|acc| - 1];
    assert forall t :: 0 <= t < n ==> adv[t] == acc[t] == AdvantageAt(deltas, dones, gamma * gaeLambda, t);
    rets := Returns(adv, values);
  }
}

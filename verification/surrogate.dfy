/** The per-batch losses of the PPO update in `learn` (agent.py): the clipped
    surrogate objective of PPO-Clip, the actor loss with its entropy bonus,
    the squared-error critic loss, and the log-probability ratio between the
    updated and the collecting policy. Ratios and log-probabilities are the
    values the actor network produces; they are inputs here. */
module Surrogate {

  /** `torch.min` of two values: the smaller of the two. */
  function Min(a: real, b: real): (m: real)
    ensures m <= a && m <= b
    ensures m == a || m == b
  {
    if a <= b then a else b
  }

  function Max(a: real, b: real): real
  {
    if a >= b then a else b
  }

  /** `torch.clamp(x, lo, hi)`, which is `min(max(x, lo), hi)`: with `lo <= hi`
      it keeps x inside `[lo, hi]`, and when `hi < lo` every value becomes hi. */
  function Clamp(x: real, lo: real, hi: real): (r: real)
    ensures lo <= hi ==> lo <= r <= hi
    ensures lo <= x <= hi ==> r == x
    ensures lo <= hi && x < lo ==> r == lo
    ensures hi < x ==> r == hi
    ensures hi < lo ==> r == hi
  {
    Min(Max(x, lo), hi)
  }

  /** The clipped surrogate of one sample,
      `min(ratio * A, clamp(ratio, 1 - clip, 1 + clip) * A)`. It never exceeds
      the unclipped objective, equals it while the ratio stays inside the clip
      range, and is always one of the two candidates. */
  function ClippedSurrogate(ratio: real, adv: real, clip: real): (r: real)
    ensures r <= adv * ratio
    ensures r <= Clamp(ratio, 1.0 - clip, 1.0 + clip) * adv
    ensures r == adv * ratio || r == Clamp(ratio, 1.0 - clip, 1.0 + clip) * adv
    ensures 1.0 - clip <= ratio <= 1.0 + clip ==> r == adv * ratio
  {
    Min(adv * ratio, Clamp(ratio, 1.0 - clip, 1.0 + clip) * adv)
  }

  lemma MulLeft(a: real, x: real, y: real)
    requires a >= 0.0 && x <= y
    ensures a * x <= a * y
  {
    assert a * y - a * x == a * (y - x);
  }

  /** The case form of the objective in the PPO paper: for a non-negative
      advantage the ratio is capped at `1 + clip`, for a negative one it is
      floored at `1 - clip`. */
  lemma {:induction false} SurrogatePiecewise(ratio: real, adv: real, clip: real)
    requires clip >= 0.0
    ensures adv >= 0.0 ==> ClippedSurrogate(ratio, adv, clip) == Min(ratio, 1.0 + clip) * adv
    ensures adv < 0.0 ==> ClippedSurrogate(ratio, adv, clip) == Max(ratio, 1.0 - clip) * adv
  {
    var c := Clamp(ratio, 1.0 - clip, 1.0 + clip);
    if adv >= 0.0 {
      if ratio < 1.0 - clip {
        MulLeft(adv, ratio, c);
      } else if ratio > 1.0 + clip {
        MulLeft(adv, c, ratio);
      }
    } else {
      if ratio < 1.0 - clip {
        MulLeft(-adv, ratio, c);
      } else if ratio > 1.0 + clip {
        MulLeft(-adv, c, ratio);
      }
    }
  }

  /** Once the ratio has moved past the clip range in the direction the
      advantage rewards, the objective no longer depends on it. */
  lemma NoIncentiveBeyondClip(r1: real, r2: real, adv: real, clip: real)
    requires clip >= 0.0
    requires (adv >= 0.0 && r1 >= 1.0 + clip && r2 >= 1.0 + clip)
          || (adv < 0.0 && r1 <= 1.0 - clip && r2 <= 1.0 - clip)
    ensures ClippedSurrogate(r1, adv, clip) == ClippedSurrogate(r2, adv, clip)
  {
    SurrogatePiecewise(r1, adv, clip);
    SurrogatePiecewise(r2, adv, clip);
  }

  function Sum(xs: seq<real>): real
    decreases |xs|
  {
    if |xs| == 0 then 0.0 else xs[0] + Sum(xs[1..])
  }

  /** `torch.mean` of a non-empty tensor: the value that, taken once per
      element, adds up to the sum. */
  function Mean(xs: seq<real>): (m: real)
    requires |xs| > 0
    ensures m * (|xs| as real) == Sum(xs)
  {
    Sum(xs) / (|xs| as real)
  }

  lemma {:induction false} SumMonotone(xs: seq<real>, ys: seq<real>)
    requires |xs| == |ys|
    requires forall i :: 0 <= i < |xs| ==> xs[i] <= ys[i]
    ensures Sum(xs) <= Sum(ys)
    decreases |xs|
  {
    if |xs| > 0 {
      SumMonotone(xs[1..], ys[1..]);
    }
  }

  lemma MeanMonotone(xs: seq<real>, ys: seq<real>)
    requires |xs| == |ys| > 0
    requires forall i :: 0 <= i < |xs| ==> xs[i] <= ys[i]
    ensures Mean(xs) <= Mean(ys)
  {
    SumMonotone(xs, ys);
    var n := |xs| as real;
    assert Mean(ys) - Mean(xs) == (Sum(ys) - Sum(xs)) / n;
  }

  /** The clipped surrogates of a batch, `torch.min(weighted, clipped)`
      elementwise: never above the unclipped objective, and equal to it while
      every ratio is inside the clip range. */
  function Surrogates(ratios: seq<real>, advs: seq<real>, clip: real): (s: seq<real>)
    requires |advs| == |ratios|
    ensures |s| == |ratios|
    ensures forall i :: 0 <= i < |s| ==> s[i] <= Weighted(ratios, advs)[i]
    ensures (forall i :: 0 <= i < |ratios| ==> 1.0 - clip <= ratios[i] <= 1.0 + clip) ==> s == Weighted(ratios, advs)
  {
    seq(|ratios|, i requires 0 <= i < |ratios| => ClippedSurrogate(ratios[i], advs[i], clip))
  }

  /** `advantages[batch] * prob_ratio`, the unclipped objective of a batch:
      with every ratio 1 it is the advantages themselves. */
  function Weighted(ratios: seq<real>, advs: seq<real>): (w: seq<real>)
    requires |advs| == |ratios|
    ensures |w| == |ratios|
    ensures (forall i :: 0 <= i < |ratios| ==> ratios[i] == 1.0) ==> w == advs
  {
    seq(|ratios|, i requires 0 <= i < |ratios| => advs[i] * ratios[i])
  }

  /** `-min(weighted, clipped).mean() - entropy_coefficient * entropy`. The
      clipped loss is pessimistic: it is never below the loss of the unclipped
      objective. */
  function ActorLoss(ratios: seq<real>, advs: seq<real>, clip: real, entropyCoefficient: real, entropy: real): (r: real)
    requires |advs| == |ratios| > 0
    ensures r >= -Mean(Weighted(ratios, advs)) - entropyCoefficient * entropy
  {
    MeanMonotone(Surrogates(ratios, advs, clip), Weighted(ratios, advs));
    -Mean(Surrogates(ratios, advs, clip)) - entropyCoefficient * entropy
  }

  /** While every ratio is inside the clip range the clipping is inactive and
      the loss is that of the unclipped objective. */
  lemma ActorLossInsideClip(ratios: seq<real>, advs: seq<real>, clip: real, entropyCoefficient: real, entropy: real)
    requires |advs| == |ratios| > 0
    requires forall i :: 0 <= i < |ratios| ==> 1.0 - clip <= ratios[i] <= 1.0 + clip
    ensures ActorLoss(ratios, advs, clip, entropyCoefficient, entropy)
      == -Mean(Weighted(ratios, advs)) - entropyCoefficient * entropy
  {
    forall i | 0 <= i < |ratios|
      ensures Surrogates(ratios, advs, clip)[i] == Weighted(ratios, advs)[i]
    {
    }
  }

  /** The squared errors `(critic_value - returns[batch]).pow(2)`: none is
      negative, and all are zero when the values equal the targets. */
  function SquaredErrors(values: seq<real>, targets: seq<real>): (e: seq<real>)
    requires |targets| == |values|
    ensures |e| == |values|
    ensures forall i :: 0 <= i < |e| ==> e[i] >= 0.0
    ensures values == targets ==> e == seq(|values|, i => 0.0)
  {
    var e := seq(|values|, i requires 0 <= i < |values| => Sq(values[i] - targets[i]));
    assert Sq(0.0) == 0.0;
    assert values == targets ==> e == seq(|values|, j => 0.0);
    e
  }

  /** `(critic_value - returns[batch]).pow(2).mean()`. It is never negative,
      and it is zero when the critic predicts every return target exactly. */
  function CriticLoss(values: seq<real>, targets: seq<real>): (r: real)
    requires |targets| == |values| > 0
    ensures r >= 0.0
    ensures values == targets ==> r == 0.0
  {
    SumOfSquares(values, targets);
    ZeroSum(|values|);
    Mean(SquaredErrors(values, targets))
  }

  function Sq(x: real): real
  {
    x * x
  }

  lemma Square(x: real)
    ensures Sq(x) >= 0.0
  {
  }

  lemma {:induction false} SumOfSquares(values: seq<real>, targets: seq<real>)
    requires |targets| == |values|
    ensures Sum(SquaredErrors(values, targets)) >= 0.0
    decreases |values|
  {
    if |values| > 0 {
      var e := SquaredErrors(values, targets);
      forall i | 0 <= i < |values| - 1
        ensures e[1..][i] == SquaredErrors(values[1..], targets[1..])[i]
      {
        assert values[1..][i] == values[i + 1] && targets[1..][i] == targets[i + 1];
      }
      assert e[1..] == SquaredErrors(values[1..], targets[1..]);
      SumOfSquares(values[1..], targets[1..]);
      Square(values[0] - targets[0]);
    }
  }

  lemma {:induction false} ZeroSum(n: nat)
    ensures Sum(seq(n, i => 0.0)) == 0.0
  {
    if n > 0 {
      assert seq(n, i => 0.0)[1..] == seq(n - 1, i => 0.0);
      ZeroSum(n - 1);
    }
  }

  /** The log ratio as agent.py:102-104 computes it for a discrete policy: the
      log-probabilities of a batch are one-dimensional, so `sum(-1)` adds them
      over the whole batch and every sample gets the same joint log ratio. */
  function JointLogRatio(newLogProbs: seq<real>, oldLogProbs: seq<real>): (r: seq<real>)
    requires |oldLogProbs| == |newLogProbs|
    ensures |r| == |newLogProbs|
  {
    seq(|newLogProbs|, i requires 0 <= i < |newLogProbs| => Sum(newLogProbs) - Sum(oldLogProbs))
  }

  /** The per-sample log ratio `new_log_prob[i] - old_log_prob[i]` of
      PPO-Clip; `exp` of it is the ratio the surrogate takes. */
  function SampleLogRatio(newLogProbs: seq<real>, oldLogProbs: seq<real>): (r: seq<real>)
    requires |oldLogProbs| == |newLogProbs|
    ensures |r| == |newLogProbs|
  {
    seq(|newLogProbs|, i requires 0 <= i < |newLogProbs| => newLogProbs[i] - oldLogProbs[i])
  }

  /** Each sample's log ratio depends on that sample alone, and is zero when
      the updated policy gives its action the old log-probability. */
  lemma SampleLogRatioLocal(new1: seq<real>, old1: seq<real>, new2: seq<real>, old2: seq<real>, i: int)
    requires |old1| == |new1| && |old2| == |new2| && 0 <= i < |new1| && i < |new2|
    requires new1[i] == new2[i] && old1[i] == old2[i]
    ensures SampleLogRatio(new1, old1)[i] == SampleLogRatio(new2, old2)[i]
    ensures new1[i] == old1[i] ==> SampleLogRatio(new1, old1)[i] == 0.0
  {
  }

  /** The joint log ratio is the sum of the per-sample ones. */
  lemma {:induction false} JointIsSumOfSamples(newLogProbs: seq<real>, oldLogProbs: seq<real>)
    requires |oldLogProbs| == |newLogProbs|
    ensures Sum(newLogProbs) - Sum(oldLogProbs) == Sum(SampleLogRatio(newLogProbs, oldLogProbs))
    decreases |newLogProbs|
  {
    if |newLogProbs| > 0 {
      assert SampleLogRatio(newLogProbs, oldLogProbs)[1..] == SampleLogRatio(newLogProbs[1..], oldLogProbs[1..]);
      JointIsSumOfSamples(newLogProbs[1..], oldLogProbs[1..]);
    }
  }

  /** For a batch of one sample the two ratios agree. */
  lemma SingletonBatchAgrees(newLogProbs: seq<real>, oldLogProbs: seq<real>)
    requires |oldLogProbs| == |newLogProbs|
    ensures |newLogProbs| == 1 ==> JointLogRatio(newLogProbs, oldLogProbs) == SampleLogRatio(newLogProbs, oldLogProbs)
  {
    if |newLogProbs| == 1 {
      assert newLogProbs[1..] == [] && oldLogProbs[1..] == [];
      assert Sum(newLogProbs) == newLogProbs[0] + Sum(newLogProbs[1..]) == newLogProbs[0];
      assert Sum(oldLogProbs) == oldLogProbs[0] + Sum(oldLogProbs[1..]) == oldLogProbs[0];
    }
  }

  /** A batch of two samples where the policy changed only on the first: the
      second sample's own log ratio is 0 (ratio 1), but the joint log ratio
      gives it 1 (ratio e), so its surrogate is scaled by the first sample's
      change. */
  lemma JointLogRatioCounterexample()
    ensures JointLogRatio([1.0, 0.0], [0.0, 0.0])[1] == 1.0
    ensures SampleLogRatio([1.0, 0.0], [0.0, 0.0])[1] == 0.0
  {
    assert [1.0, 0.0][1..] == [0.0];
    assert [0.0, 0.0][1..] == [0.0];
    assert [0.0][1..] == [];
    assert Sum([0.0]) == 0.0;
    assert Sum([1.0, 0.0]) == 1.0 && Sum([0.0, 0.0]) == 0.0;
  }

  /** The ratios `exp(new[i] - old[i])` of a batch; `exp` is the
      exponential they are taken with. A sample whose log-probability did not
      change has ratio `exp(0) = 1`. */
  function SampleRatios(exp: real -> real, newLogProbs: seq<real>, oldLogProbs: seq<real>): (ratios: seq<real>)
    requires |oldLogProbs| == |newLogProbs|
    ensures |ratios| == |newLogProbs|
    ensures exp(0.0) == 1.0 ==>
      forall i :: 0 <= i < |newLogProbs| && newLogProbs[i] == oldLogProbs[i] ==> ratios[i] == 1.0
  {
    var logRatios := SampleLogRatio(newLogProbs, oldLogProbs);
    seq(|newLogProbs|, i requires 0 <= i < |newLogProbs| => exp(logRatios[i]))
  }

  /** The ratios as agent.py:102-104 computes them: one joint ratio, the same
      for every sample of the batch. */
  function JointRatios(exp: real -> real, newLogProbs: seq<real>, oldLogProbs: seq<real>): (ratios: seq<real>)
    requires |oldLogProbs| == |newLogProbs|
    ensures |ratios| == |newLogProbs|
    ensures forall i, j :: 0 <= i < |ratios| && 0 <= j < |ratios| ==> ratios[i] == ratios[j]
  {
    var logRatios := JointLogRatio(newLogProbs, oldLogProbs);
    seq(|newLogProbs|, i requires 0 <= i < |newLogProbs| => exp(logRatios[i]))
  }

  /** With every ratio 1 and a non-negative clip nothing is clipped, and the
      loss is minus the mean advantage minus the entropy bonus. */
  lemma UnitRatiosLoss(ratios: seq<real>, advs: seq<real>, clip: real, entropyCoefficient: real, entropy: real)
    requires |advs| == |ratios| > 0
    ensures clip >= 0.0 && (forall i :: 0 <= i < |ratios| ==> ratios[i] == 1.0) ==>
      ActorLoss(ratios, advs, clip, entropyCoefficient, entropy) == -Mean(advs) - entropyCoefficient * entropy
  {
  }

  /** The actor loss of one batch from the per-sample ratios. Before the actor
      has moved (each new log-probability equals the old one) every ratio is
      1, and with a non-negative clip the loss is minus the mean advantage
      minus the entropy bonus. */
  function BatchActorLoss(exp: real -> real, newLogProbs: seq<real>, oldLogProbs: seq<real>, advs: seq<real>,
                          clip: real, entropyCoefficient: real, entropy: real): (r: real)
    requires |oldLogProbs| == |newLogProbs| == |advs| > 0
    ensures exp(0.0) == 1.0 && clip >= 0.0 && newLogProbs == oldLogProbs ==>
      r == -Mean(advs) - entropyCoefficient * entropy
  {
    var ratios := SampleRatios(exp, newLogProbs, oldLogProbs);
    UnitRatiosLoss(ratios, advs, clip, entropyCoefficient, entropy);
    ActorLoss(ratios, advs, clip, entropyCoefficient, entropy)
  }

  /** The actor loss of one batch as agent.py:102-114 computes it, with the
      joint ratio. It agrees with the per-sample loss on a batch of one
      sample, and also gives the unchanged policy minus the mean advantage
      minus the entropy bonus. */
  function JointBatchActorLoss(exp: real -> real, newLogProbs: seq<real>, oldLogProbs: seq<real>, advs: seq<real>,
                               clip: real, entropyCoefficient: real, entropy: real): (r: real)
    requires |oldLogProbs| == |newLogProbs| == |advs| > 0
    ensures |advs| == 1 ==> r == BatchActorLoss(exp, newLogProbs, oldLogProbs, advs, clip, entropyCoefficient, entropy)
    ensures exp(0.0) == 1.0 && clip >= 0.0 && newLogProbs == oldLogProbs ==>
      r == -Mean(advs) - entropyCoefficient * entropy
  {
    var ratios := JointRatios(exp, newLogProbs, oldLogProbs);
    SingletonBatchAgrees(newLogProbs, oldLogProbs);
    assert |advs| == 1 ==> ratios == SampleRatios(exp, newLogProbs, oldLogProbs);
    UnitRatiosLoss(ratios, advs, clip, entropyCoefficient, entropy);
    ActorLoss(ratios, advs, clip, entropyCoefficient, entropy)
  }

  /** The two losses differ on a batch of two samples where only the first
      sample's log-probability moved: with an exponential that maps 0 to 1
      and 1 to 2, advantages `[1, 1]` and a wide clip, the joint ratio gives
      both samples ratio 2 (loss -2), the per-sample ratios are `[2, 1]`
      (loss -1.5). */
  lemma JointLossCounterexample(exp: real -> real)
    requires exp(0.0) == 1.0 && exp(1.0) == 2.0
    ensures JointBatchActorLoss(exp, [1.0, 0.0], [0.0, 0.0], [1.0, 1.0], 10.0, 0.0, 0.0) == -2.0
    ensures BatchActorLoss(exp, [1.0, 0.0], [0.0, 0.0], [1.0, 1.0], 10.0, 0.0, 0.0) == -1.5
  {
    JointLogRatioCounterexample();
    var joint := JointRatios(exp, [1.0, 0.0], [0.0, 0.0]);
    var own := SampleRatios(exp, [1.0, 0.0], [0.0, 0.0]);
    assert joint[0] == 2.0 && joint[1] == 2.0;
    assert own[0] == 2.0 && own[1] == 1.0;
    TwoSampleLoss(joint, 2.0, 2.0);
    TwoSampleLoss(own, 2.0, 1.0);
  }

  /** The loss of a two-sample batch with advantages `[1, 1]`, a wide clip and
      no entropy bonus, for ratios inside the clip range. */
  lemma TwoSampleLoss(ratios: seq<real>, a: real, b: real)
    requires |ratios| == 2 && ratios[0] == a && ratios[1] == b && 1.0 <= a <= 2.0 && 1.0 <= b <= 2.0
    ensures ActorLoss(ratios, [1.0, 1.0], 10.0, 0.0, 0.0) == -(a + b) / 2.0
  {
    var s := Surrogates(ratios, [1.0, 1.0], 10.0);
    assert s[0] == a && s[1] == b;
    assert s[1..] == [b] && [b][1..] == [];
    assert Sum([b]) == b + Sum([b][1..]) == b;
    assert Sum(s) == a + Sum(s[1..]);
  }
}

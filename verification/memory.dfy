/** The transition buffer of the PPO agent (memory.py): six parallel lists that
    grow one transition at a time, are read back in insertion order, are cut
    into shuffled index batches once per epoch and are emptied after learning. */
module Memory {

  /** The one exception the buffer can raise on its own: `n // batch_size` with
      a batch size of zero. */
  datatype Error = ZeroDivisionError

  datatype Result<T> = Ok(value: T) | Err(error: Error)

  /** One stored transition, the row view of the six parallel lists. The field
      called `value` receives the NEXT state: the agent passes `state_` there. */
  datatype Transition<S, A> =
    Transition(state: S, value: S, action: A, prob: real, reward: real, done: bool)

  /** Python's floor division `a // b`. Dafny's `/` is Euclidean, which agrees
      with flooring only for a positive divisor. */
  function FloorDiv(a: int, b: int): (q: int)
    requires b != 0
    ensures b > 0 ==> b * q <= a < b * q + b
    ensures b < 0 ==> b * q + b < a <= b * q
  {
    if b > 0 || a % b == 0 then a / b else a / b - 1
  }

  /** With a negative batch size, `n // size` is not positive for any n >= 0. */
  lemma NegativeSizeNoBatches(n: nat, size: int)
    requires size < 0
    ensures FloorDiv(n, size) <= 0
  {
    MulSign(size, FloorDiv(n, size));
  }

  /** `np.arange(n)`: the indices `0, 1, ..., n - 1` in order, each once. */
  function Arange(n: nat): (r: seq<int>)
    ensures |r| == n
    ensures forall i :: 0 <= i < n ==> r[i] == i
    ensures forall i, j :: 0 <= i < j < n ==> r[i] < r[j]
  {
    seq(n, i requires 0 <= i < n => i)
  }

  /** What `np.random.shuffle(np.arange(n))` leaves behind: some arrangement of
      the indices 0 .. n-1, each exactly once. */
  ghost predicate IsPermutation(ids: seq<int>, n: nat)
  {
    multiset(ids) == multiset(Arange(n))
  }

  lemma {:induction false} ArangeMultiplicity(n: nat, x: int)
    ensures multiset(Arange(n))[x] == if 0 <= x < n then 1 else 0
  {
    if n > 0 {
      assert Arange(n) == Arange(n - 1) + [n - 1];
      ArangeMultiplicity(n - 1, x);
    }
  }

  lemma TwoOccurrences(s: seq<int>, i: int, j: int)
    requires 0 <= i < j < |s| && s[i] == s[j]
    ensures multiset(s)[s[i]] >= 2
  {
    assert s == s[..i] + [s[i]] + s[i + 1..j] + [s[j]] + s[j + 1..];
  }

  /** A permutation of 0 .. n-1 has length n, holds only indices below n, holds
      each of them, and never holds one twice. */
  lemma PermutationFacts(ids: seq<int>, n: nat)
    requires IsPermutation(ids, n)
    ensures |ids| == n
    ensures forall i :: 0 <= i < |ids| ==> 0 <= ids[i] < n
    ensures forall x :: 0 <= x < n ==> x in ids
    ensures forall i, j :: 0 <= i < |ids| && 0 <= j < |ids| && i != j ==> ids[i] != ids[j]
  {
    assert |multiset(ids)| == |ids| && |multiset(Arange(n))| == n;
    forall i | 0 <= i < |ids| ensures 0 <= ids[i] < n {
      assert ids[i] in multiset(ids);
      ArangeMultiplicity(n, ids[i]);
    }
    forall x | 0 <= x < n ensures x in ids {
      ArangeMultiplicity(n, x);
      assert x in multiset(ids);
    }
    forall i, j | 0 <= i < |ids| && 0 <= j < |ids| && i != j ensures ids[i] != ids[j] {
      if ids[i] == ids[j] {
        if i < j { TwoOccurrences(ids, i, j); } else { TwoOccurrences(ids, j, i); }
        ArangeMultiplicity(n, ids[i]);
        assert false;
      }
    }
  }

  lemma {:induction false} MulMonotone(a: int, b: int, c: int)
    requires a <= b && c >= 0
    ensures a * c <= b * c
    decreases b - a
  {
    if a < b {
      MulMonotone(a + 1, b, c);
      assert (a + 1) * c == a * c + c;
    }
  }

  /** Two distinct multiples of c lie at least c apart. */
  lemma MulGap(a: int, b: int, c: int)
    requires c > 0
    ensures a < b ==> a * c + c <= b * c
  {
    if a < b {
      MulMonotone(a + 1, b, c);
      assert (a + 1) * c == a * c + c;
    }
  }

  lemma MulSign(a: int, b: int)
    requires a < 0
    ensures b > 0 ==> a * b < 0
  {
    if b > 0 {
      MulMonotone(a, -1, b);
    }
  }

  lemma MulCancel(a: int, b: int, c: int)
    requires c > 0
    ensures a * c < b * c ==> a < b
  {
    if a >= b {
      MulMonotone(b, a, c);
    }
  }

  /** Two slots `p * size + k` with `k < size` meet only when they are the same
      slot. */
  lemma SlotUnique(size: int, p: nat, k: int, q: nat, l: int)
    requires size > 0 && 0 <= k < size && 0 <= l < size
    requires p * size + k == q * size + l
    ensures p == q && k == l
  {
    MulGap(p, q, size);
    MulGap(q, p, size);
  }

  lemma DivMod(n: int, size: int)
    requires size > 0
    ensures (n / size) * size + n % size == n && 0 <= n % size < size
    ensures n >= 0 ==> n / size >= 0
  {
  }

  /** A q with `q * size <= n < q * size + size` is the quotient `n / size`. */
  lemma FloorQuotient(n: int, size: int, q: int)
    requires size > 0 && q * size <= n < q * size + size
    ensures q == n / size
  {
    var d := n / size;
    DivMod(n, size);
    MulGap(q, d, size);
    MulGap(d, q, size);
  }

  /** The list built at memory.py:29-32, stated slice by slice: the first
      `size` ids, then the batches of the rest, until fewer than `size` ids are
      left. With a negative size Python's floor quotient `n // size` is not
      positive and `range` is empty. */
  function Batches(ids: seq<int>, size: int): (bs: seq<seq<int>>)
    requires size != 0
    ensures size > 0 ==> (bs == [] <==> |ids| < size)
    ensures forall p :: 0 <= p < |bs| ==> |bs[p]| == size
    ensures forall p, k :: 0 <= p < |bs| && 0 <= k < |bs[p]| ==> bs[p][k] in ids
    decreases |ids|
  {
    if size < 0 || |ids| < size then []
    else
      assert forall x :: x in ids[size..] ==> x in ids;
      [ids[..size]] + Batches(ids[size..], size)
  }

  /** There are as many batches as whole multiples of size fit into the ids. */
  lemma {:induction false} BatchCount(ids: seq<int>, size: int)
    requires size > 0
    ensures |Batches(ids, size)| * size <= |ids| < |Batches(ids, size)| * size + size
    decreases |ids|
  {
    if |ids| >= size {
      BatchCount(ids[size..], size);
      assert (|Batches(ids[size..], size)| + 1) * size == |Batches(ids[size..], size)| * size + size;
    }
  }

  /** Batch p is the slice `ids[p*size : p*size + size]`, as memory.py:30 cuts it. */
  lemma {:induction false} BatchSlice(ids: seq<int>, size: int, p: int)
    requires size > 0 && 0 <= p < |Batches(ids, size)|
    ensures 0 <= p * size && p * size + size <= |ids|
    ensures Batches(ids, size)[p] == ids[p * size .. p * size + size]
    decreases |ids|
  {
    if p > 0 {
      BatchSlice(ids[size..], size, p - 1);
      assert (p - 1) * size + size == p * size;
    }
  }

  ghost predicate UniformSize(batches: seq<seq<int>>, size: int)
  {
    forall p :: 0 <= p < |batches| ==> |batches[p]| == size
  }

  ghost predicate AllInRange(batches: seq<seq<int>>, n: int)
  {
    forall p, k :: 0 <= p < |batches| && 0 <= k < |batches[p]| ==> 0 <= batches[p][k] < n
  }

  /** No index occurs twice, neither inside one batch nor across two. */
  ghost predicate Disjoint(batches: seq<seq<int>>)
  {
    forall p, k, q, l ::
      0 <= p < |batches| && 0 <= k < |batches[p]| &&
      0 <= q < |batches| && 0 <= l < |batches[q]| &&
      batches[p][k] == batches[q][l]
      ==> p == q && k == l
  }

  /** Whether some batch holds index x. */
  ghost predicate Batched(batches: seq<seq<int>>, x: int)
  {
    exists p, k :: 0 <= p < |batches| && 0 <= k < |batches[p]| && batches[p][k] == x
  }

  lemma BatchAt(ids: seq<int>, size: int, p: int, k: int)
    requires size > 0 && 0 <= p < |Batches(ids, size)| && 0 <= k < |Batches(ids, size)[p]|
    ensures k < size && 0 <= p * size + k < |Batches(ids, size)| * size
    ensures p * size + k < |ids|
    ensures Batches(ids, size)[p][k] == ids[p * size + k]
  {
    BatchSlice(ids, size, p);
    MulGap(p, |Batches(ids, size)|, size);
  }

  /** Batches of a shuffled `arange(n)` are `n // size` batches of exactly
      `size` indices each, every one of them below n. */
  lemma BatchesShape(ids: seq<int>, size: int, n: nat)
    requires size != 0 && IsPermutation(ids, n)
    ensures |Batches(ids, size)| == if size > 0 then n / size else 0
    ensures UniformSize(Batches(ids, size), size)
    ensures AllInRange(Batches(ids, size), n)
  {
    PermutationFacts(ids, n);
    if size > 0 {
      var bs := Batches(ids, size);
      BatchCount(ids, size);
      FloorQuotient(n, size, |bs|);
      forall p | 0 <= p < |bs| ensures |bs[p]| == size {
        BatchSlice(ids, size, p);
      }
      forall p, k | 0 <= p < |bs| && 0 <= k < |bs[p]| ensures 0 <= bs[p][k] < n {
        BatchAt(ids, size, p, k);
      }
    }
  }

  /** The batches are disjoint slices of a permutation, so no index is handed
      out twice in one call. */
  lemma BatchesDisjoint(ids: seq<int>, size: int, n: nat)
    requires size != 0 && IsPermutation(ids, n)
    ensures Disjoint(Batches(ids, size))
  {
    PermutationFacts(ids, n);
    if size > 0 {
      var bs := Batches(ids, size);
      forall p, k, q, l |
        0 <= p < |bs| && 0 <= k < |bs[p]| && 0 <= q < |bs| && 0 <= l < |bs[q]| &&
        bs[p][k] == bs[q][l]
        ensures p == q && k == l
      {
        BatchAt(ids, size, p, k);
        BatchAt(ids, size, q, l);
        SlotUnique(size, p, k, q, l);
      }
    }
  }

  /** The ids `ids[n // size * size:]` that one call leaves out of every batch. */
  function Dropped(ids: seq<int>, size: int): seq<int>
    requires size > 0
  {
    BatchCount(ids, size);
    ids[|Batches(ids, size)| * size ..]
  }

  ghost predicate Distinct(ids: seq<int>)
  {
    forall i, j :: 0 <= i < |ids| && 0 <= j < |ids| && i != j ==> ids[i] != ids[j]
  }

  /** An id in front of the cut lands in a batch. */
  lemma BatchedPosition(ids: seq<int>, size: int, i: int)
    requires size > 0 && 0 <= i < |Batches(ids, size)| * size
    ensures i < |ids| && Batched(Batches(ids, size), ids[i])
  {
    var bs := Batches(ids, size);
    var p, k := i / size, i % size;
    DivMod(i, size);
    MulCancel(p, |bs|, size);
    BatchSlice(ids, size, p);
    BatchAt(ids, size, p, k);
  }

  /** An id behind the cut lands in no batch, since the ids are distinct. */
  lemma UnbatchedPosition(ids: seq<int>, size: int, i: int)
    requires size > 0 && Distinct(ids) && |Batches(ids, size)| * size <= i < |ids|
    ensures !Batched(Batches(ids, size), ids[i])
  {
    var bs := Batches(ids, size);
    forall p, k | 0 <= p < |bs| && 0 <= k < |bs[p]| ensures bs[p][k] != ids[i] {
      BatchAt(ids, size, p, k);
    }
  }

  /** Every index of the buffer is either handed out in a batch or is one of the
      leftover ids `ids[n // size * size:]` that this epoch drops, never both;
      when size divides n nothing is dropped. */
  lemma BatchesCover(ids: seq<int>, size: int, n: nat, x: int)
    requires size > 0 && IsPermutation(ids, n) && 0 <= x < n
    ensures Batched(Batches(ids, size), x) <==> x !in Dropped(ids, size)
    ensures n % size == 0 ==> Batched(Batches(ids, size), x)
  {
    PermutationFacts(ids, n);
    BatchCount(ids, size);
    FloorQuotient(n, size, |Batches(ids, size)|);
    DivMod(n, size);
    var cut := |Batches(ids, size)| * size;
    assert x in ids;
    var i :| 0 <= i < n && ids[i] == x;
    if i < cut {
      BatchedPosition(ids, size, i);
      assert forall j :: cut <= j < n ==> ids[j] != x;
      assert x !in ids[cut..];
    } else {
      UnbatchedPosition(ids, size, i);
      assert ids[cut..][i - cut] == x;
    }
  }

  class ReplayBuffer<S, A> {
    const batchSize: int
    var states: seq<S>
    /** Named `values` in the source; it receives the next state of each step. */
    var values: seq<S>
    var actions: seq<A>
    /** Log-probabilities of the chosen actions. */
    var probs: seq<real>
    var rewards: seq<real>
    var dones: seq<bool>

    /** The six lists stay parallel. */
    ghost predicate Valid()
      reads this
    {
      |values| == |states| && |actions| == |states| && |probs| == |states| &&
      |rewards| == |states| && |dones| == |states|
    }

    /** The stored transitions in insertion order. */
    ghost function Contents(): seq<Transition<S, A>>
      reads this
      requires Valid()
    {
      var s, v, a, p, r, d := states, values, actions, probs, rewards, dones;
      seq(|s|, i requires 0 <= i < |s| => Transition(s[i], v[i], a[i], p[i], r[i], d[i]))
    }

    constructor (batchSize: int)
      ensures Valid() && Contents() == []
      ensures this.batchSize == batchSize
      ensures states == [] && values == [] && actions == [] && probs == [] && rewards == [] && dones == []
    {
      this.batchSize := batchSize;
      states, values, actions, probs, rewards, dones := [], [], [], [], [], [];
    }

    /** The six lists, as stored, without changing anything. */
    method Sample() returns (s: seq<S>, v: seq<S>, a: seq<A>, p: seq<real>, r: seq<real>, d: seq<bool>)
      requires Valid()
      ensures s == states && v == values && a == actions && p == probs && r == rewards && d == dones
      ensures |v| == |s| && |a| == |s| && |p| == |s| && |r| == |s| && |d| == |s|
    {
      s, v, a, p, r, d := states, values, actions, probs, rewards, dones;
    }

    /** `generate_batches`, with the outcome of `np.random.shuffle` supplied as
        `shuffle`. */
    method GenerateBatches(shuffle: seq<int>) returns (r: Result<seq<seq<int>>>)
      requires IsPermutation(shuffle, |states|)
      ensures r.Err? <==> batchSize == 0
      ensures r.Ok? ==> r.value == Batches(shuffle, batchSize)
      ensures r.Ok? ==> |r.value| == if batchSize > 0 then |states| / batchSize else 0
      ensures r.Ok? ==> UniformSize(r.value, batchSize) && AllInRange(r.value, |states|)
      ensures r.Ok? ==> Disjoint(r.value)
      ensures |states| < batchSize ==> r == Ok([])
    {
      var nStates := |states|;
      if batchSize == 0 {
        return Err(ZeroDivisionError);
      }
      var nBatches := FloorDiv(nStates, batchSize);
      var ids := shuffle;
      PermutationFacts(ids, nStates);
      if batchSize > 0 {
        BatchCount(ids, batchSize);
        FloorQuotient(nStates, batchSize, nBatches);
        FloorQuotient(nStates, batchSize, |Batches(ids, batchSize)|);
      } else {
        NegativeSizeNoBatches(nStates, batchSize);
      }
      var batches: seq<seq<int>> := [];
      var i := 0;
      while i < nBatches
        invariant nBatches > 0 ==> batchSize > 0 && i <= nBatches
        invariant nBatches <= 0 ==> i == 0 && batches == []
        invariant batchSize > 0 ==> batches == Batches(ids, batchSize)[..i]
      {
        BatchSlice(ids, batchSize, i);
        assert (i + 1) * batchSize == i * batchSize + batchSize;
        batches := batches + [ids[i * batchSize .. (i + 1) * batchSize]];
        i := i + 1;
      }
      assert batches == Batches(ids, batchSize);
      BatchesShape(ids, batchSize, nStates);
      BatchesDisjoint(ids, batchSize, nStates);
      r := Ok(batches);
    }

    method StoreTransition(state: S, value: S, action: A, prob: real, reward: real, done: bool)
      requires Valid()
      modifies this
      ensures Valid()
      ensures states == old(states) + [state] && values == old(values) + [value]
      ensures actions == old(actions) + [action] && probs == old(probs) + [prob]
      ensures rewards == old(rewards) + [reward] && dones == old(dones) + [done]
      ensures Contents() == old(Contents()) + [Transition(state, value, action, prob, reward, done)]
    {
      states := states + [state];
      values := values + [value];
      actions := actions + [action];
      probs := probs + [prob];
      rewards := rewards + [reward];
      dones := dones + [done];
    }

    method ClearMemory()
      modifies this
      ensures Valid() && Contents() == []
      ensures states == [] && values == [] && actions == [] && probs == [] && rewards == [] && dones == []
    {
      states := [];
      probs := [];
      actions := [];
      rewards := [];
      dones := [];
      values := [];
    }
  }
}

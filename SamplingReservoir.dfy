/**
  `SamplingReservoir`: reservoir sampling with Algorithm L. The first `n`
  samples fill the buffer in order; after that a sample is kept only when
  the count reaches `_next`, the index of the next sample to keep, and it
  replaces a slot drawn at random.

  The random draws are inputs here: the slot index (`index < n`) and the
  length of each skip (`skip >= 1`, what `floor(log(r) / log(1 - w)) + 1`
  gives for `r` and `w` in (0, 1)). The weight `_w` feeds only the skip
  length and is not modelled.
 */
module SamplingReservoir {
  import Snapshot

  class SamplingReservoir {
    /** The buffer `_reservoir`, of the capacity `n` given at construction. */
    const reservoir: array<real>
    var count: nat
    var next: nat
    /** The samples since the last reset. */
    ghost var Stream: seq<real>

    /**
      The count is the stream length and never passes `next`; while the
      buffer fills it holds the stream itself, and once full every slot holds
      a distinct sample of the stream.
     */
    ghost predicate Valid()
      reads this, reservoir
    {
      && 0 < reservoir.Length
      && count == |Stream| && count <= next && reservoir.Length <= next
      && (count <= reservoir.Length ==> reservoir[..count] == Stream)
      && (reservoir.Length <= count ==> multiset(reservoir[..]) <= multiset(Stream))
    }

    /**
      A reservoir of `n` zero-initialised slots, then `reinitialize`. The
      slot distribution over [0, n - 1] needs `n >= 1`.
     */
    constructor (n: nat, skip: nat)
      requires 0 < n && 1 <= skip
      ensures Valid() && fresh(reservoir) && Stream == []
      ensures reservoir.Length == n && reservoir[..] == seq(n, i => 0.0)
      ensures count == 0 && next == n - 1 + skip
    {
      reservoir := new real[n](i => 0.0);
      count := 0;
      next := n - 1 + skip;
      Stream := [];
    }

    /** `reset`, which is `reinitialize`: the count goes back to 0 and `next` to `n - 1` plus a skip. */
    method Reset(skip: nat)
      modifies this
      requires Valid() && 1 <= skip
      ensures Valid() && Stream == []
      ensures count == 0 && next == reservoir.Length - 1 + skip
      ensures reservoir[..] == old(reservoir[..])
    {
      count := 0;
      next := reservoir.Length - 1 + skip;
      Stream := [];
    }

    /**
      While the buffer fills, the sample goes to slot `count`. Once full, the
      sample replaces slot `index` when the count has reached `next`, and
      `next` moves on by `skip`; otherwise the buffer is left alone. The count
      grows by one either way.
     */
    method Update(value: real, index: nat, skip: nat)
      modifies this, reservoir
      requires Valid() && index < reservoir.Length && 1 <= skip
      ensures Valid() && Stream == old(Stream) + [value]
      ensures count == old(count) + 1
      ensures old(count) < reservoir.Length ==>
                reservoir[..] == old(reservoir[..])[old(count) := value] && next == old(next)
      ensures reservoir.Length <= old(count) && old(count) == old(next) ==>
                reservoir[..] == old(reservoir[..])[index := value] && next == old(next) + skip
      ensures reservoir.Length <= old(count) && old(count) != old(next) ==>
                reservoir[..] == old(reservoir[..]) && next == old(next)
    {
      var n := reservoir.Length;
      ghost var before := reservoir[..];
      if count < n {
        reservoir[count] := value;
        assert reservoir[..count + 1] == Stream + [value];
        if count + 1 == n {
          assert reservoir[..] == reservoir[..count + 1];
        }
      } else if count == next {
        reservoir[index] := value;
        Replace(before, index, value, Stream);
        next := next + skip;
      }
      count := count + 1;
      Stream := Stream + [value];
    }

    function Count(): (r: nat)
      reads this, reservoir
      requires Valid()
      ensures r == |Stream|
    {
      count
    }

    /** The capacity, whatever happened since construction. */
    function Size(): (r: nat)
      ensures r == reservoir.Length
    {
      reservoir.Length
    }

    /** The number of samples held: the count, capped at the capacity. */
    function Samples(): (r: nat)
      reads this, reservoir
      requires Valid()
      ensures r <= reservoir.Length && r <= |Stream|
      ensures r == |Stream| || r == reservoir.Length
      ensures |Stream| < reservoir.Length ==> r == |Stream|
    {
      if count < reservoir.Length then count else reservoir.Length
    }

    /** A snapshot of the first `Samples()` slots: all of the stream while it fits, a sub-multiset of it after. */
    method GetSnapshot() returns (snapshot: Snapshot.Snapshot)
      requires Valid()
      ensures snapshot.Valid() && multiset(snapshot.snapshot) == multiset(reservoir[..Samples()])
      ensures multiset(snapshot.snapshot) <= multiset(Stream)
      ensures |Stream| <= reservoir.Length ==> multiset(snapshot.snapshot) == multiset(Stream)
    {
      if count >= reservoir.Length {
        assert reservoir[..Samples()] == reservoir[..];
      }
      snapshot := new Snapshot.Snapshot(reservoir[..Samples()]);
    }
  }

  /**
    Replacing one slot of a buffer drawn from the stream by a new sample
    leaves a buffer drawn from the stream extended by that sample.
   */
  lemma Replace(b: seq<real>, index: nat, v: real, s: seq<real>)
    requires index < |b| && multiset(b) <= multiset(s)
    ensures multiset(b[index := v]) <= multiset(s + [v])
  {
    assert multiset(b[index := v]) == multiset(b) - multiset{b[index]} + multiset{v};
  }

  /** Until `n` samples have arrived, `next` stays ahead of the count and every sample is stored. */
  lemma KeepsAllWhileFilling(r: SamplingReservoir)
    requires r.Valid() && r.Count() <= r.Size()
    ensures r.Samples() == r.Count() && r.reservoir[..r.Samples()] == r.Stream
    ensures r.Count() <= r.next
  {
  }

  /** After a reset, one sample 2: one sample held, slot 0, and the snapshot holds just 2. */
  lemma AfterReset(r: SamplingReservoir, s: Snapshot.Snapshot)
    requires r.Valid() && r.Stream == [2.0]
    requires s.Valid() && multiset(s.snapshot) == multiset(r.reservoir[..r.Samples()])
    ensures r.Samples() == 1 && r.reservoir[0] == 2.0 && s.Values() == [2.0]
  {
    assert r.reservoir[..1] == [2.0];
    Snapshot.SortedValues(s, [2.0]);
  }
}

/**
  `SlidingWindowReservoir`: a ring buffer of fixed capacity holding the most
  recent samples, with a write cursor and a flag that is set once the cursor
  has wrapped. The mutex of the source only serialises the calls and is not
  modelled.
 */
module SlidingWindowReservoir {
  import Snapshot

  /** The last `k` elements of `s`. */
  function Last(s: seq<real>, k: nat): (r: seq<real>)
    requires k <= |s|
    ensures |r| == k && s == s[..|s| - k] + r
  {
    s[|s| - k..]
  }

  /**
    The ring invariant over the buffer contents `b`, the stream `s` since the
    last reset, the cursor `w` and the flag: the cursor stays inside the buffer
    and the flag says the stream has filled it. Before that the buffer starts
    with the stream; after it, the slots from the cursor on hold the oldest
    retained samples and the slots before the cursor the newest ones.
   */
  ghost predicate Ring(b: seq<real>, s: seq<real>, w: nat, full: bool)
  {
    var n := |b|;
    && (n == 0 ==> w == 0 && !full && s == [])
    && (0 < n ==> w < n && full == (n <= |s|))
    && (!full ==> w == |s| && w <= n && b[..w] == s)
    && (full ==> w <= n <= |s| && b[..w] == s[|s| - w..] && b[w..] == s[|s| - n..|s| - w])
  }

  /** One more sample keeps the ring invariant: slot `w` is overwritten and the cursor moves on or wraps. */
  lemma RingStep(b: seq<real>, s: seq<real>, w: nat, full: bool, v: real)
    requires Ring(b, s, w, full) && 0 < |b|
    ensures Ring(b[w := v], s + [v], if w + 1 >= |b| then 0 else w + 1, full || w + 1 >= |b|)
  {
    if !full && w + 1 < |b| {
      FillStep(b, s, w, v);
    } else if !full {
      FillWrap(b, s, w, v);
    } else if w + 1 < |b| {
      OverwriteStep(b, s, w, v);
    } else {
      OverwriteWrap(b, s, w, v);
    }
  }

  /** Before the buffer is full the sample is appended at the cursor. */
  lemma FillStep(b: seq<real>, s: seq<real>, w: nat, v: real)
    requires w + 1 < |b| && w == |s| && b[..w] == s
    ensures Ring(b[w := v], s + [v], w + 1, false)
  {
    assert b[w := v][..w + 1] == s + [v];
  }

  /** The sample that fills the last free slot sends the cursor back to 0 and sets the flag. */
  lemma FillWrap(b: seq<real>, s: seq<real>, w: nat, v: real)
    requires w + 1 == |b| && w == |s| && b[..w] == s
    ensures Ring(b[w := v], s + [v], 0, true)
  {
    var b1, s1 := b[w := v], s + [v];
    assert b1 == s1;
    assert b1[..0] == [] == s1[|s1| - 0..];
    assert b1[0..] == b1 == s1[|s1| - |b1|..|s1| - 0];
  }

  /** Once full, the sample replaces the oldest one, at the cursor. */
  lemma OverwriteStep(b: seq<real>, s: seq<real>, w: nat, v: real)
    requires w + 1 < |b| <= |s| && b[..w] == s[|s| - w..] && b[w..] == s[|s| - |b|..|s| - w]
    ensures Ring(b[w := v], s + [v], w + 1, true)
  {
    var n, b1, s1 := |b|, b[w := v], s + [v];
    assert b1[..w + 1] == b[..w] + [v];
    assert s1[|s1| - (w + 1)..] == s[|s| - w..] + [v];
    assert b1[w + 1..] == b[w + 1..] == b[w..][1..];
    assert s1[|s1| - n..|s1| - (w + 1)] == s[|s| - n..|s| - w][1..];
  }

  /** Once full, the sample written into the last slot sends the cursor back to 0. */
  lemma OverwriteWrap(b: seq<real>, s: seq<real>, w: nat, v: real)
    requires w + 1 == |b| <= |s| && b[..w] == s[|s| - w..] && b[w..] == s[|s| - |b|..|s| - w]
    ensures Ring(b[w := v], s + [v], 0, true)
  {
    var n, b1, s1 := |b|, b[w := v], s + [v];
    assert b1 == b[..w] + [v];
    assert s1[|s1| - n..] == s[|s| - w..] + [v];
    assert b1[..0] == [] && b1[0..] == b1 && s1[|s1| - 0..] == [];
  }

  /**
    The first `samples` slots hold exactly the last `samples` samples of the
    stream, in some order: all of them before the buffer is full, the last
    capacity ones after.
   */
  lemma RingWindow(b: seq<real>, s: seq<real>, w: nat, full: bool)
    requires Ring(b, s, w, full)
    ensures var k := if full then |b| else w;
            k <= |b| && k <= |s| && multiset(b[..k]) == multiset(Last(s, k))
  {
    if full {
      var n := |b|;
      assert b[..n] == b[..w] + b[w..];
      assert Last(s, n) == s[|s| - n..|s| - w] + s[|s| - w..];
    } else {
      assert Last(s, w) == s;
    }
  }

  class SlidingWindowReservoir {
    /** The buffer `_reservoir`; its size is fixed at construction. */
    const reservoir: array<real>
    var writePosition: nat
    var full: bool
    /** The samples since the last reset. */
    ghost var Stream: seq<real>

    ghost predicate Valid()
      reads this, reservoir
    {
      Ring(reservoir[..], Stream, writePosition, full)
    }

    /** A window of `n` slots, value-initialised to 0. */
    constructor (n: nat)
      ensures Valid() && fresh(reservoir) && Stream == []
      ensures reservoir.Length == n && reservoir[..] == seq(n, i => 0.0)
      ensures writePosition == 0 && !full
    {
      reservoir := new real[n](i => 0.0);
      writePosition := 0;
      full := false;
      Stream := [];
    }

    /** Forgets the samples: the cursor goes back to 0 and the flag is cleared; the buffer is left as it was. */
    method Reset()
      modifies this
      requires Valid()
      ensures Valid() && Stream == []
      ensures writePosition == 0 && !full
      ensures reservoir[..] == old(reservoir[..])
    {
      writePosition := 0;
      full := false;
      Stream := [];
    }

    /**
      Writes the sample at the cursor and advances it; on reaching the
      capacity the cursor wraps to 0 and the window is full from then on.
      The source indexes an empty buffer here, so a positive capacity is
      required.
     */
    method Update(value: real)
      modifies this, reservoir
      requires Valid() && 0 < reservoir.Length
      ensures Valid() && Stream == old(Stream) + [value]
      ensures reservoir[..] == old(reservoir[..])[old(writePosition) := value]
      ensures old(writePosition) + 1 < reservoir.Length ==> writePosition == old(writePosition) + 1 && full == old(full)
      ensures old(writePosition) + 1 == reservoir.Length ==> writePosition == 0 && full
    {
      RingStep(reservoir[..], Stream, writePosition, full, value);
      reservoir[writePosition] := value;
      writePosition := writePosition + 1;
      if writePosition >= reservoir.Length {
        full := true;
        writePosition := 0;
      }
      Stream := Stream + [value];
    }

    /** The capacity, whatever happened since construction. */
    function Size(): (r: nat)
      ensures r == reservoir.Length
    {
      reservoir.Length
    }

    /** The number of samples held: the stream length, capped at the capacity. */
    function Samples(): (r: nat)
      reads this, reservoir
      requires Valid()
      ensures r <= reservoir.Length && r <= |Stream|
      ensures r == |Stream| || r == reservoir.Length
      ensures |Stream| < reservoir.Length ==> r == |Stream|
    {
      if full then reservoir.Length else writePosition
    }

    /** The samples a snapshot is taken from: the last `Samples()` of the stream. */
    ghost function Window(): (r: seq<real>)
      reads this, reservoir
      requires Valid()
      ensures |r| == Samples() && multiset(reservoir[..Samples()]) == multiset(r)
    {
      RingWindow(reservoir[..], Stream, writePosition, full);
      Last(Stream, Samples())
    }

    /** A snapshot of the first `Samples()` slots, which hold the window. */
    method GetSnapshot() returns (snapshot: Snapshot.Snapshot)
      requires Valid()
      ensures snapshot.Valid() && multiset(snapshot.snapshot) == multiset(reservoir[..Samples()])
      ensures multiset(snapshot.snapshot) == multiset(Window())
    {
      snapshot := new Snapshot.Snapshot(reservoir[..Samples()]);
    }
  }

  /** Three updates 10, 11, 12 into a window of 3: all are stored, and the snapshot lists them ascending. */
  lemma FirstAllStored(r: SlidingWindowReservoir, s: Snapshot.Snapshot)
    requires r.Valid() && r.Size() == 3 && r.Stream == seq(3, i => 10.0 + i as real)
    requires s.Valid() && multiset(s.snapshot) == multiset(r.Window())
    ensures r.Samples() == 3 && s.Values() == [10.0, 11.0, 12.0]
  {
    assert r.Window() == [10.0, 11.0, 12.0];
    Snapshot.SortedValues(s, [10.0, 11.0, 12.0]);
  }

  /** After the 1000 updates 10, 11, ..., 1009 into a window of 3, the snapshot holds the last three. */
  lemma StoredMore(r: SlidingWindowReservoir, s: Snapshot.Snapshot)
    requires r.Valid() && r.Size() == 3 && r.Stream == seq(1000, i => 10.0 + i as real)
    requires s.Valid() && multiset(s.snapshot) == multiset(r.Window())
    ensures r.Samples() == 3 && s.Values() == [1007.0, 1008.0, 1009.0]
  {
    assert r.Window() == [1007.0, 1008.0, 1009.0];
    Snapshot.SortedValues(s, [1007.0, 1008.0, 1009.0]);
  }

  /** A sample, a reset, then the sample 2: one sample held, and the snapshot holds just 2. */
  lemma AfterReset(r: SlidingWindowReservoir, s: Snapshot.Snapshot)
    requires r.Valid() && r.Size() == 3 && r.Stream == [] + [2.0]
    requires s.Valid() && multiset(s.snapshot) == multiset(r.Window())
    ensures r.Samples() == 1 && s.Values() == [2.0]
  {
    assert r.Window() == [2.0];
    Snapshot.SortedValues(s, [2.0]);
  }
}

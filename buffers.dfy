/** Reusable complex sample buffers and the transfer queue that carries them
    from the tuner (the producer) to the channel's processing task. */
module Buffers {

  /** One float of an interleaved I/Q buffer, kept symbolic: a value as the
      tuner delivered it, or the in-phase / quadrature part of the complex
      product of the I/Q pair (i, q) with the mixer's unit vector as it stands
      after the mixer's `rotation`-th rotation. */
  datatype Sample =
    | Raw(value: real)
    | Inphase(i: Sample, q: Sample, rotation: nat)
    | Quadrature(i: Sample, q: Sample, rotation: nat)

  /** A reusable complex buffer: an interleaved I/Q float array and a user count. */
  class ComplexBuffer {
    const samples: array<Sample>
    var userCount: int

    constructor (length: nat)
      ensures samples.Length == length && fresh(samples)
    {
      samples := new Sample[length];
      userCount := 0;
    }

    /** Releases one user of this buffer. */
    method DecrementUserCount()
      modifies this
      ensures userCount == old(userCount) - 1
    {
      userCount := userCount - 1;
    }
  }

  /** The sample contents of a sequence of buffers, in order. */
  function Contents(buffers: seq<ComplexBuffer>): (r: seq<seq<Sample>>)
    reads set b | b in buffers :: b.samples
    ensures |r| == |buffers|
    ensures forall k :: 0 <= k < |buffers| ==> r[k] == buffers[k].samples[..]
  {
    seq(|buffers|, k requires 0 <= k < |buffers| reads set b | b in buffers :: b.samples => buffers[k].samples[..])
  }

  /** The pool of reusable complex buffers the channel translates into. */
  class BufferPool {
    constructor () {}

    /** A buffer no one else holds, with room for at least `length` floats. */
    method GetBuffer(length: nat) returns (buffer: ComplexBuffer)
      ensures fresh(buffer) && fresh(buffer.samples)
      ensures buffer.samples.Length >= length
    {
      buffer := new ComplexBuffer(length);
    }
  }

  /** The first `max` elements of `items`, or all of them when there are fewer. */
  function Batch<T>(items: seq<T>, max: nat): (r: seq<T>)
    ensures r <= items && |r| <= max
    ensures |r| == max || r == items
  {
    if |items| <= max then items else items[..max]
  }

  /** The transfer queue between the tuner and the processing task: a FIFO of
      buffers, created with a capacity and an overflow reset threshold. */
  class TransferQueue {
    const capacity: nat
    const resetThreshold: nat
    var items: seq<ComplexBuffer>

    constructor (capacity: nat, resetThreshold: nat)
      ensures this.capacity == capacity && this.resetThreshold == resetThreshold
      ensures items == []
    {
      this.capacity := capacity;
      this.resetThreshold := resetThreshold;
      items := [];
    }

    /** Appends a buffer at the tail. */
    method Offer(buffer: ComplexBuffer)
      modifies this
      ensures items == old(items) + [buffer]
    {
      items := items + [buffer];
    }

    /** Removes at most `max` buffers from the head, in FIFO order. */
    method DrainTo(max: nat) returns (drained: seq<ComplexBuffer>)
      modifies this
      ensures drained == Batch(old(items), max)
      ensures items == old(items)[|drained|..]
    {
      drained := Batch(items, max);
      items := items[|drained|..];
    }
  }

  /** The batches successive drains of at most `max` take from `items` when
      nothing new arrives in between. */
  function Rounds<T>(items: seq<T>, max: nat): seq<seq<T>>
    requires max > 0
    decreases |items|
  {
    if items == [] then []
    else
      var b := Batch(items, max);
      [b] + Rounds(items[|b|..], max)
  }

  function Flatten<T>(ss: seq<seq<T>>): seq<T>
  {
    if ss == [] then [] else ss[0] + Flatten(ss[1..])
  }

  /** A prefix one element longer is the shorter prefix and that element. */
  lemma TakeOneMore<T>(s: seq<T>, n: nat)
    requires 0 < n <= |s|
    ensures s[..n] == s[..n - 1] + [s[n - 1]]
  {
  }

  /** Joining one more sequence at the end appends its elements. */
  lemma {:induction false} FlattenSnoc<T>(ss: seq<seq<T>>, x: seq<T>)
    ensures Flatten(ss + [x]) == Flatten(ss) + x
    decreases |ss|
  {
    if ss == [] {
      assert Flatten([x]) == x + Flatten([]);
    } else {
      assert (ss + [x])[1..] == ss[1..] + [x];
      FlattenSnoc(ss[1..], x);
    }
  }

  /** Draining a queue batch by batch hands every element over exactly once and
      in arrival order; every batch is non-empty, holds at most `max`
      elements, and all but the last are full. */
  lemma {:induction false} RoundsDrainInOrder<T>(items: seq<T>, max: nat)
    requires max > 0
    ensures Flatten(Rounds(items, max)) == items
    ensures forall k :: 0 <= k < |Rounds(items, max)| ==> 0 < |Rounds(items, max)[k]| <= max
    ensures forall k :: 0 <= k < |Rounds(items, max)| - 1 ==> |Rounds(items, max)[k]| == max
    decreases |items|
  {
    if items != [] {
      var b := Batch(items, max);
      var rest := items[|b|..];
      RoundsDrainInOrder(rest, max);
      assert Rounds(items, max) == [b] + Rounds(rest, max);
      assert ([b] + Rounds(rest, max))[1..] == Rounds(rest, max);
      assert b + rest == items;
      if rest != [] {
        assert |b| == max;
      }
    }
  }

  /** How many times `x` occurs in `s`. */
  function Occurrences<T(==)>(s: seq<T>, x: T): nat
  {
    if s == [] then 0
    else Occurrences(s[..|s| - 1], x) + (if s[|s| - 1] == x then 1 else 0)
  }

  /** The occurrence count is the element's multiplicity in the sequence's multiset. */
  lemma {:induction false} OccurrencesIsMultiplicity<T>(s: seq<T>, x: T)
    ensures Occurrences(s, x) == multiset(s)[x]
  {
    if s != [] {
      var init := s[..|s| - 1];
      OccurrencesIsMultiplicity(init, x);
      assert s == init + [s[|s| - 1]];
    }
  }

  /** In a sequence without repeated elements every element occurs once. */
  lemma {:induction false} DistinctOccursOnce<T>(s: seq<T>, k: nat)
    requires k < |s|
    requires forall i, j :: 0 <= i < j < |s| ==> s[i] != s[j]
    ensures Occurrences(s, s[k]) == 1
  {
    var last := |s| - 1;
    var init := s[..last];
    if k == last {
      assert s[k] !in init;
      Absent(init, s[k]);
    } else {
      DistinctOccursOnce(init, k);
    }
  }

  lemma {:induction false} Absent<T>(s: seq<T>, x: T)
    requires x !in s
    ensures Occurrences(s, x) == 0
  {
    if s != [] {
      Absent(s[..|s| - 1], x);
    }
  }
}

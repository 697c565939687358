/** The frequency-correction mixer: an oscillator whose unit vector the channel
    rotates once per I/Q pair, and what translating a buffer with it yields. */
module Mixer {
  import opened Buffers

  /** The oscillator, reduced to its frequency, its sample rate and the number
      of rotations it has made; the unit vector itself is left symbolic. */
  class Oscillator {
    var frequency: int
    var sampleRate: real
    var rotations: nat

    constructor (frequency: int, sampleRate: real)
      ensures this.frequency == frequency && this.sampleRate == sampleRate
      ensures rotations == 0
    {
      this.frequency := frequency;
      this.sampleRate := sampleRate;
      rotations := 0;
    }

    method SetSampleRate(sampleRate: real)
      modifies this
      ensures this.sampleRate == sampleRate
      ensures frequency == old(frequency) && rotations == old(rotations)
    {
      this.sampleRate := sampleRate;
    }

    /** Advances the unit vector by one phase increment. */
    method Rotate()
      modifies this
      ensures rotations == old(rotations) + 1
      ensures frequency == old(frequency) && sampleRate == old(sampleRate)
    {
      rotations := rotations + 1;
    }
  }

  /** Float `x` of the translation of interleaved buffer `s` by a mixer that had
      made `r0` rotations before the buffer: pair `x / 2` is multiplied by the
      vector after rotation `r0 + x / 2 + 1`; even `x` is the in-phase part,
      odd `x` the quadrature part. */
  function MixedAt(s: seq<Sample>, r0: nat, x: nat): Sample
    requires |s| % 2 == 0 && x < |s|
  {
    var p := x - x % 2;
    if x % 2 == 0 then Inphase(s[p], s[p + 1], r0 + x / 2 + 1)
    else Quadrature(s[p], s[p + 1], r0 + x / 2 + 1)
  }

  /** The translation of interleaved buffer `s`, pair by pair. */
  function Translate(s: seq<Sample>, r0: nat): (r: seq<Sample>)
    requires |s| % 2 == 0
    ensures |r| == |s|
    decreases |s|
  {
    if s == [] then []
    else [Inphase(s[0], s[1], r0 + 1), Quadrature(s[0], s[1], r0 + 1)] + Translate(s[2..], r0 + 1)
  }

  /** The pairwise translation agrees with the per-index description. */
  lemma {:induction false} TranslateAt(s: seq<Sample>, r0: nat, x: nat)
    requires |s| % 2 == 0 && x < |s|
    ensures Translate(s, r0)[x] == MixedAt(s, r0, x)
    decreases x
  {
    if x >= 2 {
      TranslateAt(s[2..], r0 + 1, x - 2);
      assert Translate(s, r0)[x] == Translate(s[2..], r0 + 1)[x - 2];
      assert s[2..][x - 2 - x % 2] == s[x - x % 2];
    }
  }

  /** The number of I/Q pairs in the first `k` of a sequence of interleaved buffers. */
  function PairsBefore(inputs: seq<seq<Sample>>, k: nat): nat
    requires k <= |inputs|
  {
    if k == 0 then 0 else PairsBefore(inputs, k - 1) + |inputs[k - 1]| / 2
  }

  /** `out` holds, at its front, the translation of the interleaved samples
      `input` by a mixer that had made `r0` rotations before them. */
  ghost predicate TranslatedFrom(out: seq<Sample>, input: seq<Sample>, r0: nat)
  {
    && |input| % 2 == 0
    && |out| >= |input|
    && out[..|input|] == Translate(input, r0)
  }

  /** Buffer by buffer, `mixed` holds the translation of `inputs` by one mixer
      running on from `r0` rotations across the buffers in order. */
  ghost predicate MixedBatch(mixed: seq<seq<Sample>>, inputs: seq<seq<Sample>>, r0: nat)
  {
    && |mixed| == |inputs|
    && MixedPrefix(mixed, inputs, r0)
  }

  /** `mixed` is the translation of the first `|mixed|` buffers of `inputs`. */
  ghost predicate MixedPrefix(mixed: seq<seq<Sample>>, inputs: seq<seq<Sample>>, r0: nat)
  {
    && |mixed| <= |inputs|
    && forall k {:trigger mixed[k]} :: 0 <= k < |mixed| ==>
         TranslatedFrom(mixed[k], inputs[k], r0 + PairsBefore(inputs, k))
  }

  lemma {:induction false} MixedPrefixExtend(mixed: seq<seq<Sample>>, inputs: seq<seq<Sample>>, r0: nat, m: seq<Sample>)
    requires MixedPrefix(mixed, inputs, r0) && |mixed| < |inputs|
    requires TranslatedFrom(m, inputs[|mixed|], r0 + PairsBefore(inputs, |mixed|))
    ensures MixedPrefix(mixed + [m], inputs, r0)
  {
  }

  /** Translating two buffers one after the other, with the mixer running on,
      is translating their concatenation: the phase carries across buffers. */
  lemma {:induction false} TranslateAppend(s1: seq<Sample>, s2: seq<Sample>, r0: nat)
    requires |s1| % 2 == 0 && |s2| % 2 == 0
    ensures Translate(s1 + s2, r0) == Translate(s1, r0) + Translate(s2, r0 + |s1| / 2)
    decreases |s1|
  {
    if s1 == [] {
      assert s1 + s2 == s2;
    } else {
      assert (s1 + s2)[2..] == s1[2..] + s2;
      TranslateAppend(s1[2..], s2, r0 + 1);
    }
  }

  /** The part of each output buffer that lies over its input, joined up.
      An output buffer shorter than its input cannot arise from a translation
      (`TranslatedFrom` rules it out); that case only keeps the function total
      and takes the buffer whole. */
  function JoinedFronts(mixed: seq<seq<Sample>>, inputs: seq<seq<Sample>>, n: nat): seq<Sample>
    requires n <= |mixed| && n <= |inputs|
  {
    if n == 0 then []
    else
      var last := mixed[n - 1];
      JoinedFronts(mixed, inputs, n - 1) + (if |inputs[n - 1]| <= |last| then last[..|inputs[n - 1]|] else last)
  }

  lemma EvenHalves(a: nat, b: nat)
    requires a % 2 == 0 && b % 2 == 0
    ensures (a + b) % 2 == 0 && (a + b) / 2 == a / 2 + b / 2
  {
  }

  /** The first `n` buffers of a batch translated buffer by buffer hold, in
      all, twice as many samples as the mixer turned for them. */
  lemma {:induction false} PrefixPairs(mixed: seq<seq<Sample>>, inputs: seq<seq<Sample>>, r0: nat, n: nat)
    requires MixedBatch(mixed, inputs, r0) && n <= |inputs|
    ensures |Flatten(inputs[..n])| % 2 == 0 && |Flatten(inputs[..n])| / 2 == PairsBefore(inputs, n)
  {
    if n > 0 {
      var m := n - 1;
      PrefixPairs(mixed, inputs, r0, m);
      TakeOneMore(inputs, n);
      FlattenSnoc(inputs[..m], inputs[m]);
      assert TranslatedFrom(mixed[m], inputs[m], r0 + PairsBefore(inputs, m));
      EvenHalves(|Flatten(inputs[..m])|, |inputs[m]|);
    }
  }

  /** The first `n` buffers of a batch translated buffer by buffer are the
      translation of their joined sample stream. */
  lemma {:induction false} PrefixIsOneStream(mixed: seq<seq<Sample>>, inputs: seq<seq<Sample>>, r0: nat, n: nat)
    requires MixedBatch(mixed, inputs, r0) && n <= |inputs|
    ensures |Flatten(inputs[..n])| % 2 == 0
    ensures JoinedFronts(mixed, inputs, n) == Translate(Flatten(inputs[..n]), r0)
  {
    if n == 0 {
      assert inputs[..n] == [];
    } else {
      var m := n - 1;
      PrefixPairs(mixed, inputs, r0, m);
      PrefixIsOneStream(mixed, inputs, r0, m);
      var earlier, last := Flatten(inputs[..m]), inputs[m];
      TakeOneMore(inputs, n);
      FlattenSnoc(inputs[..m], last);
      assert TranslatedFrom(mixed[m], last, r0 + PairsBefore(inputs, m));
      StreamStep(earlier, last, mixed[m], JoinedFronts(mixed, inputs, m), r0);
      assert JoinedFronts(mixed, inputs, n) == JoinedFronts(mixed, inputs, m) + mixed[m][..|last|];
    }
  }

  /** One more translated buffer, mixed from where the stream so far left
      off, extends the translation of the stream. */
  lemma StreamStep(earlier: seq<Sample>, last: seq<Sample>, out: seq<Sample>, joined: seq<Sample>, r0: nat)
    requires |earlier| % 2 == 0 && joined == Translate(earlier, r0)
    requires TranslatedFrom(out, last, r0 + |earlier| / 2)
    ensures |earlier + last| % 2 == 0
    ensures joined + out[..|last|] == Translate(earlier + last, r0)
  {
    EvenHalves(|earlier|, |last|);
    TranslateAppend(earlier, last, r0);
  }

  /** A whole batch translated buffer by buffer is the translation of the
      batch's joined sample stream by one mixer running on across it. */
  lemma BatchIsOneStream(mixed: seq<seq<Sample>>, inputs: seq<seq<Sample>>, r0: nat)
    requires MixedBatch(mixed, inputs, r0)
    ensures |Flatten(inputs)| % 2 == 0 && |Flatten(inputs)| / 2 == PairsBefore(inputs, |inputs|)
    ensures JoinedFronts(mixed, inputs, |inputs|) == Translate(Flatten(inputs), r0)
  {
    assert inputs[..|inputs|] == inputs;
    PrefixPairs(mixed, inputs, r0, |inputs|);
    PrefixIsOneStream(mixed, inputs, r0, |inputs|);
  }
}

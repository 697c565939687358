/** The heterodyne/decimate channel source: it queues the tuner's wideband
    buffers, and on each processing pass translates a batch of them with the
    frequency-correction mixer and hands them to the decimation filter, which
    produces the fixed 48 kHz channel. */
module TunerChannel {
  import opened Buffers
  import opened Mixer
  import opened Decimation

  const BufferMaxCapacity: nat := 300
  const BufferOverflowResetThreshold: nat := 100
  const ChannelRate: real := 48000.0
  const ChannelPassFrequency: int := 12000
  const FilterStages: nat := 1
  const StopbandAttenuation: int := 60
  /** The most buffers one processing pass drains from the queue. */
  const MaxBatchSize: nat := 20

  const IntMin: int := -0x8000_0000
  const IntMax: int := 0x7fff_ffff

  /** Whether an operation ran to completion, or stopped with a null-pointer
      failure because no decimation filter exists yet. */
  datatype Outcome = Completed | NullFilter

  /** A narrowing cast of a double to a 32-bit int: rounds toward zero and
      saturates at the int range. */
  function JavaIntCast(r: real): (i: int)
    ensures IntMin <= i <= IntMax
    ensures r >= IntMax as real ==> i == IntMax
    ensures r <= IntMin as real ==> i == IntMin
    ensures IntMin as real < r < IntMax as real && r >= 0.0 ==> i as real <= r < i as real + 1.0
    ensures IntMin as real < r < IntMax as real && r < 0.0 ==> i as real - 1.0 < r <= i as real
  {
    if r >= IntMax as real then IntMax
    else if r <= IntMin as real then IntMin
    else if r >= 0.0 then r.Floor
    else -((-r).Floor)
  }

  class CICTunerChannelSource {
    const queue: TransferQueue
    const pool: BufferPool
    const mixer: Oscillator
    var filter: DecimationFilter?
    /** The listener saved so that a rebuilt filter gets it again. */
    var listener: Listener?
    /** The working list one processing pass drains into. */
    var sampleBuffers: seq<ComplexBuffer>
    var tunerFrequency: int
    var tunerSampleRate: real
    var frequencyCorrection: int

    /** Every buffer ever received, and how many of them, from the front, have
        been processed so far. */
    ghost var received: seq<ComplexBuffer>
    ghost var processed: nat

    /** The object invariant between operations: the working list is empty. */
    ghost predicate Valid()
      reads this, queue, mixer, filter
    {
      Steady() && sampleBuffers == []
    }

    /** The invariant that also holds while a processing pass is under way. */
    ghost predicate Steady()
      reads this, queue, mixer, filter
    {
      && queue.capacity == BufferMaxCapacity
      && queue.resetThreshold == BufferOverflowResetThreshold
      && (forall k :: 0 <= k < |queue.items| ==> queue.items[k].samples.Length % 2 == 0)
      && processed <= |received| && queue.items == received[processed..]
      && (filter == null ==> tunerSampleRate == 0.0)
      && (filter != null ==>
            && filter.inputRate == JavaIntCast(tunerSampleRate)
            && filter.outputRate == JavaIntCast(ChannelRate)
            && filter.stages == FilterStages
            && filter.passFrequency == ChannelPassFrequency
            && filter.attenuation == StopbandAttenuation
            && filter.window == Hamming
            && mixer.sampleRate == tunerSampleRate)
    }

    /** A channel source for the tuner's current frequency and sample rate and
        the requested channel frequency. */
    constructor (tunerFrequency: int, tunerSampleRate: real, channelFrequency: int)
      ensures Valid()
      ensures fresh(queue) && fresh(pool) && fresh(mixer)
      ensures queue.items == [] && received == [] && processed == 0
      ensures this.tunerFrequency == tunerFrequency && frequencyCorrection == 0
      ensures listener == null
      ensures mixer.frequency == tunerFrequency - channelFrequency
      ensures mixer.sampleRate == tunerSampleRate && mixer.rotations == 0
      ensures this.tunerSampleRate == tunerSampleRate
      ensures filter == null <==> tunerSampleRate == 0.0
      ensures filter != null ==> fresh(filter) && filter.listener == null && filter.received == []
    {
      queue := new TransferQueue(BufferMaxCapacity, BufferOverflowResetThreshold);
      pool := new BufferPool();
      sampleBuffers := [];
      this.tunerFrequency := tunerFrequency;
      var frequencyOffset := tunerFrequency - channelFrequency;
      mixer := new Oscillator(frequencyOffset, tunerSampleRate);
      this.tunerSampleRate := 0.0;
      frequencyCorrection := 0;
      filter := null;
      listener := null;
      received, processed := [], 0;
      new;
      SetSampleRate(tunerSampleRate);
    }

    /** Moves the tuner frequency and resets the frequency correction; the
        mixer is left as it is. */
    method SetFrequency(frequency: int)
      requires Valid()
      modifies this
      ensures Valid()
      ensures tunerFrequency == frequency && GetFrequencyCorrection() == 0
      ensures unchanged(mixer)
      ensures filter == old(filter) && listener == old(listener)
      ensures tunerSampleRate == old(tunerSampleRate)
      ensures received == old(received) && processed == old(processed)
    {
      tunerFrequency := frequency;
      SetFrequencyCorrection(0);
      UpdateMixerFrequencyOffset();
    }

    function GetFrequencyCorrection(): (correction: int)
      reads this
      ensures correction == frequencyCorrection
    {
      frequencyCorrection
    }

    /** Stores a new frequency correction; the mixer is left as it is. */
    method SetFrequencyCorrection(correction: int)
      requires Valid()
      modifies this
      ensures Valid()
      ensures GetFrequencyCorrection() == correction && tunerFrequency == old(tunerFrequency)
      ensures unchanged(mixer)
      ensures filter == old(filter) && listener == old(listener)
      ensures tunerSampleRate == old(tunerSampleRate)
      ensures received == old(received) && processed == old(processed)
    {
      frequencyCorrection := correction;
      UpdateMixerFrequencyOffset();
    }

    /** Recomputing the mixer offset from the tuner frequency, the channel
        frequency and the correction is disabled: this does nothing. */
    method UpdateMixerFrequencyOffset()
      ensures unchanged(this, mixer)
    {
    }

    /** Queues a wideband buffer of interleaved I/Q pairs for processing. */
    method Receive(buffer: ComplexBuffer)
      requires Valid()
      requires buffer.samples.Length % 2 == 0
      modifies this, queue
      ensures Valid()
      ensures queue.items == old(queue.items) + [buffer]
      ensures received == old(received) + [buffer] && processed == old(processed)
      ensures filter == old(filter) && listener == old(listener)
      ensures tunerFrequency == old(tunerFrequency) && frequencyCorrection == old(frequencyCorrection)
      ensures tunerSampleRate == old(tunerSampleRate)
    {
      queue.Offer(buffer);
      received := received + [buffer];
    }

    /** Saves the listener and attaches it to the current filter; with no
        filter the attach step fails. */
    method SetListener(listener: Listener?) returns (outcome: Outcome)
      requires Valid()
      modifies this, filter
      ensures Valid()
      ensures this.listener == listener && filter == old(filter)
      ensures outcome == if filter == null then NullFilter else Completed
      ensures filter != null ==> filter.listener == listener && filter.received == old(filter.received)
      ensures tunerFrequency == old(tunerFrequency) && frequencyCorrection == old(frequencyCorrection)
      ensures tunerSampleRate == old(tunerSampleRate)
      ensures received == old(received) && processed == old(processed)
    {
      this.listener := listener;
      if filter == null {
        return NullFilter;
      }
      filter.SetListener(listener);
      outcome := Completed;
    }

    /** Detaches whatever listener the current filter has; the argument is
        ignored and the saved listener is kept. */
    method RemoveListener(listener: Listener?) returns (outcome: Outcome)
      requires Valid()
      modifies filter
      ensures Valid()
      ensures outcome == if filter == null then NullFilter else Completed
      ensures filter != null ==> filter.listener == null && filter.received == old(filter.received)
    {
      if filter == null {
        return NullFilter;
      }
      filter.RemoveListener();
      outcome := Completed;
    }

    /** Removing the listener detaches it from the current filter only: the
        saved listener stays, so the filter built for the next new sample rate
        delivers to it again. */
    method RemoveThenChangeRate(listener: Listener?, sampleRate: real)
      requires Valid() && filter != null && sampleRate != tunerSampleRate
      modifies this, mixer, filter
      ensures Valid()
      ensures this.listener == old(this.listener)
      ensures filter != null && fresh(filter) && filter.listener == this.listener
    {
      var outcome := RemoveListener(listener);
      assert filter.listener == null;
      SetSampleRate(sampleRate);
    }

    /** Changes the tuner sample rate. An unchanged rate changes nothing;
        otherwise the mixer takes the new rate and a new filter is built for
        it, carrying the saved listener. */
    method SetSampleRate(sampleRate: real)
      requires Valid()
      modifies this, mixer
      ensures Valid()
      ensures tunerSampleRate == sampleRate
      ensures old(tunerSampleRate) == sampleRate ==> filter == old(filter) && unchanged(mixer)
      ensures old(tunerSampleRate) != sampleRate ==>
        && filter != null && fresh(filter)
        && filter.listener == listener && filter.received == []
        && mixer.sampleRate == sampleRate
        && mixer.frequency == old(mixer.frequency) && mixer.rotations == old(mixer.rotations)
      ensures listener == old(listener)
      ensures tunerFrequency == old(tunerFrequency) && frequencyCorrection == old(frequencyCorrection)
      ensures queue.items == old(queue.items)
      ensures received == old(received) && processed == old(processed)
    {
      if tunerSampleRate != sampleRate {
        mixer.SetSampleRate(sampleRate);
        filter := new DecimationFilter(JavaIntCast(sampleRate), JavaIntCast(ChannelRate), FilterStages,
                                       ChannelPassFrequency, StopbandAttenuation, Hamming);
        filter.SetListener(listener);
        tunerSampleRate := sampleRate;
      }
    }

    /** The channel's output rate, whatever rate the tuner delivers. */
    function GetSampleRate(): (rate: real)
      ensures rate == 48000.0
    {
      ChannelRate
    }

    /** Translates one buffer into `translated`, rotating the mixer once per
        I/Q pair. */
    method TranslateFrequency(buffer: ComplexBuffer, translated: ComplexBuffer)
      requires buffer.samples.Length % 2 == 0
      requires translated.samples.Length >= buffer.samples.Length
      requires translated.samples != buffer.samples
      modifies mixer, translated.samples
      ensures mixer.rotations == old(mixer.rotations) + buffer.samples.Length / 2
      ensures mixer.frequency == old(mixer.frequency) && mixer.sampleRate == old(mixer.sampleRate)
      ensures translated.samples[..buffer.samples.Length]
              == Translate(buffer.samples[..], old(mixer.rotations))
      ensures translated.samples[buffer.samples.Length..]
              == old(translated.samples[buffer.samples.Length..])
    {
      var samples, out := buffer.samples, translated.samples;
      var n := samples.Length;
      ghost var r0 := mixer.rotations;
      ghost var input := samples[..];
      var x := 0;
      while x < n
        invariant 0 <= x <= n && x % 2 == 0
        invariant mixer.rotations == r0 + x / 2
        invariant mixer.frequency == old(mixer.frequency) && mixer.sampleRate == old(mixer.sampleRate)
        invariant forall j :: 0 <= j < x ==> out[j] == MixedAt(input, r0, j)
        invariant forall j :: n <= j < out.Length ==> out[j] == old(out[j])
      {
        mixer.Rotate();
        out[x] := Inphase(samples[x], samples[x + 1], mixer.rotations);
        out[x + 1] := Quadrature(samples[x], samples[x + 1], mixer.rotations);
        x := x + 2;
      }
      forall j | 0 <= j < n
        ensures out[..n][j] == Translate(input, r0)[j]
      {
        TranslateAt(input, r0, j);
      }
    }

    /** The work one processing pass does for one drained buffer; `mixed` is
        the content of the buffer it translates into. */
    method ProcessBuffer(buffer: ComplexBuffer) returns (ghost mixed: seq<Sample>)
      requires buffer.samples.Length % 2 == 0
      modifies mixer, filter, buffer
      ensures TranslatedFrom(mixed, buffer.samples[..], old(mixer.rotations))
      ensures mixer.rotations == old(mixer.rotations) + buffer.samples.Length / 2
      ensures mixer.frequency == old(mixer.frequency) && mixer.sampleRate == old(mixer.sampleRate)
      ensures filter != null ==> filter.received == old(filter.received) + [mixed] && filter.listener == old(filter.listener)
      ensures buffer.userCount == old(buffer.userCount) - 1
    {
      var translated := pool.GetBuffer(buffer.samples.Length);
      TranslateFrequency(buffer, translated);
      mixed := translated.samples[..];
      var f := filter;
      if f != null {
        f.Receive(translated);
      }
      buffer.DecrementUserCount();
    }

    /** The loop of a processing pass over the drained buffers, in order;
        `inputs` are their sample contents. */
    method ProcessBuffers(buffers: seq<ComplexBuffer>, ghost inputs: seq<seq<Sample>>)
      returns (ghost mixed: seq<seq<Sample>>)
      requires |inputs| == |buffers|
      requires forall k :: 0 <= k < |buffers| ==> buffers[k].samples[..] == inputs[k] && |inputs[k]| % 2 == 0
      modifies mixer, filter, buffers
      ensures mixer.rotations == old(mixer.rotations) + PairsBefore(inputs, |inputs|)
      ensures mixer.frequency == old(mixer.frequency) && mixer.sampleRate == old(mixer.sampleRate)
      ensures MixedBatch(mixed, inputs, old(mixer.rotations))
      ensures filter != null ==>
        filter.received == old(filter.received) + mixed && filter.listener == old(filter.listener)
      ensures forall b :: b in buffers ==> b.userCount == old(b.userCount) - Occurrences(buffers, b)
    {
      ghost var r0 := mixer.rotations;
      mixed := [];
      for i := 0 to |buffers|
        invariant mixer.rotations == r0 + PairsBefore(inputs, i)
        invariant mixer.frequency == old(mixer.frequency) && mixer.sampleRate == old(mixer.sampleRate)
        invariant |mixed| == i
        invariant MixedPrefix(mixed, inputs, r0)
        invariant filter != null ==>
          filter.received == old(filter.received) + mixed && filter.listener == old(filter.listener)
        invariant forall b :: b in buffers ==> b.userCount == old(b.userCount) - Occurrences(buffers[..i], b)
      {
        var buffer := buffers[i];
        assert buffer.samples[..] == inputs[i];
        ghost var m := ProcessBuffer(buffer);
        assert buffers[..i + 1][..i] == buffers[..i];
        MixedPrefixExtend(mixed, inputs, r0, m);
        mixed := mixed + [m];
      }
      assert buffers[..|buffers|] == buffers;
    }

    /** The drain step of a processing pass: moves at most 20 buffers from
        the head of the queue into the empty working list. */
    method DrainToSampleBuffers()
      requires Valid()
      modifies this, queue
      ensures Steady()
      ensures sampleBuffers == Batch(old(queue.items), MaxBatchSize)
      ensures queue.items == old(queue.items)[|sampleBuffers|..]
      ensures forall k :: 0 <= k < |sampleBuffers| ==> sampleBuffers[k].samples.Length % 2 == 0
      ensures received == old(received) && processed == old(processed) + |sampleBuffers|
      ensures filter == old(filter) && listener == old(listener)
      ensures tunerFrequency == old(tunerFrequency) && frequencyCorrection == old(frequencyCorrection)
      ensures tunerSampleRate == old(tunerSampleRate)
    {
      var drained := queue.DrainTo(MaxBatchSize);
      sampleBuffers := sampleBuffers + drained;
      processed := processed + |drained|;
      assert queue.items == old(queue.items)[|drained|..];
    }

    /** One processing pass: drains at most 20 buffers from the head of the
        queue and, in order, translates each into a fresh buffer, hands that to
        the current filter if there is one, and releases the input buffer once. */
    method ProcessSamples()
      returns (ghost batch: seq<ComplexBuffer>, ghost inputs: seq<seq<Sample>>, ghost mixed: seq<seq<Sample>>)
      requires Valid()
      modifies this, queue, mixer, filter, Batch(queue.items, MaxBatchSize)
      ensures Valid()
      ensures batch == Batch(old(queue.items), MaxBatchSize)
      ensures queue.items == old(queue.items)[|batch|..]
      ensures received == old(received) && processed == old(processed) + |batch|
      ensures filter == old(filter) && listener == old(listener)
      ensures tunerFrequency == old(tunerFrequency) && frequencyCorrection == old(frequencyCorrection)
      ensures tunerSampleRate == old(tunerSampleRate)
      ensures |inputs| == |batch| && forall k :: 0 <= k < |batch| ==> inputs[k] == batch[k].samples[..]
      ensures mixer.rotations == old(mixer.rotations) + PairsBefore(inputs, |inputs|)
      ensures mixer.frequency == old(mixer.frequency) && mixer.sampleRate == old(mixer.sampleRate)
      ensures MixedBatch(mixed, inputs, old(mixer.rotations))
      ensures filter != null ==>
        filter.received == old(filter.received) + mixed && filter.listener == old(filter.listener)
      ensures forall b :: b in batch ==> b.userCount == old(b.userCount) - Occurrences(batch, b)
    {
      DrainToSampleBuffers();
      batch := sampleBuffers;
      inputs := Contents(batch);
      mixed := ProcessBuffers(sampleBuffers, inputs);
      sampleBuffers := [];
    }
  }
}

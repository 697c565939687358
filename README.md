# CICTunerChannelSource, modelled in Dafny

This project models the channel source of sdrtrunk's tuner channelizer
(`CICTunerChannelSource`). The tuner hands it wideband buffers of interleaved
I/Q floats. The source queues them in a transfer queue bounded at 300 buffers.
On each processing pass it drains at most 20 of them. It translates each
drained buffer, pair by pair, with its frequency-correction mixer into a
pooled buffer. If a decimation filter exists, the source hands it that buffer,
and the filter produces the fixed 48 kHz channel. Finally the source releases
the input buffer.

The source also keeps the tuner frequency, the frequency correction and the
tuner sample rate. When the sample rate changes, it rebuilds the decimation
filter for the new rate and re-attaches the saved listener to it.

The model is imperative, as the source is:

- `CICTunerChannelSource` is a class whose methods update its fields.
- The transfer queue, the mixer, the filter and the buffers are classes
  reduced to the state the channel source reads and changes:
  - the queue is a FIFO sequence;
  - the oscillator keeps its frequency, its sample rate and a count of its
    rotations;
  - the filter keeps its design parameters, its listener and a log of the
    sample contents it has been handed;
  - each buffer is a sample array with a user count.
- Samples are symbolic. A translated float records which input pair it came
  from, whether it is the in-phase or the quadrature part of the product, and
  after which mixer rotation it was computed. This captures the order and the
  phase bookkeeping of the mixing exactly, without floating point.

Modules:

- `Buffers`: samples, reusable buffers, the buffer pool, the transfer queue,
  and the drain batches with their lemmas.
- `Mixer`: the oscillator, the pairwise translation of a buffer, and its
  continuity across buffers and across a whole pass.
- `Decimation`: the decimation filter as the channel source sees it.
- `TunerChannel`: the channel source itself. Its invariant `Valid()` says:
  - the queue holds exactly the received buffers not yet processed, in
    arrival order;
  - every queued buffer has whole I/Q pairs;
  - without a filter the stored tuner rate is still 0, so every non-zero
    rate has a filter (a rate set back to 0 builds a filter for rate 0);
  - the filter was built from the current rate with the fixed design
    constants, and the mixer runs at that same rate.

The documentation of `updateMixerFrequencyOffset`
(`CICTunerChannelSource.java:165-168`) says it recomputes the mixer offset
from the tuned frequency, the channel frequency and the correction. Its body
is commented out, so it does nothing. The model follows the code:
`SetFrequency` and `SetFrequencyCorrection` leave the mixer unchanged.

## Model

| member | source | states |
|---|---|---|
| Buffers.ComplexBuffer.DecrementUserCount | src/main/java/io/github/dsheirer/source/tuner/channel/CICTunerChannelSource.java:210 | releasing a buffer lowers its user count by exactly one |
| Buffers.BufferPool.GetBuffer | src/main/java/io/github/dsheirer/source/tuner/channel/CICTunerChannelSource.java:188-189 | the pooled output buffer is held by no one else and has room for at least the input's floats |
| Buffers.Batch | src/main/java/io/github/dsheirer/source/tuner/channel/CICTunerChannelSource.java:182 | a drain takes a prefix of the queue of at most 20 buffers, and takes 20 or else the whole queue |
| Buffers.TransferQueue.constructor | src/main/java/io/github/dsheirer/source/tuner/channel/CICTunerChannelSource.java:71 | the queue is created empty with capacity 300 and reset threshold 100 |
| Buffers.TransferQueue.Offer | src/main/java/io/github/dsheirer/source/tuner/channel/CICTunerChannelSource.java:125 | an offered buffer joins the tail of the queue |
| Buffers.TransferQueue.DrainTo | src/main/java/io/github/dsheirer/source/tuner/channel/CICTunerChannelSource.java:182 | the drain removes exactly that batch from the head, and the rest stay queued in order |
| Buffers.RoundsDrainInOrder | src/main/java/io/github/dsheirer/source/tuner/channel/CICTunerChannelSource.java:182 | successive passes over a queue that receives nothing new hand over every buffer exactly once and in arrival order; every batch is non-empty and at most 20 long, and all but the last are full |
| Buffers.OccurrencesIsMultiplicity | src/main/java/io/github/dsheirer/source/tuner/channel/CICTunerChannelSource.java:184-211 | the number of releases a pass makes of a buffer is the buffer's multiplicity in the drained batch |
| Buffers.DistinctOccursOnce | src/main/java/io/github/dsheirer/source/tuner/channel/CICTunerChannelSource.java:184-211 | in a batch without repeated buffers, each drained buffer is released exactly once |
| Buffers.Absent | src/main/java/io/github/dsheirer/source/tuner/channel/CICTunerChannelSource.java:184-211 | an element outside a sequence occurs in it zero times; the base case of the once-per-appearance count |
| Mixer.Oscillator.constructor | src/main/java/io/github/dsheirer/source/tuner/channel/CICTunerChannelSource.java:76-77 | the mixer starts at the given offset frequency and the tuner's sample rate, before any rotation |
| Mixer.Oscillator.SetSampleRate | src/main/java/io/github/dsheirer/source/tuner/channel/CICTunerChannelSource.java:150 | a new sample rate keeps the mixer's frequency and its phase (rotation count) |
| Mixer.Oscillator.Rotate | src/main/java/io/github/dsheirer/source/tuner/channel/CICTunerChannelSource.java:194 | each rotation advances the phase by one step and changes nothing else |
| Mixer.Translate | src/main/java/io/github/dsheirer/source/tuner/channel/CICTunerChannelSource.java:192-201 | translating a buffer yields exactly as many floats as it has |
| Mixer.TranslateAt | src/main/java/io/github/dsheirer/source/tuner/channel/CICTunerChannelSource.java:192-201 | float x of a translated buffer is the in-phase part (x even) or the quadrature part (x odd) of its pair, multiplied by the mixer vector after rotation r0 + x/2 + 1 |
| Mixer.TranslateAppend | src/main/java/io/github/dsheirer/source/tuner/channel/CICTunerChannelSource.java:192-201 | translating two buffers in turn is translating their concatenation: the mixer phase carries across buffers |
| Mixer.PrefixPairs | src/main/java/io/github/dsheirer/source/tuner/channel/CICTunerChannelSource.java:184-201 | the first n buffers of a pass hold twice as many floats as the mixer rotations made for them |
| Mixer.PrefixIsOneStream | src/main/java/io/github/dsheirer/source/tuner/channel/CICTunerChannelSource.java:184-211 | the translated fronts of the first n buffers, joined, are the translation of their joined input stream |
| Mixer.BatchIsOneStream | src/main/java/io/github/dsheirer/source/tuner/channel/CICTunerChannelSource.java:180-214 | the translated fronts of the buffers a pass hands the filter, joined, are one continuous translation of the batch's joined stream, and the mixer turns once per pair of it |
| Decimation.DecimationFilter.constructor | src/main/java/io/github/dsheirer/source/tuner/channel/CICTunerChannelSource.java:153-154 | a new filter keeps its input rate, output rate, stage count, pass frequency, attenuation and window, has no listener and has received nothing |
| Decimation.DecimationFilter.SetListener | src/main/java/io/github/dsheirer/source/tuner/channel/CICTunerChannelSource.java:134 | attaching a listener replaces the filter's listener and nothing else |
| Decimation.DecimationFilter.RemoveListener | src/main/java/io/github/dsheirer/source/tuner/channel/CICTunerChannelSource.java:139 | detaching leaves the filter without a listener |
| Decimation.DecimationFilter.Receive | src/main/java/io/github/dsheirer/source/tuner/channel/CICTunerChannelSource.java:207 | the filter consumes the handed buffer's contents after what it has already received |
| TunerChannel.JavaIntCast | src/main/java/io/github/dsheirer/source/tuner/channel/CICTunerChannelSource.java:153 | the (int) cast of a rate lies in the 32-bit range, saturates at its ends and otherwise rounds toward zero |
| TunerChannel.CICTunerChannelSource.constructor | src/main/java/io/github/dsheirer/source/tuner/channel/CICTunerChannelSource.java:69-81 | empty queue, no correction, mixer at tuner minus channel frequency and the tuner rate; a filter exists exactly when the tuner rate is not 0 |
| TunerChannel.CICTunerChannelSource.SetFrequency | src/main/java/io/github/dsheirer/source/tuner/channel/CICTunerChannelSource.java:87-95 | stores the tuner frequency, resets the correction to 0, and leaves the mixer, filter and queue alone |
| TunerChannel.CICTunerChannelSource.GetFrequencyCorrection | src/main/java/io/github/dsheirer/source/tuner/channel/CICTunerChannelSource.java:101-104 | reports the stored correction |
| TunerChannel.CICTunerChannelSource.SetFrequencyCorrection | src/main/java/io/github/dsheirer/source/tuner/channel/CICTunerChannelSource.java:110-117 | the correction read back afterwards is the one set, and the mixer is untouched |
| TunerChannel.CICTunerChannelSource.UpdateMixerFrequencyOffset | src/main/java/io/github/dsheirer/source/tuner/channel/CICTunerChannelSource.java:169-173 | the offset update changes neither the channel source nor the mixer |
| TunerChannel.CICTunerChannelSource.Receive | src/main/java/io/github/dsheirer/source/tuner/channel/CICTunerChannelSource.java:123-126 | the buffer joins the tail of the queue and of the received history, and nothing else changes |
| TunerChannel.CICTunerChannelSource.SetListener | src/main/java/io/github/dsheirer/source/tuner/channel/CICTunerChannelSource.java:128-135 | the listener is saved first; then it is attached to the filter, or the call fails with a null filter |
| TunerChannel.CICTunerChannelSource.RemoveListener | src/main/java/io/github/dsheirer/source/tuner/channel/CICTunerChannelSource.java:137-140 | the argument is ignored, the filter loses whatever listener it has, the saved listener is kept, and the call fails when there is no filter |
| TunerChannel.CICTunerChannelSource.RemoveThenChangeRate | src/main/java/io/github/dsheirer/source/tuner/channel/CICTunerChannelSource.java:137-159 | a listener removed from the filter is attached again to the filter a later rate change builds |
| TunerChannel.CICTunerChannelSource.SetSampleRate | src/main/java/io/github/dsheirer/source/tuner/channel/CICTunerChannelSource.java:146-163 | the same rate changes nothing; a new rate retunes the mixer, keeping its phase, and builds a fresh filter for that rate carrying the saved listener |
| TunerChannel.CICTunerChannelSource.GetSampleRate | src/main/java/io/github/dsheirer/source/tuner/channel/CICTunerChannelSource.java:175-178 | the channel rate is 48000 whatever the tuner rate |
| TunerChannel.CICTunerChannelSource.TranslateFrequency | src/main/java/io/github/dsheirer/source/tuner/channel/CICTunerChannelSource.java:186-201 | the output buffer's front holds the translation of the input, its tail is untouched, and the mixer turned once per pair |
| TunerChannel.CICTunerChannelSource.ProcessBuffer | src/main/java/io/github/dsheirer/source/tuner/channel/CICTunerChannelSource.java:186-210 | one buffer is translated; the result goes to the filter if there is one; the input is released once |
| TunerChannel.CICTunerChannelSource.ProcessBuffers | src/main/java/io/github/dsheirer/source/tuner/channel/CICTunerChannelSource.java:184-211 | the batch is translated in order with one mixer running on; the filter receives every result in order; each buffer is released once per appearance |
| TunerChannel.CICTunerChannelSource.DrainToSampleBuffers | src/main/java/io/github/dsheirer/source/tuner/channel/CICTunerChannelSource.java:182 | the working list receives the head batch of the queue, and the history counts it as processed |
| TunerChannel.CICTunerChannelSource.ProcessSamples | src/main/java/io/github/dsheirer/source/tuner/channel/CICTunerChannelSource.java:180-214 | a pass keeps the invariant, removes the head batch of at most 20 buffers, translates and forwards it in order, releases each buffer once per appearance, and ends with an empty working list |

## Left out

- Floating-point arithmetic: the oscillator's trigonometry, the complex
  multiplication and the filter's computation are symbolic. The model keeps
  which pair and which rotation each output float comes from, not its value.
- Filter design and decimation: coefficient design and the CIC stages, which
  belong to the filter factory and are not part of this model. Their output
  to the listener is not part of this model either. The filter is reduced to
  its design parameters, its listener and the contents it receives.
- Queue overflow and hysteresis: the transfer queue's own code is not part of
  this model. Only its capacity of 300 and reset threshold of 100 are
  recorded, and `Offer` is a plain append.
- Buffer pooling: the pool's recycling is not part of this model. A pooled
  buffer is modelled as a new buffer that no one else holds.
- Releasing a buffer only lowers its user count. What happens when the count
  reaches zero belongs to the buffer's own code, which is not part of this
  model.
- TunerChannel.CICTunerChannelSource.Receive: requires whole I/Q pairs, which
  is weaker than the source's behaviour. The source accepts any buffer, and an
  odd-length buffer would fail later, in the translation loop, with an index
  out of bounds. The tuner only produces interleaved pairs.
- TunerChannel.JavaIntCast: does not model the cast of NaN, which yields 0.
  Rates are modelled as reals.
- 64-bit `long` frequencies are unbounded integers. Their wrap-around is not
  modelled.
- The tuner and the tuner channel are constructor parameters: the tuner
  frequency, the tuner sample rate and the channel frequency.
- Logging, the commented-out event broadcasts and overflow listener, and the
  threads that call `receive` and `processSamples` are left out. There is no
  locking in this class, and concurrency is not modelled.
- The class documentation (`CICTunerChannelSource.java:62-65`) says an
  instance is used once, started and stopped. The class has no start or stop
  code, so that lifecycle is not modelled.
- The instrumented AFSK1200 decoder interface belongs to the user interface.

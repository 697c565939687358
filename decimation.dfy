/** The decimation filter chain, reduced to the parameters it is built from,
    its listener slot and the log of the sample contents it has been handed. */
module Decimation {
  import opened Buffers

  /** A downstream consumer of the channel's baseband buffers. */
  class Listener {
    constructor () {}
  }

  datatype WindowType = Hamming

  class DecimationFilter {
    const inputRate: int
    const outputRate: int
    const stages: nat
    const passFrequency: int
    const attenuation: int
    const window: WindowType
    var listener: Listener?
    var received: seq<seq<Sample>>

    /** A filter built for the given design parameters, with no listener and
        nothing received yet. */
    constructor (inputRate: int, outputRate: int, stages: nat, passFrequency: int,
                 attenuation: int, window: WindowType)
      ensures this.inputRate == inputRate && this.outputRate == outputRate
      ensures this.stages == stages && this.passFrequency == passFrequency
      ensures this.attenuation == attenuation && this.window == window
      ensures listener == null && received == []
    {
      this.inputRate := inputRate;
      this.outputRate := outputRate;
      this.stages := stages;
      this.passFrequency := passFrequency;
      this.attenuation := attenuation;
      this.window := window;
      listener := null;
      received := [];
    }

    method SetListener(listener: Listener?)
      modifies this
      ensures this.listener == listener && received == old(received)
    {
      this.listener := listener;
    }

    method RemoveListener()
      modifies this
      ensures listener == null && received == old(received)
    {
      listener := null;
    }

    /** Accepts one translated buffer for filtering and decimation, consuming
        its samples as they stand. */
    method Receive(buffer: ComplexBuffer)
      modifies this
      ensures received == old(received) + [buffer.samples[..]] && listener == old(listener)
    {
      received := received + [buffer.samples[..]];
    }
  }
}

/**
 * Abstract records of the Web Audio nodes the component creates and drives.
 * Each node keeps only what the component writes or relies on: an oscillator's
 * type, frequency, outgoing connections and start/stop status; a panner's x
 * position and connections; a gain node's level and connections.
 * Scheduling against the context clock is dropped: setValueAtTime(v, t) is an
 * immediate write of v. connect() adds the target to the node's outputs (a
 * second connect of the same pair changes nothing, as in Web Audio).
 */
module AudioNodes {

  /** OscillatorNode.type */
  datatype Waveform = Sine | Square | Sawtooth | Triangle

  /** The context's AudioDestinationNode: the sink of the graph. */
  class DestinationNode {
    constructor ()
    {
    }
  }

  class AudioContext {
    const destination: DestinationNode

    constructor ()
      ensures fresh(destination)
    {
      destination := new DestinationNode();
    }
  }

  class GainNode {
    var level: real
    var outputs: set<DestinationNode>

    /** createGain(): the gain parameter starts at 1. */
    constructor ()
      ensures level == 1.0 && outputs == {}
    {
      level := 1.0;
      outputs := {};
    }

    method SetLevel(v: real)
      modifies this
      ensures level == v && outputs == old(outputs)
    {
      level := v;
    }

    method Connect(d: DestinationNode)
      modifies this
      ensures outputs == old(outputs) + {d} && level == old(level)
    {
      outputs := outputs + {d};
    }
  }

  class PannerNode {
    var positionX: real
    var outputs: set<GainNode>

    /** createPanner(): the source sits at x = 0. */
    constructor ()
      ensures positionX == 0.0 && outputs == {}
    {
      positionX := 0.0;
      outputs := {};
    }

    method SetPositionX(x: real)
      modifies this
      ensures positionX == x && outputs == old(outputs)
    {
      positionX := x;
    }

    method Connect(g: GainNode)
      modifies this
      ensures outputs == old(outputs) + {g} && positionX == old(positionX)
    {
      outputs := outputs + {g};
    }
  }

  class OscillatorNode {
    var waveform: Waveform
    var frequency: real
    var outputs: set<PannerNode>
    var started: bool
    var stopped: bool

    /** createOscillator(): a sine at 440 Hz, unconnected, not started. */
    constructor ()
      ensures waveform == Sine && frequency == 440.0 && outputs == {}
      ensures !started && !stopped
    {
      waveform := Sine;
      frequency := 440.0;
      outputs := {};
      started := false;
      stopped := false;
    }

    method SetType(w: Waveform)
      modifies this
      ensures waveform == w && frequency == old(frequency) && outputs == old(outputs)
      ensures started == old(started) && stopped == old(stopped)
    {
      waveform := w;
    }

    method SetFrequency(hz: real)
      modifies this
      ensures frequency == hz && waveform == old(waveform) && outputs == old(outputs)
      ensures started == old(started) && stopped == old(stopped)
    {
      frequency := hz;
    }

    method Connect(p: PannerNode)
      modifies this
      ensures outputs == old(outputs) + {p}
      ensures waveform == old(waveform) && frequency == old(frequency)
      ensures started == old(started) && stopped == old(stopped)
    {
      outputs := outputs + {p};
    }

    /** start() may be called once; a second call throws InvalidStateError. */
    method Start()
      requires !started
      modifies this
      ensures started && stopped == old(stopped)
      ensures waveform == old(waveform) && frequency == old(frequency) && outputs == old(outputs)
    {
      started := true;
    }

    /** stop() before start() throws InvalidStateError. */
    method Stop()
      requires started
      modifies this
      ensures stopped && started
      ensures waveform == old(waveform) && frequency == old(frequency) && outputs == old(outputs)
    {
      stopped := true;
    }
  }
}

/**
 * The App component as an object: its state variables are fields, the audio
 * nodes it holds are objects of module AudioNodes, and every handler and
 * effect is a method proved to follow the corresponding function of module
 * AppState (ToggleSound and its two branches follow AppState.Toggle).
 */
module AppComponent {
  import opened AudioNodes
  import AppState
  import Presets

  class App {
    var isPlaying: bool
    var leftFreq: real
    var rightFreq: real
    var volume: real
    var preset: string
    var audioContext: AudioContext?
    var gainNode: GainNode?
    var leftPanner: PannerNode?
    var rightPanner: PannerNode?
    var leftOsc: OscillatorNode?
    var rightOsc: OscillatorNode?

    /** The sides whose panner is among the given connection targets. */
    ghost function Sides(targets: set<PannerNode>): set<AppState.Side>
      reads this
    {
      (if leftPanner != null && leftPanner in targets then {AppState.Left} else {})
      + (if rightPanner != null && rightPanner in targets then {AppState.Right} else {})
    }

    ghost function OscModel(o: OscillatorNode?): AppState.Option<AppState.Oscillator>
      reads this, o
    {
      if o == null then AppState.None
      else AppState.Some(AppState.Oscillator(o.waveform, o.frequency, o.started, o.stopped, Sides(o.outputs)))
    }

    ghost function GraphModel(): AppState.Option<AppState.Graph>
      reads this, gainNode, leftPanner, rightPanner
    {
      if audioContext != null && gainNode != null && leftPanner != null && rightPanner != null then
        AppState.Some(AppState.Graph(
          AppState.Gain(gainNode.level, audioContext.destination in gainNode.outputs),
          AppState.Panner(leftPanner.positionX, gainNode in leftPanner.outputs),
          AppState.Panner(rightPanner.positionX, gainNode in rightPanner.outputs)))
      else AppState.None
    }

    /** The component's state as a value. */
    ghost function Model(): AppState.State
      reads this, gainNode, leftPanner, rightPanner, leftOsc, rightOsc
    {
      AppState.State(isPlaying, leftFreq, rightFreq, volume, preset, GraphModel(), OscModel(leftOsc), OscModel(rightOsc))
    }

    /**
     * The object invariant: the mount effect's nodes exist all together or not
     * at all, the two panners and the two oscillators are distinct objects,
     * every connection goes where toggleSound makes it, and the value model
     * satisfies AppState.Inv.
     */
    ghost predicate Valid()
      reads this, gainNode, leftPanner, rightPanner, leftOsc, rightOsc
    {
      && (audioContext == null <==> gainNode == null)
      && (audioContext == null <==> leftPanner == null)
      && (audioContext == null <==> rightPanner == null)
      && (audioContext != null ==>
            && leftPanner != rightPanner
            && gainNode.outputs <= {audioContext.destination}
            && leftPanner.outputs <= {gainNode}
            && rightPanner.outputs <= {gainNode})
      && (leftOsc != null ==> leftPanner != null && leftOsc.outputs <= {leftPanner})
      && (rightOsc != null ==> rightPanner != null && rightOsc.outputs <= {rightPanner})
      && (leftOsc != null && rightOsc != null ==> leftOsc != rightOsc)
      && AppState.Inv(Model())
    }

    /** The first render: the useState initial values, no nodes yet. */
    constructor ()
      ensures Valid() && Model() == AppState.Initial()
    {
      isPlaying := false;
      leftFreq := AppState.InitialFrequency;
      rightFreq := AppState.InitialFrequency;
      volume := AppState.InitialVolume;
      preset := "";
      audioContext := null;
      gainNode := null;
      leftPanner := null;
      rightPanner := null;
      leftOsc := null;
      rightOsc := null;
    }

    /** The mount effect: creates the context, the gain node and the two panners. */
    method InitAudio()
      requires Valid() && audioContext == null
      modifies this
      ensures Valid() && Model() == AppState.InitAudio(old(Model()))
      ensures fresh(audioContext) && fresh(gainNode) && fresh(leftPanner) && fresh(rightPanner)
      ensures leftOsc == old(leftOsc) && rightOsc == old(rightOsc)
    {
      var ctx := new AudioContext();
      var gain := new GainNode();
      gain.SetLevel(volume);
      var left := new PannerNode();
      var right := new PannerNode();
      left.SetPositionX(AppState.LeftPannerX);
      right.SetPositionX(AppState.RightPannerX);
      audioContext, gainNode, leftPanner, rightPanner := ctx, gain, left, right;
    }

    /** The volume effect. */
    method SyncVolume()
      requires Valid()
      modifies gainNode
      ensures Valid() && Model() == AppState.SyncVolume(old(Model()))
    {
      if gainNode != null && audioContext != null {
        gainNode.SetLevel(volume);
      }
    }

    /** The frequency effect. */
    method SyncFrequencies()
      requires Valid()
      modifies leftOsc, rightOsc
      ensures Valid() && Model() == AppState.SyncFrequencies(old(Model()))
    {
      if leftOsc != null && rightOsc != null && audioContext != null {
        leftOsc.SetFrequency(leftFreq);
        rightOsc.SetFrequency(rightFreq);
      }
    }

    /** Both effects after a render. */
    method RunEffects()
      requires Valid()
      modifies gainNode, leftOsc, rightOsc
      ensures Valid() && Model() == AppState.RunEffects(old(Model()))
    {
      SyncVolume();
      SyncFrequencies();
    }

    /** The node references, which only the mount effect and toggleSound replace. */
    ghost function Nodes(): (AudioContext?, GainNode?, PannerNode?, PannerNode?, OscillatorNode?, OscillatorNode?)
      reads this
    {
      (audioContext, gainNode, leftPanner, rightPanner, leftOsc, rightOsc)
    }

    /**
     * toggleSound. Stopping calls stop() on both oscillators before dropping
     * them; starting creates, tunes, connects and starts two new ones.
     */
    method ToggleSound()
      requires Valid()
      modifies this, gainNode, leftPanner, rightPanner, leftOsc, rightOsc
      ensures Valid() && Model() == AppState.Toggle(old(Model()))
      ensures audioContext == old(audioContext) && gainNode == old(gainNode)
      ensures leftPanner == old(leftPanner) && rightPanner == old(rightPanner)
      ensures old(audioContext) != null && old(isPlaying) ==> old(leftOsc).stopped && old(rightOsc).stopped
      ensures old(audioContext) != null && !old(isPlaying) ==> fresh(leftOsc) && fresh(rightOsc)
    {
      if audioContext == null || gainNode == null || leftPanner == null || rightPanner == null {
        return;
      }
      if isPlaying {
        StopOscillators();
      } else {
        StartOscillators();
      }
    }

    /** The Playing branch of toggleSound. */
    method StopOscillators()
      requires Valid() && audioContext != null && isPlaying
      modifies this, leftOsc, rightOsc
      ensures Valid() && Model() == AppState.Toggle(old(Model()))
      ensures audioContext == old(audioContext) && gainNode == old(gainNode)
      ensures leftPanner == old(leftPanner) && rightPanner == old(rightPanner)
      ensures old(leftOsc).stopped && old(rightOsc).stopped
    {
      if leftOsc != null {
        leftOsc.Stop();
      }
      if rightOsc != null {
        rightOsc.Stop();
      }
      leftOsc, rightOsc := null, null;
      isPlaying := false;
    }

    /**
     * The Idle branch of toggleSound. Each oscillator is created, typed, tuned
     * and connected before the other; the source interleaves these steps, but
     * they touch distinct objects, so the resulting nodes are the same.
     */
    method StartOscillators()
      requires Valid() && audioContext != null && !isPlaying
      modifies this, gainNode, leftPanner, rightPanner
      ensures Valid() && Model() == AppState.Toggle(old(Model()))
      ensures audioContext == old(audioContext) && gainNode == old(gainNode)
      ensures leftPanner == old(leftPanner) && rightPanner == old(rightPanner)
      ensures fresh(leftOsc) && fresh(rightOsc)
    {
      var left := CreateTone(leftFreq, leftPanner);
      var right := CreateTone(rightFreq, rightPanner);
      ConnectGraph();
      left.Start();
      right.Start();
      leftOsc, rightOsc := left, right;
      isPlaying := true;
      assert Sides(left.outputs) == {AppState.Left};
      assert Sides(right.outputs) == {AppState.Right};
    }

    /** Creates a sine oscillator at the given frequency, connected to the given panner, not yet started. */
    static method CreateTone(hz: real, panner: PannerNode) returns (o: OscillatorNode)
      ensures fresh(o)
      ensures o.waveform == Sine && o.frequency == hz && o.outputs == {panner}
      ensures !o.started && !o.stopped
    {
      o := new OscillatorNode();
      o.SetType(Sine);
      o.SetFrequency(hz);
      o.Connect(panner);
    }

    /** Connects both panners to the gain node and the gain node to the destination. */
    method ConnectGraph()
      requires Valid() && audioContext != null && !isPlaying
      modifies gainNode, leftPanner, rightPanner
      ensures Valid() && GraphModel() == AppState.Some(AppState.Connect(old(GraphModel()).value))
    {
      leftPanner.Connect(gainNode);
      rightPanner.Connect(gainNode);
      gainNode.Connect(audioContext.destination);
    }

    /** handlePresetChange. */
    method HandlePresetChange(selected: string)
      requires Valid()
      modifies this
      ensures Valid() && Model() == AppState.HandlePresetChange(old(Model()), selected)
      ensures Nodes() == old(Nodes())
    {
      preset := selected;
      if selected != "" && selected in Presets.Table {
        leftFreq := Presets.Table[selected].left;
        rightFreq := Presets.Table[selected].right;
      }
    }

    /** The left frequency input's onChange. */
    method SetLeftFreq(hz: real)
      requires Valid()
      modifies this
      ensures Valid() && Model() == AppState.SetLeftFreq(old(Model()), hz)
      ensures Nodes() == old(Nodes())
    {
      leftFreq := hz;
    }

    /** The right frequency input's onChange. */
    method SetRightFreq(hz: real)
      requires Valid()
      modifies this
      ensures Valid() && Model() == AppState.SetRightFreq(old(Model()), hz)
      ensures Nodes() == old(Nodes())
    {
      rightFreq := hz;
    }

    /** The volume slider's onChange. */
    method SetVolume(level: real)
      requires Valid()
      modifies this
      ensures Valid() && Model() == AppState.SetVolume(old(Model()), level)
      ensures Nodes() == old(Nodes())
    {
      volume := level;
    }
  }

  /** A session as a user drives it: mount, choose Focus 10, press Play, press Stop. */
  method FocusTenSession()
  {
    var app := new App();
    app.InitAudio();
    app.RunEffects();
    assert !app.isPlaying && app.audioContext != null;
    app.HandlePresetChange(Presets.Focus10);
    assert app.leftFreq == 200.0 && app.rightFreq == 208.0;
    app.RunEffects();
    app.ToggleSound();
    app.RunEffects();
    assert app.isPlaying;
    var left, right := app.leftOsc, app.rightOsc;
    assert left.frequency == 200.0 && right.frequency == 208.0;
    assert left.started && left.waveform == Sine;
    app.ToggleSound();
    assert !app.isPlaying && app.leftOsc == null && app.rightOsc == null;
    assert left.stopped && right.stopped;
  }
}

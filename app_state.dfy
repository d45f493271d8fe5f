/**
 * The App component's behaviour on values: its state fields, the audio nodes
 * it holds (as records), and one function per event handler and per effect.
 * The class in module AppComponent is proved to follow these functions.
 */
module AppState {
  import opened AudioNodes
  import Presets

  datatype Option<T> = None | Some(value: T)

  datatype Side = Left | Right

  /** An OscillatorNode as seen by the component; routedTo names the panners it feeds. */
  datatype Oscillator = Oscillator(waveform: Waveform, frequency: real, started: bool, stopped: bool, routedTo: set<Side>)

  /** A PannerNode: its x position and whether it feeds the gain node. */
  datatype Panner = Panner(positionX: real, toGain: bool)

  /** The GainNode: its level and whether it feeds the context's destination. */
  datatype Gain = Gain(level: real, toDestination: bool)

  /** What the mount effect creates: the context with its gain node and both panners. */
  datatype Graph = Graph(gain: Gain, left: Panner, right: Panner)

  /**
   * The component's state. graph is None until the mount effect has run (the
   * audioContext, gainNode and panners state are then all null); leftOsc and
   * rightOsc are the two halves of the oscillators state.
   */
  datatype State = State(
    isPlaying: bool,
    leftFreq: real,
    rightFreq: real,
    volume: real,
    preset: string,
    graph: Option<Graph>,
    leftOsc: Option<Oscillator>,
    rightOsc: Option<Oscillator>)

  /** The user's inputs: the Play/Stop button, the preset menu and the three number inputs. */
  datatype Input =
    | TogglePressed
    | PresetSelected(name: string)
    | LeftFreqEntered(leftHz: real)
    | RightFreqEntered(rightHz: real)
    | VolumeEntered(level: real)

  const InitialFrequency: real := 440.0
  const InitialVolume: real := 0.5
  const LeftPannerX: real := -1.0
  const RightPannerX: real := 1.0

  /** The useState initial values: idle, no nodes, and the invariant already holds. */
  function Initial(): (s: State)
    ensures Inv(s) && InSync(s)
    ensures !s.isPlaying && s.graph.None? && s.leftOsc.None? && s.rightOsc.None?
  {
    State(false, InitialFrequency, InitialFrequency, InitialVolume, "", None, None, None)
  }

  /** The guard of toggleSound: context, gain node and both panners exist. */
  predicate Initialised(s: State)
  {
    s.graph.Some?
  }

  /** Both panners feed the gain node, and the gain node feeds the destination. */
  predicate Wired(g: Graph)
  {
    g.left.toGain && g.right.toGain && g.gain.toDestination
  }

  /** A sounding oscillator as toggleSound leaves it: a started sine feeding the panner of its side. */
  predicate Live(o: Oscillator, side: Side)
  {
    o.waveform == Sine && o.started && !o.stopped && o.routedTo == {side}
  }

  /** The fields the user edits. */
  predicate SameSettings(s: State, t: State)
  {
    s.leftFreq == t.leftFreq && s.rightFreq == t.rightFreq && s.volume == t.volume && s.preset == t.preset
  }

  /** The node parameters that only the mount effect and the volume effect write. */
  predicate SameLevels(g: Graph, h: Graph)
  {
    g.gain.level == h.gain.level && g.left.positionX == h.left.positionX && g.right.positionX == h.right.positionX
  }

  /**
   * The state invariant: isPlaying holds exactly when both oscillators exist;
   * a playing component has a wired graph and two live oscillators; the panners
   * stay where the mount effect put them.
   */
  predicate Inv(s: State)
  {
    && (s.isPlaying <==> s.leftOsc.Some?)
    && (s.isPlaying <==> s.rightOsc.Some?)
    && (s.isPlaying ==>
          && s.graph.Some? && Wired(s.graph.value)
          && Live(s.leftOsc.value, Left) && Live(s.rightOsc.value, Right))
    && (s.graph.Some? ==> s.graph.value.left.positionX == LeftPannerX && s.graph.value.right.positionX == RightPannerX)
  }

  /** The nodes reflect the state: the gain level is the volume, live oscillators carry the frequencies. */
  predicate InSync(s: State)
  {
    && (s.graph.Some? ==> s.graph.value.gain.level == s.volume)
    && (s.leftOsc.Some? && s.rightOsc.Some? ==>
          s.leftOsc.value.frequency == s.leftFreq && s.rightOsc.value.frequency == s.rightFreq)
  }

  /**
   * The mount effect: a gain node set to the current volume and two panners at
   * x = -1 and x = 1, nothing connected yet. React runs it once, before any
   * node exists.
   */
  function InitAudio(s: State): (t: State)
    requires s.graph.None?
    ensures Initialised(t)
    ensures !t.graph.value.gain.toDestination && !t.graph.value.left.toGain && !t.graph.value.right.toGain
    ensures t.graph.value.gain.level == s.volume
    ensures t.graph.value.left.positionX == LeftPannerX && t.graph.value.right.positionX == RightPannerX
    ensures t.(graph := None) == s
    ensures Inv(s) ==> Inv(t)
  {
    s.(graph := Some(Graph(Gain(s.volume, false), Panner(LeftPannerX, false), Panner(RightPannerX, false))))
  }

  /** The connections toggleSound makes when it starts playback. */
  function Connect(g: Graph): (h: Graph)
    ensures Wired(h) && SameLevels(g, h)
  {
    g.(gain := g.gain.(toDestination := true), left := g.left.(toGain := true), right := g.right.(toGain := true))
  }

  /**
   * toggleSound: without the nodes nothing happens; when playing, both
   * oscillators are dropped and playback stops; when idle, two started sines
   * tuned to the current frequencies are routed left and right and playback
   * starts.
   */
  function Toggle(s: State): (t: State)
    ensures !Initialised(s) ==> t == s
    ensures Initialised(s) ==> Initialised(t) && t.isPlaying == !s.isPlaying
    ensures Initialised(s) ==> SameLevels(s.graph.value, t.graph.value)
    ensures Initialised(s) && s.isPlaying ==> t.leftOsc.None? && t.rightOsc.None? && t.graph == s.graph
    ensures Initialised(s) && !s.isPlaying ==>
              && Wired(t.graph.value)
              && t.leftOsc.Some? && Live(t.leftOsc.value, Left) && t.leftOsc.value.frequency == s.leftFreq
              && t.rightOsc.Some? && Live(t.rightOsc.value, Right) && t.rightOsc.value.frequency == s.rightFreq
    ensures SameSettings(s, t)
    ensures Inv(s) ==> Inv(t)
    ensures InSync(s) ==> InSync(t)
  {
    if !Initialised(s) then s
    else if s.isPlaying then s.(isPlaying := false, leftOsc := None, rightOsc := None)
    else
      s.(isPlaying := true,
         graph := Some(Connect(s.graph.value)),
         leftOsc := Some(Oscillator(Sine, s.leftFreq, true, false, {Left})),
         rightOsc := Some(Oscillator(Sine, s.rightFreq, true, false, {Right})))
  }

  /**
   * handlePresetChange: the selection is always recorded; a non-empty name
   * found in the table also overwrites both frequencies.
   */
  function HandlePresetChange(s: State, selected: string): (t: State)
    ensures t.preset == selected
    ensures selected in Presets.Table ==>
              t.leftFreq == Presets.Table[selected].left && t.rightFreq == Presets.Table[selected].right
    ensures selected !in Presets.Table ==> t == s.(preset := selected)
    ensures t.(leftFreq := s.leftFreq, rightFreq := s.rightFreq, preset := s.preset) == s
    ensures Inv(s) ==> Inv(t)
  {
    if selected != "" && selected in Presets.Table then
      s.(preset := selected, leftFreq := Presets.Table[selected].left, rightFreq := Presets.Table[selected].right)
    else
      s.(preset := selected)
  }

  /** The left number input: the value is stored as entered, with no clamping to 1..999. */
  function SetLeftFreq(s: State, hz: real): (t: State)
    ensures t.leftFreq == hz && t.(leftFreq := s.leftFreq) == s
    ensures Inv(s) ==> Inv(t)
  {
    s.(leftFreq := hz)
  }

  /** The right number input: the value is stored as entered, with no clamping to 1..999. */
  function SetRightFreq(s: State, hz: real): (t: State)
    ensures t.rightFreq == hz && t.(rightFreq := s.rightFreq) == s
    ensures Inv(s) ==> Inv(t)
  {
    s.(rightFreq := hz)
  }

  /** The volume slider: the value is stored as entered, with no clamping to 0..1. */
  function SetVolume(s: State, level: real): (t: State)
    ensures t.volume == level && t.(volume := s.volume) == s
    ensures Inv(s) ==> Inv(t)
  {
    s.(volume := level)
  }

  /** The volume effect: writes the volume into the gain node when it exists, and nothing otherwise. */
  function SyncVolume(s: State): (t: State)
    ensures Initialised(s) ==> Initialised(t) && t.graph.value.gain.level == s.volume
    ensures Initialised(s) ==> t.graph.value == s.graph.value.(gain := s.graph.value.gain.(level := s.volume))
    ensures !Initialised(s) ==> t == s
    ensures t.(graph := s.graph) == s
    ensures Inv(s) ==> Inv(t)
  {
    if s.graph.Some? then
      var g := s.graph.value;
      s.(graph := Some(g.(gain := g.gain.(level := s.volume))))
    else s
  }

  /**
   * The frequency effect: when both oscillators and the context exist, retunes
   * them to the current frequencies; otherwise writes nothing.
   */
  function SyncFrequencies(s: State): (t: State)
    ensures s.leftOsc.Some? && s.rightOsc.Some? && Initialised(s) ==>
              && t.leftOsc == Some(s.leftOsc.value.(frequency := s.leftFreq))
              && t.rightOsc == Some(s.rightOsc.value.(frequency := s.rightFreq))
    ensures !(s.leftOsc.Some? && s.rightOsc.Some? && Initialised(s)) ==> t == s
    ensures t.(leftOsc := s.leftOsc, rightOsc := s.rightOsc) == s
    ensures Inv(s) ==> Inv(t)
  {
    if s.leftOsc.Some? && s.rightOsc.Some? && s.graph.Some? then
      s.(leftOsc := Some(s.leftOsc.value.(frequency := s.leftFreq)),
         rightOsc := Some(s.rightOsc.value.(frequency := s.rightFreq)))
    else s
  }

  /** Both effects, in their declaration order, after a render. */
  function RunEffects(s: State): (t: State)
    ensures Inv(s) ==> Inv(t) && InSync(t)
    ensures SameSettings(s, t) && t.isPlaying == s.isPlaying
  {
    SyncFrequencies(SyncVolume(s))
  }

  /** The handler an input triggers. */
  function Handle(s: State, i: Input): State
  {
    match i
    case TogglePressed => Toggle(s)
    case PresetSelected(name) => HandlePresetChange(s, name)
    case LeftFreqEntered(hz) => SetLeftFreq(s, hz)
    case RightFreqEntered(hz) => SetRightFreq(s, hz)
    case VolumeEntered(level) => SetVolume(s, level)
  }

  /** One input followed by the re-render's effects. */
  function Commit(s: State, i: Input): (t: State)
    ensures Inv(s) ==> Inv(t) && InSync(t)
  {
    RunEffects(Handle(s, i))
  }

  /** A sequence of inputs, each committed in turn. */
  function Run(s: State, inputs: seq<Input>): State
    decreases |inputs|
  {
    if inputs == [] then s else Run(Commit(s, inputs[0]), inputs[1..])
  }

  /** The state after mount: the mount effect, then the effects of the re-render it causes. */
  function Mounted(): State
  {
    RunEffects(InitAudio(Initial()))
  }

  /** After mount: idle, no oscillators, nodes present but unwired, gain at the initial volume 0.5. */
  lemma MountedState()
    ensures var m := Mounted();
      && Inv(m) && InSync(m)
      && !m.isPlaying && m.leftOsc.None? && m.rightOsc.None?
      && Initialised(m)
      && !m.graph.value.gain.toDestination && !m.graph.value.left.toGain && !m.graph.value.right.toGain
      && m.graph.value.left.positionX == -1.0 && m.graph.value.right.positionX == 1.0
      && m.graph.value.gain.level == 0.5
      && m.leftFreq == 440.0 && m.rightFreq == 440.0 && m.preset == ""
  {
  }

  /** Toggling before the mount effect has run changes nothing. */
  lemma ToggleBeforeMount()
    ensures Toggle(Initial()) == Initial()
  {
  }

  /**
   * Two toggles from Idle return to Idle with no oscillators and the settings
   * untouched; once the graph has been wired by an earlier start, the state is
   * exactly the one before.
   */
  lemma ToggleTwiceFromIdle(s: State)
    requires Inv(s) && !s.isPlaying
    ensures var u := Toggle(Toggle(s));
      && !u.isPlaying && u.leftOsc.None? && u.rightOsc.None?
      && SameSettings(s, u) && Initialised(u) == Initialised(s)
    ensures Initialised(s) && Wired(s.graph.value) ==> Toggle(Toggle(s)) == s
  {
  }

  /**
   * Two toggles from Playing give back the same state: the new oscillators are
   * the same sines, on the same sides, at the same frequencies.
   */
  lemma ToggleTwiceFromPlaying(s: State)
    requires Inv(s) && InSync(s) && s.isPlaying
    ensures Toggle(Toggle(s)) == s
  {
  }

  /** Selecting the Focus 10 preset tunes the tones to 200 Hz and 208 Hz. */
  lemma FocusTenPreset(s: State)
    ensures var t := HandlePresetChange(s, Presets.Focus10);
      t.leftFreq == 200.0 && t.rightFreq == 208.0 && t.preset == Presets.Focus10
  {
  }

  /** Selecting Custom (the empty value) records it and changes nothing else. */
  lemma CustomKeepsFrequencies(s: State)
    ensures HandlePresetChange(s, "") == s.(preset := "")
  {
  }

  /** While playing, a preset selection retunes the sounding oscillators once the effects run. */
  lemma PresetRetunesLiveTones(s: State, name: string)
    requires Inv(s) && s.isPlaying && name in Presets.Table
    ensures var t := Commit(s, PresetSelected(name));
      && t.isPlaying
      && t.leftOsc.Some? && t.leftOsc.value.frequency == Presets.Table[name].left
      && t.rightOsc.Some? && t.rightOsc.value.frequency == Presets.Table[name].right
  {
  }

  /** Only the Play/Stop button starts or stops playback, creates or drops oscillators. */
  lemma OnlyToggleChangesPlayback(s: State, i: Input)
    requires !i.TogglePressed?
    ensures var t := Commit(s, i);
      t.isPlaying == s.isPlaying && t.leftOsc.Some? == s.leftOsc.Some? && t.rightOsc.Some? == s.rightOsc.Some?
  {
  }

  /**
   * Both effects are no-ops on a valid, in-sync state.
   */
  lemma EffectsIdleWhenInSync(s: State)
    requires Inv(s) && InSync(s)
    ensures RunEffects(s) == s
  {
  }

  /**
   * The volume effect writes nothing new when the gain already carries the
   * volume. That this holds whenever React would skip the effect is argued in
   * README.md, not proved.
   */
  lemma SyncVolumeIdleWhenLevelMatches(s: State)
    requires s.graph.Some? ==> s.graph.value.gain.level == s.volume
    ensures SyncVolume(s) == s
  {
  }

  /**
   * The frequency effect writes nothing new when both oscillators already
   * carry the frequencies. That this holds whenever React would skip the
   * effect is argued in README.md, not proved.
   */
  lemma SyncFrequenciesIdleWhenTuned(s: State)
    requires s.leftOsc.Some? && s.rightOsc.Some? ==>
               s.leftOsc.value.frequency == s.leftFreq && s.rightOsc.value.frequency == s.rightFreq
    ensures SyncFrequencies(s) == s
  {
  }

  /** Every sequence of inputs keeps the invariant and keeps the nodes in step with the state. */
  lemma {:induction false} RunKeepsInvariant(s: State, inputs: seq<Input>)
    requires Inv(s) && InSync(s)
    ensures Inv(Run(s, inputs)) && InSync(Run(s, inputs))
    decreases |inputs|
  {
    if inputs != [] {
      RunKeepsInvariant(Commit(s, inputs[0]), inputs[1..]);
    }
  }

  /** Every state the component can reach after mount satisfies the invariant. */
  lemma ReachableStatesValid(inputs: seq<Input>)
    ensures Inv(Run(Mounted(), inputs)) && InSync(Run(Mounted(), inputs))
  {
    MountedState();
    RunKeepsInvariant(Mounted(), inputs);
  }
}

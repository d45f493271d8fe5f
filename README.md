# Hemi-Sync player: playback and preset controller

This project models the controller inside the `App` component of a small
binaural-beat player. The controller holds two tone frequencies, a volume, the
name of the selected preset and an `isPlaying` flag. When the component mounts,
it creates an audio context, a gain node and two panners, one at x = -1 and one
at x = 1. The Play/Stop button then does one of two things:

- it creates two sine oscillators, one per panner, and routes panners → gain →
  destination;
- or it stops the two oscillators and drops them.

Choosing a preset copies that preset's two frequencies from a fixed table. Two
effects keep the nodes in step with the state: the gain level follows the
volume, and the live oscillators follow the frequencies.

The model has two layers:

- `AppState` (app_state.dfy) describes the component on values. The `State`
  datatype holds the state variables and the nodes as records, with one function
  per handler and per effect. It defines the invariant `Inv`: `isPlaying` holds
  exactly when both oscillators exist; a playing component has a wired graph and
  two live sines, each on its own side; and the panners stay where they were put.
  It also defines `InSync`: the nodes reflect the state. Lemmas prove the
  properties of toggling, preset selection and the effects. `Run` describes any
  sequence of user inputs, and a lemma proves that the invariant holds over every
  such sequence.
- `AppComponent.App` (app_component.dfy) is the component as an object. Its
  fields are the state variables, and its nodes are objects of `AudioNodes`
  (audio_nodes.dfy), which are abstract records of the Web Audio nodes. Each
  handler and effect method is proved to change the object exactly as the
  corresponding `AppState` function changes the value
  (`Model() == AppState.X(old(Model()))`). There are some exceptions:
  - `ToggleSound` and its two branch methods, `StopOscillators` and
    `StartOscillators`, follow `AppState.Toggle`.
  - `ConnectGraph` follows `AppState.Connect` on the graph part of the model
    only.
  - `CreateTone` is a static helper that builds one oscillator and has no
    `AppState` counterpart.
  `ToggleSound` additionally proves three things: the old oscillators are stopped
  before they are dropped, new oscillators are fresh objects, and `start()` and
  `stop()` are never called in a state where Web Audio would throw
  `InvalidStateError`.
- `Presets` (presets.dfy) is the preset table.
- `AppComponent.FocusTenSession` is a client scenario with no contract of its
  own. It mounts the component, selects Focus 10, presses Play and then Stop,
  and asserts what the method contracts above let a caller conclude: the
  oscillators sound at 200/208 Hz and are stopped afterwards.

Frequencies and volume are `real`s. They are only stored and copied, never
computed on. The number inputs' `min`/`max` attributes are not enforced by their
handlers, so the model does not clamp.

Behaviour of the code worth noting:

- The handlers do not clamp values.
- A preset entry holds `left`, `right` and `diff`. The handler uses only `left` and `right`; `diff` is never read.
- Selecting a name that is not in the table is not a no-op: the handler still
  records the name in `preset`.
- Starting playback cannot fail.

## Model

| member | source | states |
|---|---|---|
| AppState.Initial | src/App.js:13-21 | the useState initial values: idle, no nodes and no oscillators. The invariant and the sync already hold |
| AppState.InitAudio | src/App.js:24-37 | the mount effect creates the context, gain and both panners. The gain is at the current volume and the panners sit at x = -1 and x = 1. None of the three connections exists yet. Only the node state changes, and the invariant is kept |
| AppState.Toggle | src/App.js:58-84 | without context, gain and both panners, nothing changes. Otherwise `isPlaying` flips. Stopping drops both oscillators and leaves the graph alone. Starting yields two live (started, not stopped) sines at `leftFreq`/`rightFreq`, routed to the left and right panner, with both panners connected to gain and gain to the destination. The settings, gain level and panner positions are unchanged. The invariant is kept, and the nodes stay in sync |
| AppState.Connect | src/App.js:75-77 | after the connections, both panners feed the gain node and the gain node feeds the destination. No level or position changes |
| AppState.HandlePresetChange | src/App.js:87-94 | the selection is always recorded. A name in the table sets both frequencies to that entry's left/right. Any other name, including "" (Custom), changes only `preset`. Nothing besides `preset` and the two frequencies changes |
| AppState.SetLeftFreq | src/App.js:117 | the entered value is stored exactly (no clamping to 1..999), and nothing else changes |
| AppState.SetRightFreq | src/App.js:127 | the entered value is stored exactly (no clamping to 1..999), and nothing else changes |
| AppState.SetVolume | src/App.js:137 | the entered value is stored exactly (no clamping to 0..1), and nothing else changes |
| AppState.SyncVolume | src/App.js:43-47 | when the nodes exist, the gain level becomes `volume` and only that parameter is written. Otherwise the state is unchanged |
| AppState.SyncFrequencies | src/App.js:50-55 | when both oscillators and the context exist, their frequencies become `leftFreq`/`rightFreq` and nothing else is written. When either is missing, nothing is written |
| AppState.RunEffects | src/App.js:42-55 | after both effects, the nodes reflect the state (gain level = volume, oscillators at the frequencies). Settings and `isPlaying` are untouched |
| AppState.Commit | src/App.js:42-94 | after any input and the effects that follow it, the invariant holds and the nodes are in sync |
| AppState.MountedState | src/App.js:13-47 | after mount, the component is idle with no oscillators. The nodes exist, none of them is connected, the panners are at -1/+1, the gain is at the initial volume 0.5, the frequencies are 440/440 and the preset is Custom |
| AppState.ToggleBeforeMount | src/App.js:59 | pressing Play before the mount effect has run changes nothing |
| AppState.ToggleTwiceFromIdle | src/App.js:58-84 | two toggles from Idle end Idle with no oscillators and the same settings. Once the graph is wired, the state is exactly the starting one |
| AppState.ToggleTwiceFromPlaying | src/App.js:58-84 | two toggles from an in-sync Playing state give back exactly that state |
| AppState.FocusTenPreset | src/App.js:87-93 | selecting "Focus 10 (Mind Awake, Body Asleep)" (the entry at line 6) gives 200 Hz left and 208 Hz right |
| AppState.CustomKeepsFrequencies | src/App.js:89-90 | selecting "" records it and changes nothing else |
| AppState.PresetRetunesLiveTones | src/App.js:50-93 | while playing, a preset selection followed by the effects retunes the sounding oscillators to the preset's frequencies |
| AppState.OnlyToggleChangesPlayback | src/App.js:58-137 | no input other than Play/Stop changes `isPlaying` or creates or drops an oscillator |
| AppState.EffectsIdleWhenInSync | src/App.js:42-55 | both effects together write nothing new when the nodes already reflect the state |
| AppState.SyncVolumeIdleWhenLevelMatches | src/App.js:43-47 | the volume effect writes nothing new when the gain already carries the volume |
| AppState.SyncFrequenciesIdleWhenTuned | src/App.js:50-55 | the frequency effect writes nothing new when both oscillators already carry the two frequencies |
| AppState.RunKeepsInvariant | src/App.js:12-94 | every sequence of inputs from a valid, in-sync state keeps the invariant (`isPlaying` ⇔ both oscillators present, etc.) and the sync (proof by induction over the sequence) |
| AppState.ReachableStatesValid | src/App.js:12-94 | every state reachable from mount satisfies the invariant and is in sync |
| Presets.TableKeys | src/App.js:5-10 | the table has exactly the four named presets, and "" is not among them |
| Presets.DiffIsBeat | src/App.js:5-10 | in every preset, the recorded diff equals right - left, and left < right |
| AppComponent.App.constructor | src/App.js:13-21 | the useState initial values: idle, 440/440 Hz, volume 0.5, Custom, no nodes |
| AppComponent.App.InitAudio | src/App.js:24-37 | follows `AppState.InitAudio`. The four nodes are fresh objects |
| AppComponent.App.SyncVolume | src/App.js:43-47 | follows `AppState.SyncVolume` and writes only the gain node |
| AppComponent.App.SyncFrequencies | src/App.js:50-55 | follows `AppState.SyncFrequencies` and writes only the two oscillators |
| AppComponent.App.RunEffects | src/App.js:42-55 | follows `AppState.RunEffects` |
| AppComponent.App.ToggleSound | src/App.js:58-84 | follows `AppState.Toggle` and keeps the same context, gain and panner objects. When stopping, the old oscillators have been `stop()`ped. When starting, the new oscillators are fresh |
| AppComponent.App.StopOscillators | src/App.js:61-65 | the Playing branch: both oscillators are stopped, the references are cleared and `isPlaying` becomes false |
| AppComponent.App.StartOscillators | src/App.js:66-83 | the Idle branch: two fresh started sines are connected through the panners and gain to the destination, and `isPlaying` becomes true |
| AppComponent.App.CreateTone | src/App.js:67-74 | a fresh oscillator of type sine at the given frequency, connected to the given panner, not yet started |
| AppComponent.App.ConnectGraph | src/App.js:75-77 | both panners connected to gain and gain to the destination, as `AppState.Connect` says |
| AppComponent.App.HandlePresetChange | src/App.js:87-94 | follows `AppState.HandlePresetChange`. No node reference or node changes |
| AppComponent.App.SetLeftFreq | src/App.js:117 | follows `AppState.SetLeftFreq` |
| AppComponent.App.SetRightFreq | src/App.js:127 | follows `AppState.SetRightFreq` |
| AppComponent.App.SetVolume | src/App.js:137 | follows `AppState.SetVolume` |

## Left out

- The JSX markup (src/App.js:96-144) is UI. Only the handlers' effect on state is modelled.
- The cleanup `ctx.close()` (src/App.js:39) runs at unmount and is not modelled.
- `setValueAtTime` timing against `currentTime` is modelled as an immediate write.
- The panners' `panningModel` and `distanceModel` settings (src/App.js:30-31) are Web Audio rendering options and are not modelled.
- Real Web Audio connection and audio rendering are not modelled. `connect`, `start` and `stop` are field updates on the abstract node records of `AudioNodes`.
- `Number(e.target.value)` parsing (src/App.js:117, 127, 137) is not modelled: the handlers receive the number directly. A `type="number"` input reports unparsable text as an empty value, so an empty or unparsable entry reaches the handler as 0. The model takes the number as given.
- React's scheduling is not modelled. This covers batching of setters, re-renders, effect dependency tracking and StrictMode double invocation. The handlers and effects are explicit operations, and `AppState.Commit` runs both effects after each input.
  - React runs each effect on its own, only when one of that effect's own dependencies changed.
  - Running an effect anyway changes nothing as long as its nodes already match the state: `AppState.SyncVolumeIdleWhenLevelMatches` proves this for the volume effect, and `AppState.SyncFrequenciesIdleWhenTuned` for the frequency effect.
  - The model does not prove that its nodes match whenever React would skip the effect. That argument is as follows. Only the mount effect and the volume effect write the gain level. The mount effect writes the current volume and also sets `gainNode`, a dependency of the volume effect, so the volume effect runs straight after it. Only the frequency effect, and `toggleSound` when it creates the oscillators (which also changes that effect's dependency), write oscillator frequencies.
- The lookup `presets[selected]` is modelled as a lookup of the table's own keys. Names inherited from `Object.prototype` (such as "toString") are not modelled. The `<select>` only offers "" and the table's keys.
- The options order of `Object.keys(presets)` (src/App.js:105) only affects the menu layout and is not modelled.
- AppState.Toggle: the value model drops stopped oscillators instead of keeping them as stopped records. That they are stopped is stated by `AppComponent.App.ToggleSound` about the node objects.
- src/sketch.js is not part of this model. It renders p5 particles from random velocities and sine amplitudes and contains no audio logic.

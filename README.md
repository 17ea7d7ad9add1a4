# Audio-driven waveform: a Dafny model

The system plays a song and draws a set of concentric, audio-reactive closed
polygons. Three pieces of its logic are modelled here:

- **The waveform component** (`WaveFrame.tsx`, module `Waveform`). Band
  amplitudes `{low, mid, high}` start at `{1, 1, 1}`. Each animation frame
  smooths them towards fresh readings with factor 0.2. Each layer's path is one
  `M`/`L` command per point and then `Z`. A point's radius is built from the
  band energies by two linear maps (three.js `mapLinear`), an offset gain, a
  spike factor and a layer-dependent sine modulation. Layer `k` is drawn with
  base radius `radius + 5k`. A beat timer increments a counter, and each new
  beat picks one of five colours.
- **The beat clock** (`BPMManager.ts`, module `BeatClock`). A class holding a
  tempo, its interval `60000 / bpm`, the id of the repeating timer and a sound
  handle. It delegates listener registration and `beat` dispatch to a DOM
  `EventTarget` (module `EventTargets`). That module follows the "add an event
  listener" and "remove an event listener" algorithms of section 2.7
  (Interface EventTarget) of the WHATWG DOM Standard.
- **The audio manager** (`AudioManager.ts`, module `Playback`). A class with a
  sound handle, an `isPlaying` flag and three-band frequency data. Each
  operation updates these fields only under its guard.

Modelling choices:

- Arithmetic is over `real`.
- `Math.sin`, `Math.cos` and `Math.PI` are uninterpreted. They are passed in as
  the fields of a `Trig` value.
- Each `Math.random()` draw becomes a parameter constrained to [0, 1).
- An expo-av `Sound` becomes a value with `isLoaded`, `isPlaying` and
  `isLooping` flags (module `SoundHandle`).
- Whether each awaited expo-av call resolves or rejects is a boolean parameter
  of the method that awaits it. A rejection ends the method at that point, as
  the source's `try`/`catch` or uncaught rejection does.
- Timers are ids in a map of running timers, each with its period. A timer
  tick becomes an explicit call of the callback (`UpdateBPM`, `Tick`).
- The event listener list is an ordered sequence without duplicates. Its set
  of (type, listener) pairs is the membership of that sequence.

Facts about the code that the model keeps as written:

- Nothing clamps the amplitudes to [0, 1] or replaces non-finite values. Bands
  stay in [0, 1] only because the start value is `{1, 1, 1}` and the readings
  lie in [0, 1) (`Waveform.RunStaysInUnit`).
- `setBPM` does not validate its argument. The model requires only
  `bpm != 0`, because Dafny cannot divide by zero. A positive `bpm` gives a
  positive interval (`BeatClock.IntervalFor`).
- A failed `detectBPM` leaves the clock as it was: the tempo, the interval and
  the timer are unchanged.
- The manager has no explicit state; only `intervalId` and the timer table
  record whether a beat runs. `unload` does not reset `intervalId`.
- With all energies zero the spike factor is not zero. It is
  `-8 - 20 sin(i/10)` (`Waveform.ZeroEnergySpike`). Layer 0 is a circle
  because its factor `layer / 6` is zero (`Waveform.Layer0IsCircle`).

One consequence of the code as written is proved rather than corrected.
`unloadAudio` does not clear `isPlaying`. After unloading while playing, the
manager still reports playing with no sound (`Playback.UnloadWhilePlaying`).
If a new sound is then loaded, `play` refuses to start it
(`Playback.ReloadAfterUnload`). The predicate `Playback.AudioManager.Coherent`
("playing implies a playing sound is held") is kept by `play`, `pause` and
`stop`. It is broken by `unloadAudio` and `loadAudioBuffer`.

## Model

| member | source | states |
|---|---|---|
| `Waveform.SmoothValue` | WaveFrame.tsx:82-84 | the result moves `current` towards `target` by exactly `factor` of the gap; for a factor in [0,1] it lies between the two inputs; factor 0 gives `current`, factor 1 gives `target`, equal inputs are a fixed point |
| `Waveform.Smooth` | WaveFrame.tsx:92-96 | each band of the new amplitude lies between its old value and its raw reading, and its distance to the reading is exactly 0.8 of the old distance |
| `Waveform.SmoothTowardContracts` | WaveFrame.tsx:82-96 | after `n` steps towards a constant reading the distance is exactly `0.8^n` times the initial distance; the value never overshoots and each step lands between the previous value and the target |
| `Waveform.RunBandwise` | WaveFrame.tsx:92-96 | over any sequence of readings, band `k` of the amplitude depends only on band `k` of the start value and of the readings (bands are updated independently) |
| `Waveform.RunStaysInUnit` | WaveFrame.tsx:89-96 | from an amplitude in [0,1], any number of steps with readings in [0,1) keeps every band in [0,1] |
| `Waveform.MapLinear` | WaveFrame.tsx:117-119 | `mapLinear` sends the domain endpoints to the range endpoints, and for an increasing domain and a nondecreasing range it sends every point of the domain into the range |
| `Waveform.MappedHigh` | WaveFrame.tsx:117 | `high` 0 maps to -0.1, 0.6 maps to 0.2, and [0, 0.6] maps into [-0.1, 0.2] |
| `Waveform.MappedLow` | WaveFrame.tsx:119 | `low` 0.6 maps to 0.2, 1 maps to 0.5, and [0.6, 1] maps into [0.2, 0.5] |
| `Waveform.Fraction` | WaveFrame.tsx:116 | `i / points`, the share of a turn at point `i`, lies in [0, 1) and is 0 at the first point |
| `Waveform.Angle` | WaveFrame.tsx:116 | `(i / points) * 2 * PI`; the first point sits at angle 0 |
| `Waveform.OffsetGain` | WaveFrame.tsx:118 | `mid * 0.6`: zero for a zero mid energy, and in [0, 0.6] for a mid energy in [0, 1] |
| `Waveform.SpikeFactor` | WaveFrame.tsx:120 | `(mappedHigh + offsetGain + mappedLow * sin(i / 10)) * 80`; where `sin(i / 10)` is zero only the high and mid terms remain. Its zero-energy value is `Waveform.ZeroEnergySpike` |
| `Waveform.ModRadius` | WaveFrame.tsx:121 | `radius + (layer / 6) * spikeFactor * sin(frequency * (i / points) * 3 * PI)`; it is the base radius on layer 0 (see `Waveform.Layer0IsCircle`), where the spike factor is zero, and where the modulating sine is zero |
| `Waveform.Vertex` | WaveFrame.tsx:123-125 | point `i` is a move exactly when `i == 0` and a line otherwise, never a close, to `(modRadius * cos(angle), modRadius * sin(angle))` |
| `Waveform.ZeroEnergySpike` | WaveFrame.tsx:117-120 | with all energies zero the spike factor is `-8 - 20 sin(i/10)` |
| `Waveform.Layer0IsCircle` | WaveFrame.tsx:121-124 | for layer 0 the modulated radius is the base radius at every point, whatever the amplitudes, so the vertex is `(radius cos angle, radius sin angle)` |
| `Waveform.Path` | WaveFrame.tsx:113-128 | a path has `points + 1` commands: command `i` is point `i`'s vertex, a move for the first point and a line for points 1 to `points - 1`, and the closing command is last; with no points it is just the closing command |
| `Waveform.GeneratePath` | WaveFrame.tsx:113-128 | the loop's pushes build exactly `Path`: command `i` is point `i`'s vertex and the last is the closing command |
| `Waveform.LayerRadiiIncrease` | WaveFrame.tsx:141 | layer 0 has the nominal radius, and base radii strictly increase with the layer index, 5 units per layer |
| `Waveform.RenderLayers` | WaveFrame.tsx:138-146 | exactly `layers` paths are produced, and path `k` is layer `k`'s path with base radius `radius + 5k` |
| `Waveform.ColorIndex` | WaveFrame.tsx:36 | for a draw in [0,1) the index is `floor(r * 5)`, which lies in [0,4] |
| `Waveform.GetRandomColor` | WaveFrame.tsx:34-37 | the colour is always one of the five listed, the one at the drawn index |
| `Waveform.EveryColorReachable` | WaveFrame.tsx:35-36 | colour `k` is picked by every draw in [k/5, (k+1)/5) |
| `Waveform.Waveframe.constructor` | WaveFrame.tsx:16-26 | the props default to frequency 12, 30 points, 12 layers, radius 100 and colour `limegreen`; the amplitude starts at `{1,1,1}`, the beat count at 0 and the colour at the `color` prop |
| `Waveform.Waveframe.UpdateWaveform` | WaveFrame.tsx:87-97 | the new amplitude is `Smooth` of the old one and the draws, every band stays in [0,1], and the beat and colour are unchanged |
| `Waveform.Waveframe.Tick` | WaveFrame.tsx:54-56 | each beat tick increments the beat count by exactly one |
| `Waveform.Waveframe.Recolor` | WaveFrame.tsx:76-79 | the effect on a beat change sets the colour to the one drawn, a listed colour; React also runs this effect once on mount, so the `color` prop is replaced right after the first render |
| `Waveform.MountInApp` | App.tsx:29 | mounting with only `color` given leaves the other props at their defaults (12, 30, 12, 100), the amplitude at `{1,1,1}` and the beat count at 0, and the on-mount colour effect replaces the colour with a random draw |
| `Waveform.Waveframe.Render` | WaveFrame.tsx:131-147 | the component renders one path per layer from its current amplitude |
| `EventTargets.AddListener` | BPMManager.ts:65-67 | after adding, the pair is registered, nothing else new is, earlier entries keep their order, and no duplicate arises |
| `EventTargets.RemoveListener` | BPMManager.ts:74-76 | after removing, the pair is no longer registered, every other pair still is, and removing an unregistered pair changes nothing |
| `EventTargets.Dispatch` | BPMManager.ts:34-37 | an event reaches exactly the listeners registered for its type, each once |
| `EventTargets.AddIdempotent` | BPMManager.ts:65-67 | adding the same (type, listener) pair twice is the same as adding it once |
| `EventTargets.AddThenRemove` | BPMManager.ts:65-76 | removing a pair just added for the first time restores the previous list |
| `EventTargets.AddedTwiceDispatchedOnce` | BPMManager.ts:34-67 | a listener added twice for a type is invoked exactly once per event of that type |
| `BeatClock.IntervalFor` | BPMManager.ts:24 | the interval times the tempo is 60000 ms, and the interval is positive exactly when the tempo is |
| `BeatClock.PlaceholderInterval` | BPMManager.ts:51-52 | the placeholder tempo 120 gives the 500 ms interval |
| `BeatClock.BPMManager.constructor` | BPMManager.ts:10-16 | interval 500, no timer id, tempo 0, no sound, no listeners, no running timer |
| `BeatClock.BPMManager.SetBPM` | BPMManager.ts:22-29 | the tempo and its interval are recorded, the previous timer is cleared, and exactly one timer runs afterwards, at the new interval, under a fresh id that `intervalId` names |
| `BeatClock.BPMManager.UpdateBPM` | BPMManager.ts:34-37 | one `beat` event is delivered, in registration order, to every listener registered for `beat` and to each exactly once |
| `BeatClock.BPMManager.DetectBPM` | BPMManager.ts:43-58 | on success the sound is kept and the placeholder tempo is set (tempo 120, interval 500, one new timer); if loading fails, nothing changes; if starting playback fails, only the sound changes |
| `BeatClock.BPMManager.AddEventListener` | BPMManager.ts:65-67 | the registry becomes `AddListener` of the old one |
| `BeatClock.BPMManager.RemoveEventListener` | BPMManager.ts:74-76 | the registry becomes `RemoveListener` of the old one |
| `BeatClock.BPMManager.Unload` | BPMManager.ts:81-88 | a held sound is unloaded and then no timer runs; if unloading rejects, no timer is cleared; the tempo, interval and `intervalId` never change |
| `BeatClock.BeatScenario` | BPMManager.ts:22-88 | a listener added twice gets exactly one `beat` per tick at the 500 ms interval of tempo 120, and after `unload` no timer runs |
| `Playback.AudioManager.constructor` | AudioManager.ts:10-16 | frequency data `{0,0,0}`, not playing, no sound, cutoffs 10/150/9000 |
| `Playback.AudioManager.LoadAudioBuffer` | AudioManager.ts:20-29 | a new handle replaces the old one; it is loaded only if loading resolved and looping only if that resolved too |
| `Playback.AudioManager.Play` | AudioManager.ts:32-42 | `isPlaying` becomes true only for a present, loaded sound that is not already playing; otherwise nothing changes, and calling it while playing is a no-op |
| `Playback.AudioManager.Pause` | AudioManager.ts:46-51 | takes effect only on a present sound while playing, and then clears `isPlaying`; otherwise nothing changes |
| `Playback.AudioManager.Stop` | AudioManager.ts:54-59 | the same guard and effect as `Pause` |
| `Playback.AudioManager.AnalyzeAmplitude` | AudioManager.ts:62-71 | with no sound or not playing the data is unchanged; otherwise all three bands are replaced at once by values in [0,1) |
| `Playback.AudioManager.Update` | AudioManager.ts:74-78 | the data changes only while playing with a sound present, exactly as `AnalyzeAmplitude` changes it |
| `Playback.AudioManager.UnloadAudio` | AudioManager.ts:81-86 | a present sound is dropped once unloading resolves; `isPlaying` is left as it was |
| `Playback.UnloadWhilePlaying` | AudioManager.ts:32-86 | after unloading while playing, the flag still says playing, no sound is held, and later `play` and analysis calls leave the data frozen |
| `Playback.ReloadAfterUnload` | AudioManager.ts:20-86 | unloading while playing and loading a new sound leaves `isPlaying` true for a sound that never started, and `play` does not start it |

## Left out

- The application shell, JSX/SVG markup, `viewBox`, styles and `Dimensions` (`App.tsx` apart from the mount at line 29, and `WaveFrame.tsx:30-31, 131-137, 142-157`): these are rendering only. The layer map at `WaveFrame.tsx:138-141` is modelled by `Waveform.RenderLayers`.
- The text form of a path: the number formatting of coordinates (`WaveFrame.tsx:125`) and the final `join(' ')` (`WaveFrame.tsx:128`). A command is a (kind, x, y) value.
- Floating point: rounding, NaN and Infinity are not modelled. Arithmetic is exact over `real`.
- `sin`, `cos` and `PI` are uninterpreted, so no property that depends on their values is stated.
- React state and effect plumbing: `useState`, `useEffect`, `useRef`, `requestAnimationFrame` and `cancelAnimationFrame`. A frame, a beat tick and the colour effect are explicit method calls.
- The `initializeAudio` effect (`WaveFrame.tsx:40-73`) is left out. It creates and plays a sound and starts the 500 ms beat timer. Its cleanup function is returned from inside the async function, so React never receives it.
- The timing of repeating timers: when ticks fire, jitter, and how the host clamps a non-positive delay. A timer is an id with its requested period.
- `BeatClock.BPMManager.SetBPM`: requires `bpm != 0`. The source divides by zero there and gets an infinite interval, which `real` cannot represent.
- `Math.random()` is not modelled (`WaveFrame.tsx:36, 89-91`, `AudioManager.ts:67-69`). Each draw is a parameter constrained to [0, 1).
- The expo-av calls are not modelled beyond their effect on the handle's flags and whether they resolve or reject. The unused `status` of `createAsync` is dropped, and so is the playback position that `stopAsync` resets.
- `AudioManager.audioBuffer` and `song` are left out. The first is never assigned; the second is an asset reference.
- `loadAudioBuffer`'s audio decoding is left out. Only its bookkeeping on `audio` is modelled.
- Console logging is left out.
- Object identity of sound handles is not modelled. The handles held by the two managers are separate values, so no aliasing between them arises.
- Re-entrancy during dispatch is not modelled: a listener that adds or removes listeners while an event is being dispatched. Listeners are opaque ids without behaviour.
- Interleaving of asynchronous calls: each async method runs to completion, with no other call interleaved at its `await` points. For example, a `pause` while `play` awaits `playAsync`, or a beat tick while `unload` awaits `unloadAsync`, is not modelled.

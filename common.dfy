/** Small value types shared by the three components. */

module Optional {
  /** A value that may be absent; stands for a nullable field. */
  datatype Option<T> = None | Some(value: T)
}

module Bands {
  /** Three band energies: the `{ low, mid, high }` record of both the
      waveform's amplitude and the audio manager's frequency data. */
  datatype Bands = Bands(low: real, mid: real, high: real)

  /** Names of the three bands, so that a property can be stated once for all. */
  datatype Band = Low | Mid | High

  function Get(b: Bands, k: Band): real
  {
    match k
    case Low => b.low
    case Mid => b.mid
    case High => b.high
  }

  /** Every band lies in the closed unit interval. */
  predicate InUnit(b: Bands)
  {
    forall k: Band :: 0.0 <= Get(b, k) <= 1.0
  }

  /** Every band lies in [0, 1): what `Math.random()` produces. */
  predicate InRandomRange(b: Bands)
  {
    forall k: Band :: 0.0 <= Get(b, k) < 1.0
  }
}

module SoundHandle {
  /** An expo-av `Sound` object reduced to the three flags its status reports.
      The asynchronous calls on it become the transitions below; whether a call
      resolves or rejects is decided by the caller's outcome parameter. */
  datatype Sound = Sound(isLoaded: bool, isPlaying: bool, isLooping: bool)

  /** `new Audio.Sound()`: a handle with nothing loaded. */
  function Blank(): (s: Sound)
  {
    Sound(false, false, false)
  }

  /** The handle `Audio.Sound.createAsync` resolves with: already loaded, not yet playing. */
  function Created(): (s: Sound)
  {
    Sound(true, false, false)
  }

  /** A resolved `loadAsync`. */
  function Loaded(s: Sound): (t: Sound)
  {
    s.(isLoaded := true)
  }

  /** A resolved `setIsLoopingAsync(true)`. */
  function Looping(s: Sound): (t: Sound)
  {
    s.(isLooping := true)
  }

  /** A resolved `playAsync`. */
  function Started(s: Sound): (t: Sound)
  {
    s.(isPlaying := true)
  }

  /** A resolved `pauseAsync` or `stopAsync`. */
  function Halted(s: Sound): (t: Sound)
  {
    s.(isPlaying := false)
  }

  /** A resolved `unloadAsync`. */
  function Unloaded(s: Sound): (t: Sound)
  {
    s.(isLoaded := false, isPlaying := false)
  }
}

/** The audio manager: a sound handle, a playing flag and the frequency data,
    each operation a guarded update of those fields. */
module Playback {
  import opened Optional
  import opened Bands
  import opened SoundHandle

  class AudioManager {
    var frequencyData: Bands
    var isPlaying: bool
    var audio: Option<Sound>
    const lowFrequency: real
    const midFrequency: real
    const highFrequency: real

    /** The playing flag agrees with the handle: when the manager believes it
        is playing, it holds a sound that is playing. */
    ghost predicate Coherent()
      reads this
    {
      isPlaying ==> audio.Some? && audio.value.isPlaying
    }

    constructor ()
      ensures frequencyData == Bands(0.0, 0.0, 0.0) && !isPlaying && audio == None
      ensures lowFrequency == 10.0 && midFrequency == 150.0 && highFrequency == 9000.0
      ensures Coherent()
    {
      frequencyData := Bands(0.0, 0.0, 0.0);
      isPlaying := false;
      audio := None;
      lowFrequency, midFrequency, highFrequency := 10.0, 150.0, 9000.0;
    }

    /** `loadAudioBuffer` with the outcomes of `loadAsync` and
        `setIsLoopingAsync` as parameters: a new handle replaces the old one
        in any case; it is loaded if loading resolved, and looping if that
        resolved too. The playing flag is not touched. */
    method LoadAudioBuffer(loadOk: bool, loopOk: bool)
      modifies this`audio
      ensures audio == Some(if !loadOk then Blank() else if loopOk then Looping(Loaded(Blank())) else Loaded(Blank()))
    {
      audio := Some(Blank());
      if !loadOk {
        return;
      }
      audio := Some(Loaded(audio.value));
      if !loopOk {
        return;
      }
      audio := Some(Looping(audio.value));
    }

    /** `play` with the outcome of its awaited calls as a parameter: starts
        only a present, loaded, not yet playing sound; otherwise a no-op. */
    method Play(playOk: bool)
      modifies this`audio, this`isPlaying
      ensures var starts := old(audio).Some? && !old(isPlaying) && old(audio).value.isLoaded && playOk;
        isPlaying == (old(isPlaying) || starts) &&
        audio == (if starts then Some(Started(old(audio).value)) else old(audio))
      ensures old(isPlaying) ==> audio == old(audio) && isPlaying
      ensures old(Coherent()) ==> Coherent()
    {
      if audio.Some? && !isPlaying {
        if audio.value.isLoaded {
          if playOk {
            audio := Some(Started(audio.value));
            isPlaying := true;
          }
        }
      }
    }

    /** `pause` with the outcome of `pauseAsync` as a parameter: takes effect
        only on a present sound while playing. */
    method Pause(pauseOk: bool)
      modifies this`audio, this`isPlaying
      ensures var halts := old(audio).Some? && old(isPlaying) && pauseOk;
        isPlaying == (old(isPlaying) && !halts) &&
        audio == (if halts then Some(Halted(old(audio).value)) else old(audio))
      ensures old(Coherent()) ==> Coherent()
    {
      if audio.Some? && isPlaying {
        if pauseOk {
          audio := Some(Halted(audio.value));
          isPlaying := false;
        }
      }
    }

    /** `stop` with the outcome of `stopAsync` as a parameter: the same guard
        and flag update as `pause`. */
    method Stop(stopOk: bool)
      modifies this`audio, this`isPlaying
      ensures var halts := old(audio).Some? && old(isPlaying) && stopOk;
        isPlaying == (old(isPlaying) && !halts) &&
        audio == (if halts then Some(Halted(old(audio).value)) else old(audio))
      ensures old(Coherent()) ==> Coherent()
    {
      if audio.Some? && isPlaying {
        if stopOk {
          audio := Some(Halted(audio.value));
          isPlaying := false;
        }
      }
    }

    /** `analyzeAmplitude` with its three random draws as parameters: while a
        sound is present and playing, all three bands are replaced at once;
        otherwise the data is left as it was. */
    method AnalyzeAmplitude(low: real, mid: real, high: real)
      requires 0.0 <= low < 1.0 && 0.0 <= mid < 1.0 && 0.0 <= high < 1.0
      modifies this`frequencyData
      ensures frequencyData == if audio.Some? && isPlaying then Bands(low, mid, high) else old(frequencyData)
      ensures audio.Some? && isPlaying ==> InRandomRange(frequencyData)
    {
      if audio.None? || !isPlaying {
        return;
      }
      frequencyData := Bands(low, mid, high);
    }

    /** `update`: runs the analysis only while playing, with the same effect
        as `analyzeAmplitude`. */
    method Update(low: real, mid: real, high: real)
      requires 0.0 <= low < 1.0 && 0.0 <= mid < 1.0 && 0.0 <= high < 1.0
      modifies this`frequencyData
      ensures frequencyData == if audio.Some? && isPlaying then Bands(low, mid, high) else old(frequencyData)
    {
      if !isPlaying {
        return;
      }
      AnalyzeAmplitude(low, mid, high);
    }

    /** `unloadAudio` with the outcome of `unloadAsync` as a parameter: a
        present sound is dropped once unloading resolves. The playing flag is
        left as it was. */
    method UnloadAudio(unloadOk: bool)
      modifies this`audio
      ensures audio == if old(audio).Some? && unloadOk then None else old(audio)
    {
      if audio.Some? {
        if unloadOk {
          audio := None;
        }
      }
    }
  }

  /** Unloading while playing leaves `isPlaying` set with no sound: afterwards
      `play` and the analysis do nothing, so the data stays frozen. */
  method UnloadWhilePlaying() returns (playing: bool, present: bool, frozen: Bands)
    ensures playing && !present && frozen == Bands(0.5, 0.5, 0.5)
  {
    var m := new AudioManager();
    m.LoadAudioBuffer(true, true);
    m.Play(true);
    m.Update(0.5, 0.5, 0.5);
    m.UnloadAudio(true);
    m.Play(true);
    m.Update(0.25, 0.25, 0.25);
    m.AnalyzeAmplitude(0.75, 0.75, 0.75);
    playing, present, frozen := m.isPlaying, m.audio.Some?, m.frequencyData;
  }

  /** Unloading while playing and then loading a new sound leaves the manager
      claiming to play a sound that never started, and `play` cannot start it. */
  method ReloadAfterUnload() returns (playing: bool, soundPlaying: bool)
    ensures playing && !soundPlaying
  {
    var m := new AudioManager();
    m.LoadAudioBuffer(true, true);
    m.Play(true);
    m.UnloadAudio(true);
    m.LoadAudioBuffer(true, true);
    m.Play(true);
    playing, soundPlaying := m.isPlaying, m.audio.value.isPlaying;
  }
}

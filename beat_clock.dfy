/** The beat clock: a manager that turns a tempo into a repeating timer whose
    every tick dispatches one `beat` event to the registered listeners. */
module BeatClock {
  import opened Optional
  import opened SoundHandle
  import opened EventTargets

  /** The id `setInterval` hands out. Host ids are positive, so the
      truthiness test `if (this.intervalId)` holds exactly when an id is held. */
  type TimerId = nat

  const BEAT: string := "beat"

  /** The interval a fresh manager holds before any tempo is set. */
  const DEFAULT_INTERVAL: real := 500.0

  /** The tempo `detectBPM` assumes in place of a real estimate. */
  const PLACEHOLDER_BPM: real := 120.0

  /** Milliseconds per beat at `bpm` beats per minute. */
  function IntervalFor(bpm: real): (ms: real)
    requires bpm != 0.0
    ensures ms * bpm == 60000.0
    ensures ms > 0.0 <==> bpm > 0.0
  {
    60000.0 / bpm
  }

  /** The placeholder tempo gives the default interval. */
  lemma PlaceholderInterval()
    ensures IntervalFor(PLACEHOLDER_BPM) == DEFAULT_INTERVAL
  {
  }

  class BPMManager {
    var interval: real
    var intervalId: Option<TimerId>
    var bpmValue: real
    /** The event listener list of the manager's `EventTarget`. */
    var listeners: seq<Registration>
    var sound: Option<Sound>
    /** The repeating timers this manager has started and not yet cleared,
        each with its period in milliseconds, and the id the host will hand
        out next; together they stand for the host's timer table. */
    var timers: map<TimerId, real>
    var nextTimerId: TimerId

    /** At most one timer is running, and it is the one `intervalId` names;
        ids handed out so far are positive and below `nextTimerId`. */
    ghost predicate Valid()
      reads this
    {
      Distinct(listeners) &&
      (forall t :: t in timers ==> intervalId == Some(t)) &&
      0 < nextTimerId &&
      (intervalId.Some? ==> 0 < intervalId.value < nextTimerId)
    }

    constructor ()
      ensures Valid()
      ensures interval == DEFAULT_INTERVAL && intervalId == None && bpmValue == 0.0 && sound == None
      ensures listeners == [] && timers == map[] && nextTimerId == 1
    {
      interval := DEFAULT_INTERVAL;
      intervalId := None;
      bpmValue := 0.0;
      listeners := [];
      sound := None;
      timers := map[];
      nextTimerId := 1;
    }

    /** `setBPM`: records the tempo and its interval, clears the previous
        timer if there is one, and starts exactly one new timer at that interval. */
    method SetBPM(bpm: real)
      requires Valid()
      requires bpm != 0.0
      modifies this
      ensures Valid()
      ensures bpmValue == bpm && interval == IntervalFor(bpm)
      ensures bpm > 0.0 ==> interval > 0.0
      ensures intervalId == Some(old(nextTimerId)) && old(nextTimerId) !in old(timers)
      ensures timers == map[old(nextTimerId) := interval]
      ensures old(intervalId).Some? ==> old(intervalId).value !in timers
      ensures nextTimerId == old(nextTimerId) + 1
      ensures listeners == old(listeners) && sound == old(sound)
    {
      bpmValue := bpm;
      interval := IntervalFor(bpm);
      if intervalId.Some? {
        timers := timers - {intervalId.value};
      }
      var id := nextTimerId;
      nextTimerId := nextTimerId + 1;
      timers := timers[id := interval];
      intervalId := Some(id);
    }

    /** `updateBPM`, the timer's callback: one `beat` event, delivered in
        registration order to each listener registered for `beat`, once each. */
    method UpdateBPM() returns (delivered: seq<ListenerId>)
      requires Valid()
      ensures delivered == Dispatch(listeners, BEAT)
      ensures forall l :: l in delivered <==> Registration(BEAT, l) in listeners
      ensures Distinct(delivered)
    {
      delivered := Dispatch(listeners, BEAT);
    }

    /** `detectBPM` with the outcomes of `createAsync` and `playAsync` as
        parameters. A failed load changes nothing; a failed start keeps the
        loaded sound but leaves the tempo and the timer alone; otherwise the
        placeholder tempo is set. */
    method DetectBPM(createOk: bool, playOk: bool)
      requires Valid()
      modifies this
      ensures Valid()
      ensures listeners == old(listeners)
      ensures !createOk ==> sound == old(sound)
      ensures createOk ==> sound == Some(if playOk then Started(Created()) else Created())
      ensures !(createOk && playOk) ==>
        bpmValue == old(bpmValue) && interval == old(interval) && intervalId == old(intervalId) && timers == old(timers)
      ensures createOk && playOk ==>
        bpmValue == PLACEHOLDER_BPM && interval == DEFAULT_INTERVAL &&
        intervalId == Some(old(nextTimerId)) && timers == map[old(nextTimerId) := DEFAULT_INTERVAL]
    {
      if !createOk {
        return;
      }
      sound := Some(Created());
      if !playOk {
        return;
      }
      sound := Some(Started(sound.value));
      SetBPM(PLACEHOLDER_BPM);
      PlaceholderInterval();
    }

    /** `addEventListener`, delegated to the event target. */
    method AddEventListener(eventType: string, listener: ListenerId)
      requires Valid()
      modifies this`listeners
      ensures Valid()
      ensures listeners == AddListener(old(listeners), eventType, listener)
    {
      listeners := AddListener(listeners, eventType, listener);
    }

    /** `removeEventListener`, delegated to the event target. */
    method RemoveEventListener(eventType: string, listener: ListenerId)
      requires Valid()
      modifies this`listeners
      ensures Valid()
      ensures listeners == RemoveListener(old(listeners), eventType, listener)
    {
      listeners := RemoveListener(listeners, eventType, listener);
    }

    /** `unload` with the outcome of `unloadAsync` as a parameter. If there is
        a sound and unloading it fails, the call rejects (`ok` false) before the
        timer is cleared. Otherwise no timer is left running; `intervalId` keeps
        its old value, and neither the tempo nor the interval changes. */
    method Unload(unloadOk: bool) returns (ok: bool)
      requires Valid()
      modifies this
      ensures Valid()
      ensures ok == (old(sound).None? || unloadOk)
      ensures ok ==> timers == map[]
      ensures !ok ==> timers == old(timers) && sound == old(sound)
      ensures ok && old(sound).Some? ==> sound == Some(Unloaded(old(sound).value))
      ensures old(sound).None? ==> sound == None
      ensures bpmValue == old(bpmValue) && interval == old(interval) && intervalId == old(intervalId)
      ensures listeners == old(listeners) && nextTimerId == old(nextTimerId)
    {
      if sound.Some? {
        if !unloadOk {
          return false;
        }
        sound := Some(Unloaded(sound.value));
      }
      if intervalId.Some? {
        timers := timers - {intervalId.value};
      }
      assert forall t :: t in timers ==> false;
      ok := true;
    }
  }

  /** A listener registered twice receives exactly one `beat` per tick at the
      placeholder tempo's 500 ms interval, and after `unload` no timer runs. */
  method BeatScenario(listener: ListenerId) returns (delivered: seq<ListenerId>, period: real, running: nat)
    ensures delivered == [listener] && period == DEFAULT_INTERVAL && running == 0
  {
    var m := new BPMManager();
    m.AddEventListener(BEAT, listener);
    m.AddEventListener(BEAT, listener);
    m.SetBPM(PLACEHOLDER_BPM);
    delivered := m.UpdateBPM();
    period := m.interval;
    var _ := m.Unload(true);
    running := |m.timers|;
  }
}

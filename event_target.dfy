/** The listener registry of a DOM `EventTarget`, to which the beat clock
    delegates. Following section 2.7 (Interface EventTarget) of the WHATWG DOM
    Standard, a target keeps an ordered "event listener list"; "add an event
    listener" appends an entry only when no entry with the same type and
    callback is present (the capture flag is always false here), "remove an
    event listener" drops the matching entry if there is one, and dispatch
    invokes the matching entries in list order. */
module EventTargets {
  /** The identity of a listener callback; callbacks are compared by identity. */
  type ListenerId = nat

  datatype Registration = Registration(eventType: string, listener: ListenerId)

  /** No entry occurs twice. */
  predicate Distinct<T(==)>(s: seq<T>)
  {
    forall i, j :: 0 <= i < j < |s| ==> s[i] != s[j]
  }

  /** A sequence with a head is without repetitions exactly when its tail is
      and does not contain the head. */
  lemma DistinctCons<T>(x: T, s: seq<T>)
    ensures Distinct([x] + s) <==> x !in s && Distinct(s)
  {
    var t := [x] + s;
    if x !in s && Distinct(s) {
      forall i, j | 0 <= i < j < |t| ensures t[i] != t[j] {
        assert t[j] == s[j - 1];
        if i > 0 { assert t[i] == s[i - 1]; }
      }
    }
    if Distinct(t) {
      forall i, j | 0 <= i < j < |s| ensures s[i] != s[j] {
        assert s[i] == t[i + 1] && s[j] == t[j + 1];
      }
      forall j | 0 <= j < |s| ensures s[j] != x {
        assert s[j] == t[j + 1] && t[0] == x;
      }
    }
  }

  /** "add an event listener": the pair is registered afterwards, nothing else
      is, earlier entries keep their places, and no duplicate is created. */
  function AddListener(list: seq<Registration>, eventType: string, listener: ListenerId): (r: seq<Registration>)
    ensures forall x :: x in r <==> x in list || x == Registration(eventType, listener)
    ensures |list| <= |r| <= |list| + 1 && r[..|list|] == list
    ensures Distinct(list) ==> Distinct(r)
  {
    var entry := Registration(eventType, listener);
    if entry in list then list else list + [entry]
  }

  /** `list` with every occurrence of `entry` dropped. */
  function Without(list: seq<Registration>, entry: Registration): (r: seq<Registration>)
    ensures forall x :: x in r <==> x in list && x != entry
    ensures |r| <= |list|
    ensures Distinct(list) ==> Distinct(r)
    ensures entry !in list ==> r == list
  {
    if list == [] then []
    else if list[0] == entry then Without(list[1..], entry)
    else
      var rest := Without(list[1..], entry);
      DistinctCons(list[0], list[1..]);
      DistinctCons(list[0], rest);
      [list[0]] + rest
  }

  /** "remove an event listener": the pair is no longer registered, all other
      registrations remain, and removing a pair that is not registered changes nothing. */
  function RemoveListener(list: seq<Registration>, eventType: string, listener: ListenerId): (r: seq<Registration>)
    ensures forall x :: x in r <==> x in list && x != Registration(eventType, listener)
    ensures Registration(eventType, listener) !in list ==> r == list
    ensures Distinct(list) ==> Distinct(r)
  {
    Without(list, Registration(eventType, listener))
  }

  /** The listeners an event of type `eventType` is delivered to, in
      registration order: exactly those registered for that type, each once. */
  function Dispatch(list: seq<Registration>, eventType: string): (r: seq<ListenerId>)
    ensures forall l :: l in r <==> Registration(eventType, l) in list
    ensures Distinct(list) ==> Distinct(r)
  {
    if list == [] then []
    else if list[0].eventType == eventType then [list[0].listener] + Dispatch(list[1..], eventType)
    else Dispatch(list[1..], eventType)
  }

  /** Registering the same pair twice is the same as registering it once. */
  lemma AddIdempotent(list: seq<Registration>, eventType: string, listener: ListenerId)
    ensures AddListener(AddListener(list, eventType, listener), eventType, listener) == AddListener(list, eventType, listener)
  {
  }

  lemma {:induction false} WithoutAppended(list: seq<Registration>, entry: Registration)
    requires entry !in list
    ensures Without(list + [entry], entry) == list
  {
    if list == [] {
      assert [entry][1..] == [];
    } else {
      assert (list + [entry])[1..] == list[1..] + [entry];
      WithoutAppended(list[1..], entry);
    }
  }

  /** Removing a pair just registered for the first time restores the list. */
  lemma AddThenRemove(list: seq<Registration>, eventType: string, listener: ListenerId)
    requires Registration(eventType, listener) !in list
    ensures RemoveListener(AddListener(list, eventType, listener), eventType, listener) == list
  {
    WithoutAppended(list, Registration(eventType, listener));
  }

  /** In a sequence without repetitions, a member occurs exactly once. */
  lemma {:induction false} DistinctCountsOnce(s: seq<ListenerId>, l: ListenerId)
    requires Distinct(s)
    ensures multiset(s)[l] == if l in s then 1 else 0
  {
    if s != [] {
      assert s == [s[0]] + s[1..];
      DistinctCons(s[0], s[1..]);
      DistinctCountsOnce(s[1..], l);
    }
  }

  /** A listener added twice for a type is invoked exactly once per event of that type. */
  lemma AddedTwiceDispatchedOnce(list: seq<Registration>, eventType: string, listener: ListenerId)
    requires Distinct(list)
    ensures multiset(Dispatch(AddListener(AddListener(list, eventType, listener), eventType, listener), eventType))[listener] == 1
  {
    var twice := AddListener(AddListener(list, eventType, listener), eventType, listener);
    DistinctCountsOnce(Dispatch(twice, eventType), listener);
  }
}

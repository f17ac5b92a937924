/** The bridge status cache of internal/api/handlers_mqtt.go: readers are served the last known status
    while at most one background probe per bridge is in flight. */
module StatusCache {
  import opened Common

  datatype Key = Key(url: string)
  datatype Status = Status(body: string)

  datatype Entry = Entry(status: Option<Status>, fetchedAt: int, fetching: bool)

  const NO_ENTRY := Entry(None, 0, false)

  /** The entries, and the probes running in the background. */
  datatype State = State(entries: map<Key, Entry>, probes: multiset<Key>)

  const FRESH := State(map[], multiset{})

  /** A read, or the end of a probe; a probe that returns nil or panics has no result. */
  datatype Event =
    | Get(key: Key, now: int)
    | Done(key: Key, result: Option<Status>, now: int)

  function EntryOf(s: State, key: Key): Entry {
    if key in s.entries then s.entries[key] else NO_ENTRY
  }

  predicate Stale(e: Entry, ttl: nat, now: int) {
    e.status.None? || now - e.fetchedAt >= ttl
  }

  function Apply(s: State, ttl: nat, e: Event): State {
    match e
    case Get(key, now) =>
      var entry := EntryOf(s, key);
      if !entry.fetching && Stale(entry, ttl, now)
      then State(s.entries[key := entry.(fetching := true)], s.probes + multiset{key})
      else s
    case Done(key, result, now) =>
      var entry := EntryOf(s, key).(fetching := false);
      State(s.entries[key := if result.Some? then entry.(status := result, fetchedAt := now) else entry],
            s.probes - multiset{key})
  }

  /** Only a running probe can end. */
  predicate Legal(s: State, e: Event) {
    e.Done? ==> e.key in s.probes
  }

  ghost predicate LegalRun(s: State, ttl: nat, run: seq<Event>)
    decreases |run|
  {
    run == [] || (Legal(s, run[0]) && LegalRun(Apply(s, ttl, run[0]), ttl, run[1..]))
  }

  function After(s: State, ttl: nat, run: seq<Event>): State
    decreases |run|
  {
    if run == [] then s else After(Apply(s, ttl, run[0]), ttl, run[1..])
  }

  // ---------------------------------------------------------------------------------------
  // Single flight
  // ---------------------------------------------------------------------------------------

  /** A probe of the key is running exactly when its flag is up, and never two. */
  ghost predicate SingleFlight(s: State) {
    forall key :: s.probes[key] == if EntryOf(s, key).fetching then 1 else 0
  }

  lemma SingleFlightStep(s: State, ttl: nat, e: Event)
    requires SingleFlight(s) && Legal(s, e)
    ensures SingleFlight(Apply(s, ttl, e))
  {
    var s' := Apply(s, ttl, e);
    forall key
      ensures s'.probes[key] == if EntryOf(s', key).fetching then 1 else 0
    {
      assert s.probes[key] == if EntryOf(s, key).fetching then 1 else 0;
    }
  }

  lemma {:induction false} SingleFlightRun(s: State, ttl: nat, run: seq<Event>)
    requires SingleFlight(s) && LegalRun(s, ttl, run)
    ensures SingleFlight(After(s, ttl, run))
    decreases |run|
  {
    if run != [] {
      SingleFlightStep(s, ttl, run[0]);
      SingleFlightRun(Apply(s, ttl, run[0]), ttl, run[1..]);
    }
  }

  /** In every interleaving each key has at most one probe, and its flag is up exactly then. */
  lemma SingleFlightAlways(ttl: nat, run: seq<Event>, key: Key)
    requires LegalRun(FRESH, ttl, run)
    ensures var s := After(FRESH, ttl, run);
            s.probes[key] <= 1 && (EntryOf(s, key).fetching <==> s.probes[key] == 1)
  {
    SingleFlightRun(FRESH, ttl, run);
  }

  // ---------------------------------------------------------------------------------------
  // What readers are served
  // ---------------------------------------------------------------------------------------

  /** The result of the last probe of the key that had one, and when it ended. */
  function LastKnown(known: Option<(Status, int)>, run: seq<Event>, key: Key): (r: Option<(Status, int)>)
    ensures known.Some? ==> r.Some?
    decreases |run|
  {
    if run == [] then known
    else if run[0].Done? && run[0].key == key && run[0].result.Some?
    then LastKnown(Some((run[0].result.value, run[0].now)), run[1..], key)
    else LastKnown(known, run[1..], key)
  }

  /** What a read returns, as one value. */
  function Served(s: State, key: Key): Option<(Status, int)> {
    var e := EntryOf(s, key);
    if e.status.Some? then Some((e.status.value, e.fetchedAt)) else None
  }

  /** In every run readers see exactly the last probe result that was not nil, with its time. */
  lemma {:induction false} ServesLastKnown(s: State, ttl: nat, run: seq<Event>, key: Key)
    ensures Served(After(s, ttl, run), key) == LastKnown(Served(s, key), run, key)
    decreases |run|
  {
    if run != [] {
      ServesLastKnown(Apply(s, ttl, run[0]), ttl, run[1..], key);
    }
  }

  /** A known status is never replaced by none, however probes end. */
  lemma KnownStaysKnown(s: State, ttl: nat, run: seq<Event>, key: Key)
    requires Served(s, key).Some?
    ensures Served(After(s, ttl, run), key).Some?
  {
    ServesLastKnown(s, ttl, run, key);
  }

  /** The key has no known status, or its last one is at least the time to live old. */
  predicate Expired(run: seq<Event>, key: Key, ttl: nat, now: int) {
    LastKnown(None, run, key).None? || LastKnown(None, run, key).value.1 <= now - ttl
  }

  /** After any legal run, a read starts a probe exactly when none of the key is running and no result, or
      only one at least the time to live old, is known. */
  lemma ReadStartsProbeIff(ttl: nat, run: seq<Event>, key: Key, now: int)
    requires LegalRun(FRESH, ttl, run)
    ensures var s, s' := After(FRESH, ttl, run), Apply(After(FRESH, ttl, run), ttl, Get(key, now));
            && (s'.probes[key] > s.probes[key] <==> s.probes[key] == 0 && Expired(run, key, ttl, now))
            && (Expired(run, key, ttl, now) ==> s'.probes[key] == 1)
            && (forall k :: k != key ==> s'.probes[k] == s.probes[k])
  {
    SingleFlightRun(FRESH, ttl, run);
    ServesLastKnown(FRESH, ttl, run, key);
    var s := After(FRESH, ttl, run);
    assert s.probes[key] == if EntryOf(s, key).fetching then 1 else 0;
  }

  /** So a read of a key whose status is missing or expired always leaves a probe of it running. */
  lemma StaleGetsProbe(ttl: nat, run: seq<Event>, key: Key, now: int)
    requires LegalRun(FRESH, ttl, run) && Expired(run, key, ttl, now)
    ensures Apply(After(FRESH, ttl, run), ttl, Get(key, now)).probes[key] == 1
  {
    ReadStartsProbeIff(ttl, run, key, now);
  }

  // ---------------------------------------------------------------------------------------
  // How often bridges are probed
  // ---------------------------------------------------------------------------------------

  function Started(s: State, ttl: nat, run: seq<Event>, key: Key): (n: nat)
    decreases |run|
  {
    if run == [] then 0
    else
      var next := Apply(s, ttl, run[0]);
      (if next.probes[key] > s.probes[key] then 1 else 0) + Started(next, ttl, run[1..], key)
  }

  function Ended(run: seq<Event>, key: Key): (n: nat) {
    if run == [] then 0
    else (if run[0].Done? && run[0].key == key then 1 else 0) + Ended(run[1..], key)
  }

  /** Every probe started has ended or is the one still running. */
  lemma {:induction false} ProbesConserved(s: State, ttl: nat, run: seq<Event>, key: Key)
    requires LegalRun(s, ttl, run)
    ensures s.probes[key] + Started(s, ttl, run, key) == Ended(run, key) + After(s, ttl, run).probes[key]
    decreases |run|
  {
    if run != [] {
      ProbesConserved(Apply(s, ttl, run[0]), ttl, run[1..], key);
    }
  }

  ghost predicate Before(run: seq<Event>, time: int) {
    forall i :: 0 <= i < |run| ==> run[i].now < time
  }

  /** Within the time to live of a successful probe, reads of the key start no other. */
  lemma {:induction false} FreshNeverProbed(s: State, ttl: nat, run: seq<Event>, key: Key)
    requires LegalRun(s, ttl, run) && s.probes[key] == 0 && Served(s, key).Some?
    requires Before(run, EntryOf(s, key).fetchedAt + ttl)
    ensures Started(s, ttl, run, key) == 0 && EntryOf(After(s, ttl, run), key).status == EntryOf(s, key).status
    decreases |run|
  {
    if run != [] {
      assert run[0].now < EntryOf(s, key).fetchedAt + ttl;
      FreshNeverProbed(Apply(s, ttl, run[0]), ttl, run[1..], key);
    }
  }

  // ---------------------------------------------------------------------------------------
  // The code
  // ---------------------------------------------------------------------------------------

  class BridgeStatusCache {
    const ttl: nat
    var entries: map<Key, Entry>
    ghost var probes: multiset<Key>

    ghost function St(): State
      reads this
    {
      State(entries, probes)
    }

    ghost predicate Valid()
      reads this
    {
      SingleFlight(St())
    }

    constructor (ttl: nat)
      ensures Valid() && St() == FRESH && this.ttl == ttl
    {
      this.ttl, entries, probes := ttl, map[], multiset{};
    }

    /** `getAsync`; `start` says whether the caller launched the background probe. */
    method GetAsync(key: Key, now: int) returns (status: Option<Status>, fetchedAt: int, start: bool)
      requires Valid()
      modifies this
      ensures Valid() && St() == Apply(old(St()), ttl, Get(key, now))
      ensures status == EntryOf(old(St()), key).status && fetchedAt == EntryOf(old(St()), key).fetchedAt
      ensures start <==> probes[key] > old(probes)[key]
      ensures start <==> old(probes)[key] == 0 && (status.None? || now - fetchedAt >= ttl)
    {
      SingleFlightStep(St(), ttl, Get(key, now));
      var e := if key in entries then entries[key] else NO_ENTRY;
      start := false;
      if !e.fetching && (e.status == None || now - e.fetchedAt >= ttl) {
        entries := entries[key := e.(fetching := true)];
        probes := probes + multiset{key};
        start := true;
      }
      return e.status, e.fetchedAt, start;
    }

    /** The deferred part of `refresh`, reached when the probe returned and when it panicked. */
    method FinishRefresh(key: Key, result: Option<Status>, now: int)
      requires Valid() && key in probes
      modifies this
      ensures Valid() && St() == Apply(old(St()), ttl, Done(key, result, now))
    {
      SingleFlightStep(St(), ttl, Done(key, result, now));
      var e := if key in entries then entries[key] else NO_ENTRY;
      e := e.(fetching := false);
      if result.Some? {
        e := e.(status := result, fetchedAt := now);
      }
      entries := entries[key := e];
      probes := probes - multiset{key};
    }
  }
}

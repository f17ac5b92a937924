/** One cluster's collector: `Collector.run`, `poll` and `pollSYS` of internal/collector/collector.go,
    with the $SYS source of internal/collector/sys_collector.go.  What the network returns, and what
    the clock reads, are inputs of each poll. */
module Collection {
  import opened Common

  datatype ServerId = ServerId(id: string)
  datatype Doc = Doc(body: string)

  /** Varz fields that STATSZ does not carry. */
  datatype Carried = Carried(leafs: int, port: int, maxConn: int, goVersion: string, gateway: string)

  const NOTHING_CARRIED := Carried(0, 0, 0, "", "")

  datatype Varz = Varz(live: Doc, carried: Carried)

  /** Refetched by every HTTP poll, but under $SYS only by PING. */
  datatype FastPart = FastPart(routez: map<ServerId, Doc>, gatewayz: map<ServerId, Doc>, leafz: map<ServerId, Doc>,
                               health: map<ServerId, Doc>, connz: map<ServerId, Doc>)

  /** Refetched by slow polls only. */
  datatype SlowPart = SlowPart(subsz: map<ServerId, Doc>, jsInfo: map<ServerId, Doc>, accountz: map<ServerId, Doc>,
                               serverURLs: map<ServerId, string>)

  datatype Snapshot = Snapshot(varz: map<ServerId, Varz>, fast: FastPart, slow: SlowPart)

  const EMPTY_SNAPSHOT :=
    Snapshot(map[], FastPart(map[], map[], map[], map[], map[]), SlowPart(map[], map[], map[], map[]))

  // ---------------------------------------------------------------------------------------
  // The $SYS source
  // ---------------------------------------------------------------------------------------

  datatype Entry = Entry(live: Doc, when: int)

  /** The NATS connection: absent, or configured with the link up or down. */
  datatype Conn = NoConn | Conn(connected: bool)

  /** What one $SYS poll sees: the connection and cache size read first, the replies to its PING
      requests if it sends them, and the cache read again on the fast path. */
  datatype SysInput = SysInput(conn: Conn, cacheLen: nat, ping: Snapshot, cache: map<ServerId, Entry>)

  predicate UsesPing(i: SysInput, slow: bool) {
    i.conn.Conn? && (slow || (i.cacheLen == 0 && i.conn.connected))
  }

  function FastVarz(cache: map<ServerId, Entry>, carry: Snapshot): map<ServerId, Varz> {
    map id | id in cache ::
      Varz(cache[id].live, if id in carry.varz then carry.varz[id].carried else NOTHING_CARRIED)
  }

  /** `SYSCollector.poll`. */
  function SysPoll(i: SysInput, carry: Snapshot, slow: bool): Option<Snapshot> {
    if i.conn.NoConn? then None
    else if UsesPing(i, slow) then Some(i.ping.(slow := i.ping.slow.(serverURLs := map[])))
    else if i.cache == map[] then None
    else Some(Snapshot(FastVarz(i.cache, carry), carry.fast, carry.slow))
  }

  class SYSCollector {
    var conn: Conn
    var statsz: map<ServerId, Entry>
    const ttl: int

    constructor (ttl: int)
      ensures conn == NoConn && statsz == map[] && this.ttl == ttl
    {
      conn, statsz := NoConn, map[];
      this.ttl := ttl;
    }

    /** The STATSZ message handler; messages without a server id are ignored. */
    method OnStatsz(id: ServerId, live: Doc, now: int)
      modifies this`statsz
      ensures statsz == if id.id == "" then old(statsz) else old(statsz)[id := Entry(live, now)]
    {
      if id.id == "" {
        return;
      }
      statsz := statsz[id := Entry(live, now)];
    }

    /** Exactly the entries younger than the time-to-live survive. */
    method SweepExpired(now: int)
      modifies this`statsz
      ensures statsz == map id | id in old(statsz) && old(statsz)[id].when >= now - ttl :: old(statsz)[id]
    {
      var deadline := now - ttl;
      var todo := statsz.Keys;
      while todo != {}
        invariant todo <= statsz.Keys <= old(statsz).Keys
        invariant forall id :: id in statsz ==> statsz[id] == old(statsz)[id]
        invariant forall id :: id in old(statsz) && id !in todo ==> (id in statsz <==> old(statsz)[id].when >= deadline)
      {
        var id :| id in todo;
        todo := todo - {id};
        if statsz[id].when < deadline {
          statsz := statsz - {id};
        }
      }
    }

    /** The fast path fills the Varz map server by server, in map order. */
    method VarzFromCache(carry: Snapshot) returns (varz: map<ServerId, Varz>)
      ensures varz == FastVarz(statsz, carry)
    {
      varz := map[];
      var todo := statsz.Keys;
      while todo != {}
        invariant todo <= statsz.Keys && varz.Keys == statsz.Keys - todo
        invariant forall id :: id in varz ==> varz[id] == FastVarz(statsz, carry)[id]
      {
        var id :| id in todo;
        var v := Varz(statsz[id].live, NOTHING_CARRIED);
        if id in carry.varz {
          v := v.(carried := carry.varz[id].carried);
        }
        varz := varz[id := v];
        todo := todo - {id};
      }
    }

    method Poll(carry: Snapshot, slow: bool, ping: Snapshot) returns (snap: Option<Snapshot>)
      ensures snap == SysPoll(SysInput(conn, |statsz|, ping, statsz), carry, slow)
    {
      if conn.NoConn? {
        return None;
      }
      var bootstrap := |statsz| == 0 && conn.connected;
      if bootstrap || slow {
        return Some(ping.(slow := ping.slow.(serverURLs := map[])));
      }
      var varz := VarzFromCache(carry);
      assert varz.Keys == statsz.Keys;
      if |varz| == 0 {
        return None;
      }
      return Some(Snapshot(varz, carry.fast, carry.slow));
    }
  }

  // ---------------------------------------------------------------------------------------
  // The collector
  // ---------------------------------------------------------------------------------------

  const FALLBACK_GRACE: int := 60

  datatype State = State(
    hasSys: bool,
    snapshot: Snapshot,
    prev: Snapshot,
    firstFail: Option<int>,
    fellBack: bool,
    everHealthy: bool)

  /** `cacheLen` is what the recovery check reads, `failedAt` the clock when $SYS is found silent,
      `checkedAt` the clock at the grace test, and `http` what the servers answer to HTTP polling. */
  datatype PollInput =
    PollInput(slow: bool, cacheLen: nat, sys: SysInput, failedAt: int, checkedAt: int, http: Snapshot)

  function Init(hasSys: bool): State {
    State(hasSys, EMPTY_SNAPSHOT, EMPTY_SNAPSHOT, None, false, false)
  }

  predicate Tries(s: State, i: PollInput) {
    s.hasSys && (!s.fellBack || i.cacheLen > 0)
  }

  /** The snapshot a healthy $SYS poll stores. */
  function SysSnapshot(s: State, i: PollInput): Option<Snapshot> {
    if !Tries(s, i) then None
    else match SysPoll(i.sys, s.snapshot, i.slow)
         case None => None
         case Some(snap) => if snap.varz == map[] then None else Some(snap)
  }

  predicate Healthy(s: State, i: PollInput) {
    SysSnapshot(s, i).Some?
  }

  /** A healthy collector whose $SYS has gone silent keeps its snapshot while in the grace period. */
  predicate InGrace(s: State, i: PollInput) {
    s.hasSys && s.everHealthy && !s.fellBack && i.checkedAt - FirstFail(s, i) < FALLBACK_GRACE
  }

  function FirstFail(s: State, i: PollInput): int {
    if s.firstFail.Some? then s.firstFail.value else i.failedAt
  }

  /** What an HTTP poll stores. */
  function HttpSnapshot(s: State, i: PollInput): Snapshot {
    if i.slow then i.http else i.http.(slow := s.snapshot.slow)
  }

  /** One `poll`. */
  function Step(s: State, i: PollInput): State {
    match SysSnapshot(s, i)
    case Some(snap) =>
      s.(snapshot := snap, prev := s.snapshot, firstFail := None, fellBack := false, everHealthy := true)
    case None =>
      var failed := if Tries(s, i) then s.(firstFail := Some(FirstFail(s, i))) else s;
      if InGrace(s, i) then failed
      else failed.(snapshot := HttpSnapshot(s, i), prev := s.snapshot, fellBack := s.fellBack || s.hasSys)
  }

  // ---------------------------------------------------------------------------------------
  // What one poll stores, on its inputs
  // ---------------------------------------------------------------------------------------

  /** A $SYS poll is healthy exactly when it is tried, the connection is configured, and the source it reads
      has a server: the PING replies of a slow poll or of a bootstrap with the link up, else the cache. */
  lemma HealthyIff(s: State, i: PollInput)
    ensures Healthy(s, i) <==>
              && s.hasSys && (!s.fellBack || i.cacheLen > 0) && i.sys.conn.Conn?
              && if i.slow || (i.sys.cacheLen == 0 && i.sys.conn.connected) then i.sys.ping.varz != map[]
                 else i.sys.cache != map[]
  {
    if i.sys.cache != map[] {
      var id :| id in i.sys.cache;
      assert id in FastVarz(i.sys.cache, s.snapshot);
    }
  }

  /** A healthy poll stores the PING replies, without server URLs; or exactly the cached servers, each with its
      cached figures and the fields carried from the last snapshot, and all other maps of that snapshot. */
  lemma HealthyStores(s: State, i: PollInput)
    requires Healthy(s, i)
    ensures var snap := Step(s, i).snapshot;
            if i.slow || (i.sys.cacheLen == 0 && i.sys.conn.Conn? && i.sys.conn.connected) then
              && snap.varz == i.sys.ping.varz && snap.fast == i.sys.ping.fast
              && snap.slow == i.sys.ping.slow.(serverURLs := map[])
            else
              && snap.fast == s.snapshot.fast && snap.slow == s.snapshot.slow
              && (forall id :: id in snap.varz <==> id in i.sys.cache)
              && (forall id :: id in snap.varz && id in i.sys.cache ==> snap.varz[id].live == i.sys.cache[id].live)
              && (forall id :: id in snap.varz ==>
                    snap.varz[id].carried ==
                      if id in s.snapshot.varz then s.snapshot.varz[id].carried else Carried(0, 0, 0, "", ""))
    ensures var next := Step(s, i);
            next.prev == s.snapshot && !next.fellBack && next.everHealthy && next.firstFail.None?
  {
  }

  /** Any other poll keeps everything served while a once healthy collector has been silent for less than 60
      seconds, and else stores what HTTP answered, with the last slow maps on a fast poll. */
  lemma UnhealthyStores(s: State, i: PollInput)
    requires !Healthy(s, i)
    ensures var next, since := Step(s, i), if s.firstFail.Some? then s.firstFail.value else i.failedAt;
            if s.hasSys && s.everHealthy && !s.fellBack && i.checkedAt - since < 60 then
              next.snapshot == s.snapshot && next.prev == s.prev && !next.fellBack
            else
              && next.snapshot.varz == i.http.varz && next.snapshot.fast == i.http.fast
              && next.snapshot.slow == (if i.slow then i.http.slow else s.snapshot.slow)
              && next.prev == s.snapshot && next.fellBack == (s.fellBack || s.hasSys)
  {
  }

  class Collector {
    const hasSys: bool
    var snapshot: Snapshot
    var prev: Snapshot
    var tick: nat
    var sysFirstFail: Option<int>
    var sysFellBack: bool
    var sysEverHealthy: bool

    ghost function View(): State
      reads this
    {
      State(hasSys, snapshot, prev, sysFirstFail, sysFellBack, sysEverHealthy)
    }

    constructor (hasSys: bool)
      ensures View() == Init(hasSys) && tick == 0
    {
      this.hasSys := hasSys;
      snapshot, prev, tick := EMPTY_SNAPSHOT, EMPTY_SNAPSHOT, 0;
      sysFirstFail, sysFellBack, sysEverHealthy := None, false, false;
    }

    /** `pollSYS`: store and report success only when the snapshot has a server. */
    method PollSYS(i: PollInput) returns (ok: bool)
      modifies this`snapshot, this`prev
      ensures var r := SysPoll(i.sys, old(snapshot), i.slow);
              && ok == (r.Some? && r.value.varz != map[])
              && snapshot == (if ok then r.value else old(snapshot))
              && prev == (if ok then old(snapshot) else old(prev))
    {
      var snap := SysPoll(i.sys, snapshot, i.slow);
      if snap.None? || snap.value.varz == map[] {
        return false;
      }
      prev := snapshot;
      snapshot := snap.value;
      return true;
    }

    method Poll(i: PollInput)
      modifies this
      ensures View() == Step(old(View()), i) && tick == old(tick)
    {
      if hasSys {
        var trySys := !sysFellBack || i.cacheLen > 0;
        if trySys {
          var ok := PollSYS(i);
          if ok {
            if sysFellBack {
              sysFellBack := false;
            }
            sysEverHealthy := true;
            sysFirstFail := None;
            return;
          }
        }
        if trySys && sysFirstFail.None? {
          sysFirstFail := Some(i.failedAt);
        }
        var since := if sysFirstFail.Some? then sysFirstFail.value else 0;
        if sysEverHealthy && !sysFellBack && i.checkedAt - since < FALLBACK_GRACE {
          return;
        }
        if !sysFellBack {
          sysFellBack := true;
        }
      }
      var snap := i.http;
      prev := snapshot;
      if !i.slow {
        snap := snap.(slow := snapshot.slow);
      }
      snapshot := snap;
    }

    /** `run`: one slow poll, then one poll per tick, every third of them slow. */
    method Run(first: PollInput, ticks: seq<PollInput>)
      requires first.slow && tick == 0
      requires forall k :: 0 <= k < |ticks| ==> ticks[k].slow == SlowTick(k + 1)
      modifies this
      ensures View() == After(old(View()), [first] + ticks)
    {
      Poll(first);
      ghost var all := [first] + ticks;
      assert all[..1] == [first];
      for k := 0 to |ticks|
        invariant View() == After(old(View()), all[..k + 1])
        invariant tick == TickAt(k)
      {
        TickNext(k);
        AfterOneMore(old(View()), all, k + 1);
        tick := if tick + 1 == TICK_MODULUS then 0 else tick + 1;
        var slowPoll := tick % 3 == 0;
        assert ticks[k] == ticks[k].(slow := slowPoll);
        Poll(ticks[k].(slow := slowPoll));
      }
      assert all[..|ticks| + 1] == all;
    }
  }

  /** The tick counter is an unsigned 64-bit integer. */
  const TICK_MODULUS: nat := 0x1_0000_0000_0000_0000

  /** The tick counter after `k` ticks. */
  function TickAt(k: nat): nat {
    k % TICK_MODULUS
  }

  predicate SlowTick(k: nat) {
    TickAt(k) % 3 == 0
  }

  lemma TickNext(k: nat)
    ensures TickAt(k + 1) == if TickAt(k) + 1 == TICK_MODULUS then 0 else TickAt(k) + 1
  {
  }

  /** The state after polls `ins` from `s`. */
  function After(s: State, ins: seq<PollInput>): State {
    if ins == [] then s else Step(After(s, ins[..|ins| - 1]), ins[|ins| - 1])
  }

  lemma AfterOneMore(s: State, ins: seq<PollInput>, n: nat)
    requires n < |ins|
    ensures After(s, ins[..n + 1]) == Step(After(s, ins[..n]), ins[n])
  {
    assert ins[..n + 1][..n] == ins[..n];
  }

  function StateAt(hasSys: bool, ins: seq<PollInput>, n: nat): State
    requires n <= |ins|
  {
    After(Init(hasSys), ins[..n])
  }

  lemma StateNext(hasSys: bool, ins: seq<PollInput>, n: nat)
    requires n < |ins|
    ensures StateAt(hasSys, ins, n + 1) == Step(StateAt(hasSys, ins, n), ins[n])
  {
    AfterOneMore(Init(hasSys), ins, n);
  }

  // ---------------------------------------------------------------------------------------
  // Fallback over whole runs
  // ---------------------------------------------------------------------------------------

  predicate HealthyAt(hasSys: bool, ins: seq<PollInput>, k: nat) {
    k < |ins| && Healthy(StateAt(hasSys, ins, k), ins[k])
  }

  /** Poll `m - 1` was the last healthy one before `n`: every poll since tried $SYS and got nothing. */
  predicate SilentSince(hasSys: bool, ins: seq<PollInput>, m: nat, n: nat) {
    && 1 <= m <= n <= |ins|
    && HealthyAt(hasSys, ins, m - 1)
    && forall k :: m <= k < n ==> Tries(StateAt(hasSys, ins, k), ins[k]) && !HealthyAt(hasSys, ins, k)
  }

  /** What a collector on healthy or briefly silent $SYS knows: since when it is silent, and that it
      still serves the last healthy snapshot. */
  ghost predicate OnSys(hasSys: bool, ins: seq<PollInput>, m: nat, n: nat) {
    && SilentSince(hasSys, ins, m, n)
    && var s := StateAt(hasSys, ins, n);
       && s.firstFail == (if m == n then None else Some(ins[m].failedAt))
       && Some(s.snapshot) == SysSnapshot(StateAt(hasSys, ins, m - 1), ins[m - 1])
  }

  /** A healthy poll starts a new stretch. */
  lemma OnSysHealthy(hasSys: bool, ins: seq<PollInput>, n: nat)
    requires HealthyAt(hasSys, ins, n)
    ensures OnSys(hasSys, ins, n + 1, n + 1)
  {
    StateNext(hasSys, ins, n);
  }

  /** A silent poll within the grace period extends the stretch. */
  lemma OnSysSilent(hasSys: bool, ins: seq<PollInput>, m: nat, n: nat)
    requires n < |ins| && OnSys(hasSys, ins, m, n) && !HealthyAt(hasSys, ins, n)
    requires Tries(StateAt(hasSys, ins, n), ins[n]) && InGrace(StateAt(hasSys, ins, n), ins[n])
    ensures OnSys(hasSys, ins, m, n + 1)
  {
    StateNext(hasSys, ins, n);
    SilentNext(hasSys, ins, m, n);
    GraceStep(StateAt(hasSys, ins, n), ins[n]);
  }

  lemma SilentNext(hasSys: bool, ins: seq<PollInput>, m: nat, n: nat)
    requires n < |ins| && Tries(StateAt(hasSys, ins, n), ins[n]) && !HealthyAt(hasSys, ins, n)
    ensures SilentSince(hasSys, ins, m, n) ==> SilentSince(hasSys, ins, m, n + 1)
  {
  }

  /** A silent poll in the grace period only notes when the silence began. */
  lemma GraceStep(s: State, i: PollInput)
    requires Tries(s, i) && InGrace(s, i) && !Healthy(s, i)
    ensures Step(s, i) == s.(firstFail := Some(FirstFail(s, i)))
  {
  }

  lemma {:induction false} SysOnlyWhenConfigured(hasSys: bool, ins: seq<PollInput>, n: nat)
    requires n <= |ins|
    ensures var s := StateAt(hasSys, ins, n); s.hasSys == hasSys && (s.everHealthy || s.fellBack ==> hasSys)
  {
    if n > 0 {
      SysOnlyWhenConfigured(hasSys, ins, n - 1);
      StateNext(hasSys, ins, n - 1);
    }
  }

  /** Leaving aside healthy polls, only the grace period keeps a once healthy collector on $SYS. */
  lemma StaysOnSys(s: State, i: PollInput)
    requires Step(s, i).everHealthy && !Step(s, i).fellBack && !Healthy(s, i)
    requires s.everHealthy || s.fellBack ==> s.hasSys
    ensures s.everHealthy && !s.fellBack && Tries(s, i) && InGrace(s, i)
  {
  }

  lemma {:induction false} OnSysAlways(hasSys: bool, ins: seq<PollInput>, n: nat) returns (m: nat)
    requires n <= |ins|
    ensures StateAt(hasSys, ins, n).everHealthy && !StateAt(hasSys, ins, n).fellBack ==> OnSys(hasSys, ins, m, n)
  {
    m := 0;
    if n > 0 && StateAt(hasSys, ins, n).everHealthy && !StateAt(hasSys, ins, n).fellBack {
      StateNext(hasSys, ins, n - 1);
      SysOnlyWhenConfigured(hasSys, ins, n - 1);
      if HealthyAt(hasSys, ins, n - 1) {
        OnSysHealthy(hasSys, ins, n - 1);
        m := n;
      } else {
        StaysOnSys(StateAt(hasSys, ins, n - 1), ins[n - 1]);
        m := OnSysAlways(hasSys, ins, n - 1);
        OnSysSilent(hasSys, ins, m, n - 1);
      }
    }
  }

  /** After $SYS has once been healthy, a poll enters the HTTP fallback exactly when it and every poll
      since the last healthy one tried $SYS in vain and the first of them is at least 60 seconds old. */
  lemma FallbackOnlyAfterGrace(hasSys: bool, ins: seq<PollInput>, n: nat) returns (m: nat)
    requires n < |ins|
    requires StateAt(hasSys, ins, n).everHealthy && !StateAt(hasSys, ins, n).fellBack
    ensures SilentSince(hasSys, ins, m, n)
    ensures StateAt(hasSys, ins, n + 1).fellBack <==>
              !HealthyAt(hasSys, ins, n) && ins[n].checkedAt - ins[m].failedAt >= 60
  {
    m := OnSysAlways(hasSys, ins, n);
    SysOnlyWhenConfigured(hasSys, ins, n);
    StateNext(hasSys, ins, n);
  }

  /** Until then the snapshot served is exactly the one the last healthy $SYS poll stored. */
  lemma ServesLastHealthySnapshot(hasSys: bool, ins: seq<PollInput>, n: nat) returns (m: nat)
    requires n <= |ins|
    requires StateAt(hasSys, ins, n).everHealthy && !StateAt(hasSys, ins, n).fellBack
    ensures SilentSince(hasSys, ins, m, n)
    ensures Some(StateAt(hasSys, ins, n).snapshot) == SysSnapshot(StateAt(hasSys, ins, m - 1), ins[m - 1])
  {
    m := OnSysAlways(hasSys, ins, n);
  }

  /** The first healthy $SYS poll leaves the fallback at once; a collector in fallback otherwise stays
      there, on HTTP data, and a cold start that never saw $SYS falls back on its first silent poll. */
  lemma FallbackEndsWithHealth(hasSys: bool, ins: seq<PollInput>, n: nat)
    requires n < |ins| && hasSys
    requires var s := StateAt(hasSys, ins, n); s.fellBack || !s.everHealthy
    ensures var s, s' := StateAt(hasSys, ins, n), StateAt(hasSys, ins, n + 1);
            && s'.fellBack == !HealthyAt(hasSys, ins, n)
            && (HealthyAt(hasSys, ins, n) ==> Some(s'.snapshot) == SysSnapshot(s, ins[n]))
            && (!HealthyAt(hasSys, ins, n) ==> s'.snapshot == HttpSnapshot(s, ins[n]))
  {
    SysOnlyWhenConfigured(hasSys, ins, n);
    StateNext(hasSys, ins, n);
  }

  // ---------------------------------------------------------------------------------------
  // Carry-forward
  // ---------------------------------------------------------------------------------------

  /** The freshly fetched slow part this poll stores, if it fetches one: a slow HTTP poll or a PING. */
  function SlowFetched(s: State, i: PollInput): Option<SlowPart> {
    if Healthy(s, i) then (if UsesPing(i.sys, i.slow) then Some(i.sys.ping.slow.(serverURLs := map[])) else None)
    else if InGrace(s, i) || !i.slow then None
    else Some(i.http.slow)
  }

  function FastFetched(s: State, i: PollInput): Option<FastPart> {
    if Healthy(s, i) then (if UsesPing(i.sys, i.slow) then Some(i.sys.ping.fast) else None)
    else if InGrace(s, i) then None
    else Some(i.http.fast)
  }

  /** The latest fetched slow part among the first `n` polls. */
  function LastSlow(hasSys: bool, ins: seq<PollInput>, n: nat): SlowPart
    requires n <= |ins|
  {
    if n == 0 then EMPTY_SNAPSHOT.slow
    else match SlowFetched(StateAt(hasSys, ins, n - 1), ins[n - 1])
         case Some(part) => part
         case None => LastSlow(hasSys, ins, n - 1)
  }

  function LastFast(hasSys: bool, ins: seq<PollInput>, n: nat): FastPart
    requires n <= |ins|
  {
    if n == 0 then EMPTY_SNAPSHOT.fast
    else match FastFetched(StateAt(hasSys, ins, n - 1), ins[n - 1])
         case Some(part) => part
         case None => LastFast(hasSys, ins, n - 1)
  }

  /** In every run, mixing $SYS, grace and fallback polls in any way, the snapshot served carries the
      latest fetched slow maps and the latest fetched fast maps. */
  lemma {:induction false} CarriesLatest(hasSys: bool, ins: seq<PollInput>, n: nat)
    requires n <= |ins|
    ensures StateAt(hasSys, ins, n).snapshot.slow == LastSlow(hasSys, ins, n)
    ensures StateAt(hasSys, ins, n).snapshot.fast == LastFast(hasSys, ins, n)
  {
    if n > 0 {
      CarriesLatest(hasSys, ins, n - 1);
      StateNext(hasSys, ins, n - 1);
    }
  }

  /** The figures of the servers. */
  function LiveOf(varz: map<ServerId, Varz>): map<ServerId, Doc> {
    map id | id in varz :: varz[id].live
  }

  /** The figures this poll reads, if it stores any: PING replies, cached STATSZ messages or HTTP answers. */
  function LiveRead(s: State, i: PollInput): Option<map<ServerId, Doc>> {
    if Healthy(s, i) then
      if UsesPing(i.sys, i.slow) then Some(LiveOf(i.sys.ping.varz))
      else Some(map id | id in i.sys.cache :: i.sys.cache[id].live)
    else if InGrace(s, i) then None
    else Some(LiveOf(i.http.varz))
  }

  function LastLive(hasSys: bool, ins: seq<PollInput>, n: nat): map<ServerId, Doc>
    requires n <= |ins|
  {
    if n == 0 then map[]
    else match LiveRead(StateAt(hasSys, ins, n - 1), ins[n - 1])
         case Some(live) => live
         case None => LastLive(hasSys, ins, n - 1)
  }

  lemma StepServesLive(s: State, i: PollInput)
    ensures LiveOf(Step(s, i).snapshot.varz) ==
              match LiveRead(s, i) case Some(live) => live case None => LiveOf(s.snapshot.varz)
  {
    if Healthy(s, i) {
      HealthyStores(s, i);
    } else {
      UnhealthyStores(s, i);
    }
  }

  /** In every run the figures served of each server are those of the latest STATSZ entry, PING reply or HTTP
      answer that was stored, and no other server is served. */
  lemma {:induction false} ServesLatestLive(hasSys: bool, ins: seq<PollInput>, n: nat)
    requires n <= |ins|
    ensures LiveOf(StateAt(hasSys, ins, n).snapshot.varz) == LastLive(hasSys, ins, n)
  {
    if n > 0 {
      ServesLatestLive(hasSys, ins, n - 1);
      StateNext(hasSys, ins, n - 1);
      StepServesLive(StateAt(hasSys, ins, n - 1), ins[n - 1]);
    }
  }

  /** The polls follow the schedule of `run`. */
  predicate Scheduled(ins: seq<PollInput>) {
    forall k :: 0 <= k < |ins| ==> ins[k].slow == SlowTick(k)
  }

  /** Until the tick counter wraps, exactly every third poll is slow. */
  lemma SlowExactly(k: nat)
    requires k < 0x1_0000_0000_0000_0000
    ensures SlowTick(k) <==> k % 3 == 0
  {
  }

  /** Any three consecutive polls include a slow one, even where the tick counter wraps. */
  lemma SlowEveryThree(k: nat)
    ensures SlowTick(k) || SlowTick(k + 1) || SlowTick(k + 2)
  {
    TickNext(k);
    TickNext(k + 1);
  }

  /** Under plain HTTP collection the slow maps served after poll `n` are those fetched by the latest
      slow poll, which is at most two polls back. */
  lemma {:induction false} HttpServesLatestSlowPoll(ins: seq<PollInput>, n: nat) returns (k: nat)
    requires Scheduled(ins) && n < |ins|
    ensures k <= n <= k + 2 && ins[k].slow && (forall j :: k < j <= n ==> !ins[j].slow)
    ensures StateAt(false, ins, n + 1).snapshot.slow == ins[k].http.slow
  {
    SysOnlyWhenConfigured(false, ins, n);
    StateNext(false, ins, n);
    if ins[n].slow {
      k := n;
    } else {
      k := HttpServesLatestSlowPoll(ins, n - 1);
      SlowEveryThree(k + 1);
    }
  }

  /** Poll `j` builds its Varz from the STATSZ cache, or stores nothing. */
  predicate KeepsVarz(s: State, i: PollInput) {
    FastFetched(s, i).None?
  }

  /** Under $SYS collection a server present in every snapshot since keeps the leaf count, port,
      connection limit, Go version and gateway of the poll that last fetched them. */
  lemma {:induction false} PerServerFieldsCarried(hasSys: bool, ins: seq<PollInput>, m: nat, n: nat, id: ServerId)
    requires m <= n <= |ins|
    requires forall j :: m <= j < n ==> KeepsVarz(StateAt(hasSys, ins, j), ins[j])
    requires forall j :: m <= j <= n ==> id in StateAt(hasSys, ins, j).snapshot.varz
    ensures StateAt(hasSys, ins, n).snapshot.varz[id].carried == StateAt(hasSys, ins, m).snapshot.varz[id].carried
    decreases n - m
  {
    if m < n {
      PerServerFieldsCarried(hasSys, ins, m, n - 1, id);
      StateNext(hasSys, ins, n - 1);
      assert KeepsVarz(StateAt(hasSys, ins, n - 1), ins[n - 1]);
    }
  }
}

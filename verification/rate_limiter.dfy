/** The login rate limiter of internal/auth/ratelimit.go: a bounded table of per-key attempt
    times, trimmed on use, pruned periodically, and evicted in two phases when it is full.
    Time is an integer that never decreases. */
module RateLimiter {
  import opened Common

  /** The client address an attempt is counted under. */
  datatype Key = Key(ip: string)

  type Table = map<Key, seq<int>>

  datatype Config = Config(window: int, max: int, maxKeys: nat)

  predicate Sorted(ts: seq<int>) {
    forall i, j :: 0 <= i < j < |ts| ==> ts[i] <= ts[j]
  }

  /** How many of the times are at or after `cutoff`. */
  function Live(ts: seq<int>, cutoff: int): nat {
    if ts == [] then 0 else Live(ts[1..], cutoff) + (if ts[0] >= cutoff then 1 else 0)
  }

  /** The times from the first one at or after `cutoff`. */
  function Trim(ts: seq<int>, cutoff: int): seq<int> {
    if ts == [] || ts[0] >= cutoff then ts else Trim(ts[1..], cutoff)
  }

  function Entry(t: Table, k: Key): seq<int> {
    if k in t then t[k] else []
  }

  // ---------------------------------------------------------------------------------------
  // What each operation may do to the table
  // ---------------------------------------------------------------------------------------

  /** The newest recorded attempt is before the cutoff, or there is none. */
  predicate Expired(ts: seq<int>, cutoff: int) {
    |ts| == 0 || ts[|ts| - 1] < cutoff
  }

  /** First eviction phase: keys whose newest attempt has expired go. */
  function Unexpired(t: Table, cutoff: int): Table {
    map k | k in t && !Expired(t[k], cutoff) :: t[k]
  }

  /** Keys with budget left; only these may be shed under pressure. */
  ghost function Evictable(t: Table, cutoff: int, max: int): set<Key> {
    set k | k in t && Live(t[k], cutoff) < max
  }

  ghost predicate OlderThan(t: Table, d: Key, e: Key) {
    d in t && e in t && t[d] != [] && t[e] != [] && t[d][|t[d]| - 1] <= t[e][|t[e]| - 1]
  }

  /** How many keys a full table sheds: down to nine tenths of the bound, less one. */
  function ShedCount(c: Config, size: nat, pool: nat): int {
    Min(size - c.maxKeys + c.maxKeys / 10 + 1, pool)
  }

  /** `shed` is `n` keys of the pool, none younger than a pool key that stays. */
  ghost predicate Oldest(t: Table, pool: set<Key>, n: int, shed: set<Key>) {
    && |shed| == n
    && shed <= pool
    && (forall d, e :: d in shed && e in pool && e !in shed ==> OlderThan(t, d, e))
  }

  /** A possible second phase on the unexpired keys.  Ties between equally old keys are open. */
  ghost predicate Sheds(c: Config, live: Table, cutoff: int, shed: set<Key>) {
    if |live| < c.maxKeys then shed == {}
    else Oldest(live, Evictable(live, cutoff, c.max), ShedCount(c, |live|, |Evictable(live, cutoff, c.max)|), shed)
  }

  /** What `evictStaleLocked` leaves. */
  ghost function Evicted(t: Table, cutoff: int, shed: set<Key>): Table {
    map k | k in t && !Expired(t[k], cutoff) && k !in shed :: t[k]
  }

  /** A key with no recorded attempt meets a table at its bound. */
  predicate Full(c: Config, t: Table, k: Key) {
    |Entry(t, k)| == 0 && |t| >= c.maxKeys
  }

  /** The table on which `Allow` records its attempt. */
  ghost function Room(c: Config, t: Table, k: Key, now: int, shed: set<Key>): Table {
    if Full(c, t, k) then Evicted(t, now - c.window, shed) else t
  }

  /** Which keys `Allow` may shed. */
  ghost predicate ShedFor(c: Config, t: Table, k: Key, now: int, shed: set<Key>) {
    if Full(c, t, k) then Sheds(c, Unexpired(t, now - c.window), now - c.window, shed) else shed == {}
  }

  /** The attempts kept for a key after a decision. */
  function Attempts(recent: seq<int>, now: int, ok: bool): seq<int> {
    if ok then recent + [now] else recent
  }

  /** A possible outcome of `Allow`. */
  ghost predicate Allows(c: Config, t: Table, k: Key, now: int, shed: set<Key>, t': Table, ok: bool) {
    && ShedFor(c, t, k, now, shed)
    && ok == (|Trim(Entry(t, k), now - c.window)| < c.max)
    && t' == Room(c, t, k, now, shed)[k := Attempts(Trim(Entry(t, k), now - c.window), now, ok)]
  }

  function Pruned(t: Table, cutoff: int): Table {
    map k | k in t && Trim(t[k], cutoff) != [] :: Trim(t[k], cutoff)
  }

  // ---------------------------------------------------------------------------------------
  // The code
  // ---------------------------------------------------------------------------------------

  datatype Aged = Aged(key: Key, last: int)

  predicate ByAge(xs: seq<Aged>) {
    forall i, j :: 0 <= i < j < |xs| ==> xs[i].last <= xs[j].last
  }

  function InsertByAge(x: Aged, xs: seq<Aged>): (r: seq<Aged>)
    ensures multiset(r) == multiset(xs) + multiset{x}
  {
    if xs == [] || x.last <= xs[0].last then [x] + xs
    else
      assert xs == [xs[0]] + xs[1..];
      [xs[0]] + InsertByAge(x, xs[1..])
  }

  lemma {:induction false} InsertKeepsAgeOrder(x: Aged, xs: seq<Aged>)
    requires ByAge(xs)
    ensures ByAge(InsertByAge(x, xs))
  {
    if xs != [] && x.last > xs[0].last {
      InsertKeepsAgeOrder(x, xs[1..]);
      var rest := InsertByAge(x, xs[1..]);
      forall i | 0 <= i < |rest|
        ensures xs[0].last <= rest[i].last
      {
        assert rest[i] in multiset(rest);
        assert rest[i] == x || rest[i] in xs[1..];
      }
    }
  }

  /** `sort.Slice` on the candidates; the order of equally old keys is left to the library. */
  function SortByAge(xs: seq<Aged>): (r: seq<Aged>)
    ensures ByAge(r) && multiset(r) == multiset(xs)
  {
    if xs == [] then [] else
      assert xs == [xs[0]] + xs[1..];
      var rest := SortByAge(xs[1..]);
      InsertKeepsAgeOrder(xs[0], rest);
      InsertByAge(xs[0], rest)
  }

  /** Each candidate once, with its own age: a property of the multiset, so sorting keeps it. */
  ghost predicate Candidates(t: Table, xs: multiset<Aged>) {
    && (forall x :: x in xs ==> x.key in t && t[x.key] != [] && x.last == t[x.key][|t[x.key]| - 1])
    && (forall x :: x in xs ==> xs[x] == 1)
  }

  ghost function KeysOf(xs: seq<Aged>): set<Key> {
    set x | x in xs :: x.key
  }

  lemma CandidatesDistinct(t: Table, xs: seq<Aged>, i: nat, j: nat)
    requires Candidates(t, multiset(xs)) && i < j < |xs|
    ensures xs[i].key != xs[j].key
  {
    assert xs == xs[..j] + [xs[j]] + xs[j + 1..];
    assert multiset(xs) == multiset(xs[..j]) + multiset{xs[j]} + multiset(xs[j + 1..]);
    assert xs[i] in xs[..j];
    assert xs[i] in multiset(xs) && xs[j] in multiset(xs);
  }

  lemma SortKeepsKeys(xs: seq<Aged>)
    ensures KeysOf(SortByAge(xs)) == KeysOf(xs) && |SortByAge(xs)| == |xs|
  {
    var ys := SortByAge(xs);
    assert |multiset(ys)| == |multiset(xs)|;
    assert forall x :: x in ys <==> x in multiset(ys);
    assert forall x :: x in xs <==> x in multiset(xs);
  }

  lemma RemoveOneMore(t: Table, shed: set<Key>, k: Key)
    ensures t - shed - {k} == t - (shed + {k})
  {
    assert (t - shed - {k}).Keys == (t - (shed + {k})).Keys;
  }

  /** Taking one more candidate removes exactly one more key, still in the table. */
  lemma NextCandidate(t: Table, xs: seq<Aged>, i: nat)
    requires Candidates(t, multiset(xs)) && i < |xs|
    ensures KeysOf(xs[..i + 1]) == KeysOf(xs[..i]) + {xs[i].key}
    ensures xs[i].key !in KeysOf(xs[..i]) && xs[i].key in t
  {
    assert xs[..i + 1] == xs[..i] + [xs[i]];
    assert xs[i] in multiset(xs);
    forall x | x in xs[..i]
      ensures x.key != xs[i].key
    {
      var j :| 0 <= j < i && xs[j] == x;
      CandidatesDistinct(t, xs, j, i);
    }
  }

  /** Distinct candidates are as many as their keys. */
  lemma {:induction false} PrefixCount(t: Table, xs: seq<Aged>, n: nat)
    requires Candidates(t, multiset(xs)) && n <= |xs|
    ensures |KeysOf(xs[..n])| == n
  {
    if n == 0 {
      assert KeysOf(xs[..n]) == {};
    } else {
      PrefixCount(t, xs, n - 1);
      NextCandidate(t, xs, n - 1);
    }
  }

  lemma PrefixIsOlder(t: Table, xs: seq<Aged>, n: nat, d: Key, e: Key)
    requires Candidates(t, multiset(xs)) && ByAge(xs) && n <= |xs|
    requires d in KeysOf(xs[..n]) && e in KeysOf(xs) - KeysOf(xs[..n])
    ensures OlderThan(t, d, e)
  {
    var x :| x in xs[..n] && x.key == d;
    var y :| y in xs && y.key == e;
    assert y !in xs[..n];
    var i :| 0 <= i < n && xs[i] == x;
    var j :| 0 <= j < |xs| && xs[j] == y;
    assert x in multiset(xs) && y in multiset(xs);
  }

  /** A prefix of the age order is a choice of oldest keys. */
  lemma PrefixIsOldest(t: Table, xs: seq<Aged>, n: nat)
    requires Candidates(t, multiset(xs)) && ByAge(xs) && n <= |xs|
    ensures Oldest(t, KeysOf(xs), n, KeysOf(xs[..n]))
  {
    PrefixCount(t, xs, n);
    forall d, e | d in KeysOf(xs[..n]) && e in KeysOf(xs) && e !in KeysOf(xs[..n])
      ensures OlderThan(t, d, e)
    {
      PrefixIsOlder(t, xs, n, d, e);
    }
  }

  /** Dropping the first candidates in age order is a possible second phase. */
  lemma PrefixSheds(c: Config, t: Table, cutoff: int, xs: seq<Aged>)
    requires Candidates(t, multiset(xs)) && ByAge(xs) && KeysOf(xs) == Evictable(t, cutoff, c.max)
    requires |t| >= c.maxKeys
    ensures Sheds(c, t, cutoff, KeysOf(xs[..ShedCount(c, |t|, |xs|)]))
  {
    PrefixCount(t, xs, |xs|);
    assert xs[..|xs|] == xs;
    PrefixIsOldest(t, xs, ShedCount(c, |t|, |xs|));
  }

  /** The candidates among the keys that are not left to do. */
  ghost predicate Gathered(t: Table, cutoff: int, max: int, todo: set<Key>, out: seq<Aged>) {
    && Candidates(t, multiset(out))
    && (forall k :: k in KeysOf(out) <==> k in Evictable(t, cutoff, max) && k !in todo)
  }

  lemma GatherNext(t: Table, cutoff: int, max: int, todo: set<Key>, out: seq<Aged>, k: Key)
    requires Gathered(t, cutoff, max, todo, out) && k in todo && k in t && t[k] != []
    ensures Live(t[k], cutoff) >= max ==> Gathered(t, cutoff, max, todo - {k}, out)
    ensures Live(t[k], cutoff) < max ==> Gathered(t, cutoff, max, todo - {k}, out + [Aged(k, t[k][|t[k]| - 1])])
  {
    var x := Aged(k, t[k][|t[k]| - 1]);
    assert KeysOf(out + [x]) == KeysOf(out) + {k};
    assert multiset(out + [x]) == multiset(out) + multiset{x};
    assert x in multiset(out) ==> x.key in KeysOf(out);
  }

  class LoginRateLimiter {
    const config: Config
    var attempts: Table
    var rejected: nat
    var evicted: nat

    constructor (max: int, window: int, maxKeys: nat)
      ensures config == Config(window, max, maxKeys)
      ensures attempts == map[] && rejected == 0 && evicted == 0
    {
      config := Config(window, max, maxKeys);
      attempts, rejected, evicted := map[], 0, 0;
    }

    /** The trimming loop shared by `Allow` and `prune`. */
    static method TrimOld(ts: seq<int>, cutoff: int) returns (r: seq<int>)
      ensures r == Trim(ts, cutoff)
    {
      var start := 0;
      while start < |ts| && ts[start] < cutoff
        invariant 0 <= start <= |ts|
        invariant Trim(ts, cutoff) == Trim(ts[start..], cutoff)
      {
        start := start + 1;
      }
      r := ts[start..];
    }

    method Allow(k: Key, now: int) returns (ok: bool, ghost shed: set<Key>)
      modifies this
      ensures Allows(config, old(attempts), k, now, shed, attempts, ok)
      ensures rejected == old(rejected) + (if ok then 0 else 1)
      ensures evicted == old(evicted) + |old(attempts)| - |Room(config, old(attempts), k, now, shed)|
    {
      var cutoff := now - config.window;
      var recent := if k in attempts then attempts[k] else [];
      shed := MakeRoom(k, now);
      recent := TrimOld(recent, cutoff);
      if |recent| >= config.max {
        rejected := rejected + 1;
        attempts := attempts[k := recent];
        ok := false;
      } else {
        attempts := attempts[k := recent + [now]];
        ok := true;
      }
    }

    /** The capacity check at the head of `Allow`. */
    method MakeRoom(k: Key, now: int) returns (ghost shed: set<Key>)
      modifies this`attempts, this`evicted
      ensures ShedFor(config, old(attempts), k, now, shed)
      ensures attempts == Room(config, old(attempts), k, now, shed)
      ensures evicted == old(evicted) + |old(attempts)| - |attempts|
    {
      shed := {};
      if (k !in attempts || |attempts[k]| == 0) && |attempts| >= config.maxKeys {
        shed := EvictStale(now - config.window);
      }
    }

    method EvictStale(cutoff: int) returns (ghost shed: set<Key>)
      modifies this`attempts, this`evicted
      ensures Sheds(config, Unexpired(old(attempts), cutoff), cutoff, shed)
      ensures attempts == Evicted(old(attempts), cutoff, shed)
      ensures evicted == old(evicted) + |old(attempts)| - |attempts|
    {
      DropExpired(cutoff);
      shed := {};
      if |attempts| < config.maxKeys {
        return;
      }
      shed := RelievePressure(cutoff);
    }

    /** Second phase: shed the least recently active keys that have budget left. */
    method RelievePressure(cutoff: int) returns (ghost shed: set<Key>)
      requires |attempts| >= config.maxKeys && forall k :: k in attempts ==> |attempts[k]| > 0
      modifies this`attempts, this`evicted
      ensures Sheds(config, old(attempts), cutoff, shed)
      ensures attempts == old(attempts) - shed
      ensures evicted == old(evicted) + |old(attempts)| - |attempts|
    {
      var found := CollectEvictable(cutoff);
      var evictable := SortByAge(found);
      SortKeepsKeys(found);
      var drop := |attempts| - config.maxKeys + config.maxKeys / 10 + 1;
      var n := Min(drop, |evictable|);
      PrefixSheds(config, attempts, cutoff, evictable);
      shed := KeysOf(evictable[..n]);
      ShedPrefix(attempts, evictable, n);
    }

    /** Delete one resident key and count it. */
    method Delete(k: Key)
      requires k in attempts
      modifies this`attempts, this`evicted
      ensures attempts == old(attempts) - {k} && |attempts| == |old(attempts)| - 1
      ensures evicted == old(evicted) + 1
    {
      attempts := attempts - {k};
      evicted := evicted + 1;
      assert old(attempts).Keys == attempts.Keys + {k};
    }

    /** First phase: map iteration in any order, deleting as it goes. */
    method DropExpired(cutoff: int)
      modifies this`attempts, this`evicted
      ensures attempts == Unexpired(old(attempts), cutoff)
      ensures evicted == old(evicted) + |old(attempts)| - |attempts|
    {
      var todo := attempts.Keys;
      while todo != {}
        invariant todo <= attempts.Keys <= old(attempts).Keys
        invariant forall k :: k in attempts ==> attempts[k] == old(attempts)[k]
        invariant forall k :: k in old(attempts) && k !in todo ==>
                    (k in attempts <==> k in Unexpired(old(attempts), cutoff))
        invariant evicted + |attempts| == old(evicted) + |old(attempts)|
      {
        var k :| k in todo;
        todo := todo - {k};
        if |attempts[k]| == 0 || attempts[k][|attempts[k]| - 1] < cutoff {
          Delete(k);
        }
      }
    }

    /** The candidates of the second phase, in map iteration order. */
    method CollectEvictable(cutoff: int) returns (out: seq<Aged>)
      requires forall k :: k in attempts ==> attempts[k] != []
      ensures Candidates(attempts, multiset(out))
      ensures KeysOf(out) == Evictable(attempts, cutoff, config.max)
    {
      out := [];
      var todo := attempts.Keys;
      while todo != {}
        invariant todo <= attempts.Keys && Gathered(attempts, cutoff, config.max, todo, out)
      {
        var k :| k in todo;
        var live := CountLive(attempts[k], cutoff);
        GatherNext(attempts, cutoff, config.max, todo, out, k);
        if live < config.max {
          out := out + [Aged(k, attempts[k][|attempts[k]| - 1])];
        }
        todo := todo - {k};
      }
      assert KeysOf(out) == Evictable(attempts, cutoff, config.max);
    }

    static method CountLive(ts: seq<int>, cutoff: int) returns (live: nat)
      ensures live == Live(ts, cutoff)
    {
      live := 0;
      for i := 0 to |ts|
        invariant live + Live(ts[i..], cutoff) == Live(ts, cutoff)
      {
        if ts[i] >= cutoff {
          live := live + 1;
        }
      }
    }

    /** Delete the first `n` candidates. */
    method ShedPrefix(ghost before: Table, sorted: seq<Aged>, n: nat)
      requires before == attempts && n <= |sorted| && Candidates(before, multiset(sorted))
      modifies this`attempts, this`evicted
      ensures attempts == before - KeysOf(sorted[..n])
      ensures evicted == old(evicted) + |before| - |attempts|
    {
      ghost var shed: set<Key> := {};
      assert KeysOf(sorted[..0]) == {};
      for i := 0 to n
        invariant shed == KeysOf(sorted[..i])
        invariant attempts == before - shed
        invariant evicted + |attempts| == old(evicted) + |before|
      {
        NextCandidate(before, sorted, i);
        RemoveOneMore(before, shed, sorted[i].key);
        Delete(sorted[i].key);
        shed := shed + {sorted[i].key};
      }
    }

    method Prune(now: int)
      modifies this`attempts
      ensures attempts == Pruned(old(attempts), now - config.window)
    {
      var cutoff := now - config.window;
      var todo := attempts.Keys;
      while todo != {}
        invariant todo <= attempts.Keys <= old(attempts).Keys
        invariant forall k :: k in todo ==> attempts[k] == old(attempts)[k]
        invariant forall k :: k in old(attempts) && k !in todo ==>
                    (k in attempts <==> Trim(old(attempts)[k], cutoff) != [])
        invariant forall k :: k in attempts && k !in todo ==> attempts[k] == Trim(old(attempts)[k], cutoff)
      {
        var k :| k in todo;
        todo := todo - {k};
        var rest := TrimOld(attempts[k], cutoff);
        if |rest| == 0 {
          attempts := attempts - {k};
        } else {
          attempts := attempts[k := rest];
        }
      }
    }
  }

  // ---------------------------------------------------------------------------------------
  // Whole runs
  // ---------------------------------------------------------------------------------------

  /** The table and clock, with the log of every key: the times it was admitted since the last
      time it was shed under pressure. */
  datatype System = System(table: Table, clock: int, logs: map<Key, seq<int>>)

  /** One call.  `shed` is the eviction's choice of keys. */
  datatype Event =
    | Allow(key: Key, now: int, shed: set<Key>, ok: bool)
    | Prune(now: int)

  function Log(s: System, k: Key): seq<int> {
    if k in s.logs then s.logs[k] else []
  }

  /** `Allow` reads the clock under the lock; a prune's time was read before it took the lock, so it may
      lag behind. */
  ghost predicate Next(c: Config, s: System, e: Event, s': System) {
    match e
    case Allow(k, now, shed, ok) =>
      && s.clock <= now == s'.clock
      && Allows(c, s.table, k, now, shed, s'.table, ok)
      && s'.logs == (s.logs - shed)[k := if ok then Log(s, k) + [now] else Log(s, k)]
    case Prune(now) => PruneStep(c, s, now, s')
  }

  ghost predicate PruneStep(c: Config, s: System, now: int, s': System) {
    && s'.clock == (if now < s.clock then s.clock else now)
    && s'.table == Pruned(s.table, now - c.window) && s'.logs == s.logs
  }

  ghost predicate Run(c: Config, ss: seq<System>, es: seq<Event>) {
    && |ss| == |es| + 1
    && forall i :: 0 <= i < |es| ==> Next(c, ss[i], es[i], ss[i + 1])
  }

  predicate Initial(s: System) {
    s.table == map[] && s.logs == map[]
  }

  lemma {:induction false} TrimFacts(ts: seq<int>, cutoff: int)
    ensures var r := Trim(ts, cutoff);
            && |r| <= |ts| && r == ts[|ts| - |r|..]
            && (forall i :: 0 <= i < |ts| - |r| ==> ts[i] < cutoff)
            && (r != [] ==> r[0] >= cutoff)
  {
    if ts != [] && ts[0] < cutoff {
      TrimFacts(ts[1..], cutoff);
    }
  }

  lemma {:induction false} LiveConcat(a: seq<int>, b: seq<int>, cutoff: int)
    ensures Live(a + b, cutoff) == Live(a, cutoff) + Live(b, cutoff)
  {
    if a == [] {
      assert a + b == b;
    } else {
      LiveConcat(a[1..], b, cutoff);
      assert (a + b)[1..] == a[1..] + b;
    }
  }

  lemma {:induction false} LiveNone(ts: seq<int>, cutoff: int)
    requires forall i :: 0 <= i < |ts| ==> ts[i] < cutoff
    ensures Live(ts, cutoff) == 0
  {
    if ts != [] {
      LiveNone(ts[1..], cutoff);
    }
  }

  lemma {:induction false} LiveAll(ts: seq<int>, cutoff: int)
    requires forall i :: 0 <= i < |ts| ==> ts[i] >= cutoff
    ensures Live(ts, cutoff) == |ts|
  {
    if ts != [] {
      LiveAll(ts[1..], cutoff);
    }
  }

  /** On an ordered list, trimming at one cutoff keeps what is live at any later one. */
  lemma TrimKeepsLive(ts: seq<int>, cutoff: int, later: int)
    requires cutoff <= later
    ensures Live(Trim(ts, cutoff), later) == Live(ts, later)
  {
    TrimFacts(ts, cutoff);
    var r := Trim(ts, cutoff);
    var gone := ts[..|ts| - |r|];
    assert ts == gone + r;
    LiveConcat(gone, r, later);
    LiveNone(gone, later);
  }

  lemma TrimIsLive(ts: seq<int>, cutoff: int)
    requires Sorted(ts)
    ensures |Trim(ts, cutoff)| == Live(ts, cutoff)
  {
    TrimFacts(ts, cutoff);
    TrimKeepsLive(ts, cutoff, cutoff);
    LiveAll(Trim(ts, cutoff), cutoff);
  }

  /** No `max + 1` consecutive times fit in one closed window. */
  predicate Spaced(log: seq<int>, max: int, window: int) {
    forall i, j :: 0 <= i < |log| && 0 <= j < |log| && j == i + max ==> log[j] - log[i] > window
  }

  /** How one key's entry relates to its log: the entry is the log without some expired head,
      and no `max + 1` consecutive admissions fit in one window. */
  ghost predicate KeyInv(c: Config, entry: seq<int>, log: seq<int>, clock: int) {
    && Sorted(log) && (log != [] ==> log[|log| - 1] <= clock)
    && |entry| <= |log| && entry == log[|log| - |entry|..]
    && (forall j :: 0 <= j < |log| - |entry| ==> log[j] < clock - c.window)
    && Spaced(log, c.max, c.window)
  }

  /** Dropping an expired head, or letting time pass, keeps the relation. */
  lemma Shorten(c: Config, entry: seq<int>, log: seq<int>, clock: int, now: int, entry': seq<int>)
    requires KeyInv(c, entry, log, clock) && clock <= now
    requires |entry'| <= |entry| && entry' == entry[|entry| - |entry'|..]
    requires forall i :: 0 <= i < |entry| - |entry'| ==> entry[i] < now - c.window
    ensures KeyInv(c, entry', log, now)
  {
    assert entry' == log[|log| - |entry'|..];
    forall j | 0 <= j < |log| - |entry'|
      ensures log[j] < now - c.window
    {
      if j >= |log| - |entry| {
        assert log[j] == entry[j - (|log| - |entry|)];
      }
    }
  }

  /** Under the relation, the table's decision is the decision of the log. */
  lemma DecisionOfLog(c: Config, entry: seq<int>, log: seq<int>, clock: int, now: int)
    requires KeyInv(c, entry, log, clock) && clock <= now
    ensures |Trim(entry, now - c.window)| == Live(log, now - c.window)
  {
    var gone := log[..|log| - |entry|];
    assert log == gone + entry;
    LiveConcat(gone, entry, now - c.window);
    LiveNone(gone, now - c.window);
    TrimIsLive(entry, now - c.window);
  }

  lemma AdmitSpaced(c: Config, entry: seq<int>, log: seq<int>, now: int)
    requires KeyInv(c, entry, log, now) && |entry| < c.max
    ensures Spaced(log + [now], c.max, c.window)
  {
    var more := log + [now];
    forall i, j | 0 <= i < |more| && 0 <= j < |more| && j == i + c.max
      ensures more[j] - more[i] > c.window
    {
      if j == |log| {
        assert log[i] < now - c.window;
      }
    }
  }

  /** Admitting an attempt with budget left keeps the spacing. */
  lemma Admit(c: Config, entry: seq<int>, log: seq<int>, now: int)
    requires KeyInv(c, entry, log, now) && |entry| < c.max
    ensures KeyInv(c, entry + [now], log + [now], now)
  {
    AdmitSpaced(c, entry, log, now);
    AppendSorted(log, now);
    assert entry + [now] == (log + [now])[|log| - |entry|..];
  }

  lemma AppendSorted(log: seq<int>, now: int)
    requires Sorted(log) && (log != [] ==> log[|log| - 1] <= now)
    ensures Sorted(log + [now])
  {
  }

  /** A call on another key sheds `k` only while it has budget left. */
  lemma OtherShed(c: Config, t: Table, key: Key, now: int, shed: set<Key>, t': Table, ok: bool, k: Key)
    ensures Allows(c, t, key, now, shed, t', ok) && k != key && k in shed ==>
              Entry(t', k) == [] && Live(Entry(t, k), now - c.window) < c.max
  {
  }

  /** Otherwise it leaves the entry of `k` alone, or removes it as expired. */
  lemma OtherKept(c: Config, t: Table, key: Key, now: int, shed: set<Key>, t': Table, ok: bool, k: Key)
    ensures Allows(c, t, key, now, shed, t', ok) && k != key && k !in shed ==>
              Entry(t', k) == Entry(t, k) || (Entry(t', k) == [] && Expired(Entry(t, k), now - c.window))
  {
  }

  lemma KeyStepOther(c: Config, s: System, e: Event, s': System, k: Key)
    requires KeyInv(c, Entry(s.table, k), Log(s, k), s.clock) && Next(c, s, e, s')
    requires e.Allow? && e.key != k
    ensures KeyInv(c, Entry(s'.table, k), Log(s', k), s'.clock)
  {
    var entry, log := Entry(s.table, k), Log(s, k);
    if k in e.shed {
      OtherShed(c, s.table, e.key, e.now, e.shed, s'.table, e.ok, k);
    } else {
      OtherKept(c, s.table, e.key, e.now, e.shed, s'.table, e.ok, k);
      assert Log(s', k) == log;
      Shorten(c, entry, log, s.clock, e.now, Entry(s'.table, k));
    }
  }

  lemma KeyStepOwn(c: Config, s: System, e: Event, s': System)
    requires e.Allow? && KeyInv(c, Entry(s.table, e.key), Log(s, e.key), s.clock) && Next(c, s, e, s')
    ensures KeyInv(c, Entry(s'.table, e.key), Log(s', e.key), s'.clock)
  {
    var entry, log, cutoff := Entry(s.table, e.key), Log(s, e.key), e.now - c.window;
    TrimFacts(entry, cutoff);
    var recent := Trim(entry, cutoff);
    Shorten(c, entry, log, s.clock, e.now, recent);
    if e.ok {
      Admit(c, recent, log, e.now);
    }
  }

  lemma PrunedEntry(t: Table, cutoff: int, k: Key)
    ensures Entry(Pruned(t, cutoff), k) == Trim(Entry(t, k), cutoff)
  {
  }

  /** Trimming at a time that may lag behind the clock keeps the relation. */
  lemma TrimKeepsInv(c: Config, entry: seq<int>, log: seq<int>, clock: int, now: int, clock': int)
    requires KeyInv(c, entry, log, clock) && clock <= clock' && now <= clock'
    ensures KeyInv(c, Trim(entry, now - c.window), log, clock')
  {
    TrimFacts(entry, now - c.window);
    Shorten(c, entry, log, clock, clock', Trim(entry, now - c.window));
  }

  lemma PruneEffect(c: Config, s: System, now: int, s': System, k: Key)
    requires PruneStep(c, s, now, s')
    ensures Entry(s'.table, k) == Trim(Entry(s.table, k), now - c.window) && Log(s', k) == Log(s, k)
    ensures s.clock <= s'.clock && now <= s'.clock
  {
    PrunedEntry(s.table, now - c.window, k);
  }

  lemma KeyStepPrune(c: Config, s: System, now: int, s': System, k: Key)
    requires KeyInv(c, Entry(s.table, k), Log(s, k), s.clock) && s.clock <= s'.clock && now <= s'.clock
    requires Entry(s'.table, k) == Trim(Entry(s.table, k), now - c.window) && Log(s', k) == Log(s, k)
    ensures KeyInv(c, Entry(s'.table, k), Log(s', k), s'.clock)
  {
    TrimKeepsInv(c, Entry(s.table, k), Log(s, k), s.clock, now, s'.clock);
  }

  lemma KeyStep(c: Config, s: System, e: Event, s': System, k: Key)
    requires KeyInv(c, Entry(s.table, k), Log(s, k), s.clock) && Next(c, s, e, s')
    ensures KeyInv(c, Entry(s'.table, k), Log(s', k), s'.clock)
  {
    if e.Prune? {
      PruneEffect(c, s, e.now, s', k);
      KeyStepPrune(c, s, e.now, s', k);
    } else if e.key == k {
      KeyStepOwn(c, s, e, s');
    } else {
      KeyStepOther(c, s, e, s', k);
    }
  }

  lemma {:induction false} KeyInvAlways(c: Config, ss: seq<System>, es: seq<Event>, k: Key, n: nat)
    requires Run(c, ss, es) && Initial(ss[0]) && n <= |es|
    ensures KeyInv(c, Entry(ss[n].table, k), Log(ss[n], k), ss[n].clock)
  {
    if n > 0 {
      KeyInvAlways(c, ss, es, k, n - 1);
      KeyStep(c, ss[n - 1], es[n - 1], ss[n], k);
    }
  }

  /** The fast table refines the plain log: in every run, whatever other keys did and whatever was
      pruned or evicted, `Allow` admits exactly when fewer than `max` attempts of this key were
      admitted in the last window since the key was last shed. */
  lemma TableRefinesLog(c: Config, ss: seq<System>, es: seq<Event>, n: nat)
    requires Run(c, ss, es) && Initial(ss[0]) && n < |es| && es[n].Allow?
    ensures es[n].ok <==> Live(Log(ss[n], es[n].key), es[n].now - c.window) < c.max
  {
    var k := es[n].key;
    KeyInvAlways(c, ss, es, k, n);
    assert Next(c, ss[n], es[n], ss[n + 1]);
    DecisionOfLog(c, Entry(ss[n].table, k), Log(ss[n], k), ss[n].clock, es[n].now);
  }

  /** How many of the times fall in a closed interval. */
  function CountIn(log: seq<int>, from: int, to: int): nat {
    if log == [] then 0 else CountIn(log[1..], from, to) + (if from <= log[0] <= to then 1 else 0)
  }

  lemma {:induction false} CountInIsDifference(log: seq<int>, from: int, to: int)
    requires from <= to + 1
    ensures CountIn(log, from, to) == Live(log, from) - Live(log, to + 1)
  {
    if log != [] {
      CountInIsDifference(log[1..], from, to);
    }
  }

  lemma SpacedCount(log: seq<int>, max: nat, window: int, from: int)
    requires Sorted(log) && Spaced(log, max, window) && window >= 0
    ensures CountIn(log, from, from + window) <= max
  {
    var to := from + window;
    CountInIsDifference(log, from, to);
    TrimIsLive(log, from);
    TrimIsLive(log, to + 1);
    TrimFacts(log, from);
    TrimFacts(log, to + 1);
    var a, b := |log| - Live(log, from), |log| - Live(log, to + 1);
    assert a < |log| ==> log[a] == Trim(log, from)[0];
    assert a + max < |log| ==> log[a + max] - log[a] > window;
  }

  lemma {:induction false} EmptyInterval(log: seq<int>, from: int, to: int)
    requires to < from
    ensures CountIn(log, from, to) == 0
  {
    if log != [] {
      EmptyInterval(log[1..], from, to);
    }
  }

  /** In every run, no closed interval of one window's length holds more than `max` admissions of a
      key between two evictions of it. */
  lemma AtMostMaxPerWindow(c: Config, ss: seq<System>, es: seq<Event>, k: Key, n: nat, from: int)
    requires Run(c, ss, es) && Initial(ss[0]) && n <= |es|
    ensures CountIn(Log(ss[n], k), from, from + c.window) <= if c.max > 0 then c.max else 0
  {
    KeyInvAlways(c, ss, es, k, n);
    NoAdmissionWithoutBudget(c, ss, es, k, n);
    if c.window < 0 {
      EmptyInterval(Log(ss[n], k), from, from + c.window);
    } else if c.max > 0 {
      SpacedCount(Log(ss[n], k), c.max, c.window, from);
    }
  }

  /** With a budget of zero or less nothing is ever admitted. */
  lemma {:induction false} NoAdmissionWithoutBudget(c: Config, ss: seq<System>, es: seq<Event>, k: Key, n: nat)
    requires Run(c, ss, es) && Initial(ss[0]) && n <= |es|
    ensures c.max <= 0 ==> Log(ss[n], k) == []
  {
    if n > 0 {
      NoAdmissionWithoutBudget(c, ss, es, k, n - 1);
      assert Next(c, ss[n - 1], es[n - 1], ss[n]);
    }
  }

  // ---------------------------------------------------------------------------------------
  // Other keys neither unblock nor block a key
  // ---------------------------------------------------------------------------------------

  predicate AdmitsKey(e: Event, k: Key) {
    e.Allow? && e.key == k && e.ok
  }

  /** One event that does not admit `k`: what will still be live at `horizon` never grows, and does
      not shrink while it fills the budget. */
  lemma LiveStep(c: Config, s: System, e: Event, s': System, k: Key, horizon: int)
    requires Next(c, s, e, s') && !AdmitsKey(e, k) && e.now - c.window <= horizon
    requires Sorted(Entry(s.table, k))
    ensures Sorted(Entry(s'.table, k))
    ensures Live(Entry(s'.table, k), horizon) <= Live(Entry(s.table, k), horizon)
    ensures Live(Entry(s.table, k), horizon) >= c.max ==>
              Live(Entry(s'.table, k), horizon) == Live(Entry(s.table, k), horizon)
  {
    var entry, cutoff := Entry(s.table, k), e.now - c.window;
    TrimFacts(entry, cutoff);
    TrimKeepsLive(entry, cutoff, horizon);
    if e.Allow? && e.key != k {
      LiveStepOther(c, s, e, s', k, horizon);
    }
  }

  lemma LiveStepOther(c: Config, s: System, e: Event, s': System, k: Key, horizon: int)
    requires Next(c, s, e, s') && e.Allow? && e.key != k && e.now - c.window <= horizon
    requires Sorted(Entry(s.table, k))
    ensures Entry(s'.table, k) == Entry(s.table, k) || Entry(s'.table, k) == []
    ensures Entry(s'.table, k) != Entry(s.table, k) ==>
              Live(Entry(s.table, k), horizon) < c.max || Live(Entry(s.table, k), horizon) == 0
  {
    var entry, cutoff := Entry(s.table, k), e.now - c.window;
    if k in e.shed {
      OtherShed(c, s.table, e.key, e.now, e.shed, s'.table, e.ok, k);
      LiveMonotone(entry, cutoff, horizon);
    } else {
      OtherKept(c, s.table, e.key, e.now, e.shed, s'.table, e.ok, k);
      if Expired(entry, cutoff) {
        LiveNone(entry, horizon);
      }
    }
  }

  lemma {:induction false} LiveMonotone(ts: seq<int>, cutoff: int, later: int)
    requires cutoff <= later
    ensures Live(ts, later) <= Live(ts, cutoff)
  {
    if ts != [] {
      LiveMonotone(ts[1..], cutoff, later);
    }
  }

  lemma {:induction false} LiveRun(c: Config, ss: seq<System>, es: seq<Event>, k: Key, n: nat, horizon: int)
    requires Run(c, ss, es) && n <= |es|
    requires Sorted(Entry(ss[0].table, k))
    requires forall i :: 0 <= i < n ==> !AdmitsKey(es[i], k) && es[i].now - c.window <= horizon
    ensures Sorted(Entry(ss[n].table, k))
    ensures Live(Entry(ss[n].table, k), horizon) <= Live(Entry(ss[0].table, k), horizon)
    ensures Live(Entry(ss[0].table, k), horizon) >= c.max ==>
              Live(Entry(ss[n].table, k), horizon) == Live(Entry(ss[0].table, k), horizon)
  {
    if n > 0 {
      LiveRun(c, ss, es, k, n - 1, horizon);
      LiveStep(c, ss[n - 1], es[n - 1], ss[n], k, horizon);
    }
  }

  /** The clock has passed the time of every earlier event. */
  lemma {:induction false} ClockMonotone(c: Config, ss: seq<System>, es: seq<Event>, i: nat, j: nat)
    requires Run(c, ss, es) && i < j <= |es|
    ensures es[i].now <= ss[j].clock
    decreases j - i
  {
    assert Next(c, ss[j - 1], es[j - 1], ss[j]);
    if i < j - 1 {
      ClockMonotone(c, ss, es, i, j - 1);
    }
  }

  /** Eviction never unblocks, and pressure never blocks: after any run of calls on other keys,
      prunes and rejected calls on this key, the next `Allow` of the key is decided by its attempts
      at the start of that run and the clock alone. */
  lemma OnlyTheClockUnblocks(c: Config, ss: seq<System>, es: seq<Event>, n: nat)
    requires Run(c, ss, es) && n < |es| && es[n].Allow?
    requires Sorted(Entry(ss[0].table, es[n].key))
    requires forall i :: 0 <= i < n ==> !AdmitsKey(es[i], es[n].key)
    ensures es[n].ok <==> Live(Entry(ss[0].table, es[n].key), es[n].now - c.window) < c.max
  {
    var k, horizon := es[n].key, es[n].now - c.window;
    forall i | 0 <= i < n
      ensures es[i].now - c.window <= horizon
    {
      ClockMonotone(c, ss, es, i, n);
      assert Next(c, ss[n], es[n], ss[n + 1]);
    }
    LiveRun(c, ss, es, k, n, horizon);
    assert Next(c, ss[n], es[n], ss[n + 1]);
    TrimIsLive(Entry(ss[n].table, k), horizon);
  }

  /** Whenever `Allow` inserts a new key, the table then fits its bound or every other resident key
      is at its limit. */
  lemma BoundedOrAllBlocked(c: Config, t: Table, k: Key, now: int, shed: set<Key>, t': Table, ok: bool)
    requires Allows(c, t, k, now, shed, t', ok) && k !in t
    ensures |t'| <= c.maxKeys || forall j :: j in t' && j != k ==> Live(t'[j], now - c.window) >= c.max
  {
    var room := Room(c, t, k, now, shed);
    assert t'.Keys == room.Keys + {k};
    assert |t'| <= |room| + 1;
    if |t'| > c.maxKeys {
      RoomFits(c, t, k, now, shed);
      forall j | j in t' && j != k
        ensures Live(t'[j], now - c.window) >= c.max
      {
        assert j in room && t'[j] == t[j];
      }
    }
  }

  lemma RoomFits(c: Config, t: Table, k: Key, now: int, shed: set<Key>)
    requires ShedFor(c, t, k, now, shed) && k !in t
    ensures var room := Room(c, t, k, now, shed);
            |room| < c.maxKeys || forall j :: j in room ==> j in t && Live(t[j], now - c.window) >= c.max
  {
    if Full(c, t, k) {
      EvictionFits(c, t, now - c.window, shed);
    }
  }

  /** Eviction leaves room for one more key, or only keys at their limit. */
  lemma EvictionFits(c: Config, t: Table, cutoff: int, shed: set<Key>)
    ensures Sheds(c, Unexpired(t, cutoff), cutoff, shed) ==>
              || |Evicted(t, cutoff, shed)| < c.maxKeys
              || forall j :: j in Evicted(t, cutoff, shed) ==> Live(t[j], cutoff) >= c.max
  {
    var live := Unexpired(t, cutoff);
    if Sheds(c, live, cutoff, shed) {
      var pool, left := Evictable(live, cutoff, c.max), Evicted(t, cutoff, shed);
      assert shed <= live.Keys;
      assert live.Keys == left.Keys + shed;
      if |live| >= c.maxKeys && |shed| == |pool| {
        SameSizeSubset(shed, pool);
      }
    }
  }

  /** The keys whose newest attempt is not before the cutoff. */
  ghost function Resident(t: Table, cutoff: int): set<Key> {
    set k | k in t && |t[k]| > 0 && t[k][|t[k]| - 1] >= cutoff
  }

  /** Those of them with budget left. */
  ghost function WithBudget(t: Table, cutoff: int, max: int): set<Key> {
    set k | k in Resident(t, cutoff) && Live(t[k], cutoff) < max
  }

  /** Eviction leaves the resident keys when they are below the bound, and else sheds down to the low-water mark, or
      as far as there are keys with budget left. */
  lemma EvictionSize(c: Config, t: Table, cutoff: int, shed: set<Key>)
    requires Sheds(c, Unexpired(t, cutoff), cutoff, shed)
    ensures var left, resident := |Evicted(t, cutoff, shed)|, |Resident(t, cutoff)|;
            var budget := |WithBudget(t, cutoff, c.max)|;
            if resident < c.maxKeys then left == resident
            else left == if resident - budget > c.maxKeys - c.maxKeys / 10 - 1 then resident - budget
                         else c.maxKeys - c.maxKeys / 10 - 1
  {
    var live := Unexpired(t, cutoff);
    assert live.Keys == Resident(t, cutoff);
    assert Evictable(live, cutoff, c.max) == WithBudget(t, cutoff, c.max);
    assert Evicted(t, cutoff, shed).Keys == live.Keys - shed;
    assert shed <= live.Keys;
    assert |live.Keys - shed| == |live.Keys| - |shed|;
  }

  /** What a call does to the other keys: nothing unless a key without attempts meets a table at its bound; then
      it drops the keys without an attempt in the window and sheds only keys with budget left. */
  lemma OtherKeysOf(c: Config, t: Table, k: Key, now: int, shed: set<Key>, t': Table, ok: bool, j: Key)
    requires Allows(c, t, k, now, shed, t', ok) && j != k
    ensures j in t' ==> j in t && t'[j] == t[j]
    ensures |t| < c.maxKeys || (k in t && |t[k]| > 0) ==> (j in t' <==> j in t)
    ensures j in t && j !in t' ==>
              || |t[j]| == 0 || t[j][|t[j]| - 1] < now - c.window
              || Live(t[j], now - c.window) < c.max
    ensures j in t && |t| >= c.maxKeys && (k in t ==> |t[k]| == 0) ==>
              (|t[j]| == 0 || t[j][|t[j]| - 1] < now - c.window ==> j !in t')
  {
  }

  lemma SameSizeSubset(a: set<Key>, b: set<Key>)
    requires a <= b && |a| == |b|
    ensures a == b
  {
    assert b == a + (b - a);
    assert |b| == |a| + |b - a|;
  }
}

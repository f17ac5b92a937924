/** Paged fan-in of connections, internal/api/handlers_env.go: per-server paging, flattening with the
    completeness flags, in-place filters, and limit/offset responses. */
module ConnzPaging {
  import opened Common
  import opened Ordering

  const PAGE_SIZE: nat := 1024
  const MAX_PER_SERVER: nat := 50000
  const MAX_CLUSTER_ROWS: nat := 100000

  datatype SubDetail = SubDetail(account: string, subject: string, queue: string, sid: string, msgs: int)

  /** A connection: its sort key fields, the account and name, and its subscriptions, plain or detailed. */
  datatype Conn = Conn(serverId: string, cid: nat, ip: string, port: int, account: string, name: string,
                       subs: seq<string>, subsDetail: seq<SubDetail>)

  datatype Page = Page(serverId: string, total: int, conns: seq<Conn>)

  /** What one server's endpoint answers at each offset; no answer stands for an error.  The loop never
      asks for the same offset twice. */
  type Endpoint = nat -> Option<Page>

  datatype ServerResult = ServerResult(conns: seq<Conn>, total: int, serverId: string, failed: bool, truncated: bool)

  const EMPTY_RESULT := ServerResult([], 0, "", false, false)

  // ---------------------------------------------------------------------------------------
  // One server
  // ---------------------------------------------------------------------------------------

  function Stamp(conns: seq<Conn>, id: string): (r: seq<Conn>) {
    seq(|conns|, i requires 0 <= i < |conns| => conns[i].(serverId := id))
  }

  /** Add a page to the accumulated result. */
  function Accumulate(r: ServerResult, p: Page): ServerResult {
    var named := if |r.serverId| == 0 then r.(serverId := p.serverId, total := p.total) else r;
    named.(conns := r.conns + Stamp(p.conns, p.serverId))
  }

  /** The page ends the loop. */
  predicate Last(p: Page, offset: nat) {
    |p.conns| == 0 || (p.total > 0 && offset + |p.conns| >= p.total) || |p.conns| < PAGE_SIZE
  }

  /** The total falls back to the loaded number, and the truncation flag is decided. */
  function Finish(r: ServerResult): ServerResult {
    var total := if r.total == 0 then |r.conns| else r.total;
    r.(total := total, truncated := r.truncated || total > |r.conns| || |r.conns| >= MAX_PER_SERVER)
  }

  function PagesFrom(fetch: Endpoint, offset: nat, r: ServerResult): (out: ServerResult)
    decreases MAX_PER_SERVER - offset
  {
    if offset >= MAX_PER_SERVER then Finish(r)
    else if fetch(offset).None? then r.(failed := true)
    else
      var p := fetch(offset).value;
      if Last(p, offset) then Finish(Accumulate(r, p))
      else PagesFrom(fetch, offset + |p.conns|, Accumulate(r, p))
  }

  /** One turn of the paging loop: the first named page gives the id and the total, every page's entries are
      stamped and appended, and the loop goes on from where the page ends, unless the page is empty or short, the
      reported total is reached or the cap is.  At the end a missing total is the number loaded. */
  lemma PagingTurn(fetch: Endpoint, offset: nat, r: ServerResult)
    ensures var out := PagesFrom(fetch, offset, r);
            if offset < 50000 && fetch(offset).None? then out == r.(failed := true)
            else if offset < 50000 then
              var p := fetch(offset).value;
              var total := if r.serverId == "" then p.total else r.total;
              var id := if r.serverId == "" then p.serverId else r.serverId;
              var r' := ServerResult(r.conns + Stamp(p.conns, p.serverId), total, id, r.failed, r.truncated);
              if |p.conns| == 0 || |p.conns| < 1024 || (p.total > 0 && offset + |p.conns| >= p.total) then Ends(r', out)
              else out == PagesFrom(fetch, offset + |p.conns|, r')
            else Ends(r, out)
  {
  }

  ghost predicate Ends(r: ServerResult, out: ServerResult) {
    && out.conns == r.conns && out.serverId == r.serverId && out.failed == r.failed
    && out.total == (if r.total == 0 then |r.conns| else r.total)
    && (out.truncated <==> r.truncated || out.total > |out.conns| || |out.conns| >= 50000)
  }

  method FetchServer(fetch: Endpoint) returns (result: ServerResult)
    ensures result == PagesFrom(fetch, 0, EMPTY_RESULT)
  {
    result := EMPTY_RESULT;
    var offset := 0;
    while offset < MAX_PER_SERVER
      invariant PagesFrom(fetch, offset, result) == PagesFrom(fetch, 0, EMPTY_RESULT)
      decreases MAX_PER_SERVER - offset
    {
      match fetch(offset) {
        case None =>
          result := result.(failed := true);
          return;
        case Some(page) =>
          if |result.serverId| == 0 {
            result := result.(serverId := page.serverId, total := page.total);
          }
          result := result.(conns := result.conns + Stamp(page.conns, page.serverId));
          var next := offset + |page.conns|;
          if |page.conns| == 0 || next <= offset || (page.total > 0 && next >= page.total) || |page.conns| < PAGE_SIZE {
            break;
          }
          offset := next;
      }
    }
    if result.total == 0 {
      result := result.(total := |result.conns|);
    }
    if result.total > |result.conns| || |result.conns| >= MAX_PER_SERVER {
      result := result.(truncated := true);
    }
  }

  /** The endpoint answers from one fixed list with its length reported: every page it returns is a
      stretch of the list from the requested offset, of any length, possibly shorter or longer than
      asked; any request may also fail. */
  ghost predicate Serves(fetch: Endpoint, id: string, list: seq<Conn>) {
    forall offset: nat :: fetch(offset).Some? ==> PageOf(fetch(offset).value, offset, id, list)
  }

  predicate PageOf(p: Page, offset: nat, id: string, list: seq<Conn>) {
    && p.serverId == id && p.total == |list|
    && (if offset <= |list| then |p.conns| <= |list| - offset && p.conns == list[offset..offset + |p.conns|]
        else p.conns == [])
  }

  /** The loop has read the first `offset` entries. */
  ghost predicate ReadTo(r: ServerResult, offset: nat, id: string, list: seq<Conn>) {
    && offset <= |list| && r.conns == Stamp(list[..offset], id)
    && !r.failed && !r.truncated
    && ((r.serverId == id && r.total == |list|) || (offset == 0 && r == EMPTY_RESULT))
  }

  lemma AccumulateReads(r: ServerResult, p: Page, offset: nat, id: string, list: seq<Conn>)
    requires ReadTo(r, offset, id, list) && PageOf(p, offset, id, list)
    ensures ReadTo(Accumulate(r, p), offset + |p.conns|, id, list)
    ensures Accumulate(r, p).total == |list|
  {
    assert list[..offset] + p.conns == list[..offset + |p.conns|];
    assert Stamp(list[..offset + |p.conns|], id) == Stamp(list[..offset], id) + Stamp(p.conns, id);
  }

  /** What reading a fixed list can end with: a prefix of it, and unless the request failed, the true
      total and the flag that is down exactly when the whole list was read within the cap. */
  ghost predicate ReadsPrefix(out: ServerResult, id: string, list: seq<Conn>) {
    && |out.conns| <= |list|
    && out.conns == Stamp(list[..|out.conns|], id)
    && (!out.failed ==>
          && out.serverId == id && out.total == |list|
          && (out.truncated <==> |out.conns| < |list| || |list| >= MAX_PER_SERVER))
  }

  lemma {:induction false} PrefixFrom(fetch: Endpoint, offset: nat, r: ServerResult, id: string, list: seq<Conn>)
    requires Serves(fetch, id, list) && ReadTo(r, offset, id, list)
    ensures ReadsPrefix(PagesFrom(fetch, offset, r), id, list)
    decreases MAX_PER_SERVER - offset
  {
    if offset < MAX_PER_SERVER && fetch(offset).Some? {
      var p := fetch(offset).value;
      AccumulateReads(r, p, offset, id, list);
      if !Last(p, offset) {
        PrefixFrom(fetch, offset + |p.conns|, Accumulate(r, p), id, list);
      }
    }
  }

  /** Against any fixed list the loop returns a prefix of it, each entry as listed but for the id of the serving
      server, and a result that neither failed nor was truncated is the whole list. */
  lemma FetchReadsPrefix(fetch: Endpoint, id: string, list: seq<Conn>)
    requires Serves(fetch, id, list)
    ensures ReadsPrefix(PagesFrom(fetch, 0, EMPTY_RESULT), id, list)
    ensures var out := PagesFrom(fetch, 0, EMPTY_RESULT);
            && (!out.failed && !out.truncated ==> out.conns == Stamp(list, id))
            && (forall i :: 0 <= i < |out.conns| ==> out.conns[i] == list[i].(serverId := id))
  {
    PrefixFrom(fetch, 0, EMPTY_RESULT, id, list);
    assert list[..|list|] == list;
  }

  /** The endpoint honours the page size and does not fail. */
  ghost predicate ServesFullPages(fetch: Endpoint, id: string, list: seq<Conn>) {
    && Serves(fetch, id, list)
    && (forall offset: nat :: fetch(offset).Some? && |fetch(offset).value.conns| ==
          if offset >= |list| then 0 else if |list| - offset < PAGE_SIZE then |list| - offset else PAGE_SIZE)
  }

  lemma {:induction false} FullFrom(fetch: Endpoint, offset: nat, r: ServerResult, id: string, list: seq<Conn>)
    requires ServesFullPages(fetch, id, list) && ReadTo(r, offset, id, list)
    requires offset % PAGE_SIZE == 0 && offset < MAX_PER_SERVER + PAGE_SIZE
    requires offset == |list| > 0 ==> offset >= MAX_PER_SERVER
    ensures var out := PagesFrom(fetch, offset, r);
            !out.failed && |out.conns| == Min(|list|, 49 * PAGE_SIZE)
    decreases MAX_PER_SERVER - offset
  {
    if offset < MAX_PER_SERVER {
      var p := fetch(offset).value;
      AccumulateReads(r, p, offset, id, list);
      if !Last(p, offset) {
        FullFrom(fetch, offset + PAGE_SIZE, Accumulate(r, p), id, list);
      }
    }
  }

  /** With full pages the truncation flag says exactly that the server has at least the per-server cap,
      and up to the 49 pages that reach the cap everything is loaded. */
  lemma TruncatedIffAtCap(fetch: Endpoint, id: string, list: seq<Conn>)
    requires ServesFullPages(fetch, id, list)
    ensures var out := PagesFrom(fetch, 0, EMPTY_RESULT);
            && !out.failed
            && out.conns == Stamp(list[..Min(|list|, 49 * PAGE_SIZE)], id)
            && (out.truncated <==> |list| >= 50000)
  {
    FetchReadsPrefix(fetch, id, list);
    FullFrom(fetch, 0, EMPTY_RESULT, id, list);
  }

  // ---------------------------------------------------------------------------------------
  // All servers: fan-in and flattening
  // ---------------------------------------------------------------------------------------

  predicate KeyLess(a: Conn, b: Conn) {
    if a.serverId != b.serverId then Before(a.serverId, b.serverId)
    else if a.cid != b.cid then a.cid < b.cid
    else if a.ip != b.ip then Before(a.ip, b.ip)
    else a.port < b.port
  }

  predicate KeyLe(a: Conn, b: Conn) {
    !KeyLess(b, a)
  }

  /** The order of the list: by server, then connection id, then address, then port. */
  lemma KeyOrderMeans(a: Conn, b: Conn)
    ensures KeyLe(a, b) <==>
              || Before(a.serverId, b.serverId)
              || (a.serverId == b.serverId && a.cid < b.cid)
              || (a.serverId == b.serverId && a.cid == b.cid && Before(a.ip, b.ip))
              || (a.serverId == b.serverId && a.cid == b.cid && a.ip == b.ip && a.port <= b.port)
  {
    BeforeStrict(a.serverId, b.serverId);
    BeforeStrict(a.ip, b.ip);
  }

  lemma KeyOrder()
    ensures TotalPreorder(KeyLe)
  {
    forall a, b
      ensures KeyLe(a, b) || KeyLe(b, a)
    {
      BeforeStrict(a.serverId, b.serverId);
      BeforeStrict(a.ip, b.ip);
    }
    forall a, b, c
      ensures KeyLe(a, b) && KeyLe(b, c) ==> KeyLe(a, c)
    {
      KeyTransitive(a, b, c);
    }
  }

  lemma KeyTransitive(a: Conn, b: Conn, c: Conn)
    ensures KeyLe(a, b) && KeyLe(b, c) ==> KeyLe(a, c)
  {
    BeforeStrict(a.serverId, b.serverId);
    BeforeStrict(b.serverId, c.serverId);
    BeforeStrict(a.serverId, c.serverId);
    BeforeTransitive(a.serverId, b.serverId, c.serverId);
    BeforeTransitive(c.serverId, a.serverId, b.serverId);
    BeforeStrict(a.ip, b.ip);
    BeforeStrict(b.ip, c.ip);
    BeforeStrict(a.ip, c.ip);
    BeforeTransitive(a.ip, b.ip, c.ip);
  }

  method FetchConnzPages(servers: seq<Endpoint>) returns (results: seq<ServerResult>)
    ensures results == Results(servers)
  {
    results := [];
    for i := 0 to |servers|
      invariant results == Results(servers[..i])
    {
      var r := FetchServer(servers[i]);
      results := results + [r];
    }
    assert servers[..|servers|] == servers;
  }

  /** One result per server, in configuration order. */
  function Results(servers: seq<Endpoint>): (rs: seq<ServerResult>) {
    seq(|servers|, i requires 0 <= i < |servers| => PagesFrom(servers[i], 0, EMPTY_RESULT))
  }

  function Concat(parts: seq<seq<Conn>>): (r: seq<Conn>) {
    if parts == [] then [] else Concat(parts[..|parts| - 1]) + parts[|parts| - 1]
  }

  function Loaded(results: seq<ServerResult>): (r: seq<seq<Conn>>) {
    seq(|results|, i requires 0 <= i < |results| => results[i].conns)
  }

  function Totals(results: seq<ServerResult>): (n: int) {
    if results == [] then 0 else Totals(results[..|results| - 1]) + results[|results| - 1].total
  }

  function Failures(results: seq<ServerResult>): (n: nat)
    ensures n == 0 <==> forall i :: 0 <= i < |results| ==> !results[i].failed
    ensures n <= |results|
  {
    if results == [] then 0
    else
      var k := |results| - 1;
      assert results == results[..k] + [results[k]];
      Failures(results[..k]) + if results[k].failed then 1 else 0
  }

  /** The failed servers are counted one by one. */
  lemma {:induction false} FailuresCount(results: seq<ServerResult>)
    ensures Failures(results) == |set i | 0 <= i < |results| && results[i].failed|
  {
    if results != [] {
      var n := |results| - 1;
      FailuresCount(results[..n]);
      var before, all := set i | 0 <= i < n && results[..n][i].failed, set i | 0 <= i <= n && results[i].failed;
      assert all == before + if results[n].failed then {n} else {};
      assert (set i | 0 <= i < |results| && results[i].failed) == all;
    }
  }

  /** A server that reports no total counts as having what was loaded. */
  lemma UnreportedTotal(fetch: Endpoint, offset: nat, r: ServerResult)
    ensures var out := PagesFrom(fetch, offset, r);
            out.failed || r.failed || out.total != 0 || out.conns == []
    decreases MAX_PER_SERVER - offset
  {
  }

  ghost predicate AllWhole(results: seq<ServerResult>) {
    forall i :: 0 <= i < |results| ==> !results[i].failed && !results[i].truncated
  }

  /** Sorted by key with equal keys in configuration order, cut at the cluster cap. */
  function Flattened(results: seq<ServerResult>): (conns: seq<Conn>) {
    var all := StableSort(Concat(Loaded(results)), KeyLe);
    if |all| > MAX_CLUSTER_ROWS then all[..MAX_CLUSTER_ROWS] else all
  }

  ghost predicate Partial(results: seq<ServerResult>) {
    !AllWhole(results) || |Concat(Loaded(results))| > MAX_CLUSTER_ROWS
  }

  method FlattenConnz(results: seq<ServerResult>)
    returns (conns: seq<Conn>, reportedTotal: int, failedServers: nat, partial: bool)
    ensures conns == Flattened(results) && partial == Partial(results)
    ensures reportedTotal == Totals(results) && failedServers == Failures(results)
  {
    conns, reportedTotal, failedServers, partial := [], 0, 0, false;
    for i := 0 to |results|
      invariant conns == Concat(Loaded(results[..i]))
      invariant reportedTotal == Totals(results[..i]) && failedServers == Failures(results[..i])
      invariant !partial <==> AllWhole(results[..i])
    {
      var result := results[i];
      assert results[..i + 1][..i] == results[..i];
      assert Loaded(results[..i + 1])[..i] == Loaded(results[..i]);
      reportedTotal := reportedTotal + result.total;
      if result.failed {
        failedServers := failedServers + 1;
        partial := true;
      }
      if result.truncated {
        partial := true;
      }
      conns := conns + result.conns;
    }
    assert results[..|results|] == results;
    SortLength(conns);
    conns := StableSort(conns, KeyLe);
    if |conns| > MAX_CLUSTER_ROWS {
      conns := conns[..MAX_CLUSTER_ROWS];
      partial := true;
    }
  }

  lemma SortLength(s: seq<Conn>)
    ensures |StableSort(s, KeyLe)| == |s|
  {
    SortPermutes(s, KeyLe);
    assert |multiset(StableSort(s, KeyLe))| == |StableSort(s, KeyLe)|;
  }

  // ---------------------------------------------------------------------------------------
  // Completeness of the fan-in
  // ---------------------------------------------------------------------------------------

  /** Every server answers from its own fixed list. */
  ghost predicate ClusterServes(servers: seq<Endpoint>, ids: seq<string>, lists: seq<seq<Conn>>) {
    && |servers| == |ids| == |lists|
    && forall i :: 0 <= i < |servers| ==> Serves(servers[i], ids[i], lists[i])
  }

  /** Everything the servers have, stamped with the serving server. */
  function Everything(ids: seq<string>, lists: seq<seq<Conn>>): (r: seq<Conn>)
    requires |ids| == |lists|
  {
    Concat(seq(|ids|, i requires 0 <= i < |ids| => Stamp(lists[i], ids[i])))
  }

  lemma {:induction false} ConcatBelow(a: seq<seq<Conn>>, b: seq<seq<Conn>>)
    requires |a| == |b| && forall i :: 0 <= i < |a| ==> multiset(a[i]) <= multiset(b[i])
    ensures multiset(Concat(a)) <= multiset(Concat(b))
  {
    if a != [] {
      ConcatBelow(a[..|a| - 1], b[..|b| - 1]);
    }
  }

  lemma {:induction false} TotalsOfLists(results: seq<ServerResult>, parts: seq<seq<Conn>>)
    requires |results| == |parts| && forall i :: 0 <= i < |parts| ==> results[i].total == |parts[i]|
    ensures Totals(results) == |Concat(parts)|
  {
    if results != [] {
      TotalsOfLists(results[..|results| - 1], parts[..|parts| - 1]);
    }
  }

  lemma PrefixBelow(list: seq<Conn>, n: nat)
    requires n <= |list|
    ensures multiset(list[..n]) <= multiset(list)
  {
    assert list == list[..n] + list[n..];
  }

  /** What a flattened answer means for the servers' lists. */
  lemma FlattenComplete(servers: seq<Endpoint>, ids: seq<string>, lists: seq<seq<Conn>>)
    requires ClusterServes(servers, ids, lists)
    ensures var conns := Flattened(Results(servers));
            && Sorted(conns, KeyLe) && |conns| <= MAX_CLUSTER_ROWS
            && multiset(conns) <= multiset(Everything(ids, lists))
            && (!Partial(Results(servers)) ==>
                  && multiset(conns) == multiset(Everything(ids, lists))
                  && Stable(Everything(ids, lists), conns, KeyLe)
                  && Totals(Results(servers)) == |conns|)
  {
    var results := Results(servers);
    FlattenSorted(results);
    LoadedBelow(servers, ids, lists);
    if !Partial(results) {
      LoadedWhole(servers, ids, lists);
      FlattenWhole(results);
    }
  }

  lemma FlattenSorted(results: seq<ServerResult>)
    ensures Sorted(Flattened(results), KeyLe) && |Flattened(results)| <= MAX_CLUSTER_ROWS
    ensures multiset(Flattened(results)) <= multiset(Concat(Loaded(results)))
  {
    var joined := Concat(Loaded(results));
    var all := StableSort(joined, KeyLe);
    KeyOrder();
    SortSorts(joined, KeyLe);
    SortPermutes(joined, KeyLe);
    if |all| > MAX_CLUSTER_ROWS {
      PrefixBelow(all, MAX_CLUSTER_ROWS);
    }
  }

  lemma FlattenWhole(results: seq<ServerResult>)
    requires !Partial(results)
    ensures multiset(Flattened(results)) == multiset(Concat(Loaded(results)))
    ensures Stable(Concat(Loaded(results)), Flattened(results), KeyLe)
    ensures |Flattened(results)| == |Concat(Loaded(results))|
  {
    KeyOrder();
    SortPermutes(Concat(Loaded(results)), KeyLe);
    SortLength(Concat(Loaded(results)));
    SortStably(Concat(Loaded(results)), KeyLe);
  }

  lemma LoadedWhole(servers: seq<Endpoint>, ids: seq<string>, lists: seq<seq<Conn>>)
    requires ClusterServes(servers, ids, lists) && AllWhole(Results(servers))
    ensures Concat(Loaded(Results(servers))) == Everything(ids, lists)
    ensures Totals(Results(servers)) == |Everything(ids, lists)|
  {
    LoadedBelow(servers, ids, lists);
    var whole := seq(|ids|, i requires 0 <= i < |ids| => Stamp(lists[i], ids[i]));
    assert Loaded(Results(servers)) == whole;
    TotalsOfLists(Results(servers), whole);
  }

  lemma LoadedBelow(servers: seq<Endpoint>, ids: seq<string>, lists: seq<seq<Conn>>)
    requires ClusterServes(servers, ids, lists)
    ensures multiset(Concat(Loaded(Results(servers)))) <= multiset(Everything(ids, lists))
    ensures forall i :: 0 <= i < |servers| ==>
              var r := Results(servers)[i];
              !r.failed && !r.truncated ==> r.conns == Stamp(lists[i], ids[i]) && r.total == |lists[i]|
  {
    var loaded, whole := Loaded(Results(servers)), seq(|ids|, i requires 0 <= i < |ids| => Stamp(lists[i], ids[i]));
    forall i | 0 <= i < |servers|
      ensures multiset(loaded[i]) <= multiset(whole[i])
      ensures var r := Results(servers)[i];
              !r.failed && !r.truncated ==> r.conns == Stamp(lists[i], ids[i]) && r.total == |lists[i]|
    {
      assert Serves(servers[i], ids[i], lists[i]);
      FetchReadsPrefix(servers[i], ids[i], lists[i]);
      var n := |loaded[i]|;
      assert loaded[i] == whole[i][..n];
      PrefixBelow(whole[i], n);
    }
    ConcatBelow(loaded, whole);
  }

  // ---------------------------------------------------------------------------------------
  // Filtering in place and slicing
  // ---------------------------------------------------------------------------------------

  /** `filtered := all[:0]` with appends: the kept entries overwrite the front of the same array. */
  method FilterInPlace(a: array<Conn>, n: nat, keep: Conn -> bool) returns (m: nat)
    requires n <= a.Length
    modifies a
    ensures m <= n && a[..m] == Filter(old(a[..n]), keep)
    ensures a[n..] == old(a[n..])
  {
    m := 0;
    for i := 0 to n
      invariant m <= i && a[..m] == Filter(old(a[..i]), keep)
      invariant a[i..] == old(a[i..])
    {
      var c := a[i];
      assert old(a[..i + 1])[..i] == old(a[..i]) && c == old(a[i..])[0];
      if keep(c) {
        a[m] := c;
        m := m + 1;
      }
      assert a[i + 1..] == old(a[i..])[1..];
    }
  }

  /** `clampInt` on the parsed number; no number stands for an empty or invalid parameter. */
  function ClampInt(parsed: Option<int>, default: nat, max: nat): (r: nat) {
    if parsed.None? || parsed.value <= 0 then default
    else if parsed.value > max then max
    else parsed.value
  }

  function EffectiveLimit(parsed: Option<int>): (limit: nat)
    ensures parsed.Some? && 1 <= parsed.value <= 10000 ==> limit == parsed.value
    ensures parsed.Some? && parsed.value > 10000 ==> limit == 10000
    ensures parsed.None? || parsed.value < 1 ==> limit == 50
  {
    ClampInt(parsed, 50, 10000)
  }

  /** The connections of one response. */
  method Respond(list: seq<Conn>, limitParam: Option<int>, offsetParam: Option<int>) returns (page: seq<Conn>)
    ensures page == PageAt(list, limitParam, offsetParam)
  {
    var limit := ClampInt(limitParam, 50, 10000);
    var offset := ClampInt(offsetParam, 0, 100000);
    var loadedTotal := |list|;
    if offset > loadedTotal {
      offset := loadedTotal;
    }
    var end := offset + limit;
    if end > loadedTotal {
      end := loadedTotal;
    }
    page := list[offset..end];
  }

  function PageAt(list: seq<Conn>, limitParam: Option<int>, offsetParam: Option<int>): (page: seq<Conn>) {
    var offset := Min(ClampInt(offsetParam, 0, 100000), |list|);
    list[offset..Min(offset + EffectiveLimit(limitParam), |list|)]
  }

  lemma PageFrom(list: seq<Conn>, limitParam: Option<int>, offset: nat)
    requires |list| <= MAX_CLUSTER_ROWS
    ensures var limit := EffectiveLimit(limitParam);
            PageAt(list, limitParam, Some(offset)) == list[Min(offset, |list|)..Min(offset + limit, |list|)]
  {
  }

  /** A page: from the offset, 0 unless a positive one is given and 100000 at most, as many as the limit allows. */
  lemma PageIs(list: seq<Conn>, limitParam: Option<int>, offsetParam: Option<int>)
    ensures var start := if offsetParam.None? || offsetParam.value < 0 then 0 else Min(offsetParam.value, 100000);
            var limit := EffectiveLimit(limitParam);
            PageAt(list, limitParam, offsetParam) ==
              if start >= |list| then []
              else if start + limit >= |list| then list[start..]
              else list[start..start + limit]
  {
  }

  /** What a client reads that advances its offset by the reported limit up to the reported total. */
  function Walk(list: seq<Conn>, limitParam: Option<int>, offset: nat): (r: seq<Conn>)
    decreases |list| - offset
  {
    if offset >= |list| then []
    else PageAt(list, limitParam, Some(offset)) + Walk(list, limitParam, offset + EffectiveLimit(limitParam))
  }

  /** Successive pages concatenate to the whole list, whatever limit was asked for. */
  lemma {:induction false} PagesConcatenate(list: seq<Conn>, limitParam: Option<int>, offset: nat)
    requires |list| <= MAX_CLUSTER_ROWS
    ensures Walk(list, limitParam, offset) == list[Min(offset, |list|)..]
    decreases |list| - offset
  {
    if offset < |list| {
      PageFrom(list, limitParam, offset);
      PagesConcatenate(list, limitParam, offset + EffectiveLimit(limitParam));
    }
  }

  // ---------------------------------------------------------------------------------------
  // The filters
  // ---------------------------------------------------------------------------------------

  datatype ConnKey = ConnKey(serverId: string, cid: nat)

  predicate OfAccount(acc: string, c: Conn) {
    acc == "" || c.account == acc
  }

  /** No set stands for a request without a subject filter. */
  predicate Matched(matching: Option<set<ConnKey>>, c: Conn) {
    matching.None? || ConnKey(c.serverId, c.cid) in matching.value
  }

  function Listing(conns: seq<Conn>, acc: string, matching: Option<set<ConnKey>>): (r: seq<Conn>) {
    Filter(Filter(conns, (c: Conn) => OfAccount(acc, c)), (c: Conn) => Matched(matching, c))
  }

  lemma {:induction false} FilterAll(s: seq<Conn>, keep: Conn -> bool)
    requires forall i :: 0 <= i < |s| ==> keep(s[i])
    ensures Filter(s, keep) == s
  {
    if s != [] {
      FilterAll(s[..|s| - 1], keep);
      assert s == s[..|s| - 1] + [s[|s| - 1]];
    }
  }

  method FilterConns(conns: seq<Conn>, acc: string, matching: Option<set<ConnKey>>) returns (listing: seq<Conn>)
    ensures listing == Listing(conns, acc, matching)
  {
    var a := new Conn[|conns|](i requires 0 <= i < |conns| => conns[i]);
    var n := |conns|;
    assert a[..n] == conns;
    var ofAccount := (c: Conn) => OfAccount(acc, c);
    if acc != "" {
      n := FilterInPlace(a, n, ofAccount);
    } else {
      FilterAll(conns, ofAccount);
    }
    var matched := (c: Conn) => Matched(matching, c);
    ghost var first := Filter(conns, ofAccount);
    assert a[..n] == first;
    if matching.Some? {
      n := FilterInPlace(a, n, matched);
    } else {
      FilterAll(first, matched);
    }
    listing := a[..n];
  }

  /** When the answer is not partial, walking its pages lists every connection of every server that
      passes the filters, as often as it occurs, in key order, and nothing else. */
  lemma WalkListsEverything(servers: seq<Endpoint>, ids: seq<string>, lists: seq<seq<Conn>>,
                            acc: string, matching: Option<set<ConnKey>>, limitParam: Option<int>, c: Conn)
    requires ClusterServes(servers, ids, lists) && !Partial(Results(servers))
    ensures var walked := Walk(Listing(Flattened(Results(servers)), acc, matching), limitParam, 0);
            && Sorted(walked, KeyLe)
            && multiset(walked)[c] ==
                 if (acc == "" || c.account == acc) && (matching.None? || ConnKey(c.serverId, c.cid) in matching.value)
                 then multiset(Everything(ids, lists))[c] else 0
  {
    FlattenComplete(servers, ids, lists);
    var conns := Flattened(Results(servers));
    var ofAccount, matched := (c: Conn) => OfAccount(acc, c), (c: Conn) => Matched(matching, c);
    var first := Filter(conns, ofAccount);
    FilterShrinks(conns, ofAccount);
    FilterShrinks(first, matched);
    FilterSorted(conns, ofAccount, KeyLe);
    FilterSorted(first, matched, KeyLe);
    FilterMembers(conns, ofAccount, c);
    FilterMembers(first, matched, c);
    PagesConcatenate(Filter(first, matched), limitParam, 0);
  }
}

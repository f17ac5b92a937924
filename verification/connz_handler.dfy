/** The connection list handler of internal/api/handlers_env.go, with its subject filter taken from the
    subscription table. */
module ConnzHandler {
  import opened Common
  import opened Ordering
  import opened ConnzPaging
  import opened SubsRows

  /** `strings.Contains`. */
  predicate Contains(s: string, text: string) {
    exists i :: 0 <= i <= |s| - |text| && HoldsAt(s, text, i)
  }

  lemma ContainsMeans(s: string, text: string, a: string, b: string)
    ensures Contains(a + text + b, text)
    ensures Contains(s, text) <==> exists i :: 0 <= i <= |s| && s == s[..i] + text + TailAfter(s, i, |text|)
  {
    var w := a + text + b;
    assert w[|a|..|a| + |text|] == text && HoldsAt(w, text, |a|);
    if Contains(s, text) {
      var i :| 0 <= i <= |s| - |text| && HoldsAt(s, text, i);
      assert s == s[..i] + text + TailAfter(s, i, |text|);
    }
    if i :| 0 <= i <= |s| && s == s[..i] + text + TailAfter(s, i, |text|) {
      assert |s| == i + |text| + |TailAfter(s, i, |text|)|;
      assert s[i..i + |text|] == text;
      assert HoldsAt(s, text, i);
    }
  }

  /** What follows a stretch of the text. */
  function TailAfter(s: string, i: nat, n: nat): string {
    if i + n <= |s| then s[i + n..] else ""
  }

  predicate HoldsAt(s: string, text: string, i: nat) {
    i + |text| <= |s| && s[i..i + |text|] == text
  }

  // ---------------------------------------------------------------------------------------
  // Which connections have a matching subscription
  // ---------------------------------------------------------------------------------------

  predicate RowMatches(row: Row, k: ConnKey, text: string) {
    row.serverId == k.serverId && row.connCid == k.cid && Contains(row.subject, text)
  }

  ghost predicate AnyMatches(rows: seq<Row>, k: ConnKey, text: string) {
    exists i :: 0 <= i < |rows| && RowMatches(rows[i], k, text)
  }

  /** The `matchingConnections` loop. */
  method MatchingConnections(rows: seq<Row>, text: string) returns (keys: set<ConnKey>)
    ensures forall k :: k in keys <==> AnyMatches(rows, k, text)
  {
    keys := {};
    for i := 0 to |rows|
      invariant forall k :: k in keys <==> exists j :: 0 <= j < i && RowMatches(rows[j], k, text)
    {
      if Contains(rows[i].subject, text) {
        keys := keys + {ConnKey(rows[i].serverId, rows[i].connCid)};
        assert RowMatches(rows[i], ConnKey(rows[i].serverId, rows[i].connCid), text);
      }
    }
  }

  function SubjectAt(c: Conn, j: nat): string
    requires j < SubCount(c)
  {
    if |c.subsDetail| > 0 then c.subsDetail[j].subject else c.subs[j]
  }

  /** One of the connection's first `n` subscriptions contains the text. */
  ghost predicate HasSubject(c: Conn, n: nat, text: string) {
    exists j :: 0 <= j < n && j < SubCount(c) && Contains(SubjectAt(c, j), text)
  }

  /** A connection of that id has a subscription that contains the text. */
  ghost predicate Subscribes(conns: seq<Conn>, cid: nat, text: string) {
    exists i :: 0 <= i < |conns| && conns[i].cid == cid && HasSubject(conns[i], SubCount(conns[i]), text)
  }

  lemma AnyMatchesAppend(a: seq<Row>, b: seq<Row>, k: ConnKey, text: string)
    ensures AnyMatches(a + b, k, text) <==> AnyMatches(a, k, text) || AnyMatches(b, k, text)
  {
    var w := a + b;
    if AnyMatches(w, k, text) {
      var i :| 0 <= i < |w| && RowMatches(w[i], k, text);
      assert if i < |a| then w[i] == a[i] else w[i] == b[i - |a|];
    }
    if AnyMatches(a, k, text) {
      var i :| 0 <= i < |a| && RowMatches(a[i], k, text);
      assert w[i] == a[i];
    }
    if AnyMatches(b, k, text) {
      var i :| 0 <= i < |b| && RowMatches(b[i], k, text);
      assert w[|a| + i] == b[i];
    }
  }

  lemma AnyMatchesOne(row: Row, k: ConnKey, text: string)
    ensures AnyMatches([row], k, text) <==> RowMatches(row, k, text)
  {
    assert [row][0] == row;
  }

  lemma {:induction false} ConnRowsMatch(c: Conn, n: nat, id: string, name: string, k: ConnKey, text: string)
    requires n <= SubCount(c)
    ensures AnyMatches(ConnRows(c, n, id, name), k, text) <==>
              k.serverId == id && k.cid == c.cid && HasSubject(c, n, text)
  {
    if n > 0 {
      var row := RowAt(c, n - 1, id, name);
      ConnRowsMatch(c, n - 1, id, name, k, text);
      AnyMatchesAppend(ConnRows(c, n - 1, id, name), [row], k, text);
      AnyMatchesOne(row, k, text);
      HasSubjectNext(c, n, text);
      assert row.subject == SubjectAt(c, n - 1) && row.serverId == id && row.connCid == c.cid;
    }
  }

  lemma HasSubjectNext(c: Conn, n: nat, text: string)
    requires 0 < n <= SubCount(c)
    ensures HasSubject(c, n, text) <==> HasSubject(c, n - 1, text) || Contains(SubjectAt(c, n - 1), text)
  {
  }

  lemma {:induction false} ConnsRowsMatch(conns: seq<Conn>, id: string, name: string, k: ConnKey, text: string)
    ensures AnyMatches(ConnsRows(conns, id, name), k, text) <==> k.serverId == id && Subscribes(conns, k.cid, text)
  {
    if conns != [] {
      var n := |conns| - 1;
      var rows := ConnRows(conns[n], SubCount(conns[n]), id, name);
      ConnsRowsMatch(conns[..n], id, name, k, text);
      ConnRowsMatch(conns[n], SubCount(conns[n]), id, name, k, text);
      AnyMatchesAppend(ConnsRows(conns[..n], id, name), rows, k, text);
      SubscribesNext(conns, k.cid, text);
    }
  }

  lemma SubscribesNext(conns: seq<Conn>, cid: nat, text: string)
    requires conns != []
    ensures var n := |conns| - 1;
            Subscribes(conns, cid, text) <==>
              || Subscribes(conns[..n], cid, text)
              || (conns[n].cid == cid && HasSubject(conns[n], SubCount(conns[n]), text))
  {
    var n := |conns| - 1;
    assert forall i :: 0 <= i < n ==> conns[..n][i] == conns[i];
    if Subscribes(conns[..n], cid, text) {
      var i :| 0 <= i < n && conns[..n][i].cid == cid && HasSubject(conns[..n][i], SubCount(conns[..n][i]), text);
      assert conns[i].cid == cid;
    }
    if Subscribes(conns, cid, text) {
      var i :| 0 <= i < |conns| && conns[i].cid == cid && HasSubject(conns[i], SubCount(conns[i]), text);
      assert i < n ==> conns[..n][i].cid == cid;
    }
  }

  // ---------------------------------------------------------------------------------------
  // Where the subscriptions come from
  // ---------------------------------------------------------------------------------------

  /** The snapshot, or servers that answer from fixed lists. */
  datatype Source = Live(snap: Snapshot) | Http(ids: seq<string>, lists: seq<seq<Conn>>)

  /** The connection of that key has a subscription that contains the text. */
  ghost predicate Subscribed(source: Source, k: ConnKey, text: string) {
    match source
    case Live(snap) => k.serverId in snap.connz && Subscribes(snap.connz[k.serverId].conns, k.cid, text)
    case Http(ids, lists) =>
      |ids| == |lists| && exists i :: 0 <= i < |ids| && ids[i] == k.serverId && Subscribes(lists[i], k.cid, text)
  }

  lemma {:induction false} HttpMatch(ids: seq<string>, lists: seq<seq<Conn>>, n: nat, names: map<string, string>,
                                     k: ConnKey, text: string)
    requires n <= |ids| == |lists|
    ensures AnyMatches(AllSubscriptions(ids, lists, n, names), k, text) <==>
              exists i :: 0 <= i < n && ids[i] == k.serverId && Subscribes(lists[i], k.cid, text)
  {
    if n > 0 {
      var name := ServerName(names, ids[n - 1]);
      HttpMatch(ids, lists, n - 1, names, k, text);
      ConnsRowsMatch(lists[n - 1], ids[n - 1], name, k, text);
      AnyMatchesAppend(AllSubscriptions(ids, lists, n - 1, names), ConnsRows(lists[n - 1], ids[n - 1], name), k, text);
    }
  }

  /** Tables with the same rows have the same matches. */
  lemma SameRowsMatch(a: seq<Row>, b: seq<Row>, k: ConnKey, text: string)
    requires forall row :: row in a ==> row in b
    ensures AnyMatches(a, k, text) ==> AnyMatches(b, k, text)
  {
    if AnyMatches(a, k, text) {
      var i :| 0 <= i < |a| && RowMatches(a[i], k, text);
      assert a[i] in b;
      var j :| 0 <= j < |b| && b[j] == a[i];
      assert RowMatches(b[j], k, text);
    }
  }

  lemma MembersOf(a: seq<Row>, b: seq<Row>)
    requires multiset(a) == multiset(b)
    ensures forall row :: row in a ==> row in b
  {
    forall row | row in a
      ensures row in b
    {
      assert row in multiset(a);
    }
  }

  lemma HttpRowsMatch(rows: seq<Row>, ids: seq<string>, lists: seq<seq<Conn>>, names: map<string, string>, k: ConnKey,
                      text: string)
    requires |ids| == |lists| && multiset(rows) == multiset(AllSubscriptions(ids, lists, |ids|, names))
    ensures AnyMatches(rows, k, text) <==> Subscribed(Http(ids, lists), k, text)
  {
    var all := AllSubscriptions(ids, lists, |ids|, names);
    MembersOf(rows, all);
    MembersOf(all, rows);
    SameRowsMatch(rows, all, k, text);
    SameRowsMatch(all, rows, k, text);
    HttpMatch(ids, lists, |ids|, names, k, text);
  }

  /** Each row occurs as often as the snapshot has it. */
  ghost predicate SameAsSnapshot(rows: seq<Row>, snap: Snapshot) {
    forall row :: multiset(rows)[row] == Occurrences(snap, row)
  }

  lemma RowInSnapshot(rows: seq<Row>, snap: Snapshot, row: Row)
    requires SameAsSnapshot(rows, snap)
    ensures row in rows <==> row.serverId in snap.connz && row in ServerRows(snap, row.serverId)
  {
    assert row in rows <==> multiset(rows)[row] > 0;
  }

  /** Such a table matches where the snapshot does. */
  lemma LiveRowsMatch(rows: seq<Row>, snap: Snapshot, k: ConnKey, text: string)
    requires SameAsSnapshot(rows, snap)
    ensures AnyMatches(rows, k, text) <==> Subscribed(Live(snap), k, text)
  {
    if AnyMatches(rows, k, text) {
      var i :| 0 <= i < |rows| && RowMatches(rows[i], k, text);
      RowInSnapshot(rows, snap, rows[i]);
      MemberMatches(ServerRows(snap, k.serverId), rows[i], k, text);
      LiveServerMatch(snap, k, text);
    } else if k.serverId in snap.connz {
      LiveServerMatch(snap, k, text);
      var own := ServerRows(snap, k.serverId);
      forall j | 0 <= j < |own|
        ensures !RowMatches(own[j], k, text)
      {
        RowInSnapshot(rows, snap, own[j]);
        MemberMatches(rows, own[j], k, text);
      }
    }
  }

  lemma MemberMatches(rows: seq<Row>, row: Row, k: ConnKey, text: string)
    ensures row in rows && RowMatches(row, k, text) ==> AnyMatches(rows, k, text)
  {
  }

  lemma LiveServerMatch(snap: Snapshot, k: ConnKey, text: string)
    requires k.serverId in snap.connz
    ensures AnyMatches(ServerRows(snap, k.serverId), k, text) <==> Subscribed(Live(snap), k, text)
  {
    ConnsRowsMatch(snap.connz[k.serverId].conns, k.serverId, ServerName(snap.names, k.serverId), k, text);
  }

  // ---------------------------------------------------------------------------------------
  // The handler
  // ---------------------------------------------------------------------------------------

  datatype Response = Response(connections: seq<Conn>, total: nat, serverTotal: int, partial: bool, failedServers: nat,
                               subsAvailable: bool)

  /** The keys are those of the connections with a matching subscription. */
  ghost predicate MatchesSource(matching: set<ConnKey>, source: Source, text: string) {
    forall k :: k in matching <==> Subscribed(source, k, text)
  }

  /** The subject filter.  Unless the table is truncated it is exact for the source the table came from. */
  method SubjectFilter(text: string, snap: Option<Snapshot>, subsServers: seq<Endpoint>,
                       ghost subIds: seq<string>, ghost subLists: seq<seq<Conn>>)
    returns (matching: set<ConnKey>, truncated: bool, available: bool, ghost source: Source)
    requires subsServers != []
    ensures !truncated && (source.Live? || ClusterServes(subsServers, subIds, subLists)) ==>
              MatchesSource(matching, source, text)
    ensures source == Http(subIds, subLists) || (snap.Some? && source == Live(snap.value))
    ensures !available ==> matching == {}
  {
    var rows, live;
    rows, truncated, live := LoadSubsRows(snap, subsServers, subIds, subLists);
    source := if live && snap.Some? then Live(snap.value) else Http(subIds, subLists);
    matching := MatchingConnections(rows, text);
    available := |rows| > 0;
    if !truncated && (live || ClusterServes(subsServers, subIds, subLists)) {
      forall k
        ensures AnyMatches(rows, k, text) <==> Subscribed(source, k, text)
      {
        if live {
          LiveRowsMatch(rows, snap.value, k, text);
        } else {
          HttpRowsMatch(rows, subIds, subLists, NamesOf(snap), k, text);
        }
      }
    }
  }

  /** `handleConnz`; no response stands for an environment without servers.  The page is one of the listing
      under the account and the subject filter; without the partial flag the fan-in is whole and the
      filter exact. */
  method HandleConnz(servers: seq<Endpoint>, acc: string, text: string, snap: Option<Snapshot>,
                     subsServers: seq<Endpoint>, ghost subIds: seq<string>, ghost subLists: seq<seq<Conn>>,
                     limitParam: Option<int>, offsetParam: Option<int>)
    returns (r: Option<Response>, ghost matching: Option<set<ConnKey>>, ghost source: Source, ghost subsTruncated: bool)
    requires |subsServers| == |servers|
    ensures r.None? <==> servers == []
    ensures matching.None? <==> |text| == 0
    ensures r.Some? ==>
              var listing := Listing(Flattened(Results(servers)), acc, matching);
              && r.value.connections == PageAt(listing, limitParam, offsetParam) && r.value.total == |listing|
              && r.value.serverTotal == Totals(Results(servers)) && r.value.failedServers == Failures(Results(servers))
    ensures r.Some? && !r.value.partial ==>
              && !Partial(Results(servers))
              && (matching.Some? && (source.Live? || ClusterServes(subsServers, subIds, subLists)) ==>
                    MatchesSource(matching.value, source, text))
    ensures r.Some? ==> (r.value.partial <==> Partial(Results(servers)) || subsTruncated)
    ensures |text| == 0 ==> !subsTruncated && (r.Some? ==> !r.value.subsAvailable)
    ensures r.Some? && matching.Some? && !r.value.subsAvailable ==> matching.value == {}
  {
    subsTruncated := false;
    source, matching := Http(subIds, subLists), if |text| > 0 then Some({}) else None;
    if servers == [] {
      return None, matching, source, subsTruncated;
    }
    var results := FetchConnzPages(servers);
    var conns, serverTotal, failedServers, partial := FlattenConnz(results);
    var subsAvailable, cut := false, false;
    var keys: Option<set<ConnKey>> := None;
    if |text| > 0 {
      var found;
      found, cut, subsAvailable, source := SubjectFilter(text, snap, subsServers, subIds, subLists);
      keys := Some(found);
    }
    matching, subsTruncated := keys, cut;
    var listing := FilterConns(conns, acc, keys);
    var page := Respond(listing, limitParam, offsetParam);
    r := Some(Response(page, |listing|, serverTotal, partial || cut, failedServers, subsAvailable));
  }

  /** When neither flag is up, walking the pages of a subject-filtered request lists exactly the
      connections of the account that have a subscription containing the text, as often as they occur, in
      key order. */
  lemma WalkListsSubscribed(servers: seq<Endpoint>, ids: seq<string>, lists: seq<seq<Conn>>, acc: string,
                            matching: set<ConnKey>, source: Source, text: string, limitParam: Option<int>, c: Conn)
    requires ClusterServes(servers, ids, lists) && !Partial(Results(servers)) && MatchesSource(matching, source, text)
    ensures var walked := Walk(Listing(Flattened(Results(servers)), acc, Some(matching)), limitParam, 0);
            && Sorted(walked, KeyLe)
            && multiset(walked)[c] ==
                 if (acc == "" || c.account == acc) && Subscribed(source, ConnKey(c.serverId, c.cid), text)
                 then multiset(Everything(ids, lists))[c] else 0
  {
    WalkListsEverything(servers, ids, lists, acc, Some(matching), limitParam, c);
  }
}

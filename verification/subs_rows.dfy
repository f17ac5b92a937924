/** The subscription table of internal/api/handlers_env.go, built from the paged HTTP results or from
    the snapshot's connections, with early exits at the row cap. */
module SubsRows {
  import opened Common
  import opened Ordering
  import opened ConnzPaging
  import opened RowCap

  datatype Row = Row(subject: string, queue: string, sid: string, msgs: int, connCid: nat, connName: string,
                     connIp: string, account: string, serverId: string, serverName: string)

  function Itoa(n: nat): (s: string) {
    var digit := ['0' + (n % 10) as char];
    if n < 10 then digit else Itoa(n / 10) + digit
  }

  // ---------------------------------------------------------------------------------------
  // What the table should hold
  // ---------------------------------------------------------------------------------------

  /** The row of the `i`-th subscription.  A detailed one without an account has the connection's; a
      plain one has its position for a subscription id. */
  function RowAt(c: Conn, i: nat, id: string, name: string): Row
    requires i < SubCount(c)
  {
    if |c.subsDetail| > 0 then
      var sd := c.subsDetail[i];
      Row(sd.subject, sd.queue, sd.sid, sd.msgs, c.cid, c.name, c.ip,
          if |sd.account| == 0 then c.account else sd.account, id, name)
    else
      Row(c.subs[i], "", Itoa(i + 1), 0, c.cid, c.name, c.ip, c.account, id, name)
  }

  /** The row of a detailed subscription: its own subject, queue, id and count, its own account or else the
      connection's, and who holds it where. */
  lemma DetailedRow(c: Conn, i: nat, id: string, name: string)
    requires i < |c.subsDetail|
    ensures var row, sd := RowAt(c, i, id, name), c.subsDetail[i];
            && row.subject == sd.subject && row.queue == sd.queue && row.sid == sd.sid && row.msgs == sd.msgs
            && (sd.account != "" ==> row.account == sd.account) && (sd.account == "" ==> row.account == c.account)
            && row.connCid == c.cid && row.connName == c.name && row.connIp == c.ip
            && row.serverId == id && row.serverName == name
  {
  }

  /** The row of a plain subscription: its subject, its position counted from one, and the connection's account. */
  lemma PlainRow(c: Conn, i: nat, id: string, name: string)
    requires c.subsDetail == [] && i < |c.subs|
    ensures var row := RowAt(c, i, id, name);
            && row.subject == c.subs[i] && row.queue == "" && row.sid == Itoa(i + 1) && row.msgs == 0
            && row.account == c.account && row.connCid == c.cid && row.connName == c.name && row.connIp == c.ip
            && row.serverId == id && row.serverName == name
  {
  }

  /** The number a decimal text stands for. */
  function Atoi(s: string): int {
    if s == "" then 0 else 10 * Atoi(s[..|s| - 1]) + (s[|s| - 1] as int - '0' as int)
  }

  lemma {:induction false} ItoaReads(n: nat)
    ensures Itoa(n) != "" && Atoi(Itoa(n)) == n && (n > 0 ==> Itoa(n)[0] != '0')
    ensures forall i :: 0 <= i < |Itoa(n)| ==> '0' <= Itoa(n)[i] <= '9'
  {
    var s := Itoa(n);
    if n >= 10 {
      ItoaReads(n / 10);
      assert s[..|s| - 1] == Itoa(n / 10);
    } else {
      assert s[..|s| - 1] == "";
    }
  }

  /** All of a connection's subscriptions have a row: the detailed ones where it has any, else the plain. */
  lemma {:induction false} ConnRowsAre(c: Conn, k: nat, id: string, name: string)
    requires k <= if c.subsDetail != [] then |c.subsDetail| else |c.subs|
    ensures k <= SubCount(c) && |ConnRows(c, k, id, name)| == k
    ensures forall i :: 0 <= i < k ==> ConnRows(c, k, id, name)[i] == RowAt(c, i, id, name)
  {
    if k > 0 {
      ConnRowsAre(c, k - 1, id, name);
    }
  }

  function SubCount(c: Conn): nat {
    if |c.subsDetail| > 0 then |c.subsDetail| else |c.subs|
  }

  /** The rows of the first `k` subscriptions of a connection. */
  function ConnRows(c: Conn, k: nat, id: string, name: string): (rows: seq<Row>)
    requires k <= SubCount(c)
  {
    if k == 0 then [] else ConnRows(c, k - 1, id, name) + [RowAt(c, k - 1, id, name)]
  }

  function ConnsRows(conns: seq<Conn>, id: string, name: string): (rows: seq<Row>) {
    if conns == [] then []
    else
      var last := conns[|conns| - 1];
      ConnsRows(conns[..|conns| - 1], id, name) + ConnRows(last, SubCount(last), id, name)
  }

  /** The table so far against the rows it should hold: complete while below the cap, and never
      holding anything else. */
  ghost predicate Tracks(all: seq<Row>, expected: seq<Row>) {
    (|all| < MAX_ROWS ==> all == expected) && |all| <= |expected| && Within(all, expected)
  }

  ghost predicate Within(a: seq<Row>, b: seq<Row>) {
    forall i :: 0 <= i < |a| ==> a[i] in b
  }

  lemma SameMembers(a: seq<Row>, b: seq<Row>, c: seq<Row>)
    requires multiset(a) == multiset(b)
    ensures Within(b, c) ==> Within(a, c)
  {
    forall i | 0 <= i < |a|
      ensures a[i] in b
    {
      assert a[i] in multiset(a);
    }
  }

  lemma TracksLonger(all: seq<Row>, expected: seq<Row>, more: seq<Row>)
    ensures Tracks(all, expected) && |all| >= MAX_ROWS ==> Tracks(all, expected + more)
  {
  }

  lemma TracksNext(all: seq<Row>, expected: seq<Row>, row: Row)
    ensures Tracks(all, expected) ==> Tracks(all + [row], expected + [row])
  {
  }

  lemma Associative(a: seq<Row>, b: seq<Row>, c: seq<Row>)
    ensures a + b + c == a + (b + c)
  {
  }

  predicate SubjectLe(a: Row, b: Row) {
    !Before(b.subject, a.subject)
  }

  /** The table's order: by subject, byte by byte. */
  lemma SubjectOrderMeans(a: Row, b: Row)
    ensures SubjectLe(a, b) <==> a.subject == b.subject || Before(a.subject, b.subject)
  {
    BeforeStrict(a.subject, b.subject);
  }

  lemma SubjectOrder()
    ensures TotalPreorder(SubjectLe)
  {
    forall a: Row, b: Row
      ensures SubjectLe(a, b) || SubjectLe(b, a)
    {
      BeforeStrict(a.subject, b.subject);
    }
    forall a: Row, b: Row, c: Row
      ensures SubjectLe(a, b) && SubjectLe(b, c) ==> SubjectLe(a, c)
    {
      BeforeStrict(a.subject, b.subject);
      BeforeStrict(b.subject, c.subject);
      BeforeStrict(a.subject, c.subject);
      BeforeTransitive(a.subject, b.subject, c.subject);
    }
  }

  /** An unstable sort: some arrangement in subject order. */
  method SortBySubject(rows: seq<Row>) returns (r: seq<Row>)
    ensures multiset(r) == multiset(rows) && Sorted(r, SubjectLe)
  {
    SubjectOrder();
    SortPermutes(rows, SubjectLe);
    SortSorts(rows, SubjectLe);
    r := StableSort(rows, SubjectLe);
  }

  // ---------------------------------------------------------------------------------------
  // The innermost loops, shared by both builders
  // ---------------------------------------------------------------------------------------

  ghost predicate CoversConn(all: seq<Row>, expected: seq<Row>, c: Conn, k: nat, id: string, name: string) {
    k <= SubCount(c) && Tracks(all, expected + ConnRows(c, k, id, name))
  }

  lemma ConnNext(all: seq<Row>, expected: seq<Row>, c: Conn, k: nat, id: string, name: string)
    requires k < SubCount(c)
    ensures CoversConn(all, expected, c, k, id, name) ==>
              CoversConn(all + [RowAt(c, k, id, name)], expected, c, k + 1, id, name)
    ensures CoversConn(all, expected, c, k, id, name) && |all| >= MAX_ROWS ==>
              CoversConn(all, expected, c, k + 1, id, name)
  {
    var before, row := ConnRows(c, k, id, name), RowAt(c, k, id, name);
    TracksNext(all, expected + before, row);
    TracksLonger(all, expected + before, [row]);
    Associative(expected, before, [row]);
  }

  lemma {:induction false} ConnRest(all: seq<Row>, expected: seq<Row>, c: Conn, k: nat, id: string, name: string)
    requires k == SubCount(c) || (k < SubCount(c) && |all| >= MAX_ROWS)
    ensures CoversConn(all, expected, c, k, id, name) ==> CoversConn(all, expected, c, SubCount(c), id, name)
    decreases SubCount(c) - k
  {
    if k < SubCount(c) {
      ConnNext(all, expected, c, k, id, name);
      ConnRest(all, expected, c, k + 1, id, name);
    }
  }

  /** Append one connection's rows, leaving at the row that reaches the cap. */
  method AppendConn(all: seq<Row>, c: Conn, id: string, name: string, ghost expected: seq<Row>) returns (r: seq<Row>)
    requires Tracks(all, expected)
    ensures CoversConn(r, expected, c, SubCount(c), id, name)
    ensures |r| == Grown(|all|, SubCount(c))
  {
    assert expected + ConnRows(c, 0, id, name) == expected;
    var i;
    if |c.subsDetail| > 0 {
      r, i := AppendDetailed(all, c, id, name, expected);
    } else {
      r, i := AppendPlain(all, c, id, name, expected);
    }
    ConnRest(r, expected, c, i, id, name);
  }

  /** The first `i` subscriptions were appended: all of them, or those up to the cap. */
  predicate Stopped(before: nat, after: nat, i: nat, count: nat) {
    && i <= count && after == before + i && (i == count || after >= MAX_ROWS)
    && (count > 0 ==> i > 0) && (i > 1 ==> after <= MAX_ROWS)
  }

  method AppendDetailed(all: seq<Row>, c: Conn, id: string, name: string, ghost expected: seq<Row>)
    returns (r: seq<Row>, i: nat)
    requires |c.subsDetail| > 0 && CoversConn(all, expected, c, 0, id, name)
    ensures CoversConn(r, expected, c, i, id, name) && Stopped(|all|, |r|, i, SubCount(c))
  {
    r, i := all, 0;
    while i < |c.subsDetail|
      invariant i <= |c.subsDetail| && CoversConn(r, expected, c, i, id, name)
      invariant |r| == |all| + i && (i > 0 ==> |r| < MAX_ROWS)
    {
      var sd := c.subsDetail[i];
      var a := if |sd.account| == 0 then c.account else sd.account;
      ConnNext(r, expected, c, i, id, name);
      r := r + [Row(sd.subject, sd.queue, sd.sid, sd.msgs, c.cid, c.name, c.ip, a, id, name)];
      i := i + 1;
      if |r| >= MAX_ROWS {
        break;
      }
    }
  }

  method AppendPlain(all: seq<Row>, c: Conn, id: string, name: string, ghost expected: seq<Row>)
    returns (r: seq<Row>, i: nat)
    requires |c.subsDetail| == 0 && CoversConn(all, expected, c, 0, id, name)
    ensures CoversConn(r, expected, c, i, id, name) && Stopped(|all|, |r|, i, SubCount(c))
  {
    r, i := all, 0;
    while i < |c.subs|
      invariant i <= |c.subs| && CoversConn(r, expected, c, i, id, name)
      invariant |r| == |all| + i && (i > 0 ==> |r| < MAX_ROWS)
    {
      ConnNext(r, expected, c, i, id, name);
      r := r + [Row(c.subs[i], "", Itoa(i + 1), 0, c.cid, c.name, c.ip, c.account, id, name)];
      i := i + 1;
      if |r| >= MAX_ROWS {
        break;
      }
    }
  }

  // ---------------------------------------------------------------------------------------
  // From the paged HTTP results
  // ---------------------------------------------------------------------------------------

  function ServerName(names: map<string, string>, id: string): string {
    if id in names && |names[id]| > 0 then names[id] else id
  }

  /** A server is shown by its name, or by its id when it has none. */
  lemma ServerNameMeans(names: map<string, string>, id: string)
    ensures id in names && names[id] != "" ==> ServerName(names, id) == names[id]
    ensures id !in names || names[id] == "" ==> ServerName(names, id) == id
  {
  }

  /** The rows of the first `k` results that did not fail. */
  function ResultRows(results: seq<ServerResult>, k: nat, names: map<string, string>): (rows: seq<Row>)
    requires k <= |results|
  {
    if k == 0 then []
    else
      var r := results[k - 1];
      ResultRows(results, k - 1, names)
      + if r.failed then [] else ConnsRows(r.conns, r.serverId, ServerName(names, r.serverId))
  }

  ghost predicate CoversConns(all: seq<Row>, expected: seq<Row>, conns: seq<Conn>, k: nat, id: string, name: string) {
    k <= |conns| && Tracks(all, expected + ConnsRows(conns[..k], id, name))
  }

  /** The connection loop of `loadSubsRows`, which stops once the cap is reached. */
  method AppendServer(all: seq<Row>, conns: seq<Conn>, id: string, name: string, ghost expected: seq<Row>)
    returns (r: seq<Row>)
    requires Tracks(all, expected)
    ensures Tracks(r, expected + ConnsRows(conns, id, name))
  {
    r := all;
    assert expected == expected + ConnsRows(conns[..0], id, name);
    var k := 0;
    while k < |conns| && |r| < MAX_ROWS
      invariant k <= |conns| && CoversConns(r, expected, conns, k, id, name)
    {
      r := AppendNext(r, conns, k, id, name, expected);
      k := k + 1;
    }
    ConnsRest(r, expected, conns, k, id, name);
    assert conns[..|conns|] == conns;
  }

  lemma {:induction false} ConnsRest(r: seq<Row>, expected: seq<Row>, conns: seq<Conn>, k: nat, id: string,
                                     name: string)
    requires k == |conns| || (k < |conns| && |r| >= MAX_ROWS)
    ensures CoversConns(r, expected, conns, k, id, name) ==> CoversConns(r, expected, conns, |conns|, id, name)
    decreases |conns| - k
  {
    if k < |conns| {
      var before, rows := ConnsRows(conns[..k], id, name), ConnRows(conns[k], SubCount(conns[k]), id, name);
      assert conns[..k + 1][..k] == conns[..k];
      TracksLonger(r, expected + before, rows);
      Associative(expected, before, rows);
      ConnsRest(r, expected, conns, k + 1, id, name);
    }
  }

  method AppendNext(all: seq<Row>, conns: seq<Conn>, k: nat, id: string, name: string, ghost expected: seq<Row>)
    returns (r: seq<Row>)
    requires k < |conns| && CoversConns(all, expected, conns, k, id, name)
    ensures CoversConns(r, expected, conns, k + 1, id, name)
    ensures |r| == Grown(|all|, SubCount(conns[k]))
  {
    ghost var before := ConnsRows(conns[..k], id, name);
    r := AppendConn(all, conns[k], id, name, expected + before);
    assert conns[..k + 1][..k] == conns[..k];
    Associative(expected, before, ConnRows(conns[k], SubCount(conns[k]), id, name));
  }

  lemma {:induction false} ResultRowsGrow(all: seq<Row>, results: seq<ServerResult>, names: map<string, string>, k: nat)
    requires k == |results| || (k < |results| && |all| >= MAX_ROWS)
    ensures Covers(all, results, k, names) ==> Covers(all, results, |results|, names)
    decreases |results| - k
  {
    if k < |results| {
      var r := results[k];
      TracksLonger(all, ResultRows(results, k, names),
                   if r.failed then [] else ConnsRows(r.conns, r.serverId, ServerName(names, r.serverId)));
      ResultRowsGrow(all, results, names, k + 1);
    }
  }

  method RowsFromResults(results: seq<ServerResult>, names: map<string, string>)
    returns (rows: seq<Row>, truncated: bool)
    ensures Sorted(rows, SubjectLe) && Within(rows, ResultRows(results, |results|, names))
    ensures truncated <==> !AllWhole(results) || |ResultRows(results, |results|, names)| >= MAX_ROWS
    ensures !truncated ==> multiset(rows) == multiset(ResultRows(results, |results|, names))
  {
    var all: seq<Row>;
    all, truncated := CollectResults(results, names);
    rows := SortBySubject(all);
    SameMembers(rows, all, ResultRows(results, |results|, names));
  }

  ghost predicate Covers(all: seq<Row>, results: seq<ServerResult>, k: nat, names: map<string, string>) {
    k <= |results| && Tracks(all, ResultRows(results, k, names))
  }

  method CollectResults(results: seq<ServerResult>, names: map<string, string>) returns (all: seq<Row>, truncated: bool)
    ensures Covers(all, results, |results|, names)
    ensures truncated <==> !AllWhole(results) || |all| >= MAX_ROWS
  {
    all, truncated := [], false;
    var k := 0;
    while k < |results|
      invariant k <= |results| && Covers(all, results, k, names)
      invariant truncated <==> !WholeTo(results, k)
    {
      WholeStep(results, k);
      truncated := truncated || results[k].failed || results[k].truncated;
      if !results[k].failed && |all| >= MAX_ROWS {
        break;
      }
      all := AppendResult(all, results, k, names);
      k := k + 1;
    }
    ResultRowsGrow(all, results, names, k);
    assert results[..|results|] == results;
    if |all| >= MAX_ROWS {
      truncated := true;
    }
  }

  ghost predicate WholeTo(results: seq<ServerResult>, k: nat)
    requires k <= |results|
  {
    AllWhole(results[..k])
  }

  lemma WholeStep(results: seq<ServerResult>, k: nat)
    requires k < |results|
    ensures WholeTo(results, k + 1) <==> WholeTo(results, k) && !results[k].failed && !results[k].truncated
  {
    assert results[..k + 1] == results[..k] + [results[k]];
  }

  /** One server's turn; a failed server adds nothing. */
  method AppendResult(all: seq<Row>, results: seq<ServerResult>, k: nat, names: map<string, string>)
    returns (r: seq<Row>)
    requires k < |results| && Covers(all, results, k, names)
    ensures Covers(r, results, k + 1, names)
  {
    var result := results[k];
    if result.failed {
      assert ResultRows(results, k + 1, names) == ResultRows(results, k, names);
      return all;
    }
    var name := ServerName(names, result.serverId);
    r := AppendServer(all, result.conns, result.serverId, name, ResultRows(results, k, names));
  }

  /** All subscriptions of all connections of the first `k` servers. */
  function AllSubscriptions(ids: seq<string>, lists: seq<seq<Conn>>, k: nat,
                            names: map<string, string>): (rows: seq<Row>)
    requires k <= |ids| == |lists|
  {
    if k == 0 then []
    else AllSubscriptions(ids, lists, k - 1, names) + ConnsRows(lists[k - 1], ids[k - 1], ServerName(names, ids[k - 1]))
  }

  /** Every subscription of every connection has its row. */
  lemma {:induction false} RowListed(conns: seq<Conn>, j: nat, k: nat, id: string, name: string)
    requires j < |conns| && k < SubCount(conns[j])
    ensures RowAt(conns[j], k, id, name) in ConnsRows(conns, id, name)
  {
    var n := |conns| - 1;
    if j == n {
      ConnRowsAre(conns[n], SubCount(conns[n]), id, name);
      assert ConnRows(conns[n], SubCount(conns[n]), id, name)[k] == RowAt(conns[n], k, id, name);
    } else {
      RowListed(conns[..n], j, k, id, name);
    }
  }

  lemma {:induction false} SubscriptionListed(ids: seq<string>, lists: seq<seq<Conn>>, n: nat,
                                              names: map<string, string>, i: nat, j: nat, k: nat)
    requires i < n <= |ids| == |lists| && j < |lists[i]| && k < SubCount(lists[i][j])
    ensures RowAt(lists[i][j], k, ids[i], ServerName(names, ids[i])) in AllSubscriptions(ids, lists, n, names)
  {
    if i == n - 1 {
      RowListed(lists[i], j, k, ids[i], ServerName(names, ids[i]));
    } else {
      SubscriptionListed(ids, lists, n - 1, names, i, j, k);
    }
  }

  lemma {:induction false} RowsOfStampedConn(c: Conn, k: nat, stamp: string, id: string, name: string)
    requires k <= SubCount(c)
    ensures ConnRows(c.(serverId := stamp), k, id, name) == ConnRows(c, k, id, name)
  {
    if k > 0 {
      RowsOfStampedConn(c, k - 1, stamp, id, name);
    }
  }

  lemma {:induction false} RowsOfStamped(conns: seq<Conn>, stamp: string, id: string, name: string)
    ensures ConnsRows(Stamp(conns, stamp), id, name) == ConnsRows(conns, id, name)
  {
    if conns != [] {
      var n := |conns| - 1;
      RowsOfStamped(conns[..n], stamp, id, name);
      assert Stamp(conns, stamp)[..n] == Stamp(conns[..n], stamp);
      RowsOfStampedConn(conns[n], SubCount(conns[n]), stamp, id, name);
    }
  }

  lemma WholeServerRows(server: Endpoint, id: string, list: seq<Conn>, name: string)
    requires Serves(server, id, list)
    ensures var r := PagesFrom(server, 0, EMPTY_RESULT);
            !r.failed && !r.truncated ==> r.serverId == id && ConnsRows(r.conns, id, name) == ConnsRows(list, id, name)
  {
    FetchReadsPrefix(server, id, list);
    RowsOfStamped(list, id, id, name);
  }

  /** The result did not fail and yields the rows of the server's whole list. */
  ghost predicate SameRows(r: ServerResult, id: string, list: seq<Conn>, names: map<string, string>) {
    && !r.failed
    && ConnsRows(r.conns, r.serverId, ServerName(names, r.serverId)) == ConnsRows(list, id, ServerName(names, id))
  }

  lemma {:induction false} JoinRows(results: seq<ServerResult>, ids: seq<string>, lists: seq<seq<Conn>>,
                                    names: map<string, string>, k: nat)
    requires k <= |results| == |ids| == |lists|
    requires forall i :: 0 <= i < |results| ==> SameRows(results[i], ids[i], lists[i], names)
    ensures ResultRows(results, k, names) == AllSubscriptions(ids, lists, k, names)
  {
    if k > 0 {
      JoinRows(results, ids, lists, names, k - 1);
      assert SameRows(results[k - 1], ids[k - 1], lists[k - 1], names);
    }
  }

  lemma WholeResultRows(servers: seq<Endpoint>, ids: seq<string>, lists: seq<seq<Conn>>, names: map<string, string>)
    requires ClusterServes(servers, ids, lists) && AllWhole(Results(servers))
    ensures ResultRows(Results(servers), |servers|, names) == AllSubscriptions(ids, lists, |ids|, names)
  {
    var results := Results(servers);
    forall i | 0 <= i < |servers|
      ensures SameRows(results[i], ids[i], lists[i], names)
    {
      assert Serves(servers[i], ids[i], lists[i]);
      WholeServerRows(servers[i], ids[i], lists[i], ServerName(names, ids[i]));
    }
    JoinRows(results, ids, lists, names, |servers|);
  }

  /** The HTTP path: fetch all pages of all servers and build the table.  Against servers that answer
      from fixed lists, a table not marked truncated holds exactly every subscription. */
  method LoadOverHttp(servers: seq<Endpoint>, names: map<string, string>, ghost ids: seq<string>,
                      ghost lists: seq<seq<Conn>>)
    returns (rows: seq<Row>, truncated: bool)
    ensures Sorted(rows, SubjectLe)
    ensures ClusterServes(servers, ids, lists) && !truncated ==>
              multiset(rows) == multiset(AllSubscriptions(ids, lists, |ids|, names)) && |rows| < MAX_ROWS
    ensures ClusterServes(servers, ids, lists) && AllWhole(Results(servers)) ==>
              (truncated <==> |AllSubscriptions(ids, lists, |ids|, names)| >= MAX_ROWS)
  {
    var results := FetchConnzPages(servers);
    if ClusterServes(servers, ids, lists) && AllWhole(results) {
      WholeResultRows(servers, ids, lists, names);
    }
    rows, truncated := RowsFromResults(results, names);
    assert |multiset(rows)| == |rows|;
  }

  // ---------------------------------------------------------------------------------------
  // From the snapshot's connections
  // ---------------------------------------------------------------------------------------

  datatype Connz = Connz(total: int, conns: seq<Conn>)
  datatype Snapshot = Snapshot(connz: map<string, Connz>, names: map<string, string>)

  function ServerRows(snap: Snapshot, id: string): (rows: seq<Row>)
    requires id in snap.connz
  {
    ConnsRows(snap.connz[id].conns, id, ServerName(snap.names, id))
  }

  /** The rows in one order of the servers. */
  ghost function OrderedRows(snap: Snapshot, order: seq<string>): (rows: seq<Row>)
    requires OfSnapshot(snap, order)
  {
    if order == [] then [] else OrderedRows(snap, order[..|order| - 1]) + ServerRows(snap, order[|order| - 1])
  }

  /** How often the snapshot has the row. */
  ghost function Occurrences(snap: Snapshot, row: Row): nat {
    if row.serverId in snap.connz then multiset(ServerRows(snap, row.serverId))[row] else 0
  }

  lemma {:induction false} ConnRowsNameServer(c: Conn, k: nat, id: string, name: string, row: Row)
    requires row.serverId != id && k <= SubCount(c)
    ensures multiset(ConnRows(c, k, id, name))[row] == 0
  {
    if k > 0 {
      ConnRowsNameServer(c, k - 1, id, name, row);
    }
  }

  lemma {:induction false} RowsNameServer(conns: seq<Conn>, id: string, name: string, row: Row)
    requires row.serverId != id
    ensures multiset(ConnsRows(conns, id, name))[row] == 0
  {
    if conns != [] {
      var n := |conns| - 1;
      RowsNameServer(conns[..n], id, name, row);
      ConnRowsNameServer(conns[n], SubCount(conns[n]), id, name, row);
    }
  }

  ghost predicate NoRepeats(order: seq<string>) {
    forall i, j :: 0 <= i < j < |order| ==> order[i] != order[j]
  }

  lemma ServerRowsOf(snap: Snapshot, id: string, row: Row)
    requires id in snap.connz
    ensures multiset(ServerRows(snap, id))[row] == if row.serverId == id then Occurrences(snap, row) else 0
  {
    if row.serverId != id {
      RowsNameServer(snap.connz[id].conns, id, ServerName(snap.names, id), row);
    }
  }

  /** One more server adds its own rows. */
  lemma ServerAdds(snap: Snapshot, before: seq<Row>, rows: seq<Row>, visited: bool, id: string, row: Row)
    requires id in snap.connz && rows == before + ServerRows(snap, id)
    requires multiset(before)[row] == if visited then Occurrences(snap, row) else 0
    requires visited ==> row.serverId != id
    ensures multiset(rows)[row] == if visited || row.serverId == id then Occurrences(snap, row) else 0
  {
    ServerRowsOf(snap, id, row);
  }

  /** The row is counted as often as its server has it, if the server is among those. */
  ghost predicate CountsAs(snap: Snapshot, rows: seq<Row>, order: seq<string>, row: Row) {
    multiset(rows)[row] == if row.serverId in order then Occurrences(snap, row) else 0
  }

  lemma OneServerMore(snap: Snapshot, before: seq<Row>, order: seq<string>, id: string, row: Row)
    requires id in snap.connz && id !in order && CountsAs(snap, before, order, row)
    ensures CountsAs(snap, before + ServerRows(snap, id), order + [id], row)
  {
    ServerAdds(snap, before, before + ServerRows(snap, id), row.serverId in order, id, row);
  }

  lemma {:induction false} OrderIrrelevant(snap: Snapshot, order: seq<string>, row: Row)
    requires NoRepeats(order) && OfSnapshot(snap, order)
    ensures CountsAs(snap, OrderedRows(snap, order), order, row)
  {
    if order != [] {
      var n := |order| - 1;
      OrderIrrelevant(snap, order[..n], row);
      OneServerMore(snap, OrderedRows(snap, order[..n]), order[..n], order[n], row);
      assert order == order[..n] + [order[n]];
    }
  }

  /** How many subscriptions each connection has. */
  function Counts(conns: seq<Conn>): (r: seq<nat>)
    ensures |r| == |conns| && forall i :: 0 <= i < |conns| ==> r[i] == SubCount(conns[i])
  {
    if conns == [] then [] else Counts(conns[..|conns| - 1]) + [SubCount(conns[|conns| - 1])]
  }

  /** The counts of all connections, in one order of the servers. */
  ghost function OrderedCounts(snap: Snapshot, order: seq<string>): (r: seq<nat>)
    requires OfSnapshot(snap, order)
  {
    if order == [] then []
    else OrderedCounts(snap, order[..|order| - 1]) + Counts(snap.connz[order[|order| - 1]].conns)
  }

  ghost predicate OfSnapshot(snap: Snapshot, order: seq<string>) {
    forall i :: 0 <= i < |order| ==> order[i] in snap.connz
  }

  /** An order the servers can be walked in. */
  ghost predicate Enumerates(snap: Snapshot, order: seq<string>) {
    NoRepeats(order) && OfSnapshot(snap, order) && forall id :: id in snap.connz ==> id in order
  }

  /** The connection loop of `subsRowsFromConnz`, which goes on after the cap. */
  method AppendConnz(all: seq<Row>, conns: seq<Conn>, id: string, name: string, ghost expected: seq<Row>)
    returns (r: seq<Row>)
    requires Tracks(all, expected)
    ensures Tracks(r, expected + ConnsRows(conns, id, name))
    ensures |r| == Walked(|all|, Counts(conns))
  {
    r := all;
    assert expected == expected + ConnsRows(conns[..0], id, name);
    for k := 0 to |conns|
      invariant CoversConns(r, expected, conns, k, id, name)
      invariant WalkedTo(|all|, conns, k, |r|)
    {
      WalkedNext(|all|, conns, k, |r|);
      r := AppendUnlessEmpty(r, conns, k, id, name, expected);
    }
    assert conns[..|conns|] == conns && Counts(conns)[..|conns|] == Counts(conns);
  }

  ghost predicate WalkedTo(before: nat, conns: seq<Conn>, k: nat, len: nat) {
    k <= |conns| && len == Walked(before, Counts(conns)[..k])
  }

  lemma WalkedNext(before: nat, conns: seq<Conn>, k: nat, len: nat)
    requires k < |conns| && WalkedTo(before, conns, k, len)
    ensures WalkedTo(before, conns, k + 1, Grown(len, SubCount(conns[k])))
  {
    assert Counts(conns)[..k + 1][..k] == Counts(conns)[..k];
  }

  method AppendUnlessEmpty(all: seq<Row>, conns: seq<Conn>, k: nat, id: string, name: string, ghost expected: seq<Row>)
    returns (r: seq<Row>)
    requires k < |conns| && CoversConns(all, expected, conns, k, id, name)
    ensures CoversConns(r, expected, conns, k + 1, id, name) && |r| == Grown(|all|, SubCount(conns[k]))
  {
    var c := conns[k];
    if |c.subsDetail| == 0 && |c.subs| == 0 {
      assert conns[..k + 1][..k] == conns[..k];
      assert ConnsRows(conns[..k + 1], id, name) == ConnsRows(conns[..k], id, name);
      return all;
    }
    r := AppendNext(all, conns, k, id, name, expected);
  }

  /** The server lists fewer connections than it reports. */
  predicate ServerShort(snap: Snapshot, id: string) {
    id in snap.connz && |snap.connz[id].conns| < snap.connz[id].total
  }

  ghost predicate Short(snap: Snapshot) {
    exists id :: ServerShort(snap, id)
  }

  method SubsRowsFromConnz(snap: Snapshot) returns (rows: seq<Row>, truncated: bool, ghost order: seq<string>)
    ensures Enumerates(snap, order) && |rows| == Walked(0, OrderedCounts(snap, order))
    ensures Sorted(rows, SubjectLe)
    ensures forall row :: row in rows ==> Occurrences(snap, row) > 0
    ensures !truncated ==> forall row :: multiset(rows)[row] == Occurrences(snap, row)
    ensures rows != [] ==> (truncated <==> Short(snap) || |rows| >= MAX_ROWS)
  {
    var all;
    all, truncated, order := CollectConnz(snap);
    TableCounts(snap, order, all);
    if |all| == 0 {
      return [], false, order;
    }
    if |all| >= MAX_ROWS {
      truncated := true;
    }
    rows := SortBySubject(all);
    assert |multiset(rows)| == |multiset(all)|;
    assert forall row :: row in rows ==> row in multiset(rows);
  }

  /** The servers in any map order. */
  method CollectConnz(snap: Snapshot) returns (all: seq<Row>, truncated: bool, ghost order: seq<string>)
    ensures Enumerates(snap, order) && Collected(snap, order, all)
    ensures truncated <==> Short(snap)
  {
    all, truncated, order := [], false, [];
    var todo := snap.connz.Keys;
    while todo != {}
      invariant todo <= snap.connz.Keys && Visits(snap, order, todo) && Collected(snap, order, all)
      invariant truncated <==> exists id :: ServerShort(snap, id) && id !in todo
    {
      var id :| id in todo;
      VisitsNext(snap, order, todo, id);
      truncated := truncated || |snap.connz[id].conns| < snap.connz[id].total;
      assert ServerShort(snap, id) <==> |snap.connz[id].conns| < snap.connz[id].total;
      all := CollectServer(snap, order, all, id);
      order := order + [id];
      todo := todo - {id};
    }
  }

  /** The table after the servers of `order`. */
  ghost predicate Collected(snap: Snapshot, order: seq<string>, all: seq<Row>) {
    && OfSnapshot(snap, order) && Tracks(all, OrderedRows(snap, order))
    && |all| == Walked(0, OrderedCounts(snap, order))
  }

  /** The servers not left to do have been visited once. */
  ghost predicate Visits(snap: Snapshot, order: seq<string>, todo: set<string>) {
    NoRepeats(order) && forall id :: id in order <==> id in snap.connz && id !in todo
  }

  lemma VisitsNext(snap: Snapshot, order: seq<string>, todo: set<string>, id: string)
    requires Visits(snap, order, todo) && id in todo && id in snap.connz
    ensures Visits(snap, order + [id], todo - {id})
  {
    assert id !in order;
  }

  method CollectServer(snap: Snapshot, ghost order: seq<string>, all: seq<Row>, id: string) returns (r: seq<Row>)
    requires id in snap.connz && Collected(snap, order, all)
    ensures Collected(snap, order + [id], r)
  {
    var conns := snap.connz[id].conns;
    r := AppendConnz(all, conns, id, ServerName(snap.names, id), OrderedRows(snap, order));
    assert (order + [id])[..|order|] == order;
    WalkedSplit(0, OrderedCounts(snap, order), Counts(conns));
  }

  lemma TableCounts(snap: Snapshot, order: seq<string>, all: seq<Row>)
    requires Enumerates(snap, order)
    requires Tracks(all, OrderedRows(snap, order))
    ensures forall row :: row in multiset(all) ==> Occurrences(snap, row) > 0
    ensures |all| < MAX_ROWS ==> forall row :: multiset(all)[row] == Occurrences(snap, row)
  {
    forall row
      ensures row in multiset(all) ==> Occurrences(snap, row) > 0
      ensures |all| < MAX_ROWS ==> multiset(all)[row] == Occurrences(snap, row)
    {
      OrderIrrelevant(snap, order, row);
      assert row in all ==> row in multiset(OrderedRows(snap, order));
    }
  }

  // ---------------------------------------------------------------------------------------
  // How far the cap is exceeded
  // ---------------------------------------------------------------------------------------

  lemma {:induction false} ConnRowsLength(c: Conn, k: nat, id: string, name: string)
    requires k <= SubCount(c)
    ensures |ConnRows(c, k, id, name)| == k
  {
    if k > 0 {
      ConnRowsLength(c, k - 1, id, name);
    }
  }

  lemma {:induction false} ConnsRowsLength(conns: seq<Conn>, id: string, name: string)
    ensures |ConnsRows(conns, id, name)| == Sum(Counts(conns))
  {
    if conns != [] {
      var n := |conns| - 1;
      ConnsRowsLength(conns[..n], id, name);
      ConnRowsLength(conns[n], SubCount(conns[n]), id, name);
      assert Counts(conns)[..n] == Counts(conns[..n]);
    }
  }

  lemma {:induction false} OrderedLength(snap: Snapshot, order: seq<string>)
    requires OfSnapshot(snap, order)
    ensures |OrderedRows(snap, order)| == Sum(OrderedCounts(snap, order))
  {
    if order != [] {
      var n := |order| - 1;
      var id := order[n];
      OrderedLength(snap, order[..n]);
      ConnsRowsLength(snap.connz[id].conns, id, ServerName(snap.names, id));
      SumSplit(OrderedCounts(snap, order[..n]), Counts(snap.connz[id].conns));
    }
  }

  lemma SameRowSet(snap: Snapshot, a: seq<string>, b: seq<string>)
    requires Enumerates(snap, a) && Enumerates(snap, b)
    ensures multiset(OrderedRows(snap, a)) == multiset(OrderedRows(snap, b))
  {
    forall row
      ensures multiset(OrderedRows(snap, a))[row] == multiset(OrderedRows(snap, b))[row]
    {
      OrderIrrelevant(snap, a, row);
      OrderIrrelevant(snap, b, row);
    }
  }

  /** Every order of the servers has the same number of rows to offer. */
  lemma SameTotal(snap: Snapshot, a: seq<string>, b: seq<string>)
    requires Enumerates(snap, a) && Enumerates(snap, b)
    ensures Sum(OrderedCounts(snap, a)) == Sum(OrderedCounts(snap, b))
  {
    OrderedLength(snap, a);
    OrderedLength(snap, b);
    SameRowSet(snap, a, b);
    SameSize(OrderedRows(snap, a), OrderedRows(snap, b));
  }

  lemma SameSize(x: seq<Row>, y: seq<Row>)
    requires multiset(x) == multiset(y)
    ensures |x| == |y|
  {
    assert |multiset(x)| == |x| && |multiset(y)| == |y|;
  }

  lemma OrderOf(ids: set<string>) returns (order: seq<string>)
    ensures NoRepeats(order) && forall id :: id in order <==> id in ids
  {
    order := [];
    var todo := ids;
    while todo != {}
      invariant NoRepeats(order) && forall id :: id in order <==> id in ids && id !in todo
      invariant todo <= ids
    {
      var id :| id in todo;
      order, todo := order + [id], todo - {id};
    }
  }

  lemma OrderEndingWith(snap: Snapshot, last: string) returns (order: seq<string>)
    requires last in snap.connz
    ensures Enumerates(snap, order) && order != [] && order[|order| - 1] == last
  {
    var rest := OrderOf(snap.connz.Keys - {last});
    order := rest + [last];
    assert forall i :: 0 <= i < |rest| ==> rest[i] in rest;
  }

  lemma SomeOrder(snap: Snapshot)
    ensures exists order :: Enumerates(snap, order)
  {
    var order := OrderOf(snap.connz.Keys);
    assert Enumerates(snap, order);
  }

  /** All subscriptions of the snapshot, counted in any order. */
  ghost function TotalRows(snap: Snapshot): nat {
    SomeOrder(snap);
    var order :| Enumerates(snap, order);
    Sum(OrderedCounts(snap, order))
  }

  /** In every order the last connection with subscriptions is the last such of some server. */
  lemma {:induction false} LastServer(snap: Snapshot, order: seq<string>) returns (id: string)
    requires OfSnapshot(snap, order) && Sum(OrderedCounts(snap, order)) > 0
    ensures id in snap.connz && Sum(Counts(snap.connz[id].conns)) > 0
    ensures LastCount(OrderedCounts(snap, order)) == LastCount(Counts(snap.connz[id].conns))
  {
    var n := |order| - 1;
    id := order[n];
    SumSplit(OrderedCounts(snap, order[..n]), Counts(snap.connz[id].conns));
    if Sum(Counts(snap.connz[id].conns)) == 0 {
      id := LastServer(snap, order[..n]);
    }
  }

  /** Walked last, the server keeps the table within the cap. */
  ghost predicate KeepsCapWhenLast(snap: Snapshot, id: string) {
    id in snap.connz && Sum(Counts(snap.connz[id].conns)) > 0 ==>
      TotalRows(snap) - LastCount(Counts(snap.connz[id].conns)) < MAX_ROWS
  }

  ghost predicate WithinCapIn(snap: Snapshot, order: seq<string>) {
    Enumerates(snap, order) ==> Walked(0, OrderedCounts(snap, order)) <= MAX_ROWS
  }

  lemma AnyOrderTotal(snap: Snapshot, order: seq<string>)
    requires Enumerates(snap, order)
    ensures TotalRows(snap) == Sum(OrderedCounts(snap, order))
  {
    SomeOrder(snap);
    var chosen :| Enumerates(snap, chosen) && TotalRows(snap) == Sum(OrderedCounts(snap, chosen));
    SameTotal(snap, chosen, order);
  }

  lemma KeptWhenLast(snap: Snapshot, order: seq<string>)
    requires Enumerates(snap, order) && forall id :: KeepsCapWhenLast(snap, id)
    ensures WithinCapIn(snap, order)
  {
    AnyOrderTotal(snap, order);
    WithinCap(OrderedCounts(snap, order));
    if TotalRows(snap) > 0 {
      var id := LastServer(snap, order);
      assert KeepsCapWhenLast(snap, id);
    }
  }

  lemma ExceededWhenLast(snap: Snapshot, id: string)
    requires !KeepsCapWhenLast(snap, id)
    ensures exists order :: !WithinCapIn(snap, order)
  {
    var order := OrderEndingWith(snap, id);
    var n := |order| - 1;
    AnyOrderTotal(snap, order);
    WithinCap(OrderedCounts(snap, order));
    SumSplit(OrderedCounts(snap, order[..n]), Counts(snap.connz[id].conns));
    assert !WithinCapIn(snap, order);
  }

  /** The table stays within the cap in every order of the servers exactly when, for each server with
      subscriptions, all rows but those of its last connection that has any stay below the cap. */
  lemma CapKeptIff(snap: Snapshot)
    ensures (forall order :: WithinCapIn(snap, order)) <==> (forall id :: KeepsCapWhenLast(snap, id))
  {
    if forall id :: KeepsCapWhenLast(snap, id) {
      forall order
        ensures WithinCapIn(snap, order)
      {
        if Enumerates(snap, order) {
          KeptWhenLast(snap, order);
        }
      }
    } else {
      var id :| !KeepsCapWhenLast(snap, id);
      ExceededWhenLast(snap, id);
    }
  }

  /** One server with a connection of 50000 subscriptions and `later` connections of one each, walked in
      its only order, gives `later` rows more than the cap. */
  lemma CapExceeded(later: nat)
    ensures var big := Conn("", 1, "", 0, "", "", seq(MAX_ROWS, _ => "a"), []);
            var small := Conn("", 2, "", 0, "", "", ["b"], []);
            var snap := Snapshot(map["s" := Connz(0, [big] + seq(later, _ => small))], map[]);
            Enumerates(snap, ["s"]) && Walked(0, OrderedCounts(snap, ["s"])) == MAX_ROWS + later
  {
    var big := Conn("", 1, "", 0, "", "", seq(MAX_ROWS, _ => "a"), []);
    var small := Conn("", 2, "", 0, "", "", ["b"], []);
    var conns := [big] + seq(later, _ => small);
    var snap := Snapshot(map["s" := Connz(0, conns)], map[]);
    var counts, ones := Counts(conns), seq(later, _ => 1);
    assert SubCount(big) == MAX_ROWS && SubCount(small) == 1;
    assert counts == [MAX_ROWS] + ones;
    assert ["s"][..0] == [] && OrderedCounts(snap, ["s"]) == [] + counts == counts;
    WalkedSplit(0, [MAX_ROWS], ones);
    assert [MAX_ROWS][..0] == [];
    WalkedAbove(MAX_ROWS, ones);
    AllNonEmpty(ones);
  }

  lemma {:induction false} AllNonEmpty(counts: seq<nat>)
    requires forall i :: 0 <= i < |counts| ==> counts[i] > 0
    ensures NonEmpty(counts) == |counts|
  {
    if counts != [] {
      AllNonEmpty(counts[..|counts| - 1]);
    }
  }

  /** `loadSubsRows` behind its cache: the snapshot first, the HTTP path when it has no rows.  Rows not
      marked truncated are exactly the subscriptions of the source they came from. */
  method LoadSubsRows(snap: Option<Snapshot>, servers: seq<Endpoint>, ghost ids: seq<string>,
                      ghost lists: seq<seq<Conn>>)
    returns (rows: seq<Row>, truncated: bool, live: bool)
    ensures Sorted(rows, SubjectLe)
    ensures live ==> snap.Some? && (truncated <==> Short(snap.value) || |rows| >= 50000)
    ensures live && !truncated ==> snap.Some? && forall row :: multiset(rows)[row] == Occurrences(snap.value, row)
    ensures !live && servers != [] && ClusterServes(servers, ids, lists) && AllWhole(Results(servers)) ==>
              (truncated <==> |AllSubscriptions(ids, lists, |ids|, NamesOf(snap))| >= 50000)
    ensures !live && servers == [] ==> rows == [] && !truncated
    ensures !live && !truncated && servers != [] && ClusterServes(servers, ids, lists) ==>
              multiset(rows) == multiset(AllSubscriptions(ids, lists, |ids|, NamesOf(snap)))
  {
    if snap.Some? {
      ghost var order;
      rows, truncated, order := SubsRowsFromConnz(snap.value);
      if rows != [] {
        return rows, truncated, true;
      }
    }
    live := false;
    if servers == [] {
      return [], false, false;
    }
    rows, truncated := LoadOverHttp(servers, NamesOf(snap), ids, lists);
  }

  function NamesOf(snap: Option<Snapshot>): map<string, string> {
    if snap.Some? then snap.value.names else map[]
  }
}

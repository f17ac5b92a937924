/** The topology graph of internal/collector/topology.go.  The snapshot's maps are walked in an
    arbitrary order; the graph's nodes and undirected edges do not depend on it. */
module Topology {
  import opened Common
  import opened Ordering

  datatype Id = Id(s: string)
  datatype Name = Name(s: string)
  datatype Key = Key(s: string)

  datatype Server = Server(name: Name, host: string)
  datatype Leaf = Leaf(name: Name, ip: Name)
  datatype Conn = Conn(name: string, ip: string)

  /** What the builder reads of a snapshot: servers, the remote ids of their routes, the names of their
      outbound gateways, their leaf nodes, their connections and the hosts they were polled at. */
  datatype Snapshot = Snapshot(varz: map<Id, Server>, routez: map<Id, seq<Id>>, gatewayz: map<Id, set<Name>>,
                               leafz: map<Id, seq<Leaf>>, connz: map<Id, seq<Conn>>, serverUrls: map<Id, string>)

  datatype Kind = Route | Gateway | LeafNode | Mqtt

  datatype Link = Link(source: Id, target: Id, kind: Kind)

  function Rank(k: Kind): nat {
    match k case Route => 0 case Gateway => 1 case LeafNode => 2 case Mqtt => 3
  }

  // ---------------------------------------------------------------------------------------
  // Ids and link keys
  // ---------------------------------------------------------------------------------------

  function GatewayId(n: Name): Id { Id("gw:" + n.s) }
  function LeafId(n: Name): Id { Id("leaf:" + n.s) }
  function MqttId(server: Id, ip: string): Id { Id("mqtt:" + server.s + ":" + ip) }

  function RouteLinkKey(a: string, b: string): string {
    if Before(a, b) then a + "<->" + b else b + "<->" + a
  }

  function KeyOf(l: Link): Key {
    if l.kind == Gateway then Key(l.source.s + "->" + l.target.s) else Key(RouteLinkKey(l.source.s, l.target.s))
  }

  predicate SameEnds(a: Link, b: Link) {
    (a.source == b.source && a.target == b.target) || (a.source == b.target && a.target == b.source)
  }

  predicate LinkAt(s: string, i: int) {
    0 <= i && i + 3 <= |s| && s[i] == '<' && s[i + 1] == '-' && s[i + 2] == '>'
  }

  predicate ArrowAt(s: string, i: int) {
    0 <= i && i + 2 <= |s| && s[i] == '-' && s[i + 1] == '>'
  }

  /** The text does not hold the separator of undirected keys. */
  predicate NoLink(s: string) {
    forall i :: 0 <= i < |s| ==> !LinkAt(s, i)
  }

  /** The text does not hold the separator of directed keys. */
  predicate NoArrow(s: string) {
    forall i :: 0 <= i < |s| ==> !ArrowAt(s, i)
  }

  lemma NoArrowNoLink(s: string)
    requires NoArrow(s)
    ensures NoLink(s)
  {
    forall i | 0 <= i < |s|
      ensures !LinkAt(s, i)
    {
      assert LinkAt(s, i) ==> ArrowAt(s, i + 1);
    }
  }

  /** Occurrences of the separator do not overlap, so the first one ends the left side. */
  lemma LinkNotEarlier(a: string, b: string, c: string, d: string)
    requires NoLink(c) && a + "<->" + b == c + "<->" + d
    ensures |a| >= |c|
  {
    var w := a + "<->" + b;
    assert w[|a|] == '<' && w[|a| + 1] == '-' && w[|a| + 2] == '>';
    assert w == c + "<->" + d;
    assert w[|c|] == '<' && w[|c| + 1] == '-' && w[|c| + 2] == '>';
    assert forall i :: 0 <= i < |c| ==> w[i] == c[i];
    assert |a| + 3 <= |c| ==> LinkAt(c, |a|);
  }

  /** Likewise the last one begins the right side. */
  lemma LinkNotLater(a: string, b: string, c: string, d: string)
    requires NoLink(d) && a + "<->" + b == c + "<->" + d
    ensures |a| <= |c|
  {
    var w := a + "<->" + b;
    assert w[|a|] == '<' && w[|a| + 1] == '-' && w[|a| + 2] == '>';
    assert w == c + "<->" + d;
    assert w[|c|] == '<' && w[|c| + 1] == '-' && w[|c| + 2] == '>';
    assert forall i :: |c| + 3 <= i < |w| ==> w[i] == d[i - |c| - 3];
    assert |a| >= |c| + 3 ==> LinkAt(d, |a| - |c| - 3);
  }

  lemma JoinInjectiveRight(a: string, b: string, c: string, d: string)
    requires NoLink(b) && NoLink(d) && a + "<->" + b == c + "<->" + d
    ensures a == c && b == d
  {
    LinkNotLater(a, b, c, d);
    LinkNotLater(c, d, a, b);
    var w := a + "<->" + b;
    assert a == w[..|a|] && b == w[|a| + 3..];
    assert c == w[..|c|] && d == w[|c| + 3..];
  }

  lemma JoinInjective(a: string, b: string, c: string, d: string)
    requires NoLink(a) && NoLink(c) && a + "<->" + b == c + "<->" + d
    ensures a == c && b == d
  {
    LinkNotEarlier(a, b, c, d);
    LinkNotEarlier(c, d, a, b);
    var w := a + "<->" + b;
    assert a == w[..|a|] && b == w[|a| + 3..];
    assert c == w[..|c|] && d == w[|c| + 3..];
  }

  lemma ArrowNotEarlier(a: string, b: string, c: string, d: string)
    requires NoArrow(c) && a + "->" + b == c + "->" + d
    ensures |a| >= |c|
  {
    var w := a + "->" + b;
    assert w[|a|] == '-' && w[|a| + 1] == '>';
    assert w == c + "->" + d;
    assert w[|c|] == '-' && w[|c| + 1] == '>';
    assert forall i :: 0 <= i < |c| ==> w[i] == c[i];
    assert |a| + 2 <= |c| ==> ArrowAt(c, |a|);
  }

  lemma ArrowInjective(a: string, b: string, c: string, d: string)
    requires NoArrow(a) && NoArrow(c) && a + "->" + b == c + "->" + d
    ensures a == c && b == d
  {
    ArrowNotEarlier(a, b, c, d);
    ArrowNotEarlier(c, d, a, b);
    var w := a + "->" + b;
    assert a == w[..|a|] && b == w[|a| + 2..];
    assert c == w[..|c|] && d == w[|c| + 2..];
  }

  predicate SameTwo(a: string, b: string, c: string, d: string) {
    (a == c && b == d) || (a == d && b == c)
  }

  /** The key can be read as a pair in order at this separator. */
  predicate Cut(key: string, i: int) {
    LinkAt(key, i) && !Before(key[i + 3..], key[..i])
  }

  /** The pair's own separator. */
  function OwnCut(a: string, b: string): nat {
    if Before(a, b) then |a| else |b|
  }

  lemma OwnCutReads(a: string, b: string)
    ensures var key, i := RouteLinkKey(a, b), OwnCut(a, b);
            Cut(key, i) && SameTwo(a, b, key[..i], key[i + 3..])
  {
    BeforeStrict(a, b);
    var key, i := RouteLinkKey(a, b), OwnCut(a, b);
    var (p, q) := if Before(a, b) then (a, b) else (b, a);
    assert key == p + "<->" + q && key[..i] == p && key[i + 3..] == q;
    assert key[i] == '<' && key[i + 1] == '-' && key[i + 2] == '>';
  }

  lemma CutIsPair(key: string, i: int)
    requires Cut(key, i)
    ensures RouteLinkKey(key[..i], key[i + 3..]) == key && OwnCut(key[..i], key[i + 3..]) == i
  {
    var p, q := key[..i], key[i + 3..];
    BeforeStrict(p, q);
    assert key == p + "<->" + q;
  }

  /** No other two ends have the key of these. */
  ghost predicate TellsApart(a: string, b: string) {
    forall c, d :: RouteLinkKey(c, d) == RouteLinkKey(a, b) ==> SameTwo(a, b, c, d)
  }

  ghost predicate OneCut(key: string) {
    forall i, j :: Cut(key, i) && Cut(key, j) ==> i == j
  }

  /** The key of an undirected link tells it apart from every other exactly when the key can be cut into an
      ordered pair at one separator only. */
  lemma KeyTellsApartIff(a: string, b: string)
    ensures TellsApart(a, b) <==> OneCut(RouteLinkKey(a, b))
  {
    var key := RouteLinkKey(a, b);
    OwnCutReads(a, b);
    if OneCut(key) {
      forall c, d | RouteLinkKey(c, d) == key
        ensures SameTwo(a, b, c, d)
      {
        OwnCutReads(c, d);
      }
    }
    if TellsApart(a, b) {
      forall i, j | Cut(key, i) && Cut(key, j)
        ensures i == j
      {
        CutIsOwn(a, b, i);
        CutIsOwn(a, b, j);
      }
    }
  }

  lemma CutIsOwn(a: string, b: string, i: int)
    requires TellsApart(a, b) && Cut(RouteLinkKey(a, b), i)
    ensures i == OwnCut(a, b)
  {
    var key := RouteLinkKey(a, b);
    CutIsPair(key, i);
    BeforeStrict(a, b);
    assert SameTwo(a, b, key[..i], key[i + 3..]);
  }

  /** Ids without the separator have the one cut. */
  lemma SeparatorFreeOneCut(a: string, b: string)
    requires NoLink(a) && NoLink(b)
    ensures OneCut(RouteLinkKey(a, b))
  {
    var key := RouteLinkKey(a, b);
    var (p, q) := if Before(a, b) then (a, b) else (b, a);
    assert key == p + "<->" + q;
    forall i | Cut(key, i)
      ensures i == |p|
    {
      assert key == key[..i] + "<->" + key[i + 3..];
      LinkNotEarlier(key[..i], key[i + 3..], p, q);
      LinkNotLater(key[..i], key[i + 3..], p, q);
    }
  }

  /** So between ids without the separator the key forgets the direction and nothing else. */
  lemma RouteKeyInjective(a: string, b: string, c: string, d: string)
    requires NoLink(a) && NoLink(b)
    ensures RouteLinkKey(a, b) == RouteLinkKey(c, d) <==> SameTwo(a, b, c, d)
  {
    SeparatorFreeOneCut(a, b);
    KeyTellsApartIff(a, b);
    BeforeStrict(a, b);
  }

  /** Two links with one key. */
  lemma SeparatorsCollide()
    ensures RouteLinkKey("a", "b<->c") == RouteLinkKey("a<->b", "c") && !TellsApart("a", "b<->c")
  {
    var a, b, c, d := "a", "b<->c", "a<->b", "c";
    assert Before(a, b) && Before(c, d);
    assert |a| == 1 && |b| == 5 && |c| == 5 && |d| == 1;
    assert a[0] == 'a' && d[0] == 'c';
    assert !SameTwo(a, b, c, d);
  }

  /** An id with the separator whose key no other link has: the other cut is out of order. */
  lemma SeparatorToldApart()
    ensures !NoLink("z<->y") && TellsApart("z<->y", "zz")
  {
    var a, b := "z<->y", "zz";
    assert LinkAt(a, 1);
    assert Before(a, b);
    var key := RouteLinkKey(a, b);
    assert key == "z<->y<->zz";
    assert Before("y<->zz", "z");
    assert key[..1] == "z" && key[4..] == "y<->zz";
    forall i | Cut(key, i)
      ensures i == 5
    {
      assert key[i] == '<';
    }
    KeyTellsApartIff(a, b);
  }

  /** A directed key reads as an undirected one only when its source begins like a leaf or bridge id, or its
      target is the other end. */
  lemma KeysOfTwoForms(source: string, target: string, p: string, q: string)
    requires NoArrow(source) && (NoArrow(p) || Prefixed(p)) && source + "->" + target == p + "<->" + q
    ensures Prefixed(source) || target == q
  {
    var w := p + "<->" + q;
    if NoArrow(p) {
      OpenedNoArrow(p);
      assert w == (p + "<") + "->" + q;
      ArrowInjective(source, target, p + "<", q);
    } else {
      assert w[|source|] == '-';
      assert forall i :: 0 <= i < 5 ==> w[i] == p[i] && p[i] == p[..5][i];
      assert |source| >= 5;
      assert source[..5] == w[..5] == p[..5];
    }
  }

  lemma OpenedNoArrow(p: string)
    requires NoArrow(p)
    ensures NoArrow(p + "<")
  {
    forall i | 0 <= i < |p| + 1
      ensures !ArrowAt(p + "<", i)
    {
      assert i < |p| ==> !ArrowAt(p, i);
    }
  }

  /** The id of a leaf node or of a bridge. */
  predicate Prefixed(s: string) {
    |s| >= 5 && (s[..5] == "leaf:" || s[..5] == "mqtt:")
  }

  // ---------------------------------------------------------------------------------------
  // Which links a snapshot offers
  // ---------------------------------------------------------------------------------------

  function LeafName(l: Leaf): Name {
    if |l.name.s| == 0 then l.ip else l.name
  }

  predicate Known(snap: Snapshot, n: Name, id: Id) {
    |n.s| > 0 && id in snap.varz && snap.varz[id].name == n
  }

  ghost predicate DistinctNames(snap: Snapshot) {
    forall n, i, j :: Known(snap, n, i) && Known(snap, n, j) ==> i == j
  }

  /** A leaf is the server of its name, where there is one. */
  ghost predicate LeafTarget(snap: Snapshot, n: Name, target: Id) {
    Known(snap, n, target) || ((forall id :: !Known(snap, n, id)) && target == LeafId(n))
  }

  predicate IsBridgeConn(name: string) {
    name == "machmqtt-bridge" || "machmqtt-pool-" <= name
  }

  predicate RealHost(host: string) {
    host != "" && host != "0.0.0.0"
  }

  /** `resolveBridgeIP`: a loopback address is replaced by the server's own host. */
  function ResolveBridgeIp(snap: Snapshot, server: Id, ip: string): string {
    if ip != "127.0.0.1" && ip != "::1" then ip
    else if server in snap.serverUrls && snap.serverUrls[server] != "" then snap.serverUrls[server]
    else if server in snap.varz && RealHost(snap.varz[server].host) then snap.varz[server].host
    else ip
  }

  predicate BridgeTarget(snap: Snapshot, server: Id, c: Conn, target: Id) {
    IsBridgeConn(c.name) && target == MqttId(server, ResolveBridgeIp(snap, server, c.ip))
  }

  ghost predicate Offers(snap: Snapshot, l: Link) {
    match l.kind
    case Route => l.source in snap.routez && l.target in snap.routez[l.source]
    case Gateway => l.source in snap.gatewayz && exists n :: n in snap.gatewayz[l.source] && l.target == GatewayId(n)
    case LeafNode =>
      l.source in snap.leafz && var leaves := snap.leafz[l.source];
      exists i :: 0 <= i < |leaves| && LeafTarget(snap, LeafName(leaves[i]), l.target)
    case Mqtt =>
      l.source in snap.connz && var conns := snap.connz[l.source];
      exists i :: 0 <= i < |conns| && BridgeTarget(snap, l.source, conns[i], l.target)
  }

  // ---------------------------------------------------------------------------------------
  // The offers, on the snapshot's fields
  // ---------------------------------------------------------------------------------------

  /** A server carries the name. */
  ghost predicate Carried(snap: Snapshot, n: Name) {
    exists id :: id in snap.varz && snap.varz[id].name == n
  }

  /** A named leaf is the server of that name or a node of its own; one without a name goes by its address. */
  ghost predicate LeafLeadsTo(snap: Snapshot, l: Leaf, target: Id) {
    if l.name.s != "" then
      if Carried(snap, l.name) then target in snap.varz && snap.varz[target].name == l.name
      else target.s == "leaf:" + l.name.s
    else
      if l.ip.s != "" && Carried(snap, l.ip) then target in snap.varz && snap.varz[target].name == l.ip
      else target.s == "leaf:" + l.ip.s
  }

  /** The address a bridge is shown at: its own, but for a loopback address the host its server was polled at,
      or else the host the server reports. */
  predicate ShownAt(snap: Snapshot, server: Id, ip: string, shown: string) {
    if ip == "127.0.0.1" || ip == "::1" then
      if server in snap.serverUrls && |snap.serverUrls[server]| > 0 then shown == snap.serverUrls[server]
      else if server in snap.varz && |snap.varz[server].host| > 0 && snap.varz[server].host != "0.0.0.0"
      then shown == snap.varz[server].host
      else shown == ip
    else shown == ip
  }

  predicate NamedAsBridge(name: string) {
    name == "machmqtt-bridge" || (|name| >= 14 && name[..14] == "machmqtt-pool-")
  }

  ghost predicate BridgeLeadsTo(snap: Snapshot, server: Id, c: Conn, target: Id) {
    && NamedAsBridge(c.name)
    && exists shown :: ShownAt(snap, server, c.ip, shown) && target.s == "mqtt:" + server.s + ":" + shown
  }

  lemma LeafOfferIff(snap: Snapshot, l: Leaf, target: Id)
    ensures LeafTarget(snap, LeafName(l), target) <==> LeafLeadsTo(snap, l, target)
  {
    var n := LeafName(l);
    if Carried(snap, n) && |n.s| > 0 {
      var id :| id in snap.varz && snap.varz[id].name == n;
      assert Known(snap, n, id);
    }
    assert target == LeafId(n) <==> target.s == "leaf:" + n.s;
  }

  lemma BridgeOfferIff(snap: Snapshot, server: Id, c: Conn, target: Id)
    ensures BridgeTarget(snap, server, c, target) <==> BridgeLeadsTo(snap, server, c, target)
  {
    assert NamedAsBridge(c.name) <==> IsBridgeConn(c.name);
    var ip := ResolveBridgeIp(snap, server, c.ip);
    assert forall shown :: ShownAt(snap, server, c.ip, shown) <==> shown == ip;
    assert target == MqttId(server, ip) <==> target.s == "mqtt:" + server.s + ":" + ip;
  }

  /** What each kind of link is offered for. */
  lemma OffersIff(snap: Snapshot, s: Id, target: Id)
    ensures Offers(snap, Link(s, target, Route)) <==> s in snap.routez && target in snap.routez[s]
    ensures Offers(snap, Link(s, target, Gateway)) <==>
              s in snap.gatewayz && exists n :: n in snap.gatewayz[s] && target.s == "gw:" + n.s
    ensures Offers(snap, Link(s, target, LeafNode)) <==>
              s in snap.leafz && exists i :: 0 <= i < |snap.leafz[s]| && LeafLeadsTo(snap, snap.leafz[s][i], target)
    ensures Offers(snap, Link(s, target, Mqtt)) <==>
              && s in snap.connz
              && exists i :: 0 <= i < |snap.connz[s]| && BridgeLeadsTo(snap, s, snap.connz[s][i], target)
  {
    assert forall n: Name :: target == GatewayId(n) <==> target.s == "gw:" + n.s;
    LeavesOfferIff(snap, s, target);
    BridgesOfferIff(snap, s, target);
  }

  lemma LeavesOfferIff(snap: Snapshot, s: Id, target: Id)
    ensures Offers(snap, Link(s, target, LeafNode)) <==>
              s in snap.leafz && exists i :: 0 <= i < |snap.leafz[s]| && LeafLeadsTo(snap, snap.leafz[s][i], target)
  {
    if s in snap.leafz {
      var leaves := snap.leafz[s];
      forall i | 0 <= i < |leaves|
        ensures LeafTarget(snap, LeafName(leaves[i]), target) <==> LeafLeadsTo(snap, leaves[i], target)
      {
        LeafOfferIff(snap, leaves[i], target);
      }
    }
  }

  lemma BridgesOfferIff(snap: Snapshot, s: Id, target: Id)
    ensures Offers(snap, Link(s, target, Mqtt)) <==>
              && s in snap.connz
              && exists i :: 0 <= i < |snap.connz[s]| && BridgeLeadsTo(snap, s, snap.connz[s][i], target)
  {
    if s in snap.connz {
      var conns := snap.connz[s];
      forall i | 0 <= i < |conns|
        ensures BridgeTarget(snap, s, conns[i], target) <==> BridgeLeadsTo(snap, s, conns[i], target)
      {
        BridgeOfferIff(snap, s, conns[i], target);
      }
    }
  }

  // ---------------------------------------------------------------------------------------
  // First offer of each key
  // ---------------------------------------------------------------------------------------

  function Keys(log: seq<Link>): (r: set<Key>) {
    set i | 0 <= i < |log| :: KeyOf(log[i])
  }

  function FirstOf(log: seq<Link>): (links: seq<Link>) {
    if log == [] then []
    else
      var rest, l := FirstOf(log[..|log| - 1]), log[|log| - 1];
      if KeyOf(l) in Keys(log[..|log| - 1]) then rest else rest + [l]
  }

  /** Nothing of a kind is offered after something of a later kind. */
  ghost predicate InPhases(log: seq<Link>) {
    forall i, j :: 0 <= i < j < |log| ==> Rank(log[i].kind) <= Rank(log[j].kind)
  }

  lemma KeysNext(log: seq<Link>)
    requires log != []
    ensures Keys(log) == Keys(log[..|log| - 1]) + {KeyOf(log[|log| - 1])}
  {
    var n := |log| - 1;
    assert forall i :: 0 <= i < n ==> log[i] == log[..n][i];
    forall k | k in Keys(log)
      ensures k in Keys(log[..n]) + {KeyOf(log[n])}
    {
      var i :| 0 <= i < |log| && k == KeyOf(log[i]);
      assert i < n ==> KeyOf(log[..n][i]) in Keys(log[..n]);
    }
    forall k | k in Keys(log[..n])
      ensures k in Keys(log)
    {
      var i :| 0 <= i < n && k == KeyOf(log[..n][i]);
      assert KeyOf(log[i]) in Keys(log);
    }
  }

  /** The kept links are offers with different keys, one for each key offered. */
  ghost predicate KeepsFirst(log: seq<Link>, links: seq<Link>) {
    && (forall i :: 0 <= i < |links| ==> links[i] in log)
    && (forall i, j :: 0 <= i < j < |links| ==> KeyOf(links[i]) != KeyOf(links[j]))
    && (forall k :: k in Keys(log) ==> exists i :: 0 <= i < |links| && KeyOf(links[i]) == k)
  }

  lemma {:induction false} FirstOfKeeps(log: seq<Link>)
    ensures KeepsFirst(log, FirstOf(log))
  {
    if log != [] {
      var n := |log| - 1;
      FirstOfKeeps(log[..n]);
      KeysNext(log);
      KeepsNext(log[..n], FirstOf(log[..n]), log[n]);
      assert log == log[..n] + [log[n]];
    }
  }

  lemma KeepsNext(log: seq<Link>, links: seq<Link>, l: Link)
    requires KeepsFirst(log, links)
    ensures KeyOf(l) in Keys(log) ==> KeepsFirst(log + [l], links)
    ensures KeyOf(l) !in Keys(log) ==> KeepsFirst(log + [l], links + [l])
  {
    var more := log + [l];
    assert more[..|log|] == log;
    KeysNext(more);
    forall i | 0 <= i < |links|
      ensures links[i] in more && KeyOf(links[i]) in Keys(log)
    {
      MemberKey(log, links[i]);
    }
    if KeyOf(l) !in Keys(log) {
      var kept := links + [l];
      forall k | k in Keys(more)
        ensures exists i :: 0 <= i < |kept| && KeyOf(kept[i]) == k
      {
        if k in Keys(log) {
          var i :| 0 <= i < |links| && KeyOf(links[i]) == k;
          assert KeyOf(kept[i]) == k;
        } else {
          assert KeyOf(kept[|links|]) == k;
        }
      }
    }
  }

  lemma MemberKey(log: seq<Link>, m: Link)
    ensures m in log ==> KeyOf(m) in Keys(log)
  {
    if m in log {
      var j :| 0 <= j < |log| && log[j] == m;
      assert KeyOf(log[j]) in Keys(log);
    }
  }

  lemma KeptIsMember(log: seq<Link>, l: Link)
    ensures l in FirstOf(log) ==> l in log
  {
    FirstOfKeeps(log);
  }

  lemma LastInPhases(log: seq<Link>, l: Link)
    requires InPhases(log) && log != []
    ensures l in log[..|log| - 1] ==> Rank(l.kind) <= Rank(log[|log| - 1].kind)
  {
    var n := |log| - 1;
    if l in log[..n] {
      var j :| 0 <= j < n && log[..n][j] == l;
      assert log[j] == l;
    }
  }

  /** A kept link is of the earliest kind offered for its key. */
  lemma {:induction false} FirstIsEarliest(log: seq<Link>, l: Link, m: Link)
    requires InPhases(log) && l in FirstOf(log) && m in log && KeyOf(l) == KeyOf(m)
    ensures Rank(l.kind) <= Rank(m.kind)
  {
    var n := |log| - 1;
    assert log == log[..n] + [log[n]];
    KeptIsMember(log[..n], l);
    LastInPhases(log, l);
    MemberKey(log[..n], m);
    if l in FirstOf(log[..n]) && m in log[..n] {
      FirstIsEarliest(log[..n], l, m);
    }
  }

  // ---------------------------------------------------------------------------------------
  // Separator-free snapshots
  // ---------------------------------------------------------------------------------------

  /** A server id: free of the directed separator, and not of the form of another kind of node. */
  predicate Plain(id: Id) {
    NoArrow(id.s) && !Prefixed(id.s) && !IsGatewayId(id)
  }

  /** Server names are distinct and server ids are plain; other names are arbitrary. */
  ghost predicate WellFormed(snap: Snapshot) {
    && DistinctNames(snap)
    && (forall id :: id in snap.varz ==> Plain(id))
    && (forall id :: id in snap.routez ==> Plain(id))
    && (forall id :: id in snap.gatewayz ==> Plain(id))
    && (forall id :: id in snap.leafz ==> Plain(id))
    && (forall id :: id in snap.connz ==> Plain(id))
    && (forall id, r :: id in snap.routez && r in snap.routez[id] ==> Plain(r))
  }

  predicate IsGatewayId(id: Id) {
    |id.s| >= 3 && id.s[..3] == "gw:"
  }

  predicate IsMqttId(id: Id) {
    |id.s| >= 5 && id.s[..5] == "mqtt:"
  }

  /** What offered links look like. */
  predicate Shaped(l: Link) {
    && Plain(l.source)
    && (l.kind == Gateway <==> IsGatewayId(l.target))
    && (l.kind == Mqtt <==> IsMqttId(l.target))
    && (l.kind != Gateway ==> NoArrow(l.target.s) || Prefixed(l.target.s))
  }

  lemma OffersShaped(snap: Snapshot, l: Link)
    requires WellFormed(snap) && Offers(snap, l)
    ensures Shaped(l)
  {
    match l.kind {
      case Route =>
        assert Plain(l.target);
      case Gateway =>
        var n :| n in snap.gatewayz[l.source] && l.target == GatewayId(n);
        assert l.target.s[..3] == "gw:" && l.target.s[0] == 'g';
      case LeafNode =>
        var i :| 0 <= i < |snap.leafz[l.source]| && LeafTarget(snap, LeafName(snap.leafz[l.source][i]), l.target);
        LeafShape(snap, LeafName(snap.leafz[l.source][i]), l.target);
      case Mqtt =>
        var i :| 0 <= i < |snap.connz[l.source]| && BridgeTarget(snap, l.source, snap.connz[l.source][i], l.target);
        MqttShape(l.source, ResolveBridgeIp(snap, l.source, snap.connz[l.source][i].ip));
    }
  }

  lemma LeafShape(snap: Snapshot, n: Name, target: Id)
    requires WellFormed(snap) && LeafTarget(snap, n, target)
    ensures NoArrow(target.s) || Prefixed(target.s)
    ensures !IsGatewayId(target) && !IsMqttId(target)
  {
    if !Known(snap, n, target) {
      assert target.s[..5] == "leaf:" && target.s[0] == 'l';
    }
  }

  lemma MqttShape(server: Id, ip: string)
    ensures var id := MqttId(server, ip); Prefixed(id.s) && IsMqttId(id) && !IsGatewayId(id)
  {
    var s := MqttId(server, ip).s;
    assert s[..5] == "mqtt:" && s[0] == 'm';
  }

  /** Texts with the same undirected key begin alike. */
  lemma PrefixCarries(p: string, q: string, r: string, u: string)
    requires p + "<->" + q == r + "<->" + u && Prefixed(p)
    ensures Prefixed(r)
  {
    var w := p + "<->" + q;
    assert w == r + "<->" + u;
    assert w[|r|] == '<';
    assert forall i :: 0 <= i < 5 ==> w[i] == p[i] && p[i] == p[..5][i];
    assert |r| >= 5;
    assert r[..5] == w[..5] == p[..5];
  }

  /** A side of a key: a plain text, or a prefixed one whose other side is plain. */
  predicate Sides(p: string, q: string) {
    if Prefixed(p) then NoArrow(q) else NoArrow(p)
  }

  /** A key that begins with a prefix is cut at its last separator, any other at its first. */
  lemma SidesInjective(p: string, q: string, r: string, u: string)
    requires Sides(p, q) && Sides(r, u) && p + "<->" + q == r + "<->" + u
    ensures p == r && q == u
  {
    if Prefixed(p) {
      PrefixCarries(p, q, r, u);
      NoArrowNoLink(q);
      NoArrowNoLink(u);
      JoinInjectiveRight(p, q, r, u);
    } else {
      if Prefixed(r) {
        PrefixCarries(r, u, p, q);
      }
      NoArrowNoLink(p);
      NoArrowNoLink(r);
      JoinInjective(p, q, r, u);
    }
  }

  lemma UndirectedPair(a: Link, b: Link)
    requires Shaped(a) && Shaped(b) && a.kind != Gateway && b.kind != Gateway
    ensures KeyOf(a) == KeyOf(b) <==> SameEnds(a, b)
  {
    BeforeStrict(a.source.s, a.target.s);
    BeforeStrict(b.source.s, b.target.s);
    if KeyOf(a) == KeyOf(b) {
      var (p, q) := if Before(a.source.s, a.target.s) then (a.source.s, a.target.s) else (a.target.s, a.source.s);
      var (r, u) := if Before(b.source.s, b.target.s) then (b.source.s, b.target.s) else (b.target.s, b.source.s);
      SidesInjective(p, q, r, u);
    }
  }

  /** Links share a key exactly when they join the same two nodes. */
  lemma KeysMatchEnds(a: Link, b: Link)
    requires Shaped(a) && Shaped(b)
    ensures KeyOf(a) == KeyOf(b) <==> SameEnds(a, b)
  {
    if a.kind != Gateway && b.kind != Gateway {
      UndirectedPair(a, b);
    } else if a.kind == Gateway && b.kind == Gateway {
      if KeyOf(a) == KeyOf(b) {
        ArrowInjective(a.source.s, a.target.s, b.source.s, b.target.s);
      }
    } else if a.kind == Gateway {
      MixedPair(a, b);
    } else {
      MixedPair(b, a);
    }
  }

  lemma MixedPair(a: Link, b: Link)
    requires Shaped(a) && Shaped(b) && a.kind == Gateway && b.kind != Gateway
    ensures KeyOf(a) != KeyOf(b) && !SameEnds(a, b)
  {
    if KeyOf(a) == KeyOf(b) {
      if Before(b.source.s, b.target.s) {
        KeysOfTwoForms(a.source.s, a.target.s, b.source.s, b.target.s);
      } else {
        KeysOfTwoForms(a.source.s, a.target.s, b.target.s, b.source.s);
      }
    }
  }

  // ---------------------------------------------------------------------------------------
  // Edges and nodes as functions of the snapshot
  // ---------------------------------------------------------------------------------------

  /** The log holds the snapshot's offers, in any order within each kind. */
  ghost predicate Complete(snap: Snapshot, log: seq<Link>) {
    InPhases(log) && forall l :: l in log <==> Offers(snap, l)
  }

  ghost predicate Offered(snap: Snapshot, a: Link) {
    exists o :: Offers(snap, o) && o.kind == a.kind && SameEnds(o, a)
  }

  /** Some earlier kind already joins the two nodes. */
  ghost predicate Hidden(snap: Snapshot, a: Link) {
    exists o :: Offers(snap, o) && Rank(o.kind) < Rank(a.kind) && SameEnds(o, a)
  }

  ghost predicate Linked(links: seq<Link>, a: Link) {
    exists i :: 0 <= i < |links| && links[i].kind == a.kind && SameEnds(links[i], a)
  }

  ghost predicate AllShaped(log: seq<Link>) {
    forall l :: l in log ==> Shaped(l)
  }

  ghost predicate LogOffers(log: seq<Link>, a: Link) {
    exists o :: o in log && o.kind == a.kind && SameEnds(o, a)
  }

  ghost predicate LogHides(log: seq<Link>, a: Link) {
    exists o :: o in log && Rank(o.kind) < Rank(a.kind) && SameEnds(o, a)
  }

  lemma LinkedIsOffered(log: seq<Link>, a: Link)
    requires InPhases(log) && AllShaped(log) && Linked(FirstOf(log), a)
    ensures LogOffers(log, a) && !LogHides(log, a)
  {
    var links := FirstOf(log);
    var i :| 0 <= i < |links| && links[i].kind == a.kind && SameEnds(links[i], a);
    var f := links[i];
    KeptIsMember(log, f);
    forall o | o in log && SameEnds(o, a)
      ensures Rank(o.kind) >= Rank(a.kind)
    {
      KeysMatchEnds(f, o);
      FirstIsEarliest(log, f, o);
    }
  }

  /** The kept link of an offer's key. */
  lemma KeptOf(log: seq<Link>, o: Link) returns (f: Link)
    requires o in log
    ensures f in log && f in FirstOf(log) && KeyOf(f) == KeyOf(o)
  {
    FirstOfKeeps(log);
    MemberKey(log, o);
    var links := FirstOf(log);
    var i :| 0 <= i < |links| && KeyOf(links[i]) == KeyOf(o);
    f := links[i];
  }

  lemma OfferedIsLinked(log: seq<Link>, a: Link)
    requires InPhases(log) && AllShaped(log) && LogOffers(log, a) && !LogHides(log, a)
    ensures Linked(FirstOf(log), a)
  {
    var o :| o in log && o.kind == a.kind && SameEnds(o, a);
    var f := KeptOf(log, o);
    KeysMatchEnds(f, o);
    FirstIsEarliest(log, f, o);
    assert f.kind == a.kind && SameEnds(f, a);
  }

  /** The undirected edges are a function of the snapshot: whatever order the maps were walked in, two
      nodes are joined by a kind exactly when the snapshot offers it and no earlier kind. */
  lemma EdgesFromSnapshot(snap: Snapshot, log: seq<Link>, a: Link)
    requires WellFormed(snap) && Complete(snap, log)
    ensures Linked(FirstOf(log), a) <==> Offered(snap, a) && !Hidden(snap, a)
  {
    LogShaped(snap, log);
    assert LogOffers(log, a) <==> Offered(snap, a);
    assert LogHides(log, a) <==> Hidden(snap, a);
    if Linked(FirstOf(log), a) {
      LinkedIsOffered(log, a);
    } else if Offered(snap, a) && !Hidden(snap, a) {
      OfferedIsLinked(log, a);
    }
  }

  lemma LogShaped(snap: Snapshot, log: seq<Link>)
    requires WellFormed(snap) && Complete(snap, log)
    ensures AllShaped(log)
  {
    forall l | l in log
      ensures Shaped(l)
    {
      OffersShaped(snap, l);
    }
  }

  /** No two nodes are joined twice. */
  lemma NoPairTwice(snap: Snapshot, log: seq<Link>, i: nat, j: nat)
    requires WellFormed(snap) && Complete(snap, log) && i < j < |FirstOf(log)|
    ensures !SameEnds(FirstOf(log)[i], FirstOf(log)[j])
  {
    FirstOfKeeps(log);
    LogShaped(snap, log);
    KeysMatchEnds(FirstOf(log)[i], FirstOf(log)[j]);
  }

  /** The only edges another kind hides are leaf edges between nodes that are also routed. */
  lemma OnlyRoutesHideLeaves(snap: Snapshot, o: Link, a: Link)
    requires WellFormed(snap) && Offers(snap, o) && Offers(snap, a) && Rank(o.kind) < Rank(a.kind) && SameEnds(o, a)
    ensures o.kind == Route && a.kind == LeafNode
  {
    OffersShaped(snap, o);
    OffersShaped(snap, a);
  }

  /** An offered link joins its ends by its kind, or a leaf link by a route between the same two. */
  lemma OfferJoins(snap: Snapshot, log: seq<Link>, a: Link)
    requires WellFormed(snap) && Complete(snap, log) && Offers(snap, a)
    ensures Linked(FirstOf(log), a) || (a.kind == LeafNode && Linked(FirstOf(log), a.(kind := Route)))
  {
    EdgesFromSnapshot(snap, log, a);
    assert SameEnds(a, a);
    if Hidden(snap, a) {
      var o :| Offers(snap, o) && Rank(o.kind) < Rank(a.kind) && SameEnds(o, a);
      OnlyRoutesHideLeaves(snap, o, a);
      var r := a.(kind := Route);
      assert SameEnds(o, r);
      EdgesFromSnapshot(snap, log, r);
    }
  }

  /** A leaf that some server's name, or address where it has no name, is carried by joins that server, or a
      route already joins the two; any other leaf joins a node of its own. */
  lemma LeafJoins(snap: Snapshot, log: seq<Link>, s: Id, i: nat, target: Id)
    requires WellFormed(snap) && Complete(snap, log) && s in snap.leafz && i < |snap.leafz[s]|
    requires LeafLeadsTo(snap, snap.leafz[s][i], target)
    ensures Linked(FirstOf(log), Link(s, target, LeafNode)) || Linked(FirstOf(log), Link(s, target, Route))
    ensures target !in snap.varz ==> Linked(FirstOf(log), Link(s, target, LeafNode))
  {
    LeavesOfferIff(snap, s, target);
    var a := Link(s, target, LeafNode);
    OfferJoins(snap, log, a);
    if target !in snap.varz {
      assert target.s[..5] == "leaf:";
      OwnNodeUnhidden(snap, a);
      EdgesFromSnapshot(snap, log, a);
      assert SameEnds(a, a);
    }
  }

  lemma RouteEndsPlain(snap: Snapshot, o: Link)
    requires WellFormed(snap) && Offers(snap, o) && o.kind == Route
    ensures !Prefixed(o.source.s) && !Prefixed(o.target.s)
  {
    assert Plain(o.source) && Plain(o.target);
  }

  /** No other kind hides a link to a leaf's own node. */
  lemma OwnNodeUnhidden(snap: Snapshot, a: Link)
    requires WellFormed(snap) && Offers(snap, a) && a.kind == LeafNode && Prefixed(a.target.s)
    ensures !Hidden(snap, a)
  {
    forall o | Offers(snap, o) && Rank(o.kind) < Rank(a.kind)
      ensures !SameEnds(o, a)
    {
      if SameEnds(o, a) {
        OnlyRoutesHideLeaves(snap, o, a);
        RouteEndsPlain(snap, o);
      }
    }
  }

  /** A bridge connection joins its server to the bridge's node. */
  lemma BridgeJoins(snap: Snapshot, log: seq<Link>, s: Id, i: nat, shown: string)
    requires WellFormed(snap) && Complete(snap, log) && s in snap.connz && i < |snap.connz[s]|
    requires NamedAsBridge(snap.connz[s][i].name) && ShownAt(snap, s, snap.connz[s][i].ip, shown)
    ensures Linked(FirstOf(log), Link(s, Id("mqtt:" + s.s + ":" + shown), Mqtt))
  {
    var target := Id("mqtt:" + s.s + ":" + shown);
    assert BridgeLeadsTo(snap, s, snap.connz[s][i], target);
    BridgesOfferIff(snap, s, target);
    OfferJoins(snap, log, Link(s, target, Mqtt));
  }

  /** Walking the maps in two different orders gives the same undirected edges. */
  lemma OrderIndependent(snap: Snapshot, log: seq<Link>, log': seq<Link>, a: Link)
    requires WellFormed(snap) && Complete(snap, log) && Complete(snap, log')
    ensures Linked(FirstOf(log), a) <==> Linked(FirstOf(log'), a)
  {
    EdgesFromSnapshot(snap, log, a);
    EdgesFromSnapshot(snap, log', a);
  }

  // ---------------------------------------------------------------------------------------
  // The builder
  // ---------------------------------------------------------------------------------------

  datatype BridgeKey = BridgeKey(server: Id, ip: string)

  /** Nodes are distinct: the servers, and the targets of the links offered so far. */
  ghost predicate NodesOk(snap: Snapshot, nodes: seq<Id>, seen: set<Id>, log: seq<Link>) {
    && (forall i, j :: 0 <= i < j < |nodes| ==> nodes[i] != nodes[j])
    && (forall id :: id in nodes <==> id in seen)
    && (forall id :: id in seen <==> id in snap.varz || TargetOf(log, id))
  }

  ghost predicate TargetOf(log: seq<Link>, id: Id) {
    exists i :: 0 <= i < |log| && log[i].target == id
  }

  lemma TargetNext(log: seq<Link>, l: Link, id: Id)
    ensures TargetOf(log + [l], id) <==> TargetOf(log, id) || id == l.target
  {
    var more := log + [l];
    assert more[|log|] == l && forall i :: 0 <= i < |log| ==> more[i] == log[i];
    if TargetOf(log, id) {
      var i :| 0 <= i < |log| && log[i].target == id;
      assert more[i].target == id;
    }
  }

  lemma NodesNext(snap: Snapshot, nodes: seq<Id>, seen: set<Id>, log: seq<Link>, l: Link)
    requires NodesOk(snap, nodes, seen, log)
    ensures l.target in seen ==> NodesOk(snap, nodes, seen, log + [l])
    ensures l.target !in seen ==> NodesOk(snap, nodes + [l.target], seen + {l.target}, log + [l])
  {
    forall id
      ensures TargetOf(log + [l], id) <==> TargetOf(log, id) || id == l.target
    {
      TargetNext(log, l, id);
    }
  }

  /** Every link that the snapshot offers of one kind from the given sources, all but those still to do,
      has been added, and nothing else; the first half needs server names to be distinct. */
  ghost predicate Added(snap: Snapshot, kind: Kind, added: seq<Link>, sources: set<Id>, todo: set<Id>) {
    && (forall l :: l in added ==> l.kind == kind && Offers(snap, l))
    && (DistinctNames(snap) ==>
          forall l: Link :: l.kind == kind && l.source in sources && l.source !in todo && Offers(snap, l) ==>
            l in added)
  }

  /** The log after the links `added` to `before`. */
  ghost predicate Extends(before: seq<Link>, added: seq<Link>, log: seq<Link>) {
    log == before + added
  }

  lemma ExtendsMore(before: seq<Link>, added: seq<Link>, log: seq<Link>, more: seq<Link>)
    requires Extends(before, added, log)
    ensures Extends(before, added + more, log + more)
  {
  }

  lemma AddedNone(snap: Snapshot, kind: Kind, sources: set<Id>)
    ensures Added(snap, kind, [], sources, sources)
  {
  }

  lemma AddedTogether(snap: Snapshot, kind: Kind, a: seq<Link>, b: seq<Link>, sources: set<Id>, todo: set<Id>,
                      source: Id)
    requires Added(snap, kind, a, sources, todo) && Added(snap, kind, b, {source}, {})
    ensures Added(snap, kind, a + b, sources, todo - {source})
  {
  }

  ghost predicate IndexesNames(snap: Snapshot, index: map<Name, Id>) {
    && (forall n :: n in index ==> Known(snap, n, index[n]))
    && (forall n, id :: Known(snap, n, id) ==> n in index)
  }

  function IndexedTarget(index: map<Name, Id>, n: Name): Id {
    if n in index then index[n] else LeafId(n)
  }

  /** The indexed target is a possible one, and with distinct names the only one. */
  lemma IndexedIsTarget(snap: Snapshot, index: map<Name, Id>, n: Name, target: Id)
    requires IndexesNames(snap, index)
    ensures target == IndexedTarget(index, n) ==> LeafTarget(snap, n, target)
    ensures DistinctNames(snap) && LeafTarget(snap, n, target) ==> target == IndexedTarget(index, n)
  {
    if n in index {
      assert Known(snap, n, index[n]);
    }
  }

  ghost predicate RoutesSoFar(snap: Snapshot, source: Id, n: nat, added: seq<Link>) {
    && source in snap.routez && n <= |snap.routez[source]|
    && (forall l :: l in added ==> l.kind == Route && Offers(snap, l))
    && (forall j :: 0 <= j < n ==> Link(source, snap.routez[source][j], Route) in added)
  }

  lemma RouteStep(snap: Snapshot, source: Id, n: nat, added: seq<Link>)
    requires RoutesSoFar(snap, source, n, added) && n < |snap.routez[source]|
    ensures RoutesSoFar(snap, source, n + 1, added + [Link(source, snap.routez[source][n], Route)])
  {
    assert Offers(snap, Link(source, snap.routez[source][n], Route));
  }

  function GatewayLink(source: Id, n: Name): Link {
    Link(source, GatewayId(n), Gateway)
  }

  ghost predicate GatewaysSoFar(snap: Snapshot, source: Id, todo: set<Name>, added: seq<Link>) {
    && source in snap.gatewayz
    && (forall l :: l in added ==> l.kind == Gateway && Offers(snap, l))
    && (forall n :: n in snap.gatewayz[source] && n !in todo ==> GatewayLink(source, n) in added)
  }

  lemma GatewayStep(snap: Snapshot, source: Id, todo: set<Name>, added: seq<Link>, n: Name)
    requires GatewaysSoFar(snap, source, todo, added) && n in snap.gatewayz[source]
    ensures GatewaysSoFar(snap, source, todo - {n}, added + [GatewayLink(source, n)])
  {
    assert Offers(snap, GatewayLink(source, n));
  }

  lemma GatewaysFull(snap: Snapshot, source: Id, added: seq<Link>)
    requires GatewaysSoFar(snap, source, {}, added)
    ensures Added(snap, Gateway, added, {source}, {})
  {
    forall l: Link | l.kind == Gateway && l.source in {source} && Offers(snap, l)
      ensures l in added
    {
      var n :| n in snap.gatewayz[source] && l.target == GatewayId(n);
      assert l == GatewayLink(source, n);
    }
  }

  function LeafLink(snap: Snapshot, index: map<Name, Id>, source: Id, j: nat): Link
    requires source in snap.leafz && j < |snap.leafz[source]|
  {
    Link(source, IndexedTarget(index, LeafName(snap.leafz[source][j])), LeafNode)
  }

  ghost predicate LeavesSoFar(snap: Snapshot, index: map<Name, Id>, source: Id, n: nat, added: seq<Link>) {
    && source in snap.leafz && n <= |snap.leafz[source]|
    && (forall l :: l in added ==> l.kind == LeafNode && Offers(snap, l))
    && (forall j :: 0 <= j < n ==> LeafLink(snap, index, source, j) in added)
  }

  lemma LeafStep(snap: Snapshot, index: map<Name, Id>, source: Id, n: nat, added: seq<Link>)
    requires LeavesSoFar(snap, index, source, n, added) && n < |snap.leafz[source]| && IndexesNames(snap, index)
    ensures LeavesSoFar(snap, index, source, n + 1, added + [LeafLink(snap, index, source, n)])
  {
    var name := LeafName(snap.leafz[source][n]);
    IndexedIsTarget(snap, index, name, IndexedTarget(index, name));
    assert Offers(snap, LeafLink(snap, index, source, n));
  }

  lemma LeavesFull(snap: Snapshot, index: map<Name, Id>, source: Id, added: seq<Link>)
    requires IndexesNames(snap, index) && source in snap.leafz
    requires LeavesSoFar(snap, index, source, |snap.leafz[source]|, added)
    ensures Added(snap, LeafNode, added, {source}, {})
  {
    if DistinctNames(snap) {
      forall l: Link | l.kind == LeafNode && l.source in {source} && Offers(snap, l)
        ensures l in added
      {
        var i :| 0 <= i < |snap.leafz[source]| && LeafTarget(snap, LeafName(snap.leafz[source][i]), l.target);
        IndexedIsTarget(snap, index, LeafName(snap.leafz[source][i]), l.target);
        assert l == LeafLink(snap, index, source, i);
      }
    }
  }

  predicate BridgeAt(snap: Snapshot, c: Conn, k: BridgeKey) {
    IsBridgeConn(c.name) && k.ip == ResolveBridgeIp(snap, k.server, c.ip)
  }

  ghost predicate HasBridge(snap: Snapshot, k: BridgeKey) {
    k.server in snap.connz && exists i :: 0 <= i < |snap.connz[k.server]| && BridgeAt(snap, snap.connz[k.server][i], k)
  }

  function BridgeLink(k: BridgeKey): Link {
    Link(k.server, MqttId(k.server, k.ip), Mqtt)
  }

  lemma BridgeOffers(snap: Snapshot, k: BridgeKey)
    requires HasBridge(snap, k)
    ensures Offers(snap, BridgeLink(k))
  {
    var i :| 0 <= i < |snap.connz[k.server]| && BridgeAt(snap, snap.connz[k.server][i], k);
    assert BridgeTarget(snap, k.server, snap.connz[k.server][i], BridgeLink(k).target);
  }

  ghost predicate BridgesSoFar(snap: Snapshot, keys: set<BridgeKey>, todo: set<BridgeKey>, added: seq<Link>) {
    && (forall l :: l in added ==> l.kind == Mqtt && Offers(snap, l))
    && (forall k :: k in keys && k !in todo ==> BridgeLink(k) in added)
  }

  lemma BridgeStep(snap: Snapshot, keys: set<BridgeKey>, todo: set<BridgeKey>, added: seq<Link>, k: BridgeKey)
    requires HasBridge(snap, k) && BridgesSoFar(snap, keys, todo, added)
    ensures BridgesSoFar(snap, keys, todo - {k}, added + [BridgeLink(k)])
  {
    BridgeOffers(snap, k);
  }

  lemma BridgesFull(snap: Snapshot, keys: set<BridgeKey>, added: seq<Link>)
    requires forall k :: k in keys <==> HasBridge(snap, k)
    requires BridgesSoFar(snap, keys, {}, added)
    ensures Added(snap, Mqtt, added, snap.connz.Keys, {})
  {
    forall l: Link | l.kind == Mqtt && l.source in snap.connz.Keys && Offers(snap, l)
      ensures l in added
    {
      var i :| 0 <= i < |snap.connz[l.source]| && BridgeTarget(snap, l.source, snap.connz[l.source][i], l.target);
      var k := BridgeKey(l.source, ResolveBridgeIp(snap, l.source, snap.connz[l.source][i].ip));
      assert BridgeAt(snap, snap.connz[k.server][i], k);
      assert k in keys && l == BridgeLink(k);
    }
  }

  ghost predicate LogOk(snap: Snapshot, log: seq<Link>) {
    (forall l :: l in log ==> Offers(snap, l)) && (DistinctNames(snap) ==> Complete(snap, log))
  }

  lemma PhasesComplete(snap: Snapshot, routes: seq<Link>, gateways: seq<Link>, leaves: seq<Link>, bridges: seq<Link>,
                       log: seq<Link>)
    requires log == [] + routes + gateways + leaves + bridges
    requires Added(snap, Route, routes, snap.routez.Keys, {}) && Added(snap, Gateway, gateways, snap.gatewayz.Keys, {})
    requires Added(snap, LeafNode, leaves, snap.leafz.Keys, {}) && Added(snap, Mqtt, bridges, snap.connz.Keys, {})
    ensures LogOk(snap, log)
  {
    assert log == routes + gateways + leaves + bridges;
    PhaseOrder(routes, gateways, leaves, bridges);
    if DistinctNames(snap) {
      forall l | Offers(snap, l)
        ensures l in log
      {
      }
    }
  }

  lemma PhaseOrder(routes: seq<Link>, gateways: seq<Link>, leaves: seq<Link>, bridges: seq<Link>)
    requires forall l :: l in routes ==> l.kind == Route
    requires forall l :: l in gateways ==> l.kind == Gateway
    requires forall l :: l in leaves ==> l.kind == LeafNode
    requires forall l :: l in bridges ==> l.kind == Mqtt
    ensures InPhases(routes + gateways + leaves + bridges)
  {
    var log := routes + gateways + leaves + bridges;
    var a, b, c := |routes|, |routes| + |gateways|, |routes| + |gateways| + |leaves|;
    forall i | 0 <= i < |log|
      ensures Rank(log[i].kind) == if i < a then 0 else if i < b then 1 else if i < c then 2 else 3
    {
      if i < a {
        assert log[i] == routes[i];
      } else if i < b {
        assert log[i] == gateways[i - a];
      } else if i < c {
        assert log[i] == leaves[i - b];
      } else {
        assert log[i] == bridges[i - c];
      }
    }
  }

  class TopologyBuilder {
    const snap: Snapshot
    var nodes: seq<Id>
    var links: seq<Link>
    var seenNodes: set<Id>
    var seenLinks: set<Key>
    ghost var log: seq<Link>

    ghost predicate Valid()
      reads this
    {
      links == FirstOf(log) && seenLinks == Keys(log) && NodesOk(snap, nodes, seenNodes, log)
    }

    constructor (snap: Snapshot)
      ensures this.snap == snap && nodes == [] && links == [] && seenNodes == {} && seenLinks == {} && log == []
    {
      this.snap, nodes, links, seenNodes, seenLinks, log := snap, [], [], {}, {}, [];
    }

    /** One node for each server. */
    method AddServers()
      requires nodes == [] && links == [] && seenNodes == {} && seenLinks == {} && log == []
      modifies this
      ensures Valid() && log == []
    {
      var todo := snap.varz.Keys;
      while todo != {}
        invariant todo <= snap.varz.Keys && links == [] && seenLinks == {} && log == []
        invariant forall i, j :: 0 <= i < j < |nodes| ==> nodes[i] != nodes[j]
        invariant forall id :: id in nodes <==> id in seenNodes
        invariant forall id :: id in seenNodes <==> id in snap.varz && id !in todo
      {
        var id :| id in todo;
        nodes := nodes + [id];
        seenNodes := seenNodes + {id};
        todo := todo - {id};
      }
    }

    /** Add the target's node unless it is a known server, and the link unless its key was seen. */
    method Offer(l: Link, known: bool)
      requires Valid() && (known ==> l.target in snap.varz)
      modifies this
      ensures Valid() && log == old(log) + [l]
    {
      NodesNext(snap, nodes, seenNodes, log, l);
      if !known && l.target !in seenNodes {
        seenNodes := seenNodes + {l.target};
        nodes := nodes + [l.target];
      }
      var key := KeyOf(l);
      ghost var before := log;
      log := log + [l];
      assert log[..|log| - 1] == before;
      KeysNext(log);
      if key !in seenLinks {
        seenLinks := seenLinks + {key};
        links := links + [l];
      }
    }

    method RoutesOf(source: Id) returns (ghost added: seq<Link>)
      requires Valid() && source in snap.routez
      modifies this
      ensures Valid() && Extends(old(log), added, log) && Added(snap, Route, added, {source}, {})
    {
      var routes := snap.routez[source];
      added := [];
      for i := 0 to |routes|
        invariant Valid() && log == old(log) + added && RoutesSoFar(snap, source, i, added)
      {
        RouteStep(snap, source, i, added);
        Offer(Link(source, routes[i], Route), false);
        added := added + [Link(source, routes[i], Route)];
      }
    }

    method RouteLinks() returns (ghost added: seq<Link>)
      requires Valid()
      modifies this
      ensures Valid() && Extends(old(log), added, log) && Added(snap, Route, added, snap.routez.Keys, {})
    {
      added := [];
      var todo := snap.routez.Keys;
      AddedNone(snap, Route, snap.routez.Keys);
      while todo != {}
        invariant Valid() && Extends(old(log), added, log) && todo <= snap.routez.Keys
        invariant Added(snap, Route, added, snap.routez.Keys, todo)
      {
        var source :| source in todo;
        ghost var before := log;
        ghost var more := RoutesOf(source);
        ExtendsMore(old(log), added, before, more);
        AddedTogether(snap, Route, added, more, snap.routez.Keys, todo, source);
        added, todo := added + more, todo - {source};
      }
    }

    method GatewaysOf(source: Id) returns (ghost added: seq<Link>)
      requires Valid() && source in snap.gatewayz
      modifies this
      ensures Valid() && Extends(old(log), added, log) && Added(snap, Gateway, added, {source}, {})
    {
      added := [];
      var todo := snap.gatewayz[source];
      while todo != {}
        invariant Valid() && log == old(log) + added && todo <= snap.gatewayz[source]
        invariant GatewaysSoFar(snap, source, todo, added)
      {
        var n :| n in todo;
        GatewayStep(snap, source, todo, added, n);
        Offer(GatewayLink(source, n), false);
        added := added + [GatewayLink(source, n)];
        todo := todo - {n};
      }
      GatewaysFull(snap, source, added);
    }

    method GatewayLinks() returns (ghost added: seq<Link>)
      requires Valid()
      modifies this
      ensures Valid() && Extends(old(log), added, log) && Added(snap, Gateway, added, snap.gatewayz.Keys, {})
    {
      added := [];
      var todo := snap.gatewayz.Keys;
      AddedNone(snap, Gateway, snap.gatewayz.Keys);
      while todo != {}
        invariant Valid() && Extends(old(log), added, log) && todo <= snap.gatewayz.Keys
        invariant Added(snap, Gateway, added, snap.gatewayz.Keys, todo)
      {
        var source :| source in todo;
        ghost var before := log;
        ghost var more := GatewaysOf(source);
        ExtendsMore(old(log), added, before, more);
        AddedTogether(snap, Gateway, added, more, snap.gatewayz.Keys, todo, source);
        added, todo := added + more, todo - {source};
      }
    }

    /** `nameToID`. */
    method IndexNames() returns (index: map<Name, Id>)
      ensures IndexesNames(snap, index)
    {
      index := map[];
      var todo := snap.varz.Keys;
      while todo != {}
        invariant todo <= snap.varz.Keys
        invariant forall n :: n in index ==> Known(snap, n, index[n])
        invariant forall n, id :: Known(snap, n, id) && id !in todo ==> n in index
      {
        var id :| id in todo;
        if |snap.varz[id].name.s| > 0 {
          index := index[snap.varz[id].name := id];
        }
        todo := todo - {id};
      }
    }

    method LeavesOf(source: Id, index: map<Name, Id>) returns (ghost added: seq<Link>)
      requires Valid() && source in snap.leafz && IndexesNames(snap, index)
      modifies this
      ensures Valid() && Extends(old(log), added, log) && Added(snap, LeafNode, added, {source}, {})
    {
      var leaves := snap.leafz[source];
      added := [];
      for i := 0 to |leaves|
        invariant Valid() && log == old(log) + added && LeavesSoFar(snap, index, source, i, added)
      {
        var n := LeafName(leaves[i]);
        LeafStep(snap, index, source, i, added);
        var target := if n in index then index[n] else LeafId(n);
        Offer(Link(source, target, LeafNode), n in index);
        added := added + [Link(source, target, LeafNode)];
      }
      LeavesFull(snap, index, source, added);
    }

    method LeafLinks(index: map<Name, Id>) returns (ghost added: seq<Link>)
      requires Valid() && IndexesNames(snap, index)
      modifies this
      ensures Valid() && Extends(old(log), added, log) && Added(snap, LeafNode, added, snap.leafz.Keys, {})
    {
      added := [];
      var todo := snap.leafz.Keys;
      AddedNone(snap, LeafNode, snap.leafz.Keys);
      while todo != {}
        invariant Valid() && Extends(old(log), added, log) && todo <= snap.leafz.Keys
        invariant Added(snap, LeafNode, added, snap.leafz.Keys, todo)
      {
        var source :| source in todo;
        ghost var before := log;
        ghost var more := LeavesOf(source, index);
        ExtendsMore(old(log), added, before, more);
        AddedTogether(snap, LeafNode, added, more, snap.leafz.Keys, todo, source);
        added, todo := added + more, todo - {source};
      }
    }

    /** The bridge connections grouped by server and address. */
    method CollectBridges() returns (keys: set<BridgeKey>)
      ensures forall k :: k in keys <==> HasBridge(snap, k)
    {
      keys := {};
      var todo := snap.connz.Keys;
      while todo != {}
        invariant todo <= snap.connz.Keys
        invariant forall k :: k in keys <==> HasBridge(snap, k) && k.server !in todo
      {
        var server :| server in todo;
        var more := BridgesOf(server);
        keys := keys + more;
        todo := todo - {server};
      }
    }

    method BridgesOf(server: Id) returns (keys: set<BridgeKey>)
      requires server in snap.connz
      ensures forall k :: k in keys <==> HasBridge(snap, k) && k.server == server
    {
      keys := {};
      var conns := snap.connz[server];
      for i := 0 to |conns|
        invariant forall k :: k in keys ==> HasBridge(snap, k) && k.server == server
        invariant forall j :: 0 <= j < i && IsBridgeConn(conns[j].name) ==>
                    BridgeKey(server, ResolveBridgeIp(snap, server, conns[j].ip)) in keys
      {
        if IsBridgeConn(conns[i].name) {
          var k := BridgeKey(server, ResolveBridgeIp(snap, server, conns[i].ip));
          assert BridgeAt(snap, conns[i], k);
          keys := keys + {k};
        }
      }
    }

    method MqttLinks(keys: set<BridgeKey>) returns (ghost added: seq<Link>)
      requires Valid() && forall k :: k in keys <==> HasBridge(snap, k)
      modifies this
      ensures Valid() && Extends(old(log), added, log) && Added(snap, Mqtt, added, snap.connz.Keys, {})
    {
      added := [];
      var todo := keys;
      while todo != {}
        invariant Valid() && log == old(log) + added && todo <= keys && BridgesSoFar(snap, keys, todo, added)
      {
        var k :| k in todo;
        BridgeStep(snap, keys, todo, added, k);
        Offer(BridgeLink(k), false);
        added := added + [BridgeLink(k)];
        todo := todo - {k};
      }
      BridgesFull(snap, keys, added);
    }

    /** The four phases in turn. */
    method AddLinks()
      requires Valid() && log == []
      modifies this
      ensures Valid() && LogOk(snap, log)
    {
      var index := IndexNames();
      ghost var routes := RouteLinks();
      ghost var gateways := GatewayLinks();
      ghost var leaves := LeafLinks(index);
      var keys := CollectBridges();
      ghost var bridges := MqttLinks(keys);
      PhasesComplete(snap, routes, gateways, leaves, bridges, log);
    }
  }

  /** The node ids as a function of the snapshot. */
  lemma NodesFromSnapshot(snap: Snapshot, nodes: seq<Id>, seen: set<Id>, log: seq<Link>, id: Id)
    requires NodesOk(snap, nodes, seen, log) && Complete(snap, log)
    ensures id in nodes <==> IsNode(snap, id)
  {
    if TargetOf(log, id) {
      var i :| 0 <= i < |log| && log[i].target == id;
      assert log[i] in log && Offers(snap, log[i]);
    }
    if l :| Offers(snap, l) && l.target == id {
      assert l in log;
    }
  }

  // ---------------------------------------------------------------------------------------
  // Snapshots polled over HTTP
  // ---------------------------------------------------------------------------------------

  /** Only servers that answered have routes, gateways, leaf nodes or connections. */
  ghost predicate KeysWithin(snap: Snapshot) {
    && (forall id :: id in snap.routez ==> id in snap.varz)
    && (forall id :: id in snap.gatewayz ==> id in snap.varz)
    && (forall id :: id in snap.leafz ==> id in snap.varz)
    && (forall id :: id in snap.connz ==> id in snap.varz)
  }

  /** Every link joins two nodes of the graph. */
  lemma EndpointsAreNodes(snap: Snapshot, nodes: seq<Id>, seen: set<Id>, log: seq<Link>, l: Link)
    requires NodesOk(snap, nodes, seen, log) && LogOk(snap, log) && KeysWithin(snap) && l in FirstOf(log)
    ensures l.source in nodes && l.target in nodes
  {
    KeptIsMember(log, l);
    var i :| 0 <= i < |log| && log[i] == l;
    assert TargetOf(log, log[i].target);
    assert Offers(snap, l);
  }

  /** The graph with the log of everything offered to it. */
  method BuildGraph(snap: Snapshot)
    returns (nodes: seq<Id>, links: seq<Link>, ghost seen: set<Id>, ghost log: seq<Link>)
    ensures links == FirstOf(log) && LogOk(snap, log) && NodesOk(snap, nodes, seen, log)
  {
    var b := new TopologyBuilder(snap);
    b.AddServers();
    b.AddLinks();
    nodes, links, seen, log := b.nodes, b.links, b.seenNodes, b.log;
  }

  ghost predicate IsNode(snap: Snapshot, id: Id) {
    id in snap.varz || exists l :: Offers(snap, l) && l.target == id
  }

  ghost predicate IsEdge(snap: Snapshot, a: Link) {
    Offered(snap, a) && !Hidden(snap, a)
  }

  /** The graph of a snapshot, whatever order its maps are walked in: unique node ids; given distinct
      server names, exactly the snapshot's nodes; given also separator-free ids, exactly its edges, with
      no two nodes joined twice; and for polled snapshots every link joins two nodes. */
  method BuildTopology(snap: Snapshot) returns (nodes: seq<Id>, links: seq<Link>)
    ensures forall i, j :: 0 <= i < j < |nodes| ==> nodes[i] != nodes[j]
    ensures DistinctNames(snap) ==> forall id :: id in nodes <==> IsNode(snap, id)
    ensures WellFormed(snap) ==> forall a :: Linked(links, a) <==> IsEdge(snap, a)
    ensures WellFormed(snap) ==> forall i, j :: 0 <= i < j < |links| ==> !SameEnds(links[i], links[j])
    ensures KeysWithin(snap) ==> forall i :: 0 <= i < |links| ==> links[i].source in nodes && links[i].target in nodes
  {
    ghost var seen, log;
    nodes, links, seen, log := BuildGraph(snap);
    if DistinctNames(snap) {
      forall id
        ensures id in nodes <==> IsNode(snap, id)
      {
        NodesFromSnapshot(snap, nodes, seen, log, id);
      }
    }
    if WellFormed(snap) {
      forall a
        ensures Linked(links, a) <==> IsEdge(snap, a)
      {
        EdgesFromSnapshot(snap, log, a);
      }
      forall i, j | 0 <= i < j < |links|
        ensures !SameEnds(links[i], links[j])
      {
        NoPairTwice(snap, log, i, j);
      }
    }
    if KeysWithin(snap) {
      forall i | 0 <= i < |links|
        ensures links[i].source in nodes && links[i].target in nodes
      {
        EndpointsAreNodes(snap, nodes, seen, log, links[i]);
      }
    }
  }

  /** The two critical sections of `fetchServer` that fill the maps: the server with the answers that
      arrived, and then, from the same goroutine, its connections. */
  datatype Section =
    | Answered(id: Id, server: Server, routes: Option<seq<Id>>, gateways: Option<set<Name>>, leaves: Option<seq<Leaf>>)
    | Connected(id: Id, conns: seq<Conn>)

  function Fill(snap: Snapshot, s: Section): Snapshot {
    match s
    case Answered(id, server, routes, gateways, leaves) =>
      snap.(varz := snap.varz[id := server],
            routez := if routes.Some? then snap.routez[id := routes.value] else snap.routez,
            gatewayz := if gateways.Some? then snap.gatewayz[id := gateways.value] else snap.gatewayz,
            leafz := if leaves.Some? then snap.leafz[id := leaves.value] else snap.leafz)
    case Connected(id, conns) => snap.(connz := snap.connz[id := conns])
  }

  /** An answer stores the server and each map that arrived, connections store theirs, and nothing else
      changes. */
  lemma FillMeans(snap: Snapshot, s: Section)
    ensures var after := Fill(snap, s);
            && after.serverUrls == snap.serverUrls
            && (s.Connected? ==> after == snap.(connz := snap.connz[s.id := s.conns]))
            && (s.Answered? ==>
                  && after.connz == snap.connz && after.varz == snap.varz[s.id := s.server]
                  && (s.routes.None? ==> after.routez == snap.routez)
                  && (s.routes.Some? ==> after.routez == snap.routez[s.id := s.routes.value])
                  && (s.gateways.None? ==> after.gatewayz == snap.gatewayz)
                  && (s.gateways.Some? ==> after.gatewayz == snap.gatewayz[s.id := s.gateways.value])
                  && (s.leaves.None? ==> after.leafz == snap.leafz)
                  && (s.leaves.Some? ==> after.leafz == snap.leafz[s.id := s.leaves.value]))
  {
  }

  function FillAll(snap: Snapshot, run: seq<Section>): (r: Snapshot) {
    if run == [] then snap else Fill(FillAll(snap, run[..|run| - 1]), run[|run| - 1])
  }

  /** Any interleaving of the servers' goroutines: each stores its connections after its answer. */
  ghost predicate ProgramOrder(run: seq<Section>) {
    forall k :: 0 <= k < |run| && run[k].Connected? ==> AnsweredBefore(run, k, run[k].id)
  }

  ghost predicate AnsweredBefore(run: seq<Section>, k: int, id: Id) {
    exists j :: 0 <= j < k && j < |run| && run[j].Answered? && run[j].id == id
  }

  ghost predicate FilledWithin(snap: Snapshot, run: seq<Section>) {
    KeysWithin(snap) && forall j :: 0 <= j < |run| && run[j].Answered? ==> run[j].id in snap.varz
  }

  /** However the servers' polls interleave, a polled snapshot has no keys beyond its servers. */
  lemma {:induction false} PolledKeysWithin(start: Snapshot, run: seq<Section>)
    requires KeysWithin(start) && ProgramOrder(run)
    ensures FilledWithin(FillAll(start, run), run)
  {
    if run != [] {
      var n := |run| - 1;
      PrefixOrder(run, n);
      PolledKeysWithin(start, run[..n]);
      var before := FillAll(start, run[..n]);
      assert forall j :: 0 <= j < n ==> run[j] == run[..n][j];
      if run[n].Connected? {
        assert AnsweredBefore(run, n, run[n].id);
        var j :| 0 <= j < n && run[j].Answered? && run[j].id == run[n].id;
        assert run[..n][j].id in before.varz;
      }
    }
  }

  lemma PrefixOrder(run: seq<Section>, n: nat)
    requires ProgramOrder(run) && n <= |run|
    ensures ProgramOrder(run[..n])
  {
    forall k | 0 <= k < n && run[..n][k].Connected?
      ensures AnsweredBefore(run[..n], k, run[..n][k].id)
    {
      assert AnsweredBefore(run, k, run[k].id);
      var j :| 0 <= j < k && run[j].Answered? && run[j].id == run[k].id;
      assert run[..n][j] == run[j];
    }
  }
}

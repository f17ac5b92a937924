/** Editing stored clusters, internal/api/handlers_clusters.go: redaction to the client's view, keeping
    host paths out of requests, and merging the secrets a client never received back in. */
module ClusterSecrets {
  import opened Common

  datatype Host = Host(name: string)
  datatype UserInfo = UserInfo(text: string)
  datatype BridgeName = BridgeName(name: string)

  /** A connection URL, parsed where it can be. */
  datatype Url = Parsed(scheme: string, user: Option<UserInfo>, host: Host, rest: string) | Raw(text: string)

  datatype TLS = TLS(caFile: string, caPem: string, insecure: bool)
  datatype Bridge = Bridge(name: BridgeName, url: Url, token: string)
  datatype Secrets = Secrets(password: string, token: string, nkey: string)
  datatype Nats = Nats(urls: seq<Url>, username: string, prefix: string, sys: bool, secrets: Secrets,
                       credsFile: string, tls: Option<TLS>)
  datatype Discovery = Discovery(text: string)

  /** A stored cluster, and also the body of a create or update request. */
  datatype Cluster = Cluster(name: string, servers: seq<Url>, bridges: seq<Bridge>, discovery: Option<Discovery>,
                             tls: Option<TLS>, adminToken: string, nats: Option<Nats>)

  // ---------------------------------------------------------------------------------------
  // The view
  // ---------------------------------------------------------------------------------------

  datatype BridgeView = BridgeView(name: BridgeName, url: Url, hasToken: bool)
  datatype NatsView = NatsView(urls: seq<Url>, username: string, prefix: string, sys: bool, tls: Option<TLS>,
                               hasPassword: bool, hasToken: bool, hasNKey: bool, hasCreds: bool)
  datatype View = View(name: string, servers: seq<Url>, bridges: seq<BridgeView>, discovery: Option<Discovery>,
                       tls: Option<TLS>, hasAdminToken: bool, nats: Option<NatsView>)

  function Redacted(u: Url): Url {
    if u.Parsed? then u.(user := None) else u
  }

  function RedactAll(urls: seq<Url>): (r: seq<Url>)
    ensures |r| == |urls| && forall i :: 0 <= i < |urls| ==> r[i] == Redacted(urls[i])
  {
    if urls == [] then [] else RedactAll(urls[..|urls| - 1]) + [Redacted(urls[|urls| - 1])]
  }

  function BridgeViews(bs: seq<Bridge>): (r: seq<BridgeView>)
    ensures |r| == |bs|
    ensures forall i :: 0 <= i < |bs| ==> r[i] == BridgeView(bs[i].name, Redacted(bs[i].url), |bs[i].token| > 0)
  {
    if bs == [] then []
    else
      var b := bs[|bs| - 1];
      BridgeViews(bs[..|bs| - 1]) + [BridgeView(b.name, Redacted(b.url), |b.token| > 0)]
  }

  function NatsViewOf(n: Nats): NatsView {
    NatsView(RedactAll(n.urls), n.username, n.prefix, n.sys, n.tls, |n.secrets.password| > 0, |n.secrets.token| > 0,
             |n.secrets.nkey| > 0, |n.credsFile| > 0)
  }

  function ViewOf(c: Cluster): View {
    View(c.name, RedactAll(c.servers), BridgeViews(c.bridges), c.discovery, c.tls, |c.adminToken| > 0,
         if c.nats.Some? then Some(NatsViewOf(c.nats.value)) else None)
  }

  /** `toClusterView`. */
  method ToClusterView(c: Cluster) returns (v: View)
    ensures v == ViewOf(c)
  {
    var servers, bridges := [], [];
    for i := 0 to |c.servers|
      invariant servers == RedactAll(c.servers[..i])
    {
      servers := servers + [Redacted(c.servers[i])];
      assert c.servers[..i + 1][..i] == c.servers[..i];
    }
    for i := 0 to |c.bridges|
      invariant bridges == BridgeViews(c.bridges[..i])
    {
      bridges := bridges + [BridgeView(c.bridges[i].name, Redacted(c.bridges[i].url), |c.bridges[i].token| > 0)];
      assert c.bridges[..i + 1][..i] == c.bridges[..i];
    }
    assert c.servers[..|c.servers|] == c.servers && c.bridges[..|c.bridges|] == c.bridges;
    var nats := if c.nats.Some? then Some(NatsViewOf(c.nats.value)) else None;
    v := View(c.name, servers, bridges, c.discovery, c.tls, |c.adminToken| > 0, nats);
  }

  /** A secret reduced to whether it is set. */
  function Masked(secret: string): string {
    if |secret| > 0 then "set" else ""
  }

  function MaskedBridges(bs: seq<Bridge>): (r: seq<Bridge>)
    ensures |r| == |bs|
    ensures forall i :: 0 <= i < |bs| ==> r[i] == Bridge(bs[i].name, Redacted(bs[i].url), Masked(bs[i].token))
  {
    if bs == [] then []
    else
      var b := bs[|bs| - 1];
      MaskedBridges(bs[..|bs| - 1]) + [Bridge(b.name, Redacted(b.url), Masked(b.token))]
  }

  function MaskedNats(n: Nats): Nats {
    n.(urls := RedactAll(n.urls), credsFile := Masked(n.credsFile),
       secrets := Secrets(Masked(n.secrets.password), Masked(n.secrets.token), Masked(n.secrets.nkey)))
  }

  function MaskedCluster(c: Cluster): Cluster {
    c.(servers := RedactAll(c.servers), bridges := MaskedBridges(c.bridges), adminToken := Masked(c.adminToken),
       nats := if c.nats.Some? then Some(MaskedNats(c.nats.value)) else None)
  }

  /** The view depends on no secret, token, user info or creds path beyond whether it is set. */
  lemma ViewHidesSecrets(c: Cluster, d: Cluster)
    ensures ViewOf(c) == ViewOf(MaskedCluster(c))
    ensures MaskedCluster(c) == MaskedCluster(d) ==> ViewOf(c) == ViewOf(d)
  {
    MaskedView(c);
    MaskedView(d);
  }

  lemma MaskedView(c: Cluster)
    ensures ViewOf(c) == ViewOf(MaskedCluster(c))
  {
    RedactTwice(c.servers);
    MaskedBridgeViews(c.bridges);
    if c.nats.Some? {
      MaskedNatsView(c.nats.value);
    }
  }

  lemma MaskedNatsView(n: Nats)
    ensures NatsViewOf(MaskedNats(n)) == NatsViewOf(n)
  {
    RedactTwice(n.urls);
  }

  lemma RedactTwice(urls: seq<Url>)
    ensures RedactAll(RedactAll(urls)) == RedactAll(urls)
  {
    var once := RedactAll(urls);
    var twice := RedactAll(once);
    forall i | 0 <= i < |urls|
      ensures twice[i] == once[i]
    {
      assert twice[i] == Redacted(once[i]) && once[i] == Redacted(urls[i]);
    }
  }

  lemma MaskedBridgeViews(bs: seq<Bridge>)
    ensures BridgeViews(MaskedBridges(bs)) == BridgeViews(bs)
  {
    var masked := MaskedBridges(bs);
    var a, b := BridgeViews(masked), BridgeViews(bs);
    forall i | 0 <= i < |bs|
      ensures a[i] == b[i]
    {
      assert a[i] == BridgeView(masked[i].name, Redacted(masked[i].url), |masked[i].token| > 0);
    }
  }

  /** What an edit form sends back unchanged: the view with every secret blank. */
  function Echo(v: View): Cluster {
    Cluster(v.name, v.servers, EchoBridges(v.bridges), v.discovery, v.tls, "",
            if v.nats.Some? then Some(EchoNats(v.nats.value)) else None)
  }

  function EchoNats(n: NatsView): Nats {
    Nats(n.urls, n.username, n.prefix, n.sys, Secrets("", "", ""), "", n.tls)
  }

  function EchoBridges(bs: seq<BridgeView>): (r: seq<Bridge>)
    ensures |r| == |bs| && forall i :: 0 <= i < |bs| ==> r[i] == Bridge(bs[i].name, bs[i].url, "")
  {
    if bs == [] then [] else EchoBridges(bs[..|bs| - 1]) + [Bridge(bs[|bs| - 1].name, bs[|bs| - 1].url, "")]
  }

  // ---------------------------------------------------------------------------------------
  // Host paths
  // ---------------------------------------------------------------------------------------

  /** The stored path or none at all; anything else is refused. */
  function SanitizedTls(incoming: Option<TLS>, stored: Option<TLS>): (r: Option<Option<TLS>>)
    ensures r.Some? && r.value.Some? ==>
              r.value.value.caFile == if stored.Some? then stored.value.caFile else ""
  {
    if incoming.None? then Some(None)
    else
      var path := if stored.Some? then stored.value.caFile else "";
      var pem := if stored.Some? then stored.value.caPem else "";
      if |incoming.value.caFile| > 0 && incoming.value.caFile != path then None
      else Some(Some(TLS(path, Keep(incoming.value.caPem, pem), incoming.value.insecure)))
  }

  function StoredNatsTls(prev: Option<Cluster>): Option<TLS> {
    if prev.Some? && prev.value.nats.Some? then prev.value.nats.value.tls else None
  }

  function StoredTls(prev: Option<Cluster>): Option<TLS> {
    if prev.Some? then prev.value.tls else None
  }

  function StoredCreds(prev: Option<Cluster>): string {
    if prev.Some? && prev.value.nats.Some? then prev.value.nats.value.credsFile else ""
  }

  /** `sanitizeHostPaths`; no result stands for a refused request. */
  method SanitizeHostPaths(req: Cluster, prev: Option<Cluster>) returns (out: Option<Cluster>)
    ensures out == Sanitized(req, prev)
  {
    var r := req;
    var tls := SanitizedTls(r.tls, StoredTls(prev));
    if tls == None {
      return None;
    }
    r := r.(tls := tls.value);
    if r.nats == None {
      return Some(r);
    }
    var natsTls := SanitizedTls(r.nats.value.tls, StoredNatsTls(prev));
    if natsTls == None {
      return None;
    }
    r := r.(nats := Some(r.nats.value.(tls := natsTls.value)));
    if |r.nats.value.credsFile| > 0 && r.nats.value.credsFile != StoredCreds(prev) {
      return None;
    }
    r := r.(nats := Some(r.nats.value.(credsFile := StoredCreds(prev))));
    return Some(r);
  }

  function SanitizedNats(n: Nats, prev: Option<Cluster>): Option<Nats> {
    var tls := SanitizedTls(n.tls, StoredNatsTls(prev));
    if tls.None? || (|n.credsFile| > 0 && n.credsFile != StoredCreds(prev)) then None
    else Some(n.(tls := tls.value, credsFile := StoredCreds(prev)))
  }

  function Sanitized(req: Cluster, prev: Option<Cluster>): Option<Cluster> {
    var tls := SanitizedTls(req.tls, StoredTls(prev));
    if tls.None? then None
    else if req.nats.None? then Some(req.(tls := tls.value))
    else
      var nats := SanitizedNats(req.nats.value, prev);
      if nats.None? then None else Some(req.(tls := tls.value, nats := nats))
  }

  // ---------------------------------------------------------------------------------------
  // Merging secrets
  // ---------------------------------------------------------------------------------------

  /** The user info of the first stored URL of the host that has any. */
  function FirstUser(prev: seq<Url>, host: Host): (r: Option<UserInfo>)
    decreases |prev|
  {
    if prev == [] then None
    else if prev[0].Parsed? && prev[0].user.Some? && prev[0].host == host then prev[0].user
    else FirstUser(prev[1..], host)
  }

  function Restored(u: Url, prev: seq<Url>): Url {
    if u.Raw? || u.user.Some? then u else u.(user := FirstUser(prev, u.host))
  }

  method RestoreUrlCreds(incoming: Url, prev: seq<Url>) returns (r: Url)
    ensures r == Restored(incoming, prev)
  {
    if incoming.Raw? || incoming.user.Some? {
      return incoming;
    }
    for i := 0 to |prev|
      invariant FirstUser(prev, incoming.host) == FirstUser(prev[i..], incoming.host)
    {
      var p := prev[i];
      assert prev[i..][1..] == prev[i + 1..];
      if p.Parsed? && p.user.Some? && p.host == incoming.host {
        return incoming.(user := p.user);
      }
    }
    return incoming;
  }

  function RestoreAll(urls: seq<Url>, prev: seq<Url>): (r: seq<Url>)
    ensures |r| == |urls| && forall i :: 0 <= i < |urls| ==> r[i] == Restored(urls[i], prev)
  {
    if urls == [] then [] else RestoreAll(urls[..|urls| - 1], prev) + [Restored(urls[|urls| - 1], prev)]
  }

  method RestoreUrls(urls: seq<Url>, prev: seq<Url>) returns (r: seq<Url>)
    ensures r == RestoreAll(urls, prev)
  {
    r := urls;
    for i := 0 to |urls|
      invariant |r| == |urls|
      invariant forall j :: 0 <= j < i ==> r[j] == Restored(urls[j], prev)
      invariant forall j :: i <= j < |urls| ==> r[j] == urls[j]
    {
      var u := RestoreUrlCreds(r[i], prev);
      r := r[i := u];
    }
  }

  function BridgeUrls(bs: seq<Bridge>): (r: seq<Url>)
    ensures |r| == |bs| && forall i :: 0 <= i < |bs| ==> r[i] == bs[i].url
  {
    if bs == [] then [] else BridgeUrls(bs[..|bs| - 1]) + [bs[|bs| - 1].url]
  }

  /** The last stored token of a bridge name that is not blank. */
  function LastToken(prev: seq<Bridge>, name: BridgeName): (t: string) {
    if prev == [] then ""
    else if prev[|prev| - 1].name == name && |prev[|prev| - 1].token| > 0 then prev[|prev| - 1].token
    else LastToken(prev[..|prev| - 1], name)
  }

  function RestoredBridge(b: Bridge, prev: seq<Bridge>): Bridge {
    Bridge(b.name, Restored(b.url, BridgeUrls(prev)), if |b.token| == 0 then LastToken(prev, b.name) else b.token)
  }

  function RestoreBridges(bs: seq<Bridge>, prev: seq<Bridge>): (r: seq<Bridge>)
    ensures |r| == |bs| && forall i :: 0 <= i < |bs| ==> r[i] == RestoredBridge(bs[i], prev)
  {
    if bs == [] then [] else RestoreBridges(bs[..|bs| - 1], prev) + [RestoredBridge(bs[|bs| - 1], prev)]
  }

  /** The token table of `mergeClusterSecrets`: later bridges of a name overwrite earlier ones. */
  method TokenTable(prev: seq<Bridge>) returns (tokens: map<BridgeName, string>)
    ensures forall name :: LastToken(prev, name) == if name in tokens then tokens[name] else ""
    ensures forall name :: name in tokens ==> |tokens[name]| > 0
  {
    tokens := map[];
    for i := 0 to |prev|
      invariant forall name :: LastToken(prev[..i], name) == if name in tokens then tokens[name] else ""
      invariant forall name :: name in tokens ==> |tokens[name]| > 0
    {
      var b := prev[i];
      assert prev[..i + 1][..i] == prev[..i];
      if |b.token| > 0 {
        tokens := tokens[b.name := b.token];
      }
    }
    assert prev[..|prev|] == prev;
  }

  method MergeBridges(bs: seq<Bridge>, prev: seq<Bridge>) returns (r: seq<Bridge>)
    ensures r == RestoreBridges(bs, prev)
  {
    r := bs;
    var urls := BridgeUrls(prev);
    var tokens := TokenTable(prev);
    for i := 0 to |bs|
      invariant |r| == |bs|
      invariant forall j :: 0 <= j < i ==> r[j] == RestoredBridge(bs[j], prev)
      invariant forall j :: i <= j < |bs| ==> r[j] == bs[j]
    {
      var u := RestoreUrlCreds(r[i].url, urls);
      var b := r[i].(url := u);
      if |b.token| == 0 && b.name in tokens {
        b := b.(token := tokens[b.name]);
      }
      assert |bs[i].token| == 0 && b.name !in tokens ==> bs[i].token == "";
      r := r[i := b];
    }
  }

  function Keep(incoming: string, stored: string): string {
    if |incoming| == 0 then stored else incoming
  }

  function MergedNats(n: Nats, prev: Nats): Nats {
    n.(urls := RestoreAll(n.urls, prev.urls),
       secrets := Secrets(Keep(n.secrets.password, prev.secrets.password), Keep(n.secrets.token, prev.secrets.token),
                          Keep(n.secrets.nkey, prev.secrets.nkey)),
       credsFile := Keep(n.credsFile, prev.credsFile))
  }

  function Merged(cl: Cluster, prev: Cluster): Cluster {
    cl.(adminToken := Keep(cl.adminToken, prev.adminToken),
        servers := RestoreAll(cl.servers, prev.servers),
        bridges := RestoreBridges(cl.bridges, prev.bridges),
        nats := if cl.nats.Some? && prev.nats.Some? then Some(MergedNats(cl.nats.value, prev.nats.value)) else cl.nats)
  }

  /** `mergeClusterSecrets`. */
  method MergeClusterSecrets(cl: Cluster, prev: Cluster) returns (r: Cluster)
    ensures r == Merged(cl, prev)
  {
    r := cl;
    if |r.adminToken| == 0 {
      r := r.(adminToken := prev.adminToken);
    }
    var servers := RestoreUrls(r.servers, prev.servers);
    r := r.(servers := servers);
    if r.nats.Some? && prev.nats.Some? {
      var n, p := r.nats.value, prev.nats.value;
      var urls := RestoreUrls(n.urls, p.urls);
      n := n.(urls := urls);
      n := n.(secrets := Secrets(Keep(n.secrets.password, p.secrets.password), Keep(n.secrets.token, p.secrets.token),
                                 Keep(n.secrets.nkey, p.secrets.nkey)));
      if |n.credsFile| == 0 {
        n := n.(credsFile := p.credsFile);
      }
      r := r.(nats := Some(n));
    }
    var bridges := MergeBridges(r.bridges, prev.bridges);
    r := r.(bridges := bridges);
  }

  // ---------------------------------------------------------------------------------------
  // What a merge gives, field by field
  // ---------------------------------------------------------------------------------------

  /** A blank secret is the stored one, any other stays. */
  ghost predicate SecretKept(given: string, stored: string, result: string) {
    result == if given == "" then stored else given
  }

  ghost predicate HasUser(u: Url, host: Host) {
    u.Parsed? && u.host == host && u.user.Some?
  }

  /** The first stored URL of the host that has user info. */
  ghost predicate FirstWithUser(stored: seq<Url>, host: Host, j: int) {
    0 <= j < |stored| && HasUser(stored[j], host) && forall k :: 0 <= k < j ==> !HasUser(stored[k], host)
  }

  /** A URL with user info of its own, or that cannot be parsed, stays; any other gets the user info of the
      first stored URL of its host that has some, and is otherwise as given. */
  ghost predicate UrlKept(given: Url, stored: seq<Url>, result: Url) {
    if given.Raw? || given.user.Some? then result == given
    else
      && result.Parsed? && result.scheme == given.scheme && result.host == given.host && result.rest == given.rest
      && (forall j :: FirstWithUser(stored, given.host, j) ==> result.user == stored[j].user)
      && ((forall j :: 0 <= j < |stored| ==> !HasUser(stored[j], given.host)) ==> result.user.None?)
  }

  ghost predicate UrlsKept(given: seq<Url>, stored: seq<Url>, result: seq<Url>) {
    |result| == |given| && forall i :: 0 <= i < |given| ==> UrlKept(given[i], stored, result[i])
  }

  ghost predicate HasToken(b: Bridge, name: BridgeName) {
    b.name == name && |b.token| > 0
  }

  /** The last stored bridge of the name that has a token. */
  ghost predicate LastWithToken(stored: seq<Bridge>, name: BridgeName, j: int) {
    && 0 <= j < |stored| && HasToken(stored[j], name)
    && forall k :: j < k < |stored| ==> !HasToken(stored[k], name)
  }

  ghost predicate TokenKept(given: Bridge, stored: seq<Bridge>, result: string) {
    if |given.token| > 0 then result == given.token
    else
      && (forall j :: LastWithToken(stored, given.name, j) ==> result == stored[j].token)
      && ((forall j :: 0 <= j < |stored| ==> !HasToken(stored[j], given.name)) ==> result == "")
  }

  ghost predicate BridgesKept(given: seq<Bridge>, stored: seq<Bridge>, result: seq<Bridge>) {
    && |result| == |given|
    && (forall i :: 0 <= i < |given| ==> result[i].name == given[i].name)
    && (forall i :: 0 <= i < |given| ==> UrlKept(given[i].url, BridgeUrls(stored), result[i].url))
    && (forall i :: 0 <= i < |given| ==> TokenKept(given[i], stored, result[i].token))
  }

  ghost predicate NatsKept(given: Nats, stored: Nats, result: Nats) {
    && UrlsKept(given.urls, stored.urls, result.urls)
    && SecretKept(given.secrets.password, stored.secrets.password, result.secrets.password)
    && SecretKept(given.secrets.token, stored.secrets.token, result.secrets.token)
    && SecretKept(given.secrets.nkey, stored.secrets.nkey, result.secrets.nkey)
    && SecretKept(given.credsFile, stored.credsFile, result.credsFile)
    && result.username == given.username && result.prefix == given.prefix && result.sys == given.sys
    && result.tls == given.tls
  }

  /** Everything but the secrets is as given. */
  ghost predicate ClusterKept(given: Cluster, stored: Cluster, result: Cluster) {
    && result.name == given.name && result.discovery == given.discovery && result.tls == given.tls
    && SecretKept(given.adminToken, stored.adminToken, result.adminToken)
    && UrlsKept(given.servers, stored.servers, result.servers)
    && BridgesKept(given.bridges, stored.bridges, result.bridges)
    && result.nats.Some? == given.nats.Some?
    && (given.nats.Some? && stored.nats.None? ==> result.nats == given.nats)
    && (given.nats.Some? && stored.nats.Some? ==> NatsKept(given.nats.value, stored.nats.value, result.nats.value))
  }

  lemma {:induction false} FirstUserMeans(stored: seq<Url>, host: Host)
    ensures forall j :: FirstWithUser(stored, host, j) ==> FirstUser(stored, host) == stored[j].user
    ensures (forall j :: 0 <= j < |stored| ==> !HasUser(stored[j], host)) ==> FirstUser(stored, host).None?
    decreases |stored|
  {
    if stored != [] && !HasUser(stored[0], host) {
      var rest := stored[1..];
      FirstUserMeans(rest, host);
      forall j | FirstWithUser(stored, host, j)
        ensures FirstUser(stored, host) == stored[j].user
      {
        assert forall k :: 0 <= k < |rest| ==> rest[k] == stored[k + 1];
        assert FirstWithUser(rest, host, j - 1);
      }
    }
  }

  lemma UrlKeeps(given: Url, stored: seq<Url>)
    ensures UrlKept(given, stored, Restored(given, stored))
  {
    if given.Parsed? {
      FirstUserMeans(stored, given.host);
    }
  }

  lemma UrlsKeep(given: seq<Url>, stored: seq<Url>)
    ensures UrlsKept(given, stored, RestoreAll(given, stored))
  {
    forall i | 0 <= i < |given|
      ensures UrlKept(given[i], stored, RestoreAll(given, stored)[i])
    {
      UrlKeeps(given[i], stored);
    }
  }

  lemma {:induction false} LastTokenMeans(stored: seq<Bridge>, name: BridgeName)
    ensures forall j :: LastWithToken(stored, name, j) ==> LastToken(stored, name) == stored[j].token
    ensures (forall j :: 0 <= j < |stored| ==> !HasToken(stored[j], name)) ==> LastToken(stored, name) == ""
  {
    if stored != [] {
      var n := |stored| - 1;
      if !HasToken(stored[n], name) {
        var rest := stored[..n];
        LastTokenMeans(rest, name);
        assert LastToken(stored, name) == LastToken(rest, name);
        forall j | LastWithToken(stored, name, j)
          ensures LastToken(stored, name) == stored[j].token
        {
          assert LastWithToken(rest, name, j);
        }
      }
    }
  }

  lemma BridgesKeep(given: seq<Bridge>, stored: seq<Bridge>)
    ensures BridgesKept(given, stored, RestoreBridges(given, stored))
  {
    var r := RestoreBridges(given, stored);
    forall i | 0 <= i < |given|
      ensures r[i].name == given[i].name && UrlKept(given[i].url, BridgeUrls(stored), r[i].url)
      ensures TokenKept(given[i], stored, r[i].token)
    {
      assert r[i] == RestoredBridge(given[i], stored);
      UrlKeeps(given[i].url, BridgeUrls(stored));
      LastTokenMeans(stored, given[i].name);
    }
  }

  /** For every request and stored cluster: a given secret stays, a blank one is the stored one, and nothing
      else changes. */
  lemma MergeKeeps(given: Cluster, stored: Cluster)
    ensures ClusterKept(given, stored, Merged(given, stored))
  {
    UrlsKeep(given.servers, stored.servers);
    BridgesKeep(given.bridges, stored.bridges);
    if given.nats.Some? && stored.nats.Some? {
      UrlsKeep(given.nats.value.urls, stored.nats.value.urls);
    }
  }

  // ---------------------------------------------------------------------------------------
  // What sanitising gives, field by field
  // ---------------------------------------------------------------------------------------

  /** The CA path is blank or the stored one; the certificate is the given one, or the stored one for none. */
  ghost predicate TlsKept(given: Option<TLS>, stored: Option<TLS>, result: Option<TLS>) {
    && result.Some? == given.Some?
    && (given.Some? && stored.Some? ==>
          && result.value.caFile == stored.value.caFile && result.value.insecure == given.value.insecure
          && SecretKept(given.value.caPem, stored.value.caPem, result.value.caPem))
    && (given.Some? && stored.None? ==> result.value == TLS("", given.value.caPem, given.value.insecure))
  }

  /** The request names a CA path that is not the stored one. */
  ghost predicate TlsForeign(given: Option<TLS>, stored: Option<TLS>) {
    given.Some? && given.value.caFile != "" && (stored.None? || given.value.caFile != stored.value.caFile)
  }

  lemma TlsKeeps(given: Option<TLS>, stored: Option<TLS>)
    ensures SanitizedTls(given, stored).None? <==> TlsForeign(given, stored)
    ensures SanitizedTls(given, stored).Some? ==> TlsKept(given, stored, SanitizedTls(given, stored).value)
  {
  }

  /** A request over a stored cluster is refused exactly when it names a foreign CA or creds path; otherwise the
      stored paths are used and everything else is as given. */
  lemma SanitizeKeeps(req: Cluster, prev: Cluster, natsTls: Option<TLS>, creds: string)
    requires natsTls == if prev.nats.Some? then prev.nats.value.tls else None
    requires creds == if prev.nats.Some? then prev.nats.value.credsFile else ""
    ensures Sanitized(req, Some(prev)).None? <==>
              || TlsForeign(req.tls, prev.tls)
              || (req.nats.Some? && TlsForeign(req.nats.value.tls, natsTls))
              || (req.nats.Some? && req.nats.value.credsFile != "" && req.nats.value.credsFile != creds)
    ensures Sanitized(req, Some(prev)).Some? ==>
              var s := Sanitized(req, Some(prev)).value;
              && s == req.(tls := s.tls, nats := s.nats) && TlsKept(req.tls, prev.tls, s.tls)
              && s.nats.Some? == req.nats.Some?
              && (req.nats.Some? ==>
                    && s.nats.value == req.nats.value.(tls := s.nats.value.tls, credsFile := creds)
                    && TlsKept(req.nats.value.tls, natsTls, s.nats.value.tls))
  {
    TlsKeeps(req.tls, prev.tls);
    if req.nats.Some? {
      TlsKeeps(req.nats.value.tls, natsTls);
    }
  }

  /** The view: everything that is no secret as stored, URLs without user info, and whether each secret is
      set. */
  lemma ViewShows(c: Cluster)
    ensures var v := ViewOf(c);
            && v.name == c.name && v.discovery == c.discovery && v.tls == c.tls
            && (v.hasAdminToken <==> c.adminToken != "")
            && UrlsShown(c.servers, v.servers)
            && |v.bridges| == |c.bridges|
            && (forall i :: 0 <= i < |c.bridges| ==> BridgeShown(c.bridges[i], v.bridges[i]))
            && v.nats.Some? == c.nats.Some?
            && (c.nats.Some? ==> NatsShown(c.nats.value, v.nats.value))
  {
  }

  ghost predicate UrlShown(u: Url, v: Url) {
    if u.Raw? then v == u else v == Parsed(u.scheme, None, u.host, u.rest)
  }

  ghost predicate UrlsShown(urls: seq<Url>, shown: seq<Url>) {
    |shown| == |urls| && forall i :: 0 <= i < |urls| ==> UrlShown(urls[i], shown[i])
  }

  ghost predicate BridgeShown(b: Bridge, v: BridgeView) {
    v.name == b.name && UrlShown(b.url, v.url) && (v.hasToken <==> b.token != "")
  }

  ghost predicate NatsShown(n: Nats, v: NatsView) {
    && UrlsShown(n.urls, v.urls) && v.username == n.username && v.prefix == n.prefix && v.sys == n.sys && v.tls == n.tls
    && (v.hasPassword <==> n.secrets.password != "") && (v.hasToken <==> n.secrets.token != "")
    && (v.hasNKey <==> n.secrets.nkey != "") && (v.hasCreds <==> n.credsFile != "")
  }

  // ---------------------------------------------------------------------------------------
  // An unedited edit
  // ---------------------------------------------------------------------------------------

  predicate OfHost(u: Url, host: Host) {
    u.Parsed? && u.host == host
  }

  predicate SameHost(u: Url, v: Url) {
    u.Parsed? && v.Parsed? && u.host == v.host
  }

  /** URLs of one host carry one user info. */
  ghost predicate UsersAgree(urls: seq<Url>) {
    forall i, j :: 0 <= i < |urls| && 0 <= j < |urls| && SameHost(urls[i], urls[j]) ==> urls[i].user == urls[j].user
  }

  /** Bridges of one name carry one token. */
  ghost predicate TokensAgree(bs: seq<Bridge>) {
    forall i, j :: 0 <= i < |bs| && 0 <= j < |bs| && bs[i].name == bs[j].name ==> bs[i].token == bs[j].token
  }

  lemma {:induction false} FirstUserFrom(prev: seq<Url>, host: Host)
    ensures FirstUser(prev, host).Some? ==>
              exists j :: 0 <= j < |prev| && OfHost(prev[j], host) && prev[j].user == FirstUser(prev, host)
    ensures FirstUser(prev, host).None? ==>
              forall j :: 0 <= j < |prev| && OfHost(prev[j], host) ==> prev[j].user.None?
    decreases |prev|
  {
    if prev != [] {
      FirstUserFrom(prev[1..], host);
      assert forall j :: 0 < j < |prev| ==> prev[j] == prev[1..][j - 1];
      if FirstUser(prev[1..], host).Some? {
        var rest := prev[1..];
        var j :| 0 <= j < |rest| && OfHost(rest[j], host) && rest[j].user == FirstUser(rest, host);
        assert prev[j + 1] == rest[j];
      }
    }
  }

  lemma UsersFromFirst(urls: seq<Url>)
    ensures UsersAgree(urls) <==>
              forall i :: 0 <= i < |urls| && urls[i].Parsed? ==> urls[i].user == FirstUser(urls, urls[i].host)
  {
    if UsersAgree(urls) {
      forall i | 0 <= i < |urls| && urls[i].Parsed?
        ensures urls[i].user == FirstUser(urls, urls[i].host)
      {
        FirstUserFrom(urls, urls[i].host);
      }
    }
  }

  /** Redacting a list and restoring it gives it back exactly when its users agree. */
  lemma UrlsRoundTrip(urls: seq<Url>)
    ensures RestoreAll(RedactAll(urls), urls) == urls <==> UsersAgree(urls)
  {
    UsersFromFirst(urls);
    var back := RestoreAll(RedactAll(urls), urls);
    forall i | 0 <= i < |urls|
      ensures back[i] == urls[i] <==> (urls[i].Parsed? ==> urls[i].user == FirstUser(urls, urls[i].host))
    {
      assert back[i] == Restored(Redacted(urls[i]), urls);
    }
    assert back == urls <==> forall i :: 0 <= i < |urls| ==> back[i] == urls[i];
  }

  lemma {:induction false} LastTokenFrom(prev: seq<Bridge>, name: BridgeName)
    ensures |LastToken(prev, name)| > 0 ==>
              exists j :: 0 <= j < |prev| && prev[j].name == name && prev[j].token == LastToken(prev, name)
    ensures |LastToken(prev, name)| == 0 ==>
              forall j :: 0 <= j < |prev| && prev[j].name == name ==> |prev[j].token| == 0
  {
    if prev != [] {
      LastTokenFrom(prev[..|prev| - 1], name);
    }
  }

  lemma AgreeingTokens(bs: seq<Bridge>, i: nat)
    requires i < |bs| && TokensAgree(bs)
    ensures LastToken(bs, bs[i].name) == bs[i].token
  {
    LastTokenFrom(bs, bs[i].name);
    assert |LastToken(bs, bs[i].name)| == 0 ==> LastToken(bs, bs[i].name) == bs[i].token;
  }

  lemma TokensRoundTrip(bs: seq<Bridge>)
    ensures (forall i :: 0 <= i < |bs| ==> LastToken(bs, bs[i].name) == bs[i].token) <==> TokensAgree(bs)
  {
    if TokensAgree(bs) {
      forall i | 0 <= i < |bs|
        ensures LastToken(bs, bs[i].name) == bs[i].token
      {
        AgreeingTokens(bs, i);
      }
    }
  }

  lemma BridgeBack(bs: seq<Bridge>, i: nat)
    requires i < |bs|
    ensures RestoreBridges(EchoBridges(BridgeViews(bs)), bs)[i]
         == Bridge(bs[i].name, RestoreAll(RedactAll(BridgeUrls(bs)), BridgeUrls(bs))[i], LastToken(bs, bs[i].name))
  {
  }

  lemma BridgesRoundTrip(bs: seq<Bridge>)
    ensures RestoreBridges(EchoBridges(BridgeViews(bs)), bs) == bs <==> UsersAgree(BridgeUrls(bs)) && TokensAgree(bs)
  {
    var back, urls := RestoreBridges(EchoBridges(BridgeViews(bs)), bs), BridgeUrls(bs);
    var backUrls := RestoreAll(RedactAll(urls), urls);
    UrlsRoundTrip(urls);
    TokensRoundTrip(bs);
    forall i | 0 <= i < |bs|
      ensures back[i] == bs[i] <==> backUrls[i] == urls[i] && LastToken(bs, bs[i].name) == bs[i].token
    {
      BridgeBack(bs, i);
    }
    assert back == bs <==> forall i :: 0 <= i < |bs| ==> back[i] == bs[i];
    assert backUrls == urls <==> forall i :: 0 <= i < |bs| ==> backUrls[i] == urls[i];
  }

  ghost predicate Faithful(c: Cluster) {
    && UsersAgree(c.servers) && UsersAgree(BridgeUrls(c.bridges)) && TokensAgree(c.bridges)
    && (c.nats.Some? ==> UsersAgree(c.nats.value.urls))
  }

  /** The unedited form is never refused and the merge gives the stored cluster back exactly when URLs
      of one host share their user info and bridges of one name their token. */
  lemma UneditedEditIsIdentity(c: Cluster)
    ensures var s := Sanitized(Echo(ViewOf(c)), Some(c));
            s.Some? && (Merged(s.value, c) == c <==> Faithful(c))
  {
    var req := Echo(ViewOf(c));
    UrlsRoundTrip(c.servers);
    BridgesRoundTrip(c.bridges);
    assert SanitizedTls(c.tls, c.tls) == Some(c.tls) by {
      TlsUnchanged(c.tls);
    }
    if c.nats.Some? {
      NatsRoundTrip(c.nats.value, c);
    }
  }

  lemma TlsUnchanged(t: Option<TLS>)
    ensures SanitizedTls(t, t) == Some(t)
  {
    if t.Some? {
      assert |t.value.caPem| == 0 ==> t.value.caPem == "";
    }
  }

  lemma NatsRoundTrip(n: Nats, c: Cluster)
    requires c.nats == Some(n)
    ensures var s := SanitizedNats(EchoNats(NatsViewOf(n)), Some(c));
            s.Some? && (MergedNats(s.value, n) == n <==> UsersAgree(n.urls))
  {
    TlsUnchanged(n.tls);
    UrlsRoundTrip(n.urls);
    var s := SanitizedNats(EchoNats(NatsViewOf(n)), Some(c));
    assert |n.credsFile| == 0 ==> n.credsFile == "";
    assert MergedNats(s.value, n) == n.(urls := RestoreAll(RedactAll(n.urls), n.urls));
  }

  // ---------------------------------------------------------------------------------------
  // The stored clusters over whole runs
  // ---------------------------------------------------------------------------------------

  datatype Ticket = Ticket(n: nat)

  /** The cluster an update request loaded before its write; none when the load failed. */
  datatype Load = Load(id: ClusterId, prev: Option<Cluster>)

  /** The rows, and the loads of update requests in flight. */
  datatype State = State(rows: map<ClusterId, Cluster>, loads: map<Ticket, Load>)

  /** The file contents a row's CA path may resolve to when it is read. */
  datatype Disk = Disk(files: map<string, string>)

  function ResolvedTls(t: Option<TLS>, disk: Disk): Option<Option<TLS>> {
    if t.None? || |t.value.caFile| == 0 || |t.value.caPem| > 0 then Some(t)
    else if t.value.caFile in disk.files then Some(Some(t.value.(caPem := disk.files[t.value.caFile])))
    else None
  }

  /** `scanCluster`: CA paths are resolved into their contents, or the read fails. */
  function Scanned(c: Cluster, disk: Disk): Option<Cluster> {
    var tls := ResolvedTls(c.tls, disk);
    if tls.None? then None
    else if c.nats.None? then Some(c.(tls := tls.value))
    else
      var natsTls := ResolvedTls(c.nats.value.tls, disk);
      if natsTls.None? then None else Some(c.(tls := tls.value, nats := Some(c.nats.value.(tls := natsTls.value))))
  }

  /** `read` says whether the row could be read at all; `accepted` stands for the fetcher and the statement
      both succeeding. */
  datatype Event =
    | Create(id: ClusterId, req: Cluster, accepted: bool)
    | Begin(ticket: Ticket, target: ClusterId, disk: Disk, read: bool)
    | Commit(ticket: Ticket, req: Cluster, accepted: bool)
    | Delete(id: ClusterId)

  /** What the request would store over `prev`; none when it is refused. */
  function ToStore(req: Cluster, prev: Option<Cluster>): Option<Cluster> {
    var s := Sanitized(req, prev);
    if s.None? || |s.value.name| == 0 || |s.value.servers| == 0 then None
    else if prev.Some? then Some(Merged(s.value, prev.value))
    else s
  }

  function Apply(s: State, e: Event): State {
    match e
    case Create(id, req, accepted) =>
      var c := ToStore(req, None);
      if c.Some? && accepted && id !in s.rows then s.(rows := s.rows[id := c.value]) else s
    case Begin(ticket, id, disk, read) =>
      s.(loads := s.loads[ticket := Load(id, if read && id in s.rows then Scanned(s.rows[id], disk) else None)])
    case Commit(ticket, req, accepted) =>
      if ticket !in s.loads then s
      else
        var load := s.loads[ticket];
        var c := ToStore(req, load.prev);
        if c.Some? && accepted && load.id in s.rows then s.(rows := s.rows[load.id := c.value]) else s
    case Delete(id) => s.(rows := s.rows - {id})
  }

  function After(s: State, run: seq<Event>): State
    decreases |run|
  {
    if run == [] then s else After(Apply(s, run[0]), run[1..])
  }

  function TlsPath(t: Option<TLS>): string {
    if t.Some? then t.value.caFile else ""
  }

  predicate PathFrom(path: string, seeded: string) {
    |path| == 0 || path == seeded
  }

  /** Every host path of the cluster is blank or the seeded one of the same field. */
  predicate PathsFrom(c: Cluster, seed: Option<Cluster>) {
    && PathFrom(TlsPath(c.tls), TlsPath(StoredTls(seed)))
    && PathFrom(TlsPath(StoredNatsTls(Some(c))), TlsPath(StoredNatsTls(seed)))
    && PathFrom(StoredCreds(Some(c)), StoredCreds(seed))
  }

  lemma ScannedPaths(c: Cluster, disk: Disk, seed: Option<Cluster>)
    ensures PathsFrom(c, seed) && Scanned(c, disk).Some? ==> PathsFrom(Scanned(c, disk).value, seed)
  {
  }

  lemma SanitizedPaths(req: Cluster, prev: Option<Cluster>, seed: Option<Cluster>)
    requires prev.Some? ==> PathsFrom(prev.value, seed)
    ensures Sanitized(req, prev).Some? ==> PathsFrom(Sanitized(req, prev).value, seed)
  {
  }

  lemma MergedPaths(c: Cluster, prev: Cluster, seed: Option<Cluster>)
    ensures PathsFrom(c, seed) && PathsFrom(prev, seed) ==> PathsFrom(Merged(c, prev), seed)
  {
  }

  /** What a request stores takes every host path from the loaded cluster. */
  lemma StoredPaths(req: Cluster, prev: Option<Cluster>, seed: Option<Cluster>)
    requires prev.Some? ==> PathsFrom(prev.value, seed)
    ensures ToStore(req, prev).Some? ==> PathsFrom(ToStore(req, prev).value, seed)
  {
    SanitizedPaths(req, prev, seed);
    if prev.Some? && Sanitized(req, prev).Some? {
      MergedPaths(Sanitized(req, prev).value, prev.value, seed);
    }
  }

  function SeedOf(seed: map<ClusterId, Cluster>, id: ClusterId): Option<Cluster> {
    if id in seed then Some(seed[id]) else None
  }

  ghost predicate PathsKept(s: State, seed: map<ClusterId, Cluster>) {
    && (forall id :: id in s.rows ==> PathsFrom(s.rows[id], SeedOf(seed, id)))
    && (forall k :: k in s.loads ==> LoadKept(s.loads[k], seed))
  }

  ghost predicate LoadKept(load: Load, seed: map<ClusterId, Cluster>) {
    load.prev.Some? ==> PathsFrom(load.prev.value, SeedOf(seed, load.id))
  }

  lemma PathsStep(s: State, seed: map<ClusterId, Cluster>, e: Event)
    requires PathsKept(s, seed)
    ensures PathsKept(Apply(s, e), seed)
  {
    match e {
      case Create(id, req, _) =>
        StoredPaths(req, None, SeedOf(seed, id));
      case Begin(ticket, id, disk, _) =>
        if id in s.rows {
          ScannedPaths(s.rows[id], disk, SeedOf(seed, id));
        }
      case Commit(ticket, req, _) =>
        if ticket in s.loads {
          var load := s.loads[ticket];
          assert LoadKept(load, seed);
          StoredPaths(req, load.prev, SeedOf(seed, load.id));
        }
      case Delete(_) =>
    }
  }

  lemma {:induction false} PathsRun(s: State, seed: map<ClusterId, Cluster>, run: seq<Event>)
    requires PathsKept(s, seed)
    ensures PathsKept(After(s, run), seed)
    decreases |run|
  {
    if run != [] {
      PathsStep(s, seed, run[0]);
      PathsRun(Apply(s, run[0]), seed, run[1..]);
    }
  }

  // ---------------------------------------------------------------------------------------
  // What creates and commits store, field by field
  // ---------------------------------------------------------------------------------------

  /** The NATS part of a committed row, over the stored one. */
  ghost predicate NatsStored(given: Nats, stored: Nats, result: Nats) {
    && NatsKept(given.(credsFile := stored.credsFile, tls := result.tls), stored, result)
    && result.credsFile == stored.credsFile && TlsKept(given.tls, stored.tls, result.tls)
  }

  /** A committed row: given secrets, the loaded ones for blanks, the loaded host paths, and else the request. */
  ghost predicate RowStored(req: Cluster, prev: Cluster, row: Cluster) {
    && row.name == req.name && row.discovery == req.discovery && TlsKept(req.tls, prev.tls, row.tls)
    && SecretKept(req.adminToken, prev.adminToken, row.adminToken)
    && UrlsKept(req.servers, prev.servers, row.servers)
    && BridgesKept(req.bridges, prev.bridges, row.bridges)
    && row.nats.Some? == req.nats.Some?
    && (req.nats.Some? && prev.nats.Some? ==> NatsStored(req.nats.value, prev.nats.value, row.nats.value))
    && (req.nats.Some? && prev.nats.None? ==>
          && row.nats.value == req.nats.value.(tls := row.nats.value.tls, credsFile := "")
          && TlsKept(req.nats.value.tls, None, row.nats.value.tls))
  }

  /** The request names a path that is not the loaded cluster's. */
  ghost predicate ForeignPath(req: Cluster, prev: Cluster) {
    || TlsForeign(req.tls, prev.tls)
    || (req.nats.Some? && TlsForeign(req.nats.value.tls, if prev.nats.Some? then prev.nats.value.tls else None))
    || (req.nats.Some? && req.nats.value.credsFile != "" &&
        req.nats.value.credsFile != if prev.nats.Some? then prev.nats.value.credsFile else "")
  }

  lemma StoredKeeps(req: Cluster, prev: Cluster)
    ensures ToStore(req, Some(prev)).None? <==> ForeignPath(req, prev) || req.name == "" || req.servers == []
    ensures ToStore(req, Some(prev)).Some? ==> RowStored(req, prev, ToStore(req, Some(prev)).value)
  {
    var natsTls := if prev.nats.Some? then prev.nats.value.tls else None;
    var creds := if prev.nats.Some? then prev.nats.value.credsFile else "";
    SanitizeKeeps(req, prev, natsTls, creds);
    var s := Sanitized(req, Some(prev));
    if s.Some? {
      MergeKeeps(s.value, prev);
    }
  }

  lemma CommitStores(s: State, ticket: Ticket, id: ClusterId, req: Cluster, prev: Option<Cluster>)
    requires ticket in s.loads && s.loads[ticket] == Load(id, prev) && id in s.rows && ToStore(req, prev).Some?
    ensures Apply(s, Commit(ticket, req, true)).rows == s.rows[id := ToStore(req, prev).value]
  {
  }

  /** An accepted commit of an update that loaded `prev` changes the row exactly when the request has a name and a
      server and names no foreign path, and then stores given secrets and keeps the loaded ones for blanks. */
  lemma CommitKeeps(s: State, ticket: Ticket, id: ClusterId, req: Cluster, prev: Cluster)
    requires ticket in s.loads && s.loads[ticket] == Load(id, Some(prev)) && id in s.rows
    ensures var rows := Apply(s, Commit(ticket, req, true)).rows;
            if ForeignPath(req, prev) || req.name == "" || req.servers == [] then rows == s.rows
            else id in rows && rows == s.rows[id := rows[id]] && RowStored(req, prev, rows[id])
  {
    StoredKeeps(req, prev);
    if ToStore(req, Some(prev)).Some? {
      CommitStores(s, ticket, id, req, Some(prev));
    }
  }

  /** A request without a loaded cluster is stored as it is, or refused for a missing name or server or for any
      host path. */
  lemma UnloadedStores(req: Cluster)
    ensures ToStore(req, None) ==
              if || req.name == "" || req.servers == []
                 || (req.tls.Some? && req.tls.value.caFile != "")
                 || (req.nats.Some? && req.nats.value.tls.Some? && req.nats.value.tls.value.caFile != "")
                 || (req.nats.Some? && req.nats.value.credsFile != "")
              then None else Some(req)
  {
    PathlessTls(req.tls);
    if req.nats.Some? {
      PathlessTls(req.nats.value.tls);
      assert |req.nats.value.credsFile| == 0 ==> req.nats.value.credsFile == "";
    }
  }

  lemma PathlessTls(t: Option<TLS>)
    ensures SanitizedTls(t, None) == if |TlsPath(t)| > 0 then None else Some(t)
  {
    if t.Some? && |t.value.caFile| == 0 {
      assert t.value.caFile == "" && (|t.value.caPem| == 0 ==> t.value.caPem == "");
    }
  }

  /** No run of creates, deletes and interleaved updates, including stale loads and loads that failed for
      any reason, ever stores a host path that was not seeded for that cluster; clusters created through
      the API have none. */
  lemma OnlySeededPaths(seed: map<ClusterId, Cluster>, run: seq<Event>, id: ClusterId)
    requires id in After(State(seed, map[]), run).rows
    ensures PathsFrom(After(State(seed, map[]), run).rows[id], SeedOf(seed, id))
    ensures var row := After(State(seed, map[]), run).rows[id];
            && (row.tls.Some? && row.tls.value.caFile != "" ==>
                  id in seed && seed[id].tls.Some? && seed[id].tls.value.caFile == row.tls.value.caFile)
            && (row.nats.Some? && row.nats.value.credsFile != "" ==>
                  id in seed && seed[id].nats.Some? && seed[id].nats.value.credsFile == row.nats.value.credsFile)
            && (row.nats.Some? && row.nats.value.tls.Some? && row.nats.value.tls.value.caFile != "" ==>
                  && id in seed && seed[id].nats.Some? && seed[id].nats.value.tls.Some?
                  && seed[id].nats.value.tls.value.caFile == row.nats.value.tls.value.caFile)
  {
    PathsRun(State(seed, map[]), seed, run);
  }

  lemma UneditedToStore(c: Cluster)
    requires |c.name| > 0 && |c.servers| > 0
    ensures var stored := ToStore(Echo(ViewOf(c)), Some(c));
            stored.Some? && (stored.value == c <==> Faithful(c))
  {
    UneditedEditIsIdentity(c);
  }

  /** Reading the TLS settings does not change them: they name no file, already carry the certificate, or
      the file is empty. */
  predicate NothingToInline(t: Option<TLS>, disk: Disk) {
    t.Some? && |t.value.caFile| > 0 && |t.value.caPem| == 0 ==>
      t.value.caFile in disk.files && |disk.files[t.value.caFile]| == 0
  }

  lemma ResolvedUnchanged(t: Option<TLS>, disk: Disk)
    ensures ResolvedTls(t, disk) == Some(t) <==> NothingToInline(t, disk)
  {
    if t.Some? && |t.value.caFile| > 0 && |t.value.caPem| == 0 && t.value.caFile in disk.files {
      assert disk.files[t.value.caFile] == t.value.caPem <==> |disk.files[t.value.caFile]| == 0;
    }
  }

  lemma ScannedUnchanged(c: Cluster, disk: Disk)
    ensures Scanned(c, disk) == Some(c) <==>
              NothingToInline(c.tls, disk) && NothingToInline(StoredNatsTls(Some(c)), disk)
  {
    ResolvedUnchanged(c.tls, disk);
    ResolvedUnchanged(StoredNatsTls(Some(c)), disk);
  }

  /** The merge keeps the TLS settings it was given, which are those of the loaded cluster. */
  lemma UneditedKeepsTls(c: Cluster)
    requires |c.name| > 0 && |c.servers| > 0
    ensures var stored := ToStore(Echo(ViewOf(c)), Some(c));
            && stored.Some? && stored.value.tls == c.tls
            && StoredNatsTls(stored) == StoredNatsTls(Some(c))
  {
    UneditedToStore(c);
    TlsUnchanged(c.tls);
    if c.nats.Some? {
      TlsUnchanged(c.nats.value.tls);
    }
  }

  /** A row differs from what was read of it in its TLS settings only. */
  lemma ReadDiffersInTls(row: Cluster, disk: Disk, c: Cluster)
    requires Scanned(row, disk) == Some(c)
    ensures row.tls == c.tls && StoredNatsTls(Some(row)) == StoredNatsTls(Some(c)) <==> row == c
  {
  }

  /** The row after loading a cluster, echoing its view and committing it. */
  function RowAfterEcho(s: State, ticket: Ticket, id: ClusterId, disk: Disk, c: Cluster): Option<Cluster> {
    var rows := Apply(Apply(s, Begin(ticket, id, disk, true)), Commit(ticket, Echo(ViewOf(c)), true)).rows;
    if id in rows then Some(rows[id]) else None
  }

  lemma EchoStores(s: State, ticket: Ticket, id: ClusterId, disk: Disk, c: Cluster)
    requires id in s.rows && Scanned(s.rows[id], disk) == Some(c) && |c.name| > 0 && |c.servers| > 0
    ensures RowAfterEcho(s, ticket, id, disk, c) == ToStore(Echo(ViewOf(c)), Some(c))
  {
    UneditedToStore(c);
    CommitStores(Apply(s, Begin(ticket, id, disk, true)), ticket, id, Echo(ViewOf(c)), Some(c));
  }

  /** An unedited update leaves what the API reads of the row as it was exactly when the cluster is
      faithful, and leaves the stored row itself as it was exactly when, besides, reading it had no CA
      file to inline. */
  lemma UneditedUpdateStores(s: State, ticket: Ticket, id: ClusterId, disk: Disk, c: Cluster)
    requires id in s.rows && Scanned(s.rows[id], disk) == Some(c) && |c.name| > 0 && |c.servers| > 0
    ensures var row, after := s.rows[id], RowAfterEcho(s, ticket, id, disk, c);
            && after.Some?
            && (after.value == c <==> Faithful(c))
            && (after.value == row <==>
                  Faithful(c) && NothingToInline(row.tls, disk) && NothingToInline(StoredNatsTls(Some(row)), disk))
  {
    UneditedToStore(c);
    UneditedKeepsTls(c);
    EchoStores(s, ticket, id, disk, c);
    ReadDiffersInTls(s.rows[id], disk, c);
    ScannedUnchanged(s.rows[id], disk);
  }

  /** The CA file, if any, has its contents beside it. */
  predicate Inlined(t: Option<TLS>) {
    t.Some? && |t.value.caFile| > 0 ==> |t.value.caPem| > 0
  }

  /** A stored cluster reads the same whatever its CA files hold, or whether they exist, exactly when their
      contents are inlined: after an unedited update it no longer follows its files. */
  lemma InlinedStaysInlined(c: Cluster)
    ensures (forall disk :: Scanned(c, disk) == Some(c)) <==> Inlined(c.tls) && Inlined(StoredNatsTls(Some(c)))
  {
    forall disk: Disk
      ensures Inlined(c.tls) && Inlined(StoredNatsTls(Some(c))) ==> Scanned(c, disk) == Some(c)
    {
      ScannedUnchanged(c, disk);
    }
    ScannedUnchanged(c, Disk(map[]));
  }

  /** A faithful row that names a CA file without its contents is rewritten by an unedited update: the
      contents are inlined. */
  lemma UneditedUpdateInlinesCa()
    ensures var row := Cluster("c", [Raw("nats")], [], None, Some(TLS("/etc/ca.pem", "", false)), "", None);
            var inlined := row.(tls := Some(TLS("/etc/ca.pem", "PEM", false)));
            var s, disk := State(map[ClusterId("1") := row], map[]), Disk(map["/etc/ca.pem" := "PEM"]);
            && Faithful(row) && Scanned(row, disk) == Some(inlined) && inlined != row
            && RowAfterEcho(s, Ticket(0), ClusterId("1"), disk, inlined) == Some(inlined)
  {
    var row := Cluster("c", [Raw("nats")], [], None, Some(TLS("/etc/ca.pem", "", false)), "", None);
    var inlined := row.(tls := Some(TLS("/etc/ca.pem", "PEM", false)));
    var s, disk := State(map[ClusterId("1") := row], map[]), Disk(map["/etc/ca.pem" := "PEM"]);
    assert |row.tls.value.caPem| != |inlined.tls.value.caPem|;
    UneditedUpdateStores(s, Ticket(0), ClusterId("1"), disk, inlined);
  }

  // ---------------------------------------------------------------------------------------
  // Updates whose load failed
  // ---------------------------------------------------------------------------------------

  predicate NamesCaFile(c: Cluster) {
    |TlsPath(c.tls)| > 0 || |TlsPath(StoredNatsTls(Some(c)))| > 0
  }

  lemma EchoUnmerged(c: Cluster)
    requires |c.name| > 0 && |c.servers| > 0
    ensures ToStore(Echo(ViewOf(c)), None) == if NamesCaFile(c) then None else Some(Echo(ViewOf(c)))
  {
    PathlessTls(c.tls);
    PathlessTls(StoredNatsTls(Some(c)));
  }

  /** When the load of an unedited update fails, for whatever reason, the update is refused exactly when the
      form names a CA file; otherwise the form itself is stored, without a single secret. */
  lemma UneditedAfterFailedLoad(s: State, ticket: Ticket, id: ClusterId, disk: Disk, c: Cluster)
    requires id in s.rows && |c.name| > 0 && |c.servers| > 0
    ensures var rows := Apply(Apply(s, Begin(ticket, id, disk, false)), Commit(ticket, Echo(ViewOf(c)), true)).rows;
            rows == if NamesCaFile(c) then s.rows else s.rows[id := Echo(ViewOf(c))]
  {
    EchoUnmerged(c);
    var s1 := Apply(s, Begin(ticket, id, disk, false));
    assert s1.loads[ticket] == Load(id, None) && s1.rows == s.rows;
  }

  predicate NoUsers(urls: seq<Url>) {
    forall i :: 0 <= i < |urls| ==> urls[i].Raw? || urls[i].user.None?
  }

  predicate NoTokens(bs: seq<Bridge>) {
    forall i :: 0 <= i < |bs| ==> |bs[i].token| == 0
  }

  /** Nothing that the view leaves out is set. */
  predicate SecretFree(c: Cluster) {
    && NoUsers(c.servers) && NoUsers(BridgeUrls(c.bridges)) && NoTokens(c.bridges) && |c.adminToken| == 0
    && (c.nats.Some? ==> NatsSecretFree(c.nats.value))
  }

  predicate NatsSecretFree(n: Nats) {
    && NoUsers(n.urls) && |n.secrets.password| == 0 && |n.secrets.token| == 0 && |n.secrets.nkey| == 0
    && |n.credsFile| == 0
  }

  lemma RedactsNothing(urls: seq<Url>)
    ensures RedactAll(urls) == urls <==> NoUsers(urls)
  {
    var r := RedactAll(urls);
    assert forall i :: 0 <= i < |urls| ==> (r[i] == urls[i] <==> urls[i].Raw? || urls[i].user.None?);
    assert r == urls <==> forall i :: 0 <= i < |urls| ==> r[i] == urls[i];
  }

  lemma EchoesBridges(bs: seq<Bridge>)
    ensures EchoBridges(BridgeViews(bs)) == bs <==> NoUsers(BridgeUrls(bs)) && NoTokens(bs)
  {
    var r, urls := EchoBridges(BridgeViews(bs)), BridgeUrls(bs);
    forall i | 0 <= i < |bs|
      ensures r[i] == bs[i] <==> (urls[i].Raw? || urls[i].user.None?) && |bs[i].token| == 0
    {
      assert r[i] == Bridge(bs[i].name, Redacted(bs[i].url), "");
    }
    assert r == bs <==> forall i :: 0 <= i < |bs| ==> r[i] == bs[i];
  }

  lemma EchoesNats(n: Nats)
    ensures EchoNats(NatsViewOf(n)) == n <==> NatsSecretFree(n)
  {
    RedactsNothing(n.urls);
  }

  /** So such an update loses something exactly when the cluster has a secret. */
  lemma FormLosesSecrets(c: Cluster)
    ensures Echo(ViewOf(c)) == c <==> SecretFree(c)
  {
    RedactsNothing(c.servers);
    EchoesBridges(c.bridges);
    if c.nats.Some? {
      EchoesNats(c.nats.value);
    }
  }

  /** Two servers of one host with different user info: an unedited update gives the second the first's. */
  lemma SharedHostMixesUsers(a: UserInfo, b: UserInfo, host: Host)
    requires a != b
    ensures var first, second := Parsed("nats", Some(a), host, ""), Parsed("nats", Some(b), host, "");
            var c := Cluster("c", [first, second], [], None, None, "", None);
            var s := Sanitized(Echo(ViewOf(c)), Some(c));
            s.Some? && Merged(s.value, c).servers == [first, first]
  {
    var first, second := Parsed("nats", Some(a), host, ""), Parsed("nats", Some(b), host, "");
    var urls := [first, second];
    assert FirstUser(urls, host) == Some(a);
    var back := RestoreAll(RedactAll(urls), urls);
    assert back[0] == first && back[1] == first;
    assert back == [first, first];
  }

  // ---------------------------------------------------------------------------------------
  // The handlers
  // ---------------------------------------------------------------------------------------

  /** Sanitise, merge what was loaded, and refuse a cluster without a name or a server. */
  method BuildCluster(req: Cluster, prev: Option<Cluster>) returns (out: Option<Cluster>)
    ensures out == ToStore(req, prev)
  {
    out := SanitizeHostPaths(req, prev);
    if out == None {
      return;
    }
    if prev.Some? {
      var merged := MergeClusterSecrets(out.value, prev.value);
      out := Some(merged);
    }
    if |out.value.name| == 0 || |out.value.servers| == 0 {
      out := None;
    }
  }

  class ClusterHandlers {
    var rows: map<ClusterId, Cluster>
    var loads: map<Ticket, Load>
    ghost const seed: map<ClusterId, Cluster>

    ghost function St(): State
      reads this
    {
      State(rows, loads)
    }

    ghost predicate Valid()
      reads this
    {
      PathsKept(St(), seed)
    }

    constructor (seed: map<ClusterId, Cluster>)
      ensures Valid() && St() == State(seed, map[]) && this.seed == seed
    {
      rows, loads, this.seed := seed, map[], seed;
    }

    method HandleCreate(id: ClusterId, req: Cluster, accepted: bool) returns (ok: bool)
      requires Valid()
      modifies this
      ensures Valid() && St() == Apply(old(St()), Create(id, req, accepted))
      ensures ok ==> id in rows && PathsFrom(rows[id], None)
    {
      PathsStep(St(), seed, Create(id, req, accepted));
      StoredPaths(req, None, None);
      var cl := BuildCluster(req, None);
      if cl == None || !accepted || id in rows {
        return false;
      }
      rows := rows[id := cl.value];
      return true;
    }

    /** The first half of an update: read the stored cluster. */
    method LoadForUpdate(ticket: Ticket, id: ClusterId, disk: Disk, read: bool)
      requires Valid()
      modifies this
      ensures Valid() && St() == Apply(old(St()), Begin(ticket, id, disk, read))
    {
      PathsStep(St(), seed, Begin(ticket, id, disk, read));
      var prev := if read && id in rows then Scanned(rows[id], disk) else None;
      loads := loads[ticket := Load(id, prev)];
    }

    /** The second half: sanitise, merge and write, whatever happened to the row in between. */
    method CommitUpdate(ticket: Ticket, req: Cluster, accepted: bool) returns (ok: bool)
      requires Valid() && ticket in loads
      modifies this
      ensures Valid() && St() == Apply(old(St()), Commit(ticket, req, accepted))
    {
      PathsStep(St(), seed, Commit(ticket, req, accepted));
      var load := loads[ticket];
      var cl := BuildCluster(req, load.prev);
      if cl == None || !accepted || load.id !in rows {
        return false;
      }
      rows := rows[load.id := cl.value];
      return true;
    }

    method HandleDelete(id: ClusterId)
      requires Valid()
      modifies this
      ensures Valid() && St() == Apply(old(St()), Delete(id))
    {
      PathsStep(St(), seed, Delete(id));
      rows := rows - {id};
    }
  }
}

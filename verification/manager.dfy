/** The collector manager of internal/collector/collector.go: live add, update and remove of
    clusters.  Every collector object is created with one poll run at most; a run is uncancelled from
    its start until its context is cancelled. */
module Manager {
  import opened Common

  datatype RunId = RunId(n: nat)

  datatype TLSConfig = TLSConfig(caFile: string, caPem: string, insecure: bool)
  datatype NATSConn = NATSConn(urls: seq<string>, username: string, password: string, token: string, nkey: string,
                               credsFile: string, subjectPrefix: string, sysCollection: bool, tls: Option<TLSConfig>)
  datatype Environment = Environment(name: string, servers: seq<string>, tls: Option<TLSConfig>, nats: Option<NATSConn>)

  /** `natsConnSame`: everything but the connection's own TLS settings. */
  predicate NatsSame(a: Option<NATSConn>, b: Option<NATSConn>) {
    a.Some? == b.Some? && (a.Some? ==> a.value.(tls := None) == b.value.(tls := None))
  }

  /** The update changes nothing a running collector depends on. */
  predicate NameOnly(a: Environment, b: Environment) {
    a.servers == b.servers && a.tls == b.tls && NatsSame(a.nats, b.nats)
  }

  datatype Phase = Created | Running | Cancelled

  /** A collector object: its swappable environment, the TLS its fetcher was built with, the NATS
      settings its run connected with, and where its run stands. */
  datatype Collector = Collector(cluster: ClusterId, env: Environment, fetcherTls: Option<TLSConfig>,
                                 conn: Option<NATSConn>, phase: Phase)

  /** The manager's maps over all collector objects ever built. */
  datatype State = State(started: bool, objects: map<RunId, Collector>, collectors: map<ClusterId, RunId>,
                         cancels: map<ClusterId, RunId>, nextRun: nat)

  // ---------------------------------------------------------------------------------------
  // The plain view: tracked clusters and their latest configuration
  // ---------------------------------------------------------------------------------------

  /** `built` says whether the fetcher of the new configuration could be built. */
  datatype Op =
    | Add(id: ClusterId, env: Environment, built: bool)
    | Update(id: ClusterId, env: Environment, built: bool)
    | Remove(id: ClusterId)

  type Tracked = map<ClusterId, Environment>

  function SpecStep(m: Tracked, op: Op): Tracked {
    match op
    case Add(id, env, built) => if id in m || !built then m else m[id := env]
    case Update(id, env, built) =>
      if (id in m && NameOnly(m[id], env)) || built then m[id := env] else m - {id}
    case Remove(id) => m - {id}
  }

  /** The update changes no server, no TLS setting, and nothing of the NATS connection but its TLS. */
  ghost predicate OnlyNameChanges(a: Environment, b: Environment) {
    && a.servers == b.servers && a.tls == b.tls && a.nats.Some? == b.nats.Some?
    && (a.nats.Some? ==>
          var x, y := a.nats.value, b.nats.value;
          && x.urls == y.urls && x.username == y.username && x.password == y.password && x.token == y.token
          && x.nkey == y.nkey && x.credsFile == y.credsFile && x.subjectPrefix == y.subjectPrefix
          && x.sysCollection == y.sysCollection)
  }

  /** The plain view after one operation: other clusters stay; a removed one is gone; an added one is tracked
      unless it was or could not be built; an updated one has the new configuration, unless a rebuild failed. */
  lemma SpecMeans(m: Tracked, op: Op, k: ClusterId)
    ensures var m' := SpecStep(m, op);
            && (k != op.id ==> (k in m' <==> k in m) && (k in m && k in m' ==> m'[k] == m[k]))
            && (op.Remove? ==> op.id !in m')
            && (op.Add? && op.id in m ==> m' == m)
            && (op.Add? && op.id !in m ==> (op.id in m' <==> op.built) && (op.id in m' ==> m'[op.id] == op.env))
            && (op.Update? ==>
                  && (op.id in m' <==> op.built || (op.id in m && OnlyNameChanges(m[op.id], op.env)))
                  && (op.id in m' ==> m'[op.id] == op.env))
  {
    if op.Update? && op.id in m {
      SameButTls(m[op.id], op.env);
    }
  }

  lemma SameButTls(a: Environment, b: Environment)
    ensures NameOnly(a, b) <==> OnlyNameChanges(a, b)
  {
    if a.nats.Some? && b.nats.Some? {
      var x, y := a.nats.value.(tls := None), b.nats.value.(tls := None);
      assert x == NATSConn(x.urls, x.username, x.password, x.token, x.nkey, x.credsFile,
                           x.subjectPrefix, x.sysCollection, None);
      assert y == NATSConn(y.urls, y.username, y.password, y.token, y.nkey, y.credsFile,
                           y.subjectPrefix, y.sysCollection, None);
    }
  }

  function Spec(m: Tracked, ops: seq<Op>): Tracked
    decreases |ops|
  {
    if ops == [] then m else Spec(SpecStep(m, ops[0]), ops[1..])
  }

  // ---------------------------------------------------------------------------------------
  // Invariant
  // ---------------------------------------------------------------------------------------

  /** The object serves the configuration: its servers and TLS are those of `env`, and the
      settings its run connected with agree with it on everything `natsConnSame` compares. */
  predicate Serves(c: Collector, id: ClusterId, env: Environment) {
    c.cluster == id && c.env == env && c.fetcherTls == env.tls && (c.phase == Running ==> NatsSame(c.conn, env.nats))
  }

  predicate IsTracked(s: State, o: RunId)
    requires o in s.objects
  {
    s.objects[o].cluster in s.collectors && s.collectors[s.objects[o].cluster] == o
  }

  /** One id: tracked exactly when the plain view tracks it, on an object that serves its configuration
      and that, once started, runs and can be cancelled. */
  ghost predicate IdOk(s: State, m: Tracked, id: ClusterId) {
    && (id in s.collectors <==> id in m)
    && (id in s.cancels <==> id in m && s.started)
    && (id in s.cancels ==> s.cancels[id] == s.collectors[id])
    && (id in m ==>
          && s.collectors[id] in s.objects
          && Serves(s.objects[s.collectors[id]], id, m[id])
          && s.objects[s.collectors[id]].phase == if s.started then Running else Created)
  }

  /** One object: an uncancelled run belongs to the tracked object of its cluster. */
  ghost predicate ObjOk(s: State, o: RunId) {
    o in s.objects ==> o.n < s.nextRun && (s.objects[o].phase == Running ==> s.started && IsTracked(s, o))
  }

  ghost predicate Refines(s: State, m: Tracked) {
    (forall id :: IdOk(s, m, id)) && (forall o :: ObjOk(s, o))
  }

  ghost function RunsOf(s: State, id: ClusterId): set<RunId> {
    set o | o in s.objects && s.objects[o].phase == Running && s.objects[o].cluster == id
  }

  // ---------------------------------------------------------------------------------------
  // Effects of the building blocks
  // ---------------------------------------------------------------------------------------

  /** Build and, once started, start a collector for an untracked cluster. */
  function Built(s: State, id: ClusterId, env: Environment): State {
    var o := RunId(s.nextRun);
    var c := Collector(id, env, env.tls, if s.started then env.nats else None, if s.started then Running else Created);
    s.(objects := s.objects[o := c], collectors := s.collectors[id := o],
       cancels := if s.started then s.cancels[id := o] else s.cancels, nextRun := s.nextRun + 1)
  }

  /** Cancel and forget a cluster. */
  function Dropped(s: State, id: ClusterId): State {
    s.(objects := if id in s.cancels && s.cancels[id] in s.objects
                  then s.objects[s.cancels[id] := s.objects[s.cancels[id]].(phase := Cancelled)] else s.objects,
       cancels := s.cancels - {id}, collectors := s.collectors - {id})
  }

  function Renamed(s: State, id: ClusterId, env: Environment): State
    requires id in s.collectors && s.collectors[id] in s.objects
  {
    s.(objects := s.objects[s.collectors[id] := s.objects[s.collectors[id]].(env := env)])
  }

  lemma BuiltId(s: State, m: Tracked, id: ClusterId, env: Environment, k: ClusterId)
    requires id !in m && IdOk(s, m, k)
    requires k in m ==> ObjOk(s, s.collectors[k])
    ensures IdOk(Built(s, id, env), m[id := env], k)
  {
    var s' := Built(s, id, env);
    if k in m {
      assert s'.collectors[k] == s.collectors[k];
    }
  }

  lemma BuiltRefines(s: State, m: Tracked, id: ClusterId, env: Environment)
    requires Refines(s, m) && id !in m
    ensures Refines(Built(s, id, env), m[id := env])
  {
    var s', m' := Built(s, id, env), m[id := env];
    forall k
      ensures IdOk(s', m', k)
    {
      assert IdOk(s, m, k);
      BuiltId(s, m, id, env, k);
    }
    forall o
      ensures ObjOk(s', o)
    {
      assert ObjOk(s, o) && IdOk(s, m, id);
    }
  }

  lemma DroppedId(s: State, m: Tracked, id: ClusterId, k: ClusterId)
    requires IdOk(s, m, k) && IdOk(s, m, id)
    ensures IdOk(Dropped(s, id), m - {id}, k)
  {
  }

  lemma DroppedRefines(s: State, m: Tracked, id: ClusterId)
    requires Refines(s, m)
    ensures Refines(Dropped(s, id), m - {id})
  {
    var s' := Dropped(s, id);
    assert IdOk(s, m, id);
    forall k
      ensures IdOk(s', m - {id}, k)
    {
      assert IdOk(s, m, k);
      DroppedId(s, m, id, k);
    }
    forall o
      ensures ObjOk(s', o)
    {
      assert ObjOk(s, o);
    }
  }

  lemma RenamedId(s: State, m: Tracked, id: ClusterId, env: Environment, k: ClusterId)
    requires IdOk(s, m, k) && IdOk(s, m, id) && id in m && NameOnly(m[id], env)
    ensures IdOk(Renamed(s, id, env), m[id := env], k)
  {
  }

  lemma RenamedRefines(s: State, m: Tracked, id: ClusterId, env: Environment)
    requires Refines(s, m) && id in m && NameOnly(m[id], env)
    ensures id in s.collectors && s.collectors[id] in s.objects && s.objects[s.collectors[id]].env == m[id]
    ensures Refines(Renamed(s, id, env), m[id := env])
  {
    assert IdOk(s, m, id);
    var s', m' := Renamed(s, id, env), m[id := env];
    forall k
      ensures IdOk(s', m', k)
    {
      assert IdOk(s, m, k);
      RenamedId(s, m, id, env, k);
    }
    forall o
      ensures ObjOk(s', o)
    {
      assert ObjOk(s, o);
    }
  }

  /** A tracked id has exactly one uncancelled run, which serves its configuration, and another id has none. */
  ghost predicate OneRun(s: State, m: Tracked, id: ClusterId) {
    if id in m then
      && id in s.collectors
      && RunsOf(s, id) == {s.collectors[id]}
      && s.collectors[id] in s.objects
      && Serves(s.objects[s.collectors[id]], id, m[id])
    else RunsOf(s, id) == {}
  }

  /** Each tracked cluster has exactly one uncancelled run, on its latest configuration, and no other
      cluster has any. */
  lemma OneRunEach(s: State, m: Tracked, id: ClusterId)
    requires Refines(s, m) && s.started
    ensures OneRun(s, m, id)
  {
    assert IdOk(s, m, id);
    if id in m {
      assert s.collectors[id] in RunsOf(s, id);
    }
    forall o | o in RunsOf(s, id)
      ensures id in m && o == s.collectors[id]
    {
      assert ObjOk(s, o);
    }
  }

  // ---------------------------------------------------------------------------------------
  // Starting
  // ---------------------------------------------------------------------------------------

  /** `Start` has reached the collectors outside `todo`. */
  ghost predicate StartedSoFar(s: State, todo: set<ClusterId>, objects: map<RunId, Collector>,
                               cancels: map<ClusterId, RunId>) {
    && (forall id :: id in todo ==> id in s.collectors)
    && (forall o :: o in objects <==> o in s.objects)
    && (forall o :: o in objects ==> ObjectStart(s, todo, o, objects[o]))
    && (forall id :: id in cancels <==> id in s.collectors && id !in todo)
    && (forall id :: id in cancels ==> cancels[id] == s.collectors[id])
  }

  ghost predicate ObjectStart(s: State, todo: set<ClusterId>, o: RunId, c: Collector) {
    o in s.objects && c ==
      if IsTracked(s, o) && s.objects[o].cluster !in todo
      then s.objects[o].(phase := Running, conn := s.objects[o].env.nats)
      else s.objects[o]
  }

  lemma NothingStarted(s: State, m: Tracked, todo: set<ClusterId>)
    requires Refines(s, m) && !s.started && todo == s.collectors.Keys
    ensures StartedSoFar(s, todo, s.objects, s.cancels)
  {
    forall id
      ensures id !in s.cancels
    {
      assert IdOk(s, m, id);
    }
  }

  lemma StartOne(s: State, todo: set<ClusterId>, objects: map<RunId, Collector>, cancels: map<ClusterId, RunId>,
                 id: ClusterId)
    requires StartedSoFar(s, todo, objects, cancels) && id in todo
    requires id in s.collectors && s.collectors[id] in s.objects && s.objects[s.collectors[id]].cluster == id
    ensures s.collectors[id] in objects
    ensures var o := s.collectors[id];
            var started := objects[o].(phase := Running, conn := objects[o].env.nats);
            StartedSoFar(s, todo - {id}, objects[o := started], cancels[id := o])
  {
    var o := s.collectors[id];
    assert ObjectStart(s, todo, o, objects[o]);
    var objects' := objects[o := objects[o].(phase := Running, conn := objects[o].env.nats)];
    forall p | p in objects'
      ensures ObjectStart(s, todo - {id}, p, objects'[p])
    {
      assert ObjectStart(s, todo, p, objects[p]);
    }
  }

  lemma StartedRefines(s: State, m: Tracked, objects: map<RunId, Collector>, cancels: map<ClusterId, RunId>)
    requires Refines(s, m) && !s.started && StartedSoFar(s, {}, objects, cancels)
    ensures Refines(s.(started := true, objects := objects, cancels := cancels), m)
    ensures ConnectedAs(s.(started := true, objects := objects, cancels := cancels), m, m)
  {
    var s' := s.(started := true, objects := objects, cancels := cancels);
    forall k
      ensures IdOk(s', m, k)
    {
      assert IdOk(s, m, k);
      if k in m {
        var o := s.collectors[k];
        assert ObjectStart(s, {}, o, objects[o]);
      }
    }
    forall o
      ensures ObjOk(s', o)
    {
      assert ObjOk(s, o);
      assert o in objects ==> ObjectStart(s, {}, o, objects[o]);
    }
    forall id | id in m
      ensures ConnIs(s', id, m[id].nats)
    {
      assert IdOk(s, m, id);
      assert ObjectStart(s, {}, s.collectors[id], objects[s.collectors[id]]);
    }
  }

  /** The state machine of one operation, as the methods perform it. */
  function OpEffect(s: State, op: Op): State {
    match op
    case Add(id, env, built) => if id in s.collectors || !built then s else Built(s, id, env)
    case Remove(id) => Dropped(s, id)
    case Update(id, env, built) =>
      if id in s.collectors && s.collectors[id] in s.objects && NameOnly(s.objects[s.collectors[id]].env, env)
      then Renamed(s, id, env)
      else
        var s' := if id in s.collectors then Dropped(s, id) else s;
        if built then Built(s', id, env) else s'
  }

  lemma OpRefines(s: State, m: Tracked, op: Op)
    requires Refines(s, m)
    ensures Refines(OpEffect(s, op), SpecStep(m, op))
  {
    match op {
      case Add(id, env, built) =>
        assert IdOk(s, m, id);
        if id !in m && built {
          BuiltRefines(s, m, id, env);
        }
      case Remove(id) =>
        DroppedRefines(s, m, id);
      case Update(id, env, built) =>
        assert IdOk(s, m, id);
        if id in m && NameOnly(m[id], env) {
          RenamedRefines(s, m, id, env);
        } else {
          DroppedRefines(s, m, id);
          var s' := if id in s.collectors then Dropped(s, id) else s;
          assert id !in m ==> m - {id} == m;
          if built {
            BuiltRefines(s', m - {id}, id, env);
            assert (m - {id})[id := env] == m[id := env];
          }
        }
    }
  }

  function Effects(s: State, ops: seq<Op>): State
    decreases |ops|
  {
    if ops == [] then s else Effects(OpEffect(s, ops[0]), ops[1..])
  }

  // ---------------------------------------------------------------------------------------
  // The code
  // ---------------------------------------------------------------------------------------

  class ClusterManager {
    var started: bool
    var collectors: map<ClusterId, RunId>
    var cancels: map<ClusterId, RunId>
    var objects: map<RunId, Collector>  // every collector object built so far
    var nextRun: nat
    ghost var tracked: Tracked

    ghost function St(): State
      reads this
    {
      State(started, objects, collectors, cancels, nextRun)
    }

    ghost predicate Valid()
      reads this
    {
      Refines(St(), tracked)
    }

    /** `NewManager` without any stored cluster. */
    constructor ()
      ensures Valid() && !started && tracked == map[]
    {
      started, collectors, cancels, objects, nextRun := false, map[], map[], map[], 0;
      tracked := map[];
    }

    /** Start every collector built so far, in map order, on its current environment. */
    method Start()
      requires Valid() && !started
      modifies this
      ensures Valid() && started && tracked == old(tracked) && collectors == old(collectors)
      ensures ConnectedAs(St(), tracked, tracked)
    {
      ghost var s := St();
      started := true;
      var todo := collectors.Keys;
      NothingStarted(s, tracked, todo);
      while todo != {}
        invariant collectors == s.collectors && nextRun == s.nextRun && tracked == old(tracked) && started
        invariant StartedSoFar(s, todo, objects, cancels)
      {
        var id :| id in todo;
        assert IdOk(s, tracked, id);
        StartOne(s, todo, objects, cancels, id);
        StartCollector(id, collectors[id]);
        todo := todo - {id};
      }
      StartedRefines(s, tracked, objects, cancels);
    }

    /** Register the cancel function and launch the run on the collector's current environment. */
    method StartCollector(id: ClusterId, o: RunId)
      requires o in objects
      modifies this`cancels, this`objects
      ensures cancels == old(cancels)[id := o]
      ensures objects == old(objects)[o := old(objects)[o].(phase := Running, conn := old(objects)[o].env.nats)]
    {
      cancels := cancels[id := o];
      objects := objects[o := objects[o].(phase := Running, conn := objects[o].env.nats)];
    }

    method AddCluster(id: ClusterId, env: Environment, built: bool) returns (ok: bool)
      requires Valid()
      modifies this
      ensures Valid() && St() == OpEffect(old(St()), Add(id, env, built))
      ensures tracked == SpecStep(old(tracked), Add(id, env, built))
      ensures ok == (id in tracked)
    {
      OpRefines(St(), tracked, Add(id, env, built));
      assert IdOk(St(), tracked, id);
      tracked := SpecStep(tracked, Add(id, env, built));
      if id in collectors {
        return true;
      }
      if !built {
        return false;
      }
      AddNew(id, env);
      return true;
    }

    /** The part of `addClusterLocked` after the fetcher was built. */
    method AddNew(id: ClusterId, env: Environment)
      modifies this`collectors, this`cancels, this`objects, this`nextRun
      ensures St() == Built(old(St()), id, env)
    {
      var o := RunId(nextRun);
      nextRun := nextRun + 1;
      objects := objects[o := Collector(id, env, env.tls, None, Created)];
      collectors := collectors[id := o];
      if started {
        StartCollector(id, o);
      }
    }

    /** Cancel the run, if there is one, and forget the cluster. */
    method Drop(id: ClusterId)
      modifies this`collectors, this`cancels, this`objects
      ensures St() == Dropped(old(St()), id)
    {
      if id in cancels {
        var o := cancels[id];
        if o in objects {
          objects := objects[o := objects[o].(phase := Cancelled)];
        }
        cancels := cancels - {id};
      }
      assert cancels == old(cancels) - {id};
      collectors := collectors - {id};
    }

    method RemoveCluster(id: ClusterId)
      requires Valid()
      modifies this
      ensures Valid() && St() == OpEffect(old(St()), Remove(id))
      ensures tracked == SpecStep(old(tracked), Remove(id))
    {
      OpRefines(St(), tracked, Remove(id));
      tracked := SpecStep(tracked, Remove(id));
      Drop(id);
    }

    method UpdateCluster(id: ClusterId, env: Environment, built: bool) returns (ok: bool)
      requires Valid()
      modifies this
      ensures Valid() && St() == OpEffect(old(St()), Update(id, env, built))
      ensures tracked == SpecStep(old(tracked), Update(id, env, built))
      ensures ok == (id in tracked)
    {
      OpRefines(St(), tracked, Update(id, env, built));
      assert IdOk(St(), tracked, id);
      ghost var was := tracked;
      tracked := SpecStep(tracked, Update(id, env, built));
      if id !in collectors {
        if built {
          AddNew(id, env);
        }
        return built;
      }
      var o := collectors[id];
      if NameOnly(objects[o].env, env) {
        objects := objects[o := objects[o].(env := env)];
        return true;
      }
      Drop(id);
      if built {
        AddNew(id, env);
      }
      return built;
    }
  }

  /** Over every sequence of additions, updates and removals, failed builds included, the manager is the
      plain view: one uncancelled run for each tracked cluster, on its latest configuration, and none
      for any other. */
  lemma {:induction false} ManagerRefinesSpec(s: State, m: Tracked, ops: seq<Op>, id: ClusterId)
    requires Refines(s, m) && s.started
    ensures var s', m' := Effects(s, ops), Spec(m, ops);
            && Refines(s', m') && OneRun(s', m', id)
            && (id in m' ==>
                  && id in s'.collectors && s'.collectors[id] in s'.objects
                  && var run := s'.objects[s'.collectors[id]];
                     run.phase == Running && run.env == m'[id] && run.fetcherTls == m'[id].tls)
    decreases |ops|
  {
    if ops == [] {
      OneRunEach(s, m, id);
      assert IdOk(s, m, id);
    } else {
      OpRefines(s, m, ops[0]);
      ManagerRefinesSpec(OpEffect(s, ops[0]), SpecStep(m, ops[0]), ops[1..], id);
    }
  }

  // ---------------------------------------------------------------------------------------
  // The connection's TLS settings
  // ---------------------------------------------------------------------------------------

  /** The configuration each tracked cluster was last built from: an update that changes nothing a
      collector depends on does not build. */
  function BuildStep(b: Tracked, m: Tracked, op: Op): Tracked {
    match op
    case Add(id, env, built) => if id in m || !built then b else b[id := env]
    case Update(id, env, built) =>
      if id in m && NameOnly(m[id], env) then b else if built then b[id := env] else b - {id}
    case Remove(id) => b - {id}
  }

  function LastBuilt(b: Tracked, m: Tracked, ops: seq<Op>): Tracked
    decreases |ops|
  {
    if ops == [] then b else LastBuilt(BuildStep(b, m, ops[0]), SpecStep(m, ops[0]), ops[1..])
  }

  /** Each running connection uses the NATS settings its collector was built with. */
  ghost predicate ConnectedAs(s: State, m: Tracked, b: Tracked) {
    && (forall id :: id in b <==> id in m)
    && (forall id :: id in m ==> id in b && ConnIs(s, id, b[id].nats))
  }

  ghost predicate ConnIs(s: State, id: ClusterId, conn: Option<NATSConn>) {
    id in s.collectors && s.collectors[id] in s.objects && s.objects[s.collectors[id]].conn == conn
  }

  /** What an operation does to the connection of any cluster. */
  lemma ConnStep(s: State, m: Tracked, b: Tracked, op: Op, k: ClusterId)
    requires Refines(s, m) && s.started && ConnectedAs(s, m, b)
    requires k in SpecStep(m, op)
    ensures k in BuildStep(b, m, op) && ConnIs(OpEffect(s, op), k, BuildStep(b, m, op)[k].nats)
  {
    assert IdOk(s, m, k) && IdOk(s, m, op.id);
    if k in m {
      assert ObjOk(s, s.collectors[k]) && ConnIs(s, k, b[k].nats);
    }
  }

  lemma ConnectedStep(s: State, m: Tracked, b: Tracked, op: Op)
    requires Refines(s, m) && s.started && ConnectedAs(s, m, b)
    ensures ConnectedAs(OpEffect(s, op), SpecStep(m, op), BuildStep(b, m, op))
  {
    forall k | k in SpecStep(m, op)
      ensures k in BuildStep(b, m, op) && ConnIs(OpEffect(s, op), k, BuildStep(b, m, op)[k].nats)
    {
      ConnStep(s, m, b, op, k);
    }
  }

  lemma {:induction false} ConnectedAlways(s: State, m: Tracked, b: Tracked, ops: seq<Op>)
    requires Refines(s, m) && s.started && ConnectedAs(s, m, b)
    ensures Effects(s, ops).started && Refines(Effects(s, ops), Spec(m, ops))
    ensures ConnectedAs(Effects(s, ops), Spec(m, ops), LastBuilt(b, m, ops))
    decreases |ops|
  {
    if ops != [] {
      OpRefines(s, m, ops[0]);
      ConnectedStep(s, m, b, ops[0]);
      ConnectedAlways(OpEffect(s, ops[0]), SpecStep(m, ops[0]), BuildStep(b, m, ops[0]), ops[1..]);
    }
  }

  function ConnTls(nats: Option<NATSConn>): Option<TLSConfig> {
    if nats.Some? then nats.value.tls else None
  }

  /** Over every sequence of operations on a started manager: a tracked cluster's running connection has
      the NATS settings of the operation that last built its collector, and these are the configured ones
      exactly when the updates since then have left the connection's TLS settings where they were. */
  lemma RunningConnection(s: State, m: Tracked, b: Tracked, ops: seq<Op>, id: ClusterId)
    requires Refines(s, m) && s.started && ConnectedAs(s, m, b) && id in Spec(m, ops)
    ensures id in LastBuilt(b, m, ops)
    ensures var s', configured, built := Effects(s, ops), Spec(m, ops)[id].nats, LastBuilt(b, m, ops)[id].nats;
            && ConnIs(s', id, built)
            && (ConnIs(s', id, configured) <==> ConnTls(built) == ConnTls(configured))
  {
    ConnectedAlways(s, m, b, ops);
    var s', m', b' := Effects(s, ops), Spec(m, ops), LastBuilt(b, m, ops);
    assert IdOk(s', m', id) && ConnIs(s', id, b'[id].nats);
    SameExceptTls(b'[id].nats, m'[id].nats);
  }

  lemma SameExceptTls(a: Option<NATSConn>, b: Option<NATSConn>)
    requires NatsSame(a, b)
    ensures a == b <==> ConnTls(a) == ConnTls(b)
  {
    if a.Some? {
      assert a.value == b.value.(tls := a.value.tls);
    }
  }

  const EMPTY_STARTED := State(true, map[], map[], map[], 0)

  /** Adding a cluster and then changing only the TLS settings of its NATS connection leaves the running
      connection on the old ones. */
  lemma StaleConnectionTls(id: ClusterId, env: Environment, tls: Option<TLSConfig>)
    requires env.nats.Some? && env.nats.value.tls != tls
    ensures var env' := env.(nats := Some(env.nats.value.(tls := tls)));
            var ops := [Add(id, env, true), Update(id, env', true)];
            var s := Effects(EMPTY_STARTED, ops);
            Spec(map[], ops) == map[id := env'] && ConnIs(s, id, env.nats) && !ConnIs(s, id, env'.nats)
  {
    var env' := env.(nats := Some(env.nats.value.(tls := tls)));
    var add, update := Add(id, env, true), Update(id, env', true);
    var ops := [add, update];
    assert ops[1..] == [update] && [update][1..] == [];
    var m0: Tracked := map[];
    assert SpecStep(m0, add) == map[id := env] && BuildStep(m0, m0, add) == map[id := env];
    assert NameOnly(env, env');
    var m1: Tracked := map[id := env];
    assert SpecStep(m1, update) == map[id := env'] && BuildStep(m1, m1, update) == m1;
    assert Spec(m0, ops) == Spec(m1, [update]) == Spec(map[id := env'], []);
    assert LastBuilt(m0, m0, ops) == LastBuilt(m1, m1, [update]) == LastBuilt(m1, map[id := env'], []);
    RunningConnection(EMPTY_STARTED, m0, m0, ops, id);
  }
}

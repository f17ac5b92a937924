/** The bounded metrics queue of internal/store/metrics.go: any number of concurrent `Submit`
    calls, one consumer `Run`, and a shutdown that sets a stop flag under a read-write lock and
    then drains the channel.  Every lock operation, flag test, channel operation and counter
    update is one atomic event, so a list of events is an arbitrary interleaving. */
module MetricsQueue {

  datatype Sample = Sample(env: string, timestamp: int)

  /** A sample in the channel, tagged with the number of the `Submit` call that sent it. */
  datatype Item = Item(call: nat, sample: Sample)

  /** Where one `Submit` call stands.  Every state but `Called` holds the read lock. */
  datatype SubmitPc =
    | Called(sample: Sample)
    | Reading(sample: Sample)
    | Open(sample: Sample)
    | Rejected
    | HalfCounted
    | Leaving(result: bool)
  {
    predicate HoldsReadLock() { !Called? }
    predicate Undecided() { !Leaving? }
  }

  /** Where the consumer stands.  `Locked` and `StopSet` hold the write lock. */
  datatype RunPc =
    | NotStarted
    | Select
    | Persisting(item: Item, draining: bool)
    | SawCancel
    | Locked
    | StopSet
    | Draining
    | Returned
  {
    predicate HoldsWriteLock() { Locked? || StopSet? }
    predicate AfterStop() { StopSet? || Draining? || Returned? || (Persisting? && draining) }
  }

  /** Shared state.  `submitted`, `accepted`, `persisted`, `returned` and `reported` record what
      has happened so far: the argument of every call, the items ever sent to the channel, the
      items ever handed to `persist`, the result of every finished call, and the sum of the
      periodic drop reports. */
  datatype State = State(
    capacity: nat,
    queue: seq<Item>,
    stopped: bool,
    cancelled: bool,
    calls: map<nat, SubmitPc>,
    run: RunPc,
    dropped: nat,
    droppedTotal: nat,
    written: nat,
    failed: nat,
    submitted: seq<Sample>,
    accepted: seq<Item>,
    persisted: seq<Item>,
    returned: map<nat, bool>,
    reported: nat)

  function Init(capacity: nat): State {
    State(capacity, [], false, false, map[], NotStarted, 0, 0, 0, 0, [], [], [], map[], 0)
  }

  datatype Event =
    | Call(sample: Sample)
    | RLock(call: nat)
    | TestStopped(call: nat)
    | TrySend(call: nat)
    | CountDropped(call: nat)
    | CountDroppedTotal(call: nat)
    | RUnlock(call: nat)
    | StartRun
    | Cancel
    | SeeCancel
    | Receive
    | Persist(ok: bool)
    | ReportDropped
    | Lock
    | SetStopped
    | Unlock
    | ReturnFromRun

  predicate NoReader(s: State) {
    forall t :: t in s.calls ==> !s.calls[t].HoldsReadLock()
  }

  /** When an event can happen: lock exclusion, program order, and channel readiness. */
  predicate Enabled(s: State, e: Event) {
    match e
    case Call(_) => true
    case RLock(t) => t in s.calls && s.calls[t].Called? && !s.run.HoldsWriteLock()
    case TestStopped(t) => t in s.calls && s.calls[t].Reading?
    case TrySend(t) => t in s.calls && s.calls[t].Open?
    case CountDropped(t) => t in s.calls && s.calls[t].Rejected?
    case CountDroppedTotal(t) => t in s.calls && s.calls[t].HalfCounted?
    case RUnlock(t) => t in s.calls && s.calls[t].Leaving?
    case StartRun => s.run.NotStarted?
    case Cancel => true
    case SeeCancel => s.run.Select? && s.cancelled
    case Receive => (s.run.Select? || s.run.Draining?) && s.queue != []
    case Persist(_) => s.run.Persisting?
    case ReportDropped => s.run.Select?
    case Lock => s.run.SawCancel? && NoReader(s)
    case SetStopped => s.run.Locked?
    case Unlock => s.run.StopSet?
    case ReturnFromRun => s.run.Draining? && s.queue == []
  }

  function Apply(s: State, e: Event): State
    requires Enabled(s, e)
  {
    match e
    case Call(x) => s.(submitted := s.submitted + [x], calls := s.calls[|s.submitted| := Called(x)])
    case RLock(t) => s.(calls := s.calls[t := Reading(s.calls[t].sample)])
    case TestStopped(t) =>
      s.(calls := s.calls[t := if s.stopped then Rejected else Open(s.calls[t].sample)])
    case TrySend(t) =>
      if |s.queue| < s.capacity then
        var item := Item(t, s.calls[t].sample);
        s.(queue := s.queue + [item], accepted := s.accepted + [item], calls := s.calls[t := Leaving(true)])
      else
        s.(calls := s.calls[t := Rejected])
    case CountDropped(t) => s.(dropped := s.dropped + 1, calls := s.calls[t := HalfCounted])
    case CountDroppedTotal(t) => s.(droppedTotal := s.droppedTotal + 1, calls := s.calls[t := Leaving(false)])
    case RUnlock(t) => s.(returned := s.returned[t := s.calls[t].result], calls := s.calls - {t})
    case StartRun => s.(run := Select)
    case Cancel => s.(cancelled := true)
    case SeeCancel => s.(run := SawCancel)
    case Receive => s.(queue := s.queue[1..], run := Persisting(s.queue[0], s.run.Draining?))
    case Persist(ok) =>
      var next := s.(persisted := s.persisted + [s.run.item], run := if s.run.draining then Draining else Select);
      if ok then next.(written := s.written + 1) else next.(failed := s.failed + 1)
    case ReportDropped => s.(reported := s.reported + s.dropped, dropped := 0)
    case Lock => s.(run := Locked)
    case SetStopped => s.(stopped := true, run := StopSet)
    case Unlock => s.(run := Draining)
    case ReturnFromRun => s.(run := Returned)
  }

  /** `es` is an execution from `s`: every event is enabled when it happens. */
  predicate Legal(s: State, es: seq<Event>)
    decreases |es|
  {
    es == [] || (Enabled(s, es[0]) && Legal(Apply(s, es[0]), es[1..]))
  }

  function After(s: State, es: seq<Event>): State
    requires Legal(s, es)
    decreases |es|
  {
    if es == [] then s else After(Apply(s, es[0]), es[1..])
  }

  // ---------------------------------------------------------------------------------------
  // The invariant
  // ---------------------------------------------------------------------------------------

  function InHand(s: State): seq<Item> {
    if s.run.Persisting? then [s.run.item] else []
  }

  ghost function UndecidedCalls(calls: map<nat, SubmitPc>): set<nat> {
    set t | t in calls && calls[t].Undecided()
  }

  ghost function HalfCountedCalls(calls: map<nat, SubmitPc>): set<nat> {
    set t | t in calls && calls[t].HalfCounted?
  }

  /** Call `t` has put its sample in the channel. */
  predicate WasSent(s: State, t: nat) {
    SentIn(s.calls, s.returned, t)
  }

  predicate SentIn(calls: map<nat, SubmitPc>, returned: map<nat, bool>, t: nat) {
    (t in calls && calls[t] == Leaving(true)) || (t in returned && returned[t])
  }

  /** Lock discipline: the writer excludes readers, and a call that saw the flag clear still
      holds the read lock, so the flag is still clear. */
  ghost predicate LockInv(s: State) {
    && (s.run.HoldsWriteLock() ==> NoReader(s))
    && (s.stopped <==> s.run.AfterStop())
    && (s.stopped ==> forall t :: t in s.calls ==> !s.calls[t].Open?)
    && (s.run.Returned? ==> s.queue == [])
  }

  /** What was accepted is what was persisted, then the item in hand, then the channel, in order. */
  ghost predicate FifoInv(s: State) {
    && s.accepted == s.persisted + InHand(s) + s.queue
    && |s.queue| <= s.capacity
  }

  /** Each call is either running or finished, and carries the sample it was given. */
  ghost predicate CallInv(s: State) {
    CallsOk(s.calls, s.returned, s.submitted)
  }

  ghost predicate CallsOk(calls: map<nat, SubmitPc>, returned: map<nat, bool>, submitted: seq<Sample>) {
    && (forall t: nat :: t in calls || t in returned <==> t < |submitted|)
    && (forall t :: t in calls ==> t !in returned)
    && (forall t :: t in calls && t < |submitted| ==> Carries(calls[t], submitted[t]))
  }

  /** Until it has sent or been rejected, a call carries the sample. */
  predicate Carries(pc: SubmitPc, x: Sample) {
    pc.Called? || pc.Reading? || pc.Open? ==> pc.sample == x
  }

  /** A call appears in the channel history at most once, exactly when it was told so. */
  ghost predicate SentInv(s: State) {
    && (forall i :: 0 <= i < |s.accepted| ==> WasSent(s, s.accepted[i].call))
    && (forall i :: 0 <= i < |s.accepted| ==> CarriesOwnSample(s, s.accepted[i]))
    && (forall i, j :: 0 <= i < j < |s.accepted| ==> s.accepted[i].call != s.accepted[j].call)
    && (forall t :: WasSent(s, t) ==> SentAt(s.accepted, t))
  }

  ghost predicate CarriesOwnSample(s: State, item: Item) {
    item.call < |s.submitted| && item.sample == s.submitted[item.call]
  }

  ghost predicate SentAt(items: seq<Item>, t: nat) {
    exists i :: 0 <= i < |items| && items[i].call == t
  }

  ghost predicate CountInv(s: State) {
    && s.written + s.failed == |s.persisted|
    && |s.submitted| == |s.accepted| + s.droppedTotal + |UndecidedCalls(s.calls)|
    && s.dropped + s.reported == s.droppedTotal + |HalfCountedCalls(s.calls)|
  }

  ghost predicate Inv(s: State) {
    LockInv(s) && FifoInv(s) && CallInv(s) && SentInv(s) && CountInv(s)
  }

  lemma InitInv(capacity: nat)
    ensures Inv(Init(capacity))
  {
    assert UndecidedCalls(map[]) == {};
    assert HalfCountedCalls(map[]) == {};
  }

  /** Sets that agree except on one element differ in size by that element. */
  lemma SizeButOne<T(!new)>(a: set<T>, b: set<T>, t: T)
    requires forall x :: x != t ==> (x in a <==> x in b)
    ensures |b| == |a| + (if t in b then 1 else 0) - (if t in a then 1 else 0)
  {
    var rest := a - {t};
    assert |rest| == |a| - if t in a then 1 else 0;
    if t in b {
      assert b == rest + {t};
    } else {
      assert b == rest;
    }
  }

  /** Changing the state of one call changes each counted set by that call alone. */
  lemma UndecidedAfterUpdate(calls: map<nat, SubmitPc>, t: nat, pc: SubmitPc)
    ensures |UndecidedCalls(calls[t := pc])| == |UndecidedCalls(calls)|
              + (if pc.Undecided() then 1 else 0) - (if t in calls && calls[t].Undecided() then 1 else 0)
  {
    SizeButOne(UndecidedCalls(calls), UndecidedCalls(calls[t := pc]), t);
  }

  lemma HalfCountedAfterUpdate(calls: map<nat, SubmitPc>, t: nat, pc: SubmitPc)
    ensures |HalfCountedCalls(calls[t := pc])| == |HalfCountedCalls(calls)|
              + (if pc.HalfCounted? then 1 else 0) - (if t in calls && calls[t].HalfCounted? then 1 else 0)
  {
    SizeButOne(HalfCountedCalls(calls), HalfCountedCalls(calls[t := pc]), t);
  }

  lemma CountsAfterUpdate(calls: map<nat, SubmitPc>, t: nat, pc: SubmitPc)
    ensures |UndecidedCalls(calls[t := pc])| == |UndecidedCalls(calls)|
              + (if pc.Undecided() then 1 else 0) - (if t in calls && calls[t].Undecided() then 1 else 0)
    ensures |HalfCountedCalls(calls[t := pc])| == |HalfCountedCalls(calls)|
              + (if pc.HalfCounted? then 1 else 0) - (if t in calls && calls[t].HalfCounted? then 1 else 0)
  {
    UndecidedAfterUpdate(calls, t, pc);
    HalfCountedAfterUpdate(calls, t, pc);
  }

  lemma CountsAfterRemove(calls: map<nat, SubmitPc>, t: nat)
    requires t in calls && calls[t].Leaving?
    ensures UndecidedCalls(calls - {t}) == UndecidedCalls(calls)
    ensures HalfCountedCalls(calls - {t}) == HalfCountedCalls(calls)
  {
  }

  lemma StepLockInv(s: State, e: Event)
    requires LockInv(s) && Enabled(s, e)
    ensures LockInv(Apply(s, e))
  {
  }

  lemma ReceiveFifo(s: State)
    requires FifoInv(s) && Enabled(s, Receive)
    ensures FifoInv(Apply(s, Receive))
  {
    TakeFirst(s.persisted, s.queue);
  }

  lemma TakeFirst(before: seq<Item>, queue: seq<Item>)
    requires queue != []
    ensures before + [] + queue == before + [queue[0]] + queue[1..]
  {
  }

  lemma PersistFifo(s: State, ok: bool)
    requires FifoInv(s) && Enabled(s, Persist(ok))
    ensures FifoInv(Apply(s, Persist(ok)))
  {
    var next := Apply(s, Persist(ok));
    assert next.persisted + InHand(next) == s.persisted + InHand(s);
  }

  lemma SendFifo(s: State, t: nat)
    requires FifoInv(s) && Enabled(s, TrySend(t))
    ensures FifoInv(Apply(s, TrySend(t)))
  {
    if |s.queue| < s.capacity {
      var item := Item(t, s.calls[t].sample);
      assert s.persisted + InHand(s) + s.queue + [item] == s.persisted + InHand(s) + (s.queue + [item]);
    }
  }

  lemma StepFifoInv(s: State, e: Event)
    requires FifoInv(s) && Enabled(s, e)
    ensures FifoInv(Apply(s, e))
  {
    match e
    case Receive => ReceiveFifo(s);
    case Persist(ok) => PersistFifo(s, ok);
    case TrySend(t) => SendFifo(s, t);
    case _ => assert InHand(Apply(s, e)) == InHand(s);
  }

  lemma CallAdded(calls: map<nat, SubmitPc>, returned: map<nat, bool>, submitted: seq<Sample>, x: Sample)
    requires CallsOk(calls, returned, submitted)
    ensures CallsOk(calls[|submitted| := Called(x)], returned, submitted + [x])
  {
  }

  lemma CallUpdated(calls: map<nat, SubmitPc>, returned: map<nat, bool>, submitted: seq<Sample>, t: nat, pc: SubmitPc)
    requires CallsOk(calls, returned, submitted) && t in calls
    requires t < |submitted| ==> Carries(pc, submitted[t])
    ensures CallsOk(calls[t := pc], returned, submitted)
  {
  }

  lemma CallRemoved(calls: map<nat, SubmitPc>, returned: map<nat, bool>, submitted: seq<Sample>, t: nat, result: bool)
    requires CallsOk(calls, returned, submitted) && t in calls
    ensures CallsOk(calls - {t}, returned[t := result], submitted)
  {
  }

  lemma StepCallInv(s: State, e: Event)
    requires CallInv(s) && Enabled(s, e)
    ensures CallInv(Apply(s, e))
  {
    match e
    case Call(x) => CallAdded(s.calls, s.returned, s.submitted, x);
    case RUnlock(t) => CallRemoved(s.calls, s.returned, s.submitted, t, s.calls[t].result);
    case RLock(t) => CallUpdated(s.calls, s.returned, s.submitted, t, Reading(s.calls[t].sample));
    case TestStopped(t) => CallUpdated(s.calls, s.returned, s.submitted, t, Apply(s, e).calls[t]);
    case TrySend(t) => CallUpdated(s.calls, s.returned, s.submitted, t, Apply(s, e).calls[t]);
    case CountDropped(t) => CallUpdated(s.calls, s.returned, s.submitted, t, HalfCounted);
    case CountDroppedTotal(t) => CallUpdated(s.calls, s.returned, s.submitted, t, Leaving(false));
    case _ =>
  }

  lemma SentUpdated(calls: map<nat, SubmitPc>, returned: map<nat, bool>, u: nat, pc: SubmitPc, t: nat)
    ensures SentIn(calls[u := pc], returned, t) <==>
              if t == u then pc == Leaving(true) || (u in returned && returned[u]) else SentIn(calls, returned, t)
  {
  }

  lemma SentRemoved(calls: map<nat, SubmitPc>, returned: map<nat, bool>, u: nat, t: nat)
    requires u in calls && calls[u].Leaving? && u !in returned
    ensures SentIn(calls - {u}, returned[u := calls[u].result], t) <==> SentIn(calls, returned, t)
  {
  }

  /** Only a successful send changes which calls count as sent. */
  lemma SentAfterStep(s: State, e: Event, t: nat)
    requires CallInv(s) && Enabled(s, e)
    ensures WasSent(Apply(s, e), t) <==>
            WasSent(s, t) || (e == TrySend(t) && |s.queue| < s.capacity)
  {
    match e
    case Call(x) => SentUpdated(s.calls, s.returned, |s.submitted|, Called(x), t);
    case RUnlock(u) => SentRemoved(s.calls, s.returned, u, t);
    case RLock(u) => SentUpdated(s.calls, s.returned, u, Reading(s.calls[u].sample), t);
    case TestStopped(u) => SentUpdated(s.calls, s.returned, u, Apply(s, e).calls[u], t);
    case TrySend(u) => SentUpdated(s.calls, s.returned, u, Apply(s, e).calls[u], t);
    case CountDropped(u) => SentUpdated(s.calls, s.returned, u, HalfCounted, t);
    case CountDroppedTotal(u) => SentUpdated(s.calls, s.returned, u, Leaving(false), t);
    case _ =>
  }

  lemma SendKeepsSentInv(s: State, t: nat)
    requires CallInv(s) && SentInv(s) && Enabled(s, TrySend(t)) && |s.queue| < s.capacity
    ensures SentInv(Apply(s, TrySend(t)))
  {
    var next := Apply(s, TrySend(t));
    assert !WasSent(s, t);
    assert next.accepted[|s.accepted|].call == t;
    forall u | WasSent(next, u)
      ensures SentAt(next.accepted, u)
    {
      SentAfterStep(s, TrySend(t), u);
      if u != t {
        var i :| 0 <= i < |s.accepted| && s.accepted[i].call == u;
        assert next.accepted[i].call == u;
      }
    }
    forall i | 0 <= i < |next.accepted|
      ensures WasSent(next, next.accepted[i].call)
    {
      SentAfterStep(s, TrySend(t), next.accepted[i].call);
    }
  }

  lemma StepSentInv(s: State, e: Event)
    requires CallInv(s) && SentInv(s) && Enabled(s, e)
    ensures SentInv(Apply(s, e))
  {
    if e.TrySend? && |s.queue| < s.capacity {
      SendKeepsSentInv(s, e.call);
    } else {
      var next := Apply(s, e);
      assert next.accepted == s.accepted && s.submitted <= next.submitted;
      forall t
        ensures WasSent(next, t) <==> WasSent(s, t)
      {
        SentAfterStep(s, e, t);
      }
      forall i | 0 <= i < |next.accepted|
        ensures CarriesOwnSample(next, next.accepted[i])
      {
        assert CarriesOwnSample(s, s.accepted[i]);
      }
    }
  }

  /** The events that move one call on. */
  predicate MovesCall(e: Event) {
    e.RLock? || e.TestStopped? || e.TrySend? || e.CountDropped? || e.CountDroppedTotal?
  }

  lemma CallCounts(s: State, e: Event)
    requires CountInv(s) && Enabled(s, e) && MovesCall(e)
    ensures CountInv(Apply(s, e))
  {
    var next := Apply(s, e);
    assert next.calls == s.calls[e.call := next.calls[e.call]];
    CountsAfterUpdate(s.calls, e.call, next.calls[e.call]);
  }

  lemma StepCountInv(s: State, e: Event)
    requires CallInv(s) && CountInv(s) && Enabled(s, e)
    ensures CountInv(Apply(s, e))
  {
    if MovesCall(e) {
      CallCounts(s, e);
    } else if e.Call? {
      CountsAfterUpdate(s.calls, |s.submitted|, Called(e.sample));
    } else if e.RUnlock? {
      CountsAfterRemove(s.calls, e.call);
    }
  }

  lemma StepInv(s: State, e: Event)
    requires Inv(s) && Enabled(s, e)
    ensures Inv(Apply(s, e))
  {
    StepLockInv(s, e);
    StepFifoInv(s, e);
    StepCallInv(s, e);
    StepSentInv(s, e);
    StepCountInv(s, e);
  }

  lemma {:induction false} InvAlways(s: State, es: seq<Event>)
    requires Inv(s) && Legal(s, es)
    ensures Inv(After(s, es))
    decreases |es|
  {
    if es != [] {
      StepInv(s, es[0]);
      InvAlways(Apply(s, es[0]), es[1..]);
    }
  }

  // ---------------------------------------------------------------------------------------
  // Whole-run theorems
  // ---------------------------------------------------------------------------------------

  /** At every moment of every interleaving the persisted items are, in channel order, a prefix of
      the accepted ones; what is missing is in hand or still queued. */
  lemma FifoOrder(capacity: nat, es: seq<Event>)
    requires Legal(Init(capacity), es)
    ensures var s := After(Init(capacity), es);
            s.accepted == s.persisted + InHand(s) + s.queue && |s.queue| <= capacity
  {
    InitInv(capacity);
    InvAlways(Init(capacity), es);
    CapacityConstant(Init(capacity), es);
  }

  lemma {:induction false} CapacityConstant(s: State, es: seq<Event>)
    requires Legal(s, es)
    ensures After(s, es).capacity == s.capacity
    decreases |es|
  {
    if es != [] {
      CapacityConstant(Apply(s, es[0]), es[1..]);
    }
  }

  /** Attempts are conserved in every interleaving: each call is written, failed, dropped, queued,
      in the consumer's hand, or still undecided; and no drop escapes the periodic report. */
  lemma Conservation(capacity: nat, es: seq<Event>)
    requires Legal(Init(capacity), es)
    ensures var s := After(Init(capacity), es);
            && |s.submitted| == s.written + s.failed + s.droppedTotal + |s.queue| + |InHand(s)|
                                + |UndecidedCalls(s.calls)|
            && (s.calls == map[] ==>
                  && |s.submitted| == s.written + s.failed + s.droppedTotal + |s.queue| + |InHand(s)|
                  && s.dropped + s.reported == s.droppedTotal)
  {
    InitInv(capacity);
    InvAlways(Init(capacity), es);
    var s := After(Init(capacity), es);
    if s.calls == map[] {
      assert UndecidedCalls(s.calls) == {};
      assert HalfCountedCalls(s.calls) == {};
    }
  }

  /** When `Run` has returned the channel is empty, the flag is set, and every finished call that
      was told `true` has had its own sample persisted at exactly one position, in send order,
      while a call that was told `false` was never persisted. */
  lemma ExactlyOnceAtShutdown(capacity: nat, es: seq<Event>)
    requires Legal(Init(capacity), es)
    requires After(Init(capacity), es).run.Returned?
    ensures var s := After(Init(capacity), es);
            && s.queue == [] && s.stopped && s.persisted == s.accepted
            && s.written + s.failed == |s.accepted|
            && (forall t :: t in s.returned ==>
                  (s.returned[t] <==> SentAt(s.persisted, t)))
            && (forall i, j :: 0 <= i < j < |s.persisted| ==> s.persisted[i].call != s.persisted[j].call)
            && (forall i :: 0 <= i < |s.persisted| ==> CarriesOwnSample(s, s.persisted[i]))
  {
    InitInv(capacity);
    InvAlways(Init(capacity), es);
    var s := After(Init(capacity), es);
    assert s.persisted == s.accepted;
    forall t | t in s.returned
      ensures s.returned[t] <==> SentAt(s.persisted, t)
    {
      assert s.returned[t] <==> WasSent(s, t);
    }
  }

  /** After `Run` has returned, no continuation of any length puts anything in the channel or
      changes what was persisted: late calls can only be dropped. */
  lemma NeverRefills(capacity: nat, es: seq<Event>, more: seq<Event>)
    requires Legal(Init(capacity), es) && After(Init(capacity), es).run.Returned?
    requires Legal(After(Init(capacity), es), more)
    ensures Legal(Init(capacity), es + more)
    ensures var s, later := After(Init(capacity), es), After(Init(capacity), es + more);
            && later.run.Returned? && later.queue == []
            && later.accepted == s.accepted && later.persisted == s.persisted
            && (forall t :: t in later.returned && t !in s.returned && t !in s.calls ==> !later.returned[t])
  {
    InitInv(capacity);
    InvAlways(Init(capacity), es);
    var s := After(Init(capacity), es);
    NeverRefillsFrom(s, more);
    LegalConcat(Init(capacity), es, more);
    InvAlways(s, more);
    var later := After(s, more);
    forall t | t in later.returned && t !in s.returned && t !in s.calls
      ensures !later.returned[t]
    {
      assert later.returned[t] ==> WasSent(later, t);
    }
  }

  /** Once `Run` has returned an event changes neither the channel nor what was persisted. */
  lemma ReturnedStep(s: State, e: Event)
    requires LockInv(s) && s.run.Returned? && Enabled(s, e)
    ensures var next := Apply(s, e);
            && next.run.Returned? && next.queue == []
            && next.accepted == s.accepted && next.persisted == s.persisted
            && next.written == s.written && next.failed == s.failed
  {
  }

  lemma {:induction false} NeverRefillsFrom(s: State, es: seq<Event>)
    requires LockInv(s) && s.run.Returned? && Legal(s, es)
    ensures var later := After(s, es);
            && later.run.Returned? && later.queue == []
            && later.accepted == s.accepted && later.persisted == s.persisted
            && later.written == s.written && later.failed == s.failed
    decreases |es|
  {
    if es != [] {
      StepLockInv(s, es[0]);
      ReturnedStep(s, es[0]);
      NeverRefillsFrom(Apply(s, es[0]), es[1..]);
    }
  }

  lemma StoppedStep(s: State, e: Event)
    requires LockInv(s) && s.stopped && Enabled(s, e)
    ensures var next := Apply(s, e);
            && next.stopped && |next.queue| <= |s.queue|
            && |next.queue| + |next.persisted| + |InHand(next)| == |s.queue| + |s.persisted| + |InHand(s)|
  {
  }

  /** The drain makes progress: once the flag is set the channel never grows, so the consumer
      receives at most as many items as were queued at that moment. */
  lemma {:induction false} DrainShrinks(s: State, es: seq<Event>)
    requires LockInv(s) && s.stopped && Legal(s, es)
    ensures After(s, es).stopped
    ensures |After(s, es).queue| + |After(s, es).persisted| + |InHand(After(s, es))|
            == |s.queue| + |s.persisted| + |InHand(s)|
    ensures |After(s, es).queue| <= |s.queue|
    decreases |es|
  {
    if es != [] {
      StepLockInv(s, es[0]);
      StoppedStep(s, es[0]);
      DrainShrinks(Apply(s, es[0]), es[1..]);
    }
  }

  lemma {:induction false} LegalConcat(s: State, es: seq<Event>, more: seq<Event>)
    requires Legal(s, es) && Legal(After(s, es), more)
    ensures Legal(s, es + more) && After(s, es + more) == After(After(s, es), more)
    decreases |es|
  {
    if es == [] {
      assert es + more == more;
    } else {
      LegalConcat(Apply(s, es[0]), es[1..], more);
      assert (es + more)[1..] == es[1..] + more;
    }
  }

  // ---------------------------------------------------------------------------------------
  // The code, run without interference: each body is a path of the event machine
  // ---------------------------------------------------------------------------------------

  ghost function Samples(items: seq<Item>): seq<Sample> {
    seq(|items|, i requires 0 <= i < |items| => items[i].sample)
  }

  lemma SamplesTail(items: seq<Item>)
    requires items != []
    ensures Samples(items[1..]) == Samples(items)[1..] && Samples(items)[0] == items[0].sample
  {
  }

  lemma SamplesAppend(items: seq<Item>, x: Item)
    ensures Samples(items + [x]) == Samples(items) + [x.sample]
  {
  }

  /** Prepend one event to an execution. */
  lemma Prepend(s: State, e: Event, es: seq<Event>)
    requires Enabled(s, e) && Legal(Apply(s, e), es)
    ensures Legal(s, [e] + es) && After(s, [e] + es) == After(Apply(s, e), es)
  {
    assert ([e] + es)[1..] == es;
  }

  /** The state after `Submit(x)` has run alone from `s`. */
  function Submitted(s: State, x: Sample): State {
    var t := |s.submitted|;
    var ok := !s.stopped && |s.queue| < s.capacity;
    var next := s.(submitted := s.submitted + [x], returned := s.returned[t := ok]);
    if ok then next.(queue := s.queue + [Item(t, x)], accepted := s.accepted + [Item(t, x)])
    else next.(dropped := s.dropped + 1, droppedTotal := s.droppedTotal + 1)
  }

  lemma DropPath(s: State, t: nat)
    requires t in s.calls && s.calls[t] == Rejected
    ensures var es := [CountDropped(t), CountDroppedTotal(t), RUnlock(t)];
            && Legal(s, es)
            && After(s, es) == s.(dropped := s.dropped + 1, droppedTotal := s.droppedTotal + 1,
                                  returned := s.returned[t := false], calls := s.calls - {t})
  {
    var s1 := Apply(s, CountDropped(t));
    var s2 := Apply(s1, CountDroppedTotal(t));
    var s3 := Apply(s2, RUnlock(t));
    assert s3.calls == s.calls - {t};
    Prepend(s2, RUnlock(t), []);
    Prepend(s1, CountDroppedTotal(t), [RUnlock(t)]);
    Prepend(s, CountDropped(t), [CountDroppedTotal(t)] + [RUnlock(t)]);
    assert [CountDropped(t)] + ([CountDroppedTotal(t)] + ([RUnlock(t)] + []))
        == [CountDropped(t), CountDroppedTotal(t), RUnlock(t)];
  }

  /** After the flag has been tested, the rest of `Submit` is a path. */
  lemma TailPath(s: State, t: nat, x: Sample) returns (es: seq<Event>)
    requires t in s.calls && s.calls[t] == if s.stopped then Rejected else Open(x)
    ensures Legal(s, es)
    ensures var ok := !s.stopped && |s.queue| < s.capacity;
            var next := s.(returned := s.returned[t := ok], calls := s.calls - {t});
            After(s, es) ==
              if ok then next.(queue := s.queue + [Item(t, x)], accepted := s.accepted + [Item(t, x)])
              else next.(dropped := s.dropped + 1, droppedTotal := s.droppedTotal + 1)
  {
    if s.stopped {
      DropPath(s, t);
      es := [CountDropped(t), CountDroppedTotal(t), RUnlock(t)];
    } else {
      var s1 := Apply(s, TrySend(t));
      assert s1.calls - {t} == s.calls - {t};
      if |s.queue| < s.capacity {
        Prepend(s1, RUnlock(t), []);
        Prepend(s, TrySend(t), [RUnlock(t)] + []);
        es := [TrySend(t)] + ([RUnlock(t)] + []);
      } else {
        DropPath(s1, t);
        Prepend(s, TrySend(t), [CountDropped(t), CountDroppedTotal(t), RUnlock(t)]);
        es := [TrySend(t)] + [CountDropped(t), CountDroppedTotal(t), RUnlock(t)];
      }
    }
  }

  /** Running `Submit` alone is one path of the event machine, ending in `Submitted(s, x)`. */
  lemma SubmitPath(s: State, x: Sample) returns (es: seq<Event>)
    requires !s.run.HoldsWriteLock() && |s.submitted| !in s.calls
    ensures Legal(s, es) && After(s, es) == Submitted(s, x)
  {
    var t := |s.submitted|;
    var s1 := Apply(s, Call(x));
    var s2 := Apply(s1, RLock(t));
    var s3 := Apply(s2, TestStopped(t));
    assert s3.calls - {t} == s.calls;
    var tail := TailPath(s3, t, x);
    Prepend(s2, TestStopped(t), tail);
    Prepend(s1, RLock(t), [TestStopped(t)] + tail);
    Prepend(s, Call(x), [RLock(t)] + ([TestStopped(t)] + tail));
    es := [Call(x)] + ([RLock(t)] + ([TestStopped(t)] + tail));
  }

  class MetricsWriter {
    const capacity: nat
    var ch: seq<Sample>
    var stopped: bool
    var dropped: nat
    var droppedTotal: nat
    var written: nat
    var failed: nat
    ghost var trace: seq<Event>
    ghost var model: State

    /** The fields are those of the state that the events so far lead to. */
    ghost predicate Valid()
      reads this
    {
      && Legal(Init(capacity), trace) && model == After(Init(capacity), trace)
      && model.capacity == capacity && Samples(model.queue) == ch && model.stopped == stopped
      && model.dropped == dropped && model.droppedTotal == droppedTotal
      && model.written == written && model.failed == failed
    }

    constructor (capacity: nat)
      ensures Valid() && this.capacity == capacity && trace == []
    {
      this.capacity := capacity;
      ch, stopped := [], false;
      dropped, droppedTotal, written, failed := 0, 0, 0, 0;
      trace, model := [], Init(capacity);
    }

    /** Record that the events `es` have just happened to the concrete fields. */
    ghost method Record(es: seq<Event>)
      requires Legal(Init(capacity), trace) && model == After(Init(capacity), trace) && Legal(model, es)
      modifies this`model, this`trace
      ensures Legal(Init(capacity), trace) && model == After(Init(capacity), trace)
      ensures model == After(old(model), es) && trace == old(trace) + es
    {
      LegalConcat(Init(capacity), trace, es);
      trace := trace + es;
      model := After(model, es);
    }

    /** `Submit` with no other goroutine in between: accepted exactly when the writer is open and
        the channel has room, and counted as dropped otherwise. */
    method Submit(s: Sample) returns (ok: bool)
      requires Valid() && !model.run.HoldsWriteLock()
      modifies this
      ensures Valid() && model == Submitted(old(model), s)
      ensures ok == (!old(stopped) && |old(ch)| < capacity)
      ensures ch == if ok then old(ch) + [s] else old(ch)
      ensures droppedTotal == old(droppedTotal) + (if ok then 0 else 1)
    {
      ghost var before := model;
      InitInv(capacity);
      InvAlways(Init(capacity), trace);
      ghost var es := SubmitPath(model, s);
      ok := false;
      if !stopped && |ch| < capacity {
        ch := ch + [s];
        ok := true;
      }
      if !ok {
        dropped := dropped + 1;
        droppedTotal := droppedTotal + 1;
      }
      Record(es);
      SamplesAppend(before.queue, Item(|before.submitted|, s));
    }

    /** `persist` of the item just received, whose write to the database succeeds or fails. */
    method PersistSample(ok: bool)
      requires Valid() && model.run.Persisting?
      modifies this`written, this`failed, this`model, this`trace
      ensures Valid() && model == Apply(old(model), Persist(ok))
      ensures written == old(written) + (if ok then 1 else 0)
      ensures failed == old(failed) + (if ok then 0 else 1)
    {
      if ok {
        written := written + 1;
      } else {
        failed := failed + 1;
      }
      Prepend(model, Persist(ok), []);
      Record([Persist(ok)]);
    }

    /** One turn of the drain loop: receive the oldest sample and persist it. */
    method DrainOne(writes: Sample -> bool)
      requires Valid() && model.run == Draining && ch != []
      modifies this`ch, this`written, this`failed, this`model, this`trace
      ensures Valid() && model.run == Draining
      ensures ch == old(ch)[1..]
      ensures Samples(model.persisted) == Samples(old(model).persisted) + [old(ch)[0]]
      ensures written + failed == old(written) + old(failed) + 1
    {
      SamplesTail(model.queue);
      SamplesAppend(model.persisted, model.queue[0]);
      var sample := TakeOldest();
      PersistSample(writes(sample));
    }

    /** A receive from a channel that is not empty. */
    method TakeOldest() returns (sample: Sample)
      requires Valid() && model.run == Draining && ch != []
      modifies this`ch, this`model, this`trace
      ensures Valid() && model == Apply(old(model), Receive)
      ensures sample == old(ch)[0] && ch == old(ch)[1..]
    {
      sample := ch[0];
      SamplesTail(model.queue);
      ch := ch[1..];
      Prepend(model, Receive, []);
      Record([Receive]);
    }

    /** The drain loop of the shutdown branch. */
    method Drain(writes: Sample -> bool)
      requires Valid() && model.run == Draining
      modifies this`ch, this`written, this`failed, this`model, this`trace
      ensures Valid() && model.run == Draining && ch == []
      ensures Samples(model.persisted) == Samples(old(model).persisted) + old(ch)
      ensures written + failed == old(written) + old(failed) + |old(ch)|
    {
      while ch != []
        invariant Valid() && model.run == Draining
        invariant Samples(model.persisted) + ch == Samples(old(model).persisted) + old(ch)
        invariant written + failed + |ch| == old(written) + old(failed) + |old(ch)|
        decreases |ch|
      {
        ghost var before := ch;
        DrainOne(writes);
        assert before == [before[0]] + ch;
      }
    }

    /** The shutdown branch of `Run`: take the lock, set the flag, release, and drain.  `writes`
        says which database writes succeed. */
    method Shutdown(writes: Sample -> bool)
      requires Valid() && model.run == SawCancel && NoReader(model)
      modifies this
      ensures Valid() && model.run == Returned
      ensures stopped && ch == []
      ensures Samples(model.persisted) == Samples(old(model).persisted) + old(ch)
      ensures written + failed == old(written) + old(failed) + |old(ch)|
    {
      stopped := true;
      StopPath(model);
      Record([Lock, SetStopped, Unlock]);
      Drain(writes);
      Prepend(model, ReturnFromRun, []);
      Record([ReturnFromRun]);
    }
  }

  lemma StopPath(s: State)
    requires s.run == SawCancel && NoReader(s)
    ensures Legal(s, [Lock, SetStopped, Unlock])
    ensures After(s, [Lock, SetStopped, Unlock]) == s.(stopped := true, run := Draining)
  {
    var s1 := Apply(s, Lock);
    var s2 := Apply(s1, SetStopped);
    Prepend(s2, Unlock, []);
    Prepend(s1, SetStopped, [Unlock]);
    Prepend(s, Lock, [SetStopped] + [Unlock]);
    assert [Lock] + ([SetStopped] + ([Unlock] + [])) == [Lock, SetStopped, Unlock];
  }
}

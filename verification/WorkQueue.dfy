/**
 The work queue around the reconciler: a store of CHPA objects, the watch that delivers its
 versions late and in order to a cache, and the keys that are queued, waiting for their timer,
 or being processed.
 No valid CHPA is ever dropped, and the controller wakes itself up only boundedly often.
 */
module WorkQueue {
  import opened Wrappers
  import opened Chpa
  import opened Reconcile

  type Key = string

  /** A stored CHPA; every write gives it a new revision, and writes of an older revision are refused. */
  datatype Object = Object(spec: Spec, status: StatusValue, revision: nat)

  /** A request being processed: what it read, and what it decided once it is done. */
  datatype Flight = Flight(seen: Lookup, revision: nat, next: Option<Next>)

  /** A version of a key: an object, or its absence after a deletion. */
  type Version = Option<Object>

  /**
   `pending` holds the versions stored but not yet delivered, oldest first; `dirty` keys are
   queued or re-queued, `waiting` ones have a timer running.
   */
  datatype State = State(
    revision: nat, store: map<Key, Object>, pending: map<Key, seq<Version>>, cache: map<Key, Object>,
    dirty: set<Key>, waiting: set<Key>, processing: map<Key, Flight>)

  const EMPTY := State(0, map[], map[], map[], {}, {}, map[])

  datatype Event =
    | Create(k: Key, spec: Spec, status: StatusValue)
    | EditSpec(k: Key, spec: Spec)
    | WriteStatus(k: Key, status: StatusValue)
    | Delete(k: Key)
    | Deliver(k: Key, n: nat)               // the watch moves the cache on by `n` versions, as one event
    | Fire(k: Key)                          // a timer runs out
    | Begin(k: Key, readable: bool)
    | Process(k: Key, read: DeploymentRead, inputs: Inputs)
    | End(k: Key)

  // ---- the watch ----

  /** Update events pass when the specification changed. */
  predicate UpdatePredicate(before: Object, after: Object) {
    after.spec != before.spec
  }

  function VersionIn(objects: map<Key, Object>, k: Key): Version {
    if k in objects then Some(objects[k]) else None
  }

  function SpecOf(v: Version): Option<Spec> {
    if v.Some? then Some(v.value.spec) else None
  }

  function SpecIn(objects: map<Key, Object>, k: Key): Option<Spec> {
    SpecOf(VersionIn(objects, k))
  }

  function Pending(s: State, k: Key): seq<Version> {
    if k in s.pending then s.pending[k] else []
  }

  /** Creations and deletions are not filtered. */
  predicate Enqueues(before: Version, after: Version) {
    if before.Some? && after.Some? then UpdatePredicate(before.value, after.value)
    else before.Some? || after.Some?
  }

  /** A new version enters the store, and the watch will deliver it. */
  function Stored(s: State, k: Key, v: Version): State {
    s.(store := if v.Some? then s.store[k := v.value] else s.store - {k},
       pending := s.pending[k := Pending(s, k) + [v]])
  }

  function Put(s: State, k: Key, spec: Spec, status: StatusValue): State {
    Stored(s, k, Some(Object(spec, status, s.revision + 1))).(revision := s.revision + 1)
  }

  function Delivered(s: State, k: Key, n: nat): State
    requires 0 < n <= |Pending(s, k)|
  {
    var v := Pending(s, k)[n - 1];
    s.(cache := if v.Some? then s.cache[k := v.value] else s.cache - {k},
       pending := s.pending[k := Pending(s, k)[n..]],
       dirty := if Enqueues(VersionIn(s.cache, k), v) then s.dirty + {k} else s.dirty)
  }

  // ---- the worker ----

  function Seen(s: State, k: Key, readable: bool): Flight {
    if !readable then Flight(Unreadable, 0, None)
    else if k in s.cache then Flight(Found(s.cache[k].spec, s.cache[k].status), s.cache[k].revision, None)
    else Flight(NotFound, 0, None)
  }

  /** The stored object is still the one that was read. */
  predicate Current(s: State, k: Key)
    requires k in s.processing
  {
    k in s.store && s.store[k].revision == s.processing[k].revision
  }

  ghost function Processed(s: State, k: Key, read: DeploymentRead, inputs: Inputs): State
    requires k in s.processing && UsableFor(s.processing[k].seen, inputs)
  {
    var seen := s.processing[k].seen;
    var h := Handle(seen, read, inputs);
    var done := s.(processing := s.processing[k := s.processing[k].(next := Some(h.next))]);
    if h.outcome.Some? && h.outcome.value.statusStored then
      Put(done, k, WithDefaults(seen.spec), h.outcome.value.proposed)
    else done
  }

  function Ended(s: State, k: Key): State
    requires k in s.processing
  {
    s.(processing := s.processing - {k},
       waiting := if s.processing[k].next == Some(Again) then s.waiting + {k} else s.waiting)
  }

  ghost predicate Enabled(s: State, e: Event) {
    match e
    case Create(k, _, _) => k !in s.store
    case EditSpec(k, _) => k in s.store
    case WriteStatus(k, _) => k in s.store
    case Delete(k) => k in s.store
    case Deliver(k, n) => 0 < n <= |Pending(s, k)|
    case Fire(k) => k in s.waiting
    case Begin(k, _) => k in s.dirty && k !in s.processing
    case Process(k, _, inputs) =>
      && k in s.processing && s.processing[k].next.None?
      && UsableFor(s.processing[k].seen, inputs)
      && (inputs.statusWriteOk ==> Current(s, k))
    case End(k) => k in s.processing && s.processing[k].next.Some?
  }

  ghost function After(s: State, e: Event): State
    requires Enabled(s, e)
  {
    match e
    case Create(k, spec, status) => Put(s, k, spec, status)
    case EditSpec(k, spec) => Put(s, k, spec, s.store[k].status)
    case WriteStatus(k, status) => Put(s, k, s.store[k].spec, status)
    case Delete(k) => Stored(s, k, None)
    case Deliver(k, n) => Delivered(s, k, n)
    case Fire(k) => s.(waiting := s.waiting - {k}, dirty := s.dirty + {k})
    case Begin(k, readable) => s.(dirty := s.dirty - {k}, processing := s.processing[k := Seen(s, k, readable)])
    case Process(k, read, inputs) => Processed(s, k, read, inputs)
    case End(k) => Ended(s, k)
  }

  ghost predicate Run(states: seq<State>, events: seq<Event>) {
    && |states| == |events| + 1 && states[0] == EMPTY
    && forall i :: 0 <= i < |events| ==> Enabled(states[i], events[i]) && states[i + 1] == After(states[i], events[i])
  }

  // ---- no valid CHPA is dropped ----

  /** The request will be repeated, unless its pass panics. */
  predicate WillReturn(f: Flight) {
    f.next == Some(Again) || (f.next.None? && (f.seen.Unreadable? || Admitted(f.seen)))
  }

  predicate Scheduled(s: State, k: Key) {
    k in s.dirty || k in s.waiting || (k in s.processing && WillReturn(s.processing[k]))
  }

  predicate ValidIn(objects: map<Key, Object>, k: Key) {
    k in objects && ValidSpec(objects[k].spec)
  }

  ghost predicate Panics(s: State, e: Event, k: Key)
    requires Enabled(s, e)
  {
    e.Process? && e.k == k && Handle(s.processing[k].seen, e.read, e.inputs).next == Panicked
  }

  /** The watch delivers a specification of `k` that differs from the cached one. */
  ghost predicate SpecDelivered(s: State, e: Event, k: Key)
    requires Enabled(s, e)
  {
    e.Deliver? && e.k == k && Enqueues(VersionIn(s.cache, k), Pending(s, k)[e.n - 1])
  }

  /** A request is dropped, panicking or not, exactly for these reasons. */
  lemma {:induction false} HandledHow(lookup: Lookup, read: DeploymentRead, inputs: Inputs)
    requires UsableFor(lookup, inputs)
    ensures var h := Handle(lookup, read, inputs);
      && (h.next == Stop <==> !lookup.Unreadable? && !Admitted(lookup))
      && (h.next == Panicked <==> Admitted(lookup) && read.ReadOk? && read.specReplicas.None?)
      && (h.outcome.Some? <==> Admitted(lookup) && read.ReadOk? && read.specReplicas.Some?)
      && (h.outcome.Some? && h.outcome.value.statusStored ==> inputs.statusWriteOk)
  {
    hide Assess;
  }

  lemma {:induction false} ProcessKeepsScheduled(s: State, e: Event, k: Key)
    requires Enabled(s, e) && e.Process? && Scheduled(s, k) && !Panics(s, e, k)
    ensures Scheduled(After(s, e), k)
  {
    HandledHow(s.processing[e.k].seen, e.read, e.inputs);
    hide Handle;
  }

  /** A step keeps a valid cached CHPA scheduled unless it panics; and every delivered change schedules it. */
  lemma {:induction false} ScheduledStep(s: State, e: Event, k: Key)
    requires Enabled(s, e)
    ensures var s' := After(s, e);
      && (ValidIn(s.cache, k) && Scheduled(s, k) && ValidIn(s'.cache, k) && !Panics(s, e, k) ==> Scheduled(s', k))
      && (SpecDelivered(s, e, k) ==> Scheduled(s', k))
      && (!SpecDelivered(s, e, k) ==> SpecIn(s'.cache, k) == SpecIn(s.cache, k))
  {
    if e.Process? && Scheduled(s, k) && !Panics(s, e, k) {
      ProcessKeepsScheduled(s, e, k);
    }
    hide Handle;
  }

  /** A pass over `k` panicked after the last delivered change of its specification. */
  ghost predicate PanickedSince(states: seq<State>, events: seq<Event>, i: nat, k: Key)
    requires Run(states, events) && i <= |events|
  {
    exists j: nat :: j < i && Panics(states[j], events[j], k)
      && forall m: nat :: j < m < i ==> !SpecDelivered(states[m], events[m], k)
  }

  /** The version that the watch will deliver last, or has delivered, is the stored one. */
  predicate InStep(s: State, k: Key) {
    Newest(VersionIn(s.cache, k), Pending(s, k)) == VersionIn(s.store, k)
  }

  function Newest(cached: Version, pending: seq<Version>): Version {
    if pending == [] then cached else pending[|pending| - 1]
  }

  /** What a step does to the versions of a key: a delivery, a new stored version, or nothing. */
  lemma {:induction false} VersionsStep(s: State, e: Event, k: Key)
    requires Enabled(s, e)
    ensures var (s', versions, later) := (After(s, e), Pending(s, k), Pending(After(s, e), k));
      && s.revision <= s'.revision
      && (if e.Deliver? && e.k == k then
            && VersionIn(s'.store, k) == VersionIn(s.store, k)
            && VersionIn(s'.cache, k) == versions[e.n - 1] && later == versions[e.n..]
          else
            && VersionIn(s'.cache, k) == VersionIn(s.cache, k)
            && (|| (later == versions && VersionIn(s'.store, k) == VersionIn(s.store, k))
                || (later == versions + [VersionIn(s'.store, k)]
                    && (k in s'.store ==> s.revision < s'.store[k].revision <= s'.revision))))
  {
    hide Handle, WithDefaults;
  }

  lemma {:induction false} FlightStep(s: State, e: Event, k: Key)
    requires Enabled(s, e)
    ensures var (s', was) := (After(s, e), k in s.processing);
      k in s'.processing ==>
        || (was && s'.processing[k] == s.processing[k].(next := s'.processing[k].next))
        || s'.processing[k] == Seen(s, k, true) || s'.processing[k] == Seen(s, k, false)
  {
    hide Handle, WithDefaults;
  }

  lemma {:induction false} InStepStep(s: State, e: Event, k: Key)
    requires Enabled(s, e) && InStep(s, k)
    ensures InStep(After(s, e), k)
  {
    VersionsStep(s, e, k);
    hide After;
  }

  lemma {:induction false} AlwaysInStep(states: seq<State>, events: seq<Event>, i: nat, k: Key)
    requires Run(states, events) && i <= |events|
    ensures InStep(states[i], k)
  {
    if i > 0 {
      AlwaysInStep(states, events, i - 1, k);
      InStepStep(states[i - 1], events[i - 1], k);
      hide Enabled, After, InStep;
    }
  }

  /**
   In every reachable state a CHPA with a valid specification is queued, waiting, or being
   processed by a request that will return, unless a pass panicked since its specification last
   changed. "Has a valid specification" is what the cache knows.
   */
  lemma {:induction false} NoValidCHPAIsDropped(states: seq<State>, events: seq<Event>, i: nat, k: Key)
    requires Run(states, events) && i <= |events|
    ensures ValidIn(states[i].cache, k) ==> Scheduled(states[i], k) || PanickedSince(states, events, i, k)
  {
    hide After, Panics, Scheduled;
    if i > 0 {
      NoValidCHPAIsDropped(states, events, i - 1, k);
      ScheduledStep(states[i - 1], events[i - 1], k);
      PanicHistory(states, events, i, k);
    }
  }

  /** When the store knows better than the cache, versions are pending, and delivering them all schedules the key. */
  lemma {:induction false} OutstandingDeliveriesSchedule(states: seq<State>, events: seq<Event>, i: nat, k: Key)
    requires Run(states, events) && i <= |events|
    requires SpecIn(states[i].cache, k) != SpecIn(states[i].store, k)
    ensures var all := Deliver(k, |Pending(states[i], k)|);
      && Enabled(states[i], all)
      && Scheduled(After(states[i], all), k)
      && SpecIn(After(states[i], all).cache, k) == SpecIn(states[i].store, k)
  {
    AlwaysInStep(states, events, i, k);
    hide Run;
  }

  lemma {:induction false} PanicHistory(states: seq<State>, events: seq<Event>, i: nat, k: Key)
    requires Run(states, events) && 0 < i <= |events|
    ensures Panics(states[i - 1], events[i - 1], k) ==> PanickedSince(states, events, i, k)
    ensures PanickedSince(states, events, i - 1, k) && !SpecDelivered(states[i - 1], events[i - 1], k) ==>
      PanickedSince(states, events, i, k)
  {
    hide After, Panics, Enabled, SpecDelivered;
    if PanickedSince(states, events, i - 1, k) && !SpecDelivered(states[i - 1], events[i - 1], k) {
      var j: nat :| j < i - 1 && Panics(states[j], events[j], k)
        && forall m: nat :: j < m < i - 1 ==> !SpecDelivered(states[m], events[m], k);
      assert forall m: nat :: j < m < i ==> !SpecDelivered(states[m], events[m], k);
    }
  }

  /**
   The exception is real: a request that nothing else scheduled leaves the queue exactly when its pass does
   not return.
   */
  lemma {:induction false} LeavesQueueIff(s: State, k: Key, read: DeploymentRead, inputs: Inputs)
    requires Enabled(s, Process(k, read, inputs)) && k !in s.dirty && k !in s.waiting
    ensures var s' := After(s, Process(k, read, inputs));
      && Enabled(s', End(k))
      && (!Scheduled(After(s', End(k)), k) <==>
            || (!s.processing[k].seen.Unreadable? && !Admitted(s.processing[k].seen))
            || (Admitted(s.processing[k].seen) && read.ReadOk? && read.specReplicas.None?))
  {
    HandledHow(s.processing[k].seen, read, inputs);
    hide Handle;
  }

  // ---- the controller's own wakeups ----

  /** A version is no newer than the last revision, and equal to the stored object if it has its revision. */
  predicate Knows(s: State, k: Key, v: Version) {
    v.Some? ==>
      && v.value.revision <= s.revision
      && (k in s.store && s.store[k].revision == v.value.revision ==> s.store[k] == v.value)
  }

  predicate VersionsAgree(s: State, k: Key) {
    && Knows(s, k, VersionIn(s.store, k)) && Knows(s, k, VersionIn(s.cache, k))
    && forall v :: v in Pending(s, k) ==> Knows(s, k, v)
  }

  predicate FlightAgrees(s: State, k: Key) {
    k in s.processing && s.processing[k].seen.Found? ==>
      var f := s.processing[k];
      Knows(s, k, Some(Object(f.seen.spec, f.seen.status, f.revision)))
  }

  /** What is read, delivered and stored under one revision is the same object. */
  predicate RevisionsAgree(s: State, k: Key) {
    VersionsAgree(s, k) && FlightAgrees(s, k)
  }

  lemma {:induction false} KnownStep(s: State, e: Event, k: Key, v: Version)
    requires Enabled(s, e) && Knows(s, k, v)
    ensures Knows(After(s, e), k, v)
  {
    VersionsStep(s, e, k);
    hide After, Pending;
  }

  lemma {:induction false} VersionsAgreeStep(s: State, e: Event, k: Key)
    requires Enabled(s, e) && VersionsAgree(s, k)
    ensures VersionsAgree(After(s, e), k)
  {
    var s', versions, later := After(s, e), Pending(s, k), Pending(After(s, e), k);
    VersionsStep(s, e, k);
    assert e.Deliver? && e.k == k ==> versions[e.n - 1] in versions;
    assert Knows(s', k, VersionIn(s'.store, k)) by {
      KnownStep(s, e, k, VersionIn(s.store, k));
      hide After, Pending;
    }
    hide After, Pending, Knows, Enabled;
    KnownStep(s, e, k, VersionIn(s.cache, k));
    forall v | v in later
      ensures Knows(s', k, v)
    {
      if v in versions {
        KnownStep(s, e, k, v);
      }
    }
    if e.Deliver? && e.k == k {
      KnownStep(s, e, k, versions[e.n - 1]);
    }
  }

  lemma {:induction false} FlightAgreesStep(s: State, e: Event, k: Key)
    requires Enabled(s, e) && VersionsAgree(s, k) && FlightAgrees(s, k)
    ensures FlightAgrees(After(s, e), k)
  {
    FlightStep(s, e, k);
    KnownStep(s, e, k, VersionIn(s.cache, k));
    if k in s.processing && s.processing[k].seen.Found? {
      var f := s.processing[k];
      KnownStep(s, e, k, Some(Object(f.seen.spec, f.seen.status, f.revision)));
    }
    hide After, Pending, Knows;
  }

  lemma {:induction false} RevisionsStep(s: State, e: Event, k: Key)
    requires Enabled(s, e) && RevisionsAgree(s, k)
    ensures RevisionsAgree(After(s, e), k)
  {
    VersionsAgreeStep(s, e, k);
    FlightAgreesStep(s, e, k);
    hide After, VersionsAgree, FlightAgrees;
  }

  /** The controller's write changed the stored specification, so the watch will wake it up again. */
  ghost predicate WakesItself(s: State, e: Event, k: Key)
    requires Enabled(s, e)
  {
    e.Process? && e.k == k && SpecIn(After(s, e).store, k) != SpecIn(s.store, k)
  }

  /** A user writes a specification. */
  predicate WritesSpec(e: Event, k: Key) {
    (e.Create? || e.EditSpec?) && e.k == k
  }

  /** The stored specification still has blanks that a pass would fill in. */
  function Undefaulted(s: State, k: Key): nat {
    if k in s.store && WithDefaults(s.store[k].spec) != s.store[k].spec then 1 else 0
  }

  /** A write of the controller stores the defaults of exactly the specification that is there. */
  lemma {:induction false} OwnWrite(s: State, e: Event, k: Key)
    requires Enabled(s, e) && RevisionsAgree(s, k) && e.Process? && e.k == k
    ensures var s' := After(s, e);
      && (SpecIn(s'.store, k) == SpecIn(s.store, k)
          || (k in s.store && SpecIn(s'.store, k) == Some(WithDefaults(s.store[k].spec))))
  {
    HandledHow(s.processing[k].seen, e.read, e.inputs);
    hide Handle, WithDefaults;
  }

  function Count(yes: bool): nat {
    if yes then 1 else 0
  }

  lemma {:induction false} WakeupStep(s: State, e: Event, k: Key)
    requires Enabled(s, e) && RevisionsAgree(s, k)
    ensures Count(WakesItself(s, e, k)) + Undefaulted(After(s, e), k) <= Undefaulted(s, k) + Count(WritesSpec(e, k))
  {
    if e.Process? && e.k == k {
      OwnWrite(s, e, k);
      if k in s.store {
        DefaultsAreStable(s.store[k].spec);
      }
      hide After, WithDefaults;
    } else {
      hide Handle, WithDefaults;
    }
  }

  ghost function SelfWakeups(states: seq<State>, events: seq<Event>, i: nat, k: Key): nat
    requires Run(states, events) && i <= |events|
  {
    if i == 0 then 0 else SelfWakeups(states, events, i - 1, k) + Count(WakesItself(states[i - 1], events[i - 1], k))
  }

  function SpecWrites(events: seq<Event>, i: nat, k: Key): nat
    requires i <= |events|
  {
    if i == 0 then 0 else SpecWrites(events, i - 1, k) + Count(WritesSpec(events[i - 1], k))
  }

  lemma {:induction false} RevisionsAlwaysAgree(states: seq<State>, events: seq<Event>, i: nat, k: Key)
    requires Run(states, events) && i <= |events|
    ensures RevisionsAgree(states[i], k)
  {
    if i > 0 {
      RevisionsAlwaysAgree(states, events, i - 1, k);
      RevisionsStep(states[i - 1], events[i - 1], k);
      hide Enabled, After, RevisionsAgree;
    }
  }

  /** Over every run the controller's own writes pass the predicate at most once per specification a user wrote. */
  lemma {:induction false} SelfWakeupsBounded(states: seq<State>, events: seq<Event>, i: nat, k: Key)
    requires Run(states, events) && i <= |events|
    ensures SelfWakeups(states, events, i, k) + Undefaulted(states[i], k) <= SpecWrites(events, i, k)
  {
    if i > 0 {
      SelfWakeupsBounded(states, events, i - 1, k);
      RevisionsAlwaysAgree(states, events, i - 1, k);
      WakeupStep(states[i - 1], events[i - 1], k);
      hide Enabled, After, RevisionsAgree, WakesItself, Undefaulted, WritesSpec;
    }
  }

  // ---- all wakeups by the watch ----

  /** How often the specification changes along the versions that are pending. */
  function Changes(spec: Option<Spec>, pending: seq<Version>): nat
    decreases |pending|
  {
    if pending == [] then 0
    else Count(SpecOf(pending[0]) != spec) + Changes(SpecOf(pending[0]), pending[1..])
  }

  lemma {:induction false} ChangesOneMore(cached: Version, pending: seq<Version>, v: Version)
    ensures Changes(SpecOf(cached), pending + [v])
      == Changes(SpecOf(cached), pending) + Count(SpecOf(v) != SpecOf(Newest(cached, pending)))
    decreases |pending|
  {
    if pending == [] {
      assert [v][1..] == [];
    } else {
      assert (pending + [v])[1..] == pending[1..] + [v];
      ChangesOneMore(pending[0], pending[1..], v);
    }
  }

  /** Versions delivered as one event show at most the changes between them. */
  lemma {:induction false} ChangesSkipped(spec: Option<Spec>, pending: seq<Version>, n: nat)
    requires 0 < n <= |pending|
    ensures Count(SpecOf(pending[n - 1]) != spec) + Changes(SpecOf(pending[n - 1]), pending[n..])
      <= Changes(spec, pending)
    decreases n
  {
    if n > 1 {
      assert pending[1..][n - 2] == pending[n - 1] && pending[1..][n - 1..] == pending[n..];
      ChangesSkipped(SpecOf(pending[0]), pending[1..], n - 1);
    }
  }

  /** The changes that the watch still has to deliver. */
  function Outstanding(s: State, k: Key): nat {
    Changes(SpecIn(s.cache, k), Pending(s, k))
  }

  lemma {:induction false} DeliveryStep(s: State, e: Event, k: Key)
    requires Enabled(s, e) && InStep(s, k)
    ensures Count(SpecDelivered(s, e, k)) + Outstanding(After(s, e), k)
      <= Outstanding(s, k) + Count(WakesItself(s, e, k)) + Count(WritesSpec(e, k)) + Count(e == Delete(k))
  {
    var s', versions := After(s, e), Pending(s, k);
    VersionsStep(s, e, k);
    SpecChangedBy(s, e, k);
    if e.Deliver? && e.k == k {
      ChangesSkipped(SpecIn(s.cache, k), versions, e.n);
    } else if Pending(s', k) != versions {
      ChangesOneMore(VersionIn(s.cache, k), versions, VersionIn(s'.store, k));
    }
    hide After, Changes, WakesItself, WritesSpec, Pending;
  }

  /** Only the controller's own write, a user's write or a deletion changes the stored specification. */
  lemma {:induction false} SpecChangedBy(s: State, e: Event, k: Key)
    requires Enabled(s, e)
    ensures SpecIn(After(s, e).store, k) != SpecIn(s.store, k) ==>
      WakesItself(s, e, k) || WritesSpec(e, k) || e == Delete(k)
  {
    hide Handle, WithDefaults;
  }

  ghost function Deliveries(states: seq<State>, events: seq<Event>, i: nat, k: Key): nat
    requires Run(states, events) && i <= |events|
  {
    if i == 0 then 0 else Deliveries(states, events, i - 1, k) + Count(SpecDelivered(states[i - 1], events[i - 1], k))
  }

  ghost function Deletions(events: seq<Event>, i: nat, k: Key): nat
    requires i <= |events|
  {
    if i == 0 then 0 else Deletions(events, i - 1, k) + Count(events[i - 1] == Delete(k))
  }

  lemma {:induction false} DeliveriesFollowChanges(states: seq<State>, events: seq<Event>, i: nat, k: Key)
    requires Run(states, events) && i <= |events|
    ensures Deliveries(states, events, i, k) + Outstanding(states[i], k)
      <= SelfWakeups(states, events, i, k) + SpecWrites(events, i, k) + Deletions(events, i, k)
  {
    if i > 0 {
      DeliveriesFollowChanges(states, events, i - 1, k);
      AlwaysInStep(states, events, i - 1, k);
      DeliveryStep(states[i - 1], events[i - 1], k);
      hide Enabled, After, WakesItself, WritesSpec, SpecDelivered, Outstanding, InStep;
    }
  }

  /**
   The watch wakes the controller up at most twice per specification written and once per
   deletion, however late and in whatever portions it delivers, and no matter how often any
   status is stored.
   */
  lemma {:induction false} WatchWakeupsBounded(states: seq<State>, events: seq<Event>, i: nat, k: Key)
    requires Run(states, events) && i <= |events|
    ensures Deliveries(states, events, i, k) <= 2 * SpecWrites(events, i, k) + Deletions(events, i, k)
  {
    DeliveriesFollowChanges(states, events, i, k);
    SelfWakeupsBounded(states, events, i, k);
  }
}

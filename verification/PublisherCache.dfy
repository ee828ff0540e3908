/**
  The publisher cache under any interleaving of threads that publish. The second test under the lock looks at
  the iterator taken before locking, so it finds what the first test found; `anew` says whether it instead
  looks the key up again, which is a corrected variant and not what the code does.
*/
module PublisherCache {
  import opened Common

  type Thread = nat
  type Key = nat
  type Handle = nat

  datatype Pc =
    | Outside
    | Lookup(key: Key)
    | Acquire(key: Key)
    | Recheck(key: Key)
    | Insert(key: Key, pub: Handle)
    | Release(key: Key, result: Option<Handle>)
    | Put(key: Key, pub: Handle)

  /** A thread takes its next step; where it declares a publisher, `declared` is Zenoh's answer. */
  datatype Event = Publish(thread: Thread, key: Key) | Step(thread: Thread, declared: bool)

  /** `declared` holds every publisher Zenoh has declared, numbered from zero, with its key. */
  datatype State = State(cache: map<Key, Handle>, declared: seq<Key>, lock: Option<Thread>, pcs: seq<Pc>)

  function Start(threads: nat): State {
    State(map[], [], None, seq(threads, _ => Outside))
  }

  predicate Enabled(s: State, e: Event) {
    && e.thread < |s.pcs|
    && (e.Publish? <==> s.pcs[e.thread].Outside?)
    && (s.pcs[e.thread].Acquire? ==> s.lock.None?)
  }

  function At(s: State, t: Thread, pc: Pc): State
    requires t < |s.pcs|
  {
    s.(pcs := s.pcs[t := pc])
  }

  function Next(anew: bool, s: State, e: Event): State
    requires Enabled(s, e)
  {
    var t := e.thread;
    match s.pcs[t]
    case Outside => At(s, t, if e.Publish? then Lookup(e.key) else Outside)
    case Lookup(k) => At(s, t, if k in s.cache then Put(k, s.cache[k]) else Acquire(k))
    case Acquire(k) => At(s, t, Recheck(k)).(lock := Some(t))
    case Recheck(k) =>
      if anew && k in s.cache then At(s, t, Release(k, Some(s.cache[k])))
      else if e.Step? && e.declared then At(s, t, Insert(k, |s.declared|)).(declared := s.declared + [k])
      else At(s, t, Release(k, None))
    case Insert(k, h) => At(s, t, Release(k, Some(h))).(cache := s.cache[k := h])
    case Release(k, r) => At(s, t, if r.Some? then Put(k, r.value) else Outside).(lock := None)
    case Put(_, _) => At(s, t, Outside)
  }

  /** A publisher is declared for a key that is cached; `StaleMeansOvertaken` says how that comes about. */
  predicate Stale(anew: bool, s: State, e: Event) {
    && e.thread < |s.pcs| && s.pcs[e.thread].Recheck? && e.Step? && e.declared
    && !anew && s.pcs[e.thread].key in s.cache
  }

  ghost predicate IsRun(anew: bool, s: State, events: seq<Event>, t: State)
    decreases |events|
  {
    if events == [] then s == t
    else Enabled(s, events[0]) && IsRun(anew, Next(anew, s, events[0]), events[1..], t)
  }

  ghost predicate SomeStale(anew: bool, s: State, events: seq<Event>)
    decreases |events|
  {
    events != [] && Enabled(s, events[0])
    && (Stale(anew, s, events[0]) || SomeStale(anew, Next(anew, s, events[0]), events[1..]))
  }

  // ---------- what holds of both variants ----------

  predicate InCritical(pc: Pc) {
    pc.Recheck? || pc.Insert? || pc.Release?
  }

  predicate IsFor(s: State, h: Handle, k: Key) {
    h < |s.declared| && s.declared[h] == k
  }

  /** The publisher a thread is about to use was declared for the key it publishes under. */
  predicate UsesOwn(s: State, pc: Pc) {
    && (pc.Insert? || pc.Put? ==> IsFor(s, pc.pub, pc.key))
    && (pc.Release? && pc.result.Some? ==> IsFor(s, pc.result.value, pc.key))
  }

  /** A declared publisher is about to be cached, or its key is cached already. */
  predicate Accounted(s: State, h: Handle)
    requires h < |s.declared|
  {
    || s.declared[h] in s.cache
    || (s.lock.Some? && s.lock.value < |s.pcs| && s.pcs[s.lock.value] == Insert(s.declared[h], h))
  }

  ghost predicate Inv(s: State) {
    && (forall t: Thread :: t < |s.pcs| ==> (InCritical(s.pcs[t]) <==> s.lock == Some(t)))
    && (forall k :: k in s.cache ==> IsFor(s, s.cache[k], k))
    && (forall t: Thread :: t < |s.pcs| ==> UsesOwn(s, s.pcs[t]))
    && (forall h: Handle :: h < |s.declared| ==> Accounted(s, h))
  }

  lemma StepKeepsLock(anew: bool, s: State, e: Event, t: Thread)
    requires Inv(s) && Enabled(s, e) && t < |s.pcs|
    ensures InCritical(Next(anew, s, e).pcs[t]) <==> Next(anew, s, e).lock == Some(t)
  {
    hide IsFor, UsesOwn, Accounted;
    assert InCritical(s.pcs[e.thread]) <==> s.lock == Some(e.thread);
    assert InCritical(s.pcs[t]) <==> s.lock == Some(t);
  }

  lemma StepKeepsOwn(anew: bool, s: State, e: Event, t: Thread)
    requires Inv(s) && Enabled(s, e) && t < |s.pcs|
    ensures UsesOwn(Next(anew, s, e), Next(anew, s, e).pcs[t])
  {
    hide Accounted, InCritical;
    assert UsesOwn(s, s.pcs[t]);
  }

  lemma StepKeepsAccounted(anew: bool, s: State, e: Event, h: Handle)
    requires Inv(s) && Enabled(s, e) && h < |Next(anew, s, e).declared|
    ensures Accounted(Next(anew, s, e), h)
  {
    hide UsesOwn;
    assert InCritical(s.pcs[e.thread]) <==> s.lock == Some(e.thread);
    if h < |s.declared| { assert Accounted(s, h); }
  }

  lemma StepKeepsInv(anew: bool, s: State, e: Event)
    requires Inv(s) && Enabled(s, e)
    ensures Inv(Next(anew, s, e))
  {
    var s' := Next(anew, s, e);
    forall k | k in s'.cache
      ensures IsFor(s', s'.cache[k], k)
    {
      hide Accounted, InCritical;
      assert UsesOwn(s, s.pcs[e.thread]);
    }
    hide Next, InCritical, IsFor, UsesOwn, Accounted;
    forall t: Thread | t < |s'.pcs|
      ensures InCritical(s'.pcs[t]) <==> s'.lock == Some(t)
      ensures UsesOwn(s', s'.pcs[t])
    {
      assert |s'.pcs| == |s.pcs| by { StepKeepsThreads(anew, s, e); }
      StepKeepsLock(anew, s, e, t);
      StepKeepsOwn(anew, s, e, t);
    }
    forall h: Handle | h < |s'.declared|
      ensures Accounted(s', h)
    {
      StepKeepsAccounted(anew, s, e, h);
    }
  }

  lemma StepKeepsThreads(anew: bool, s: State, e: Event)
    requires Enabled(s, e)
    ensures |Next(anew, s, e).pcs| == |s.pcs|
  {
  }

  /** Each key has at most one declared publisher. */
  ghost predicate OnePerKey(s: State) {
    forall g: Handle, h: Handle :: g < |s.declared| && h < |s.declared| && s.declared[g] == s.declared[h] ==> g == h
  }

  /** A step keeps one publisher per key exactly when it does not declare for a cached key. */
  lemma StepKeepsOnePerKey(anew: bool, s: State, e: Event)
    requires Inv(s) && OnePerKey(s) && Enabled(s, e)
    ensures OnePerKey(Next(anew, s, e)) <==> !Stale(anew, s, e)
  {
    var s' := Next(anew, s, e);
    if Stale(anew, s, e) {
      var k := s.pcs[e.thread].key;
      assert IsFor(s, s.cache[k], k);
      assert s'.declared[s.cache[k]] == s'.declared[|s.declared|];
    } else if s'.declared != s.declared {
      var k := s.pcs[e.thread].key;
      forall h: Handle | h < |s.declared|
        ensures s.declared[h] != k
      {
        assert Accounted(s, h);
      }
    }
  }

  lemma StepKeepsDeclared(anew: bool, s: State, e: Event)
    requires Enabled(s, e)
    ensures OnePerKey(Next(anew, s, e)) ==> OnePerKey(s)
  {
    var s' := Next(anew, s, e);
    forall h: Handle | h < |s.declared|
      ensures h < |s'.declared| && s'.declared[h] == s.declared[h]
    {
    }
  }

  lemma {:induction false} DuplicatesStay(anew: bool, s: State, events: seq<Event>, t: State)
    requires IsRun(anew, s, events, t) && OnePerKey(t)
    ensures OnePerKey(s)
    decreases |events|
  {
    hide Next, Enabled, OnePerKey;
    if events == [] {
    } else {
      DuplicatesStay(anew, Next(anew, s, events[0]), events[1..], t);
      StepKeepsDeclared(anew, s, events[0]);
    }
  }

  /**
    After any run each key has at most one declared publisher exactly when no step of the run declared a
    publisher for a key cached since the first test; and every publisher in use was declared for its key.
  */
  lemma {:induction false} OnePublisherPerKey(anew: bool, s: State, events: seq<Event>, t: State)
    requires Inv(s) && OnePerKey(s) && IsRun(anew, s, events, t)
    ensures OnePerKey(t) <==> !SomeStale(anew, s, events)
    ensures Inv(t)
    decreases |events|
  {
    if events != [] {
      var s1 := Next(anew, s, events[0]);
      StepKeepsInv(anew, s, events[0]);
      StepKeepsOnePerKey(anew, s, events[0]);
      hide Next, Enabled, OnePerKey, Inv, Stale;
      if OnePerKey(s1) {
        OnePublisherPerKey(anew, s1, events[1..], t);
      } else {
        if OnePerKey(t) { DuplicatesStay(anew, s1, events[1..], t); }
        RunKeepsInv(anew, s1, events[1..], t);
      }
    }
  }

  lemma {:induction false} RunKeepsInv(anew: bool, s: State, events: seq<Event>, t: State)
    requires Inv(s) && IsRun(anew, s, events, t)
    ensures Inv(t)
    decreases |events|
  {
    hide Next, Enabled, Inv;
    if events == [] {
    } else {
      StepKeepsInv(anew, s, events[0]);
      RunKeepsInv(anew, Next(anew, s, events[0]), events[1..], t);
    }
  }

  /** With a fresh lookup no run declares twice: cache and declared publishers agree whenever the lock is free. */
  lemma FreshLookupAgrees(n: nat, events: seq<Event>, t: State)
    requires IsRun(true, Start(n), events, t)
    ensures OnePerKey(t)
    ensures t.lock.None? ==>
              forall h: Handle :: h < |t.declared| ==> t.declared[h] in t.cache && t.cache[t.declared[h]] == h
  {
    NeverStale(Start(n), events);
    OnePublisherPerKey(true, Start(n), events, t);
    if t.lock.None? {
      forall h: Handle | h < |t.declared|
        ensures t.declared[h] in t.cache && t.cache[t.declared[h]] == h
      {
        assert Accounted(t, h);
        assert IsFor(t, t.cache[t.declared[h]], t.declared[h]);
      }
    }
  }

  lemma {:induction false} NeverStale(s: State, events: seq<Event>)
    ensures !SomeStale(true, s, events)
    decreases |events|
  {
    if events != [] && Enabled(s, events[0]) {
      NeverStale(Next(true, s, events[0]), events[1..]);
    }
  }

  // ---------- when a step is stale ----------

  /** The thread has looked its key up, did not find it, and has not declared a publisher. */
  predicate Missed(pc: Pc, k: Key) {
    pc == Acquire(k) || pc == Recheck(k)
  }

  /** The thread has its publisher, or has failed, or is through. */
  predicate Decided(pc: Pc) {
    pc.Insert? || pc.Release? || pc.Put? || pc.Outside?
  }

  /** A step of thread t in which it looks key k up and does not find it. */
  predicate Misses(s: State, e: Event, t: Thread, k: Key) {
    e.thread == t && t < |s.pcs| && s.pcs[t] == Lookup(k) && k !in s.cache
  }

  /** A step of another thread in which it inserts key k. */
  predicate Inserts(s: State, e: Event, t: Thread, k: Key) {
    e.thread != t && e.thread < |s.pcs| && s.pcs[e.thread].Insert? && s.pcs[e.thread].key == k
  }

  ghost predicate OtherInserts(anew: bool, s: State, events: seq<Event>, t: Thread, k: Key)
    decreases |events|
  {
    && events != [] && Enabled(s, events[0])
    && (Inserts(s, events[0], t, k) || OtherInserts(anew, Next(anew, s, events[0]), events[1..], t, k))
  }

  /** Thread t starts no publish in these events. */
  predicate NoPublish(events: seq<Event>, t: Thread) {
    forall i :: 0 <= i < |events| && events[i].thread == t ==> !events[i].Publish?
  }

  /** Thread t looks key k up in vain, starts no publish from then on, and another thread inserts k after that. */
  ghost predicate InsertedSinceMiss(anew: bool, s: State, events: seq<Event>, t: Thread, k: Key)
    decreases |events|
  {
    && events != [] && Enabled(s, events[0])
    && var s1 := Next(anew, s, events[0]);
       || (Misses(s, events[0], t, k) && NoPublish(events[1..], t) && OtherInserts(anew, s1, events[1..], t, k))
       || InsertedSinceMiss(anew, s1, events[1..], t, k)
  }

  lemma OneStep(anew: bool, s: State, e: Event, t: Thread)
    requires Enabled(s, e) && t < |s.pcs|
    ensures var s' := Next(anew, s, e);
            && |s'.pcs| == |s.pcs|
            && (e.thread != t ==> s'.pcs[t] == s.pcs[t])
            && (e.thread == t && Decided(s.pcs[t]) && !e.Publish? ==> Decided(s'.pcs[t]))
            && (e.thread == t ==> forall k :: Missed(s'.pcs[t], k) ==> Missed(s.pcs[t], k) || Misses(s, e, t, k))
            && (forall k :: k in s.cache ==> k in s'.cache)
            && (forall k :: k in s'.cache && k !in s.cache ==> s.pcs[e.thread].Insert? && s.pcs[e.thread].key == k)
            && (e.thread == t && !Decided(s.pcs[t]) && !Decided(s'.pcs[t]) ==> s'.pcs[t].key == s.pcs[t].key)
            && (forall k :: e.thread == t && Misses(s, e, t, k) ==> k !in s'.cache)
  {
  }

  lemma {:induction false} StaysDecided(anew: bool, s: State, events: seq<Event>, z: State, t: Thread)
    requires IsRun(anew, s, events, z) && NoPublish(events, t) && t < |s.pcs| && Decided(s.pcs[t])
    ensures t < |z.pcs| && Decided(z.pcs[t])
    decreases |events|
  {
    if events == [] {
    } else {
      OneStep(anew, s, events[0], t);
      assert events[0].thread == t ==> !events[0].Publish?;
      hide Next, Enabled;
      StaysDecided(anew, Next(anew, s, events[0]), events[1..], z, t);
    }
  }

  /** A key that was missed and is cached when the thread is still about to declare was inserted by another thread. */
  lemma {:induction false} CachedWhileWaiting(anew: bool, s: State, events: seq<Event>, z: State, t: Thread, k: Key)
    requires IsRun(anew, s, events, z) && NoPublish(events, t) && t < |s.pcs| && t < |z.pcs|
    requires Missed(s.pcs[t], k) && k !in s.cache && Missed(z.pcs[t], k) && k in z.cache
    ensures OtherInserts(anew, s, events, t, k)
    decreases |events|
  {
    if events == [] {
    } else {
      var e, s1 := events[0], Next(anew, s, events[0]);
      OneStep(anew, s, e, t);
      assert e.thread == t ==> !e.Publish?;
      if Decided(s1.pcs[t]) {
        StaysDecided(anew, s1, events[1..], z, t);
      } else if k !in s1.cache {
        hide Next, Enabled;
        CachedWhileWaiting(anew, s1, events[1..], z, t, k);
      }
    }
  }

  lemma {:induction false} MissedBefore(anew: bool, s: State, events: seq<Event>, z: State, t: Thread, k: Key)
    requires IsRun(anew, s, events, z) && t < |s.pcs| && t < |z.pcs| && Missed(z.pcs[t], k) && k in z.cache
    ensures InsertedSinceMiss(anew, s, events, t, k) || (Missed(s.pcs[t], k) && NoPublish(events, t))
    decreases |events|
  {
    if events == [] {
    } else {
      var e, s1 := events[0], Next(anew, s, events[0]);
      OneStep(anew, s, e, t);
      MissedBefore(anew, s1, events[1..], z, t, k);
      if !InsertedSinceMiss(anew, s1, events[1..], t, k) {
        if e.thread == t && Misses(s, e, t, k) {
          CachedWhileWaiting(anew, s1, events[1..], z, t, k);
        }
      }
    }
  }

  /**
    Over every run: a thread that is about to declare a publisher for a key that is cached looked the key up before
    another thread inserted it.
  */
  lemma StaleMeansOvertaken(anew: bool, n: nat, events: seq<Event>, s: State, t: Thread)
    requires IsRun(anew, Start(n), events, s) && t < |s.pcs| && s.pcs[t].Recheck? && s.pcs[t].key in s.cache
    ensures InsertedSinceMiss(anew, Start(n), events, t, s.pcs[t].key)
  {
    SameThreads(anew, Start(n), events, s);
    MissedBefore(anew, Start(n), events, s, t, s.pcs[t].key);
  }

  lemma {:induction false} SameThreads(anew: bool, s: State, events: seq<Event>, z: State)
    requires IsRun(anew, s, events, z)
    ensures |z.pcs| == |s.pcs|
    decreases |events|
  {
    if events == [] {
    } else {
      SameThreads(anew, Next(anew, s, events[0]), events[1..], z);
    }
  }

  // ---------- one thread ----------

  ghost predicate Alone(s: State) {
    |s.pcs| == 1 && (s.pcs[0].Acquire? || s.pcs[0].Recheck? || s.pcs[0].Insert? ==> s.pcs[0].key !in s.cache)
  }

  lemma {:induction false} AloneNeverStale(s: State, events: seq<Event>)
    requires Alone(s)
    ensures !SomeStale(false, s, events)
    decreases |events|
  {
    if events == [] {
    } else if Enabled(s, events[0]) {
      AloneNeverStale(Next(false, s, events[0]), events[1..]);
    }
  }

  /** A single thread never declares twice, whatever and however often it publishes. */
  lemma OneThreadDeclaresOnce(events: seq<Event>, t: State)
    requires IsRun(false, Start(1), events, t)
    ensures OnePerKey(t)
  {
    AloneNeverStale(Start(1), events);
    OnePublisherPerKey(false, Start(1), events, t);
  }

  // ---------- what a publish comes to ----------

  /** Where a thread comes out of a publish, it has put, or Zenoh has refused the declaration. */
  lemma PublishEnds(anew: bool, s: State, e: Event)
    requires Enabled(s, e) && !s.pcs[e.thread].Outside?
    ensures var pc, next := s.pcs[e.thread], Next(anew, s, e).pcs[e.thread];
            && (next.Outside? ==> pc.Put? || (pc.Release? && pc.result.None?))
            && (next.Release? && next.result.None? ==> pc.Recheck? && !e.declared)
            && (pc.Recheck? && !e.declared && !(anew && pc.key in s.cache) ==> next == Release(pc.key, None))
            && (pc.Insert? ==> next == Release(pc.key, Some(pc.pub)))
            && (pc.Release? && pc.result.Some? ==> next == Put(pc.key, pc.result.value))
  {
  }

  predicate ByOthers(events: seq<Event>, t: Thread) {
    forall i :: 0 <= i < |events| ==> events[i].thread != t
  }

  lemma {:induction false} LookerWaits(anew: bool, s: State, events: seq<Event>, z: State, t: Thread, k: Key)
    requires IsRun(anew, s, events, z) && ByOthers(events, t) && t < |s.pcs| && k in s.cache
    ensures t < |z.pcs| && z.pcs[t] == s.pcs[t] && k in z.cache
    ensures |s.declared| <= |z.declared| && z.declared[..|s.declared|] == s.declared
    decreases |events|
  {
    if events == [] {
    } else {
      var s1 := Next(anew, s, events[0]);
      assert events[0].thread != t;
      OneStep(anew, s, events[0], t);
      assert |s.declared| <= |s1.declared| && s1.declared[..|s.declared|] == s.declared;
      hide Next, Enabled;
      LookerWaits(anew, s1, events[1..], z, t, k);
      assert z.declared[..|s.declared|] == z.declared[..|s1.declared|][..|s.declared|];
    }
  }

  /**
    Over every run: a publish that starts while its key is cached goes, whatever the other threads do before it looks
    the key up and before it puts, through the cached publisher, the one that was cached when it started unless a key
    was declared twice since, and declares none.
  */
  lemma CachedPublishPuts(anew: bool, n: nat, events: seq<Event>, s: State, t: Thread, k: Key,
                          first: seq<Event>, y: State, go: bool, second: seq<Event>, z: State)
    requires IsRun(anew, Start(n), events, s) && Enabled(s, Publish(t, k)) && k in s.cache
    requires IsRun(anew, Next(anew, s, Publish(t, k)), first, y) && ByOthers(first, t)
    requires Enabled(y, Step(t, go)) && IsRun(anew, Next(anew, y, Step(t, go)), second, z) && ByOthers(second, t)
    ensures k in y.cache && Next(anew, y, Step(t, go)).declared == y.declared
    ensures t < |z.pcs| && z.pcs[t] == Put(k, y.cache[k]) && IsFor(z, y.cache[k], k)
    ensures OnePerKey(z) ==> y.cache[k] == s.cache[k]
    ensures forall last :: Enabled(z, Step(t, last)) ==>
              Next(anew, z, Step(t, last)).declared == z.declared && Next(anew, z, Step(t, last)).pcs[t].Outside?
  {
    var s1, y1 := Next(anew, s, Publish(t, k)), Next(anew, y, Step(t, go));
    StartInv(n);
    RunKeepsInv(anew, Start(n), events, s);
    StepKeepsInv(anew, s, Publish(t, k));
    RunKeepsInv(anew, s1, first, y);
    StepKeepsInv(anew, y, Step(t, go));
    RunKeepsInv(anew, y1, second, z);
    LookerWaits(anew, s1, first, y, t, k);
    LookerWaits(anew, y1, second, z, t, k);
    assert UsesOwn(z, z.pcs[t]);
    assert IsFor(s, s.cache[k], k) && IsFor(y, y.cache[k], k);
    if OnePerKey(z) {
      assert z.declared[s.cache[k]] == z.declared[..|y.declared|][..|s.declared|][s.cache[k]];
      assert z.declared[y.cache[k]] == z.declared[..|y.declared|][y.cache[k]];
    }
  }

  lemma StartInv(n: nat)
    ensures Inv(Start(n)) && OnePerKey(Start(n))
  {
  }

  // ---------- two publishers for one key ----------

  /** As written, two threads that publish under one key can both declare a publisher for it. */
  lemma StaleIsReachable(k: Key)
    ensures exists events, t :: IsRun(false, Start(2), events, t) && !OnePerKey(t)
  {
    var go0, go1 := Step(0, true), Step(1, true);
    var s1 := Two(map[], [], None, Lookup(k), Outside);
    var s2 := Two(map[], [], None, Lookup(k), Lookup(k));
    var s3 := Two(map[], [], None, Acquire(k), Lookup(k));
    var s4 := Two(map[], [], None, Acquire(k), Acquire(k));
    var es, t := FirstDeclares(k);
    hide IsRun, OnePerKey;
    Then(s3, go1, s4, es, t);
    es := [go1] + es;
    Then(s2, go0, s3, es, t);
    es := [go0] + es;
    Then(s1, Publish(1, k), s2, es, t);
    es := [Publish(1, k)] + es;
    Then(Two(map[], [], None, Outside, Outside), Publish(0, k), s1, es, t);
    assert Start(2) == Two(map[], [], None, Outside, Outside);
  }

  /** Both threads have found the key missing; the first declares, caches and leaves. */
  lemma FirstDeclares(k: Key) returns (es: seq<Event>, t: State)
    ensures IsRun(false, Two(map[], [], None, Acquire(k), Acquire(k)), es, t) && !OnePerKey(t)
  {
    var go0 := Step(0, true);
    var s4 := Two(map[], [], None, Acquire(k), Acquire(k));
    var s5 := Two(map[], [], Some(0), Recheck(k), Acquire(k));
    var s6 := Two(map[], [k], Some(0), Insert(k, 0), Acquire(k));
    var s7 := Two(map[k := 0], [k], Some(0), Release(k, Some(0)), Acquire(k));
    var s8 := Two(map[k := 0], [k], None, Put(k, 0), Acquire(k));
    es, t := SecondDeclares(k);
    hide IsRun, OnePerKey;
    Then(s7, go0, s8, es, t);
    es := [go0] + es;
    Then(s6, go0, s7, es, t);
    es := [go0] + es;
    Then(s5, go0, s6, es, t);
    es := [go0] + es;
    Then(s4, go0, s5, es, t);
    es := [go0] + es;
  }

  /** The second enters with its old iterator and declares again. */
  lemma SecondDeclares(k: Key) returns (es: seq<Event>, t: State)
    ensures IsRun(false, Two(map[k := 0], [k], None, Put(k, 0), Acquire(k)), es, t) && !OnePerKey(t)
  {
    var go1 := Step(1, true);
    var s8 := Two(map[k := 0], [k], None, Put(k, 0), Acquire(k));
    var s9 := Two(map[k := 0], [k], Some(1), Put(k, 0), Recheck(k));
    t := Two(map[k := 0], [k, k], Some(1), Put(k, 0), Insert(k, 1));
    assert t.declared[0] == t.declared[1];
    assert IsRun(false, t, [], t);
    Then(s9, go1, t, [], t);
    es := [go1] + [];
    Then(s8, go1, s9, es, t);
    es := [go1] + es;
  }

  function Two(cache: map<Key, Handle>, declared: seq<Key>, lock: Option<Thread>, pc0: Pc, pc1: Pc): State {
    State(cache, declared, lock, [pc0, pc1])
  }

  /** A step between two states of two threads, and then the rest of the run. */
  lemma Then(s: State, e: Event, s': State, es: seq<Event>, t: State)
    requires |s.pcs| == |s'.pcs| == 2 && Enabled(s, e)
    requires var n := Next(false, s, e);
             && n.cache == s'.cache && n.declared == s'.declared && n.lock == s'.lock
             && n.pcs[0] == s'.pcs[0] && n.pcs[1] == s'.pcs[1]
    requires IsRun(false, s', es, t)
    ensures IsRun(false, s, [e] + es, t)
  {
    assert Next(false, s, e).pcs == s'.pcs;
    assert ([e] + es)[1..] == es;
  }
}

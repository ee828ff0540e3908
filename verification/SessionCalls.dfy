/** What a call of the session manager does when nothing interrupts it, and why that is the micro-step machine. */
module SessionCalls {
  import opened Common
  import S = Session

  datatype Shared = Shared(refCount: nat, session: Option<S.SessionId>, opens: nat)

  function Init(x: Shared, opening: S.Opening): (Shared, UCode) {
    if x.refCount > 0 then
      (x.(refCount := x.refCount + 1), OK)
    else
      match opening
      case Opened => (Shared(1, Some(x.opens), x.opens + 1), OK)
      case OpenFailed => (x.(session := None), INTERNAL)
      case ConfigFailed => (x, INTERNAL)
  }

  function Term(x: Shared): Shared {
    if x.refCount == 0 then x
    else if x.refCount == 1 then x.(refCount := 0, session := None)
    else x.(refCount := x.refCount - 1)
  }

  function GetSession(x: Shared): Option<Option<S.SessionId>> {
    if x.refCount > 0 then Some(x.session) else None
  }

  // ---------- one thread, uninterrupted ----------

  /** Thread t takes steps, and nobody else does, until its call is over; `opening` is what a `z_open` would do. */
  ghost predicate Completes(s: S.State, t: S.Thread, opening: S.Opening, es: seq<S.Event>, z: S.State)
    decreases |es|
  {
    && t < |s.pcs|
    && if es == [] then s.pcs[t].Idle? && s == z
       else && !s.pcs[t].Idle?
            && es[0].thread == t && (es[0].action.Open? ==> es[0].action.opening == opening)
            && S.Enabled(s, es[0])
            && Completes(S.Next(s, es[0]), t, opening, es[1..], z)
  }

  /** The call has a completion, and every completion of it ends in state z. */
  ghost predicate Yields(s: S.State, t: S.Thread, start: S.Action, opening: S.Opening, z: S.State) {
    var e := S.Event(t, start);
    && S.Enabled(s, e)
    && (exists es :: Completes(S.Next(s, e), t, opening, es, z))
    && (forall es, y :: Completes(S.Next(s, e), t, opening, es, y) ==> y == z)
  }

  /** A thread takes a step, and then the rest of its call. */
  lemma Then(s: S.State, t: S.Thread, opening: S.Opening, e: S.Event, es: seq<S.Event>, z: S.State)
    requires t < |s.pcs| && !s.pcs[t].Idle? && e.thread == t && (e.action.Open? ==> e.action.opening == opening)
    requires S.Enabled(s, e) && Completes(S.Next(s, e), t, opening, es, z)
    ensures Completes(s, t, opening, [e] + es, z)
  {
    assert ([e] + es)[1..] == es;
  }

  /** An uninterrupted call has one completion: each step is determined by where the thread is. */
  lemma {:induction false} OneCompletion(s: S.State, t: S.Thread, opening: S.Opening,
                                         es: seq<S.Event>, z: S.State, fs: seq<S.Event>, y: S.State)
    requires Completes(s, t, opening, es, z) && Completes(s, t, opening, fs, y)
    ensures es == fs && z == y
    decreases |es|
  {
    if es == [] {
    } else {
      assert es[0].action == fs[0].action;
      hide S.Next;
      OneCompletion(S.Next(s, es[0]), t, opening, es[1..], z, fs[1..], y);
      assert es == [es[0]] + es[1..] && fs == [fs[0]] + fs[1..];
    }
  }

  lemma YieldsOnce(s: S.State, t: S.Thread, start: S.Action, opening: S.Opening, es: seq<S.Event>, z: S.State)
    requires S.Enabled(s, S.Event(t, start)) && Completes(S.Next(s, S.Event(t, start)), t, opening, es, z)
    ensures Yields(s, t, start, opening, z)
  {
    var s1 := S.Next(s, S.Event(t, start));
    forall fs, y | Completes(s1, t, opening, fs, y)
      ensures y == z
    {
      OneCompletion(s1, t, opening, es, z, fs, y);
    }
  }

  predicate Agrees(s: S.State, x: Shared) {
    s.refCount == x.refCount && s.session == x.session && s.opens == x.opens
  }

  lemma AtAt(s: S.State, t: S.Thread, p: S.Pc, q: S.Pc)
    requires t < |s.pcs|
    ensures S.At(S.At(s, t, p), t, q) == S.At(s, t, q)
    ensures S.At(s, t, s.pcs[t]) == s
  {
  }

  /** The state with the shared part replaced and the thread credited. */
  function With(s: S.State, x: Shared, t: S.Thread, credit: int): S.State
    requires t < |s.credits|
  {
    s.(refCount := x.refCount, session := x.session, opens := x.opens, credits := s.credits[t := credit])
  }

  predicate Ready(s: S.State, t: S.Thread, x: Shared) {
    |s.pcs| == |s.credits| && t < |s.pcs| && s.pcs[t].Idle? && s.lock.None? && Agrees(s, x)
  }

  /** The state after a call of `init` or `term` that nothing interrupted. */
  function AfterInit(s: S.State, t: S.Thread, x: Shared, opening: S.Opening): S.State
    requires t < |s.credits|
  {
    var (y, code) := Init(x, opening);
    With(s, y, t, s.credits[t] + if code == OK then 1 else 0)
  }

  function AfterTerm(s: S.State, t: S.Thread, x: Shared): S.State
    requires t < |s.credits|
  {
    With(s, Term(x), t, s.credits[t] - if x.refCount > 0 then 1 else 0)
  }

  /**
    `init` alone: the micro-steps of one thread that nobody interrupts do to the shared state exactly what
    the method does, credit the thread exactly on success, and leave everything else as it was.
  */
  lemma InitAlone(s: S.State, t: S.Thread, x: Shared, opening: S.Opening)
    requires Ready(s, t, x)
    ensures Yields(s, t, S.StartInit, opening, AfterInit(s, t, x, opening))
  {
    var (y, code) := Init(x, opening);
    var target := AfterInit(s, t, x, opening);
    var go, s1 := S.Event(t, S.Go), S.At(s, t, S.InitCheck);
    assert Completes(target, t, opening, [], target);
    AtAt(target, t, S.InitFastAdd, S.Idle);
    if x.refCount > 0 {
      AtAt(s, t, S.InitCheck, S.InitFastAdd);
      AtAt(s, t, S.InitFastAdd, S.Idle);
      Then(S.At(s, t, S.InitFastAdd), t, opening, go, [], target);
      Then(s1, t, opening, go, [go], target);
      YieldsOnce(s, t, S.StartInit, opening, [go] + [go], target);
    } else {
      var held := s.(lock := Some(t));
      AtAt(s, t, S.InitCheck, S.InitLock);
      AtAt(s, t, S.InitLock, S.InitRecheck);
      AtAt(held, t, S.InitRecheck, S.InitOpen);
      var rest := InitFromOpen(s, t, x, opening);
      hide Completes;
      Then(S.At(held, t, S.InitRecheck), t, opening, go, rest, target);
      Then(S.At(s, t, S.InitLock), t, opening, go, [go] + rest, target);
      Then(s1, t, opening, go, [go] + ([go] + rest), target);
      YieldsOnce(s, t, S.StartInit, opening, [go] + ([go] + ([go] + rest)), target);
    }
  }

  lemma InitFromOpen(s: S.State, t: S.Thread, x: Shared, opening: S.Opening) returns (es: seq<S.Event>)
    requires Ready(s, t, x) && x.refCount == 0
    ensures Completes(S.At(s.(lock := Some(t)), t, S.InitOpen), t, opening, es, AfterInit(s, t, x, opening))
  {
    var (y, code) := Init(x, opening);
    var target := AfterInit(s, t, x, opening);
    var go, open := S.Event(t, S.Go), S.Event(t, S.Open(opening));
    var s0 := S.At(s.(lock := Some(t)), t, S.InitOpen);
    var last := S.At(target.(lock := Some(t)), t, S.InitUnlock(code));
    AtAt(target, t, S.InitUnlock(code), S.Idle);
    assert Completes(target, t, opening, [], target);
    Then(last, t, opening, go, [], target);
    if code == OK {
      var s1 := S.At(s.(lock := Some(t), session := y.session, opens := y.opens), t, S.InitAdd);
      assert S.Next(s0, open) == s1 by { AtAt(s.(lock := Some(t)), t, S.InitOpen, S.InitAdd); }
      assert S.Next(s1, go) == last by { AtAt(target.(lock := Some(t)), t, S.InitAdd, S.InitUnlock(OK)); }
      Then(s1, t, opening, go, [go], target);
      Then(s0, t, opening, open, [go] + [go], target);
      es := [open] + ([go] + [go]);
    } else {
      assert s.credits[t := s.credits[t]] == s.credits;
      assert S.Next(s0, open) == last by { AtAt(s.(lock := Some(t)), t, S.InitOpen, S.InitUnlock(code)); }
      Then(s0, t, opening, open, [go], target);
      es := [open] + [go];
    }
  }

  /** `term` alone, likewise: the thread is debited exactly when the count was positive. */
  lemma TermAlone(s: S.State, t: S.Thread, x: Shared, opening: S.Opening)
    requires Ready(s, t, x)
    ensures Yields(s, t, S.StartTerm, opening, AfterTerm(s, t, x))
  {
    var go, target := S.Event(t, S.Go), AfterTerm(s, t, x);
    AtAt(s, t, S.TermLock, S.TermCheck);
    var rest := TermFromCheck(s, t, x, opening);
    Then(S.At(s, t, S.TermLock), t, opening, go, rest, target);
    YieldsOnce(s, t, S.StartTerm, opening, [go] + rest, target);
  }

  lemma TermFromCheck(s: S.State, t: S.Thread, x: Shared, opening: S.Opening) returns (es: seq<S.Event>)
    requires Ready(s, t, x)
    ensures Completes(S.At(s.(lock := Some(t)), t, S.TermCheck), t, opening, es, AfterTerm(s, t, x))
  {
    var go, target, held := S.Event(t, S.Go), AfterTerm(s, t, x), s.(lock := Some(t));
    var last := S.At(target.(lock := Some(t)), t, S.TermUnlock);
    if x.refCount == 0 {
      AtAt(target, t, S.TermUnlock, S.Idle);
      assert Completes(target, t, opening, [], target);
      Then(last, t, opening, go, [], target);
      assert s.credits[t := s.credits[t]] == s.credits;
      AtAt(held, t, S.TermCheck, S.TermUnlock);
      es := [go];
    } else {
      var less := held.(refCount := held.refCount - 1, credits := held.credits[t := held.credits[t] - 1]);
      var tail := TermFromReadBack(s, t, x, less, opening);
      hide Completes;
      AtAt(held, t, S.TermCheck, S.TermSub);
      AtAt(less, t, S.TermSub, S.TermReadBack);
      Then(S.At(held, t, S.TermSub), t, opening, go, tail, target);
      es := [go] + tail;
    }
    Then(S.At(held, t, S.TermCheck), t, opening, go, es, target);
    es := [go] + es;
  }

  lemma TermFromReadBack(s: S.State, t: S.Thread, x: Shared, less: S.State, opening: S.Opening)
    returns (es: seq<S.Event>)
    requires Ready(s, t, x) && x.refCount > 0
    requires less == s.(lock := Some(t), refCount := s.refCount - 1, credits := s.credits[t := s.credits[t] - 1])
    ensures Completes(S.At(less, t, S.TermReadBack), t, opening, es, AfterTerm(s, t, x))
  {
    var go, target := S.Event(t, S.Go), AfterTerm(s, t, x);
    var last := S.At(target.(lock := Some(t)), t, S.TermUnlock);
    AtAt(target, t, S.TermUnlock, S.Idle);
    assert Completes(target, t, opening, [], target);
    Then(last, t, opening, go, [], target);
    es := [go];
    if x.refCount == 1 {
      AtAt(less, t, S.TermReadBack, S.TermClose);
      AtAt(target.(lock := Some(t)), t, S.TermClose, S.TermUnlock);
      Then(S.At(less, t, S.TermClose), t, opening, go, es, target);
      es := [go] + es;
    } else {
      AtAt(less, t, S.TermReadBack, S.TermUnlock);
    }
    Then(S.At(less, t, S.TermReadBack), t, opening, go, es, target);
    es := [go] + es;
  }

  // ---------- any interleaving without the race ----------

  /** The shared state, with every call counted from the step at which it takes effect. */
  function Abs(s: S.State): Shared
    requires 0 <= s.refCount
  {
    var pc := S.HolderPc(s);
    if pc.TermClose? then Shared(0, None, s.opens)
    else Shared(s.refCount + (if pc.TermReadBack? || pc.InitAdd? then 1 else 0), s.session, s.opens)
  }

  datatype Effect = Nothing | DoesInit(opening: S.Opening) | DoesTerm

  /** The step of each call at which it takes effect. */
  function EffectOf(s: S.State, e: S.Event): Effect
    requires S.Enabled(s, e)
  {
    match s.pcs[e.thread]
    case InitFastAdd => DoesInit(S.Opened)
    case InitRecheck => if s.refCount == 0 then Nothing else DoesInit(S.Opened)
    case InitOpen => DoesInit(e.action.opening)
    case TermCheck => if 0 < s.refCount then Nothing else DoesTerm
    case TermReadBack => DoesTerm
    case _ => Nothing
  }

  function Apply(x: Shared, effect: Effect): Shared {
    match effect
    case Nothing => x
    case DoesInit(opening) => Init(x, opening).0
    case DoesTerm => Term(x)
  }

  /**
    Every step but the race does nothing to the shared state or is one whole call of `init` or `term`; and what
    `init` and `getSession` return is what the call returns in the state where it takes effect.
  */
  lemma StepIsCall(s: S.State, e: S.Event)
    requires S.Usable(s) && S.Enabled(s, e) && !S.Races(s, e)
    ensures 0 <= S.Next(s, e).refCount && Abs(S.Next(s, e)) == Apply(Abs(s), EffectOf(s, e))
    ensures var pc, next := s.pcs[e.thread], S.Next(s, e).pcs[e.thread];
            && (pc.InitOpen? && next.InitUnlock? ==> next.code == Init(Abs(s), e.action.opening).1)
            && (pc.GetCheck? && next.GetUnlock? ==> next.result == GetSession(Abs(s)))
            && (pc.GetRead? ==> next == S.GetUnlock(GetSession(Abs(s))))
  {
    S.StepKeepsUsable(s, e);
    if s.pcs[e.thread].InitFastAdd? { assert S.FastAddPending(s); }
    hide S.Sum, S.FastAddPending;
  }

  /** The calls that take effect during a run, in order. */
  function EffectsOf(s: S.State, events: seq<S.Event>): seq<Effect>
    decreases |events|
  {
    if events == [] || !S.Enabled(s, events[0]) then []
    else [EffectOf(s, events[0])] + EffectsOf(S.Next(s, events[0]), events[1..])
  }

  function ApplyAll(x: Shared, effects: seq<Effect>): Shared
    decreases |effects|
  {
    if effects == [] then x else ApplyAll(Apply(x, effects[0]), effects[1..])
  }

  /** Every run without the race does to the shared state what its calls do one after the other. */
  lemma {:induction false} RaceFreeRunsAreCalls(s: S.State, events: seq<S.Event>, t: S.State)
    requires S.Usable(s) && S.RaceFree(s, events, t)
    ensures 0 <= t.refCount && Abs(t) == ApplyAll(Abs(s), EffectsOf(s, events))
    decreases |events|
  {
    if events == [] {
    } else {
      var s1, effects := S.Next(s, events[0]), EffectsOf(s, events);
      StepIsCall(s, events[0]);
      S.StepKeepsUsable(s, events[0]);
      assert effects[1..] == EffectsOf(s1, events[1..]);
      hide S.Usable, S.Next, S.Enabled, S.Races, Abs, Apply, EffectOf;
      RaceFreeRunsAreCalls(s1, events[1..], t);
    }
  }
}

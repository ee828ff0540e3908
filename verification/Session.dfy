/**
  The session manager under any interleaving of any number of threads. Every read or write of the atomic
  counter, every acquisition and release of the mutex and every call into Zenoh is a step of its own.
*/
module Session {
  import opened Common

  type Thread = nat
  type SessionId = nat

  datatype Pc =
    | Idle
    // init
    | InitCheck | InitLock | InitRecheck | InitOpen | InitAdd | InitUnlock(code: UCode) | InitFastAdd
    // term
    | TermLock | TermCheck | TermSub | TermReadBack | TermClose | TermUnlock
    // getSession
    | GetLock | GetCheck | GetRead | GetUnlock(result: Option<Option<SessionId>>)

  /** What becomes of an attempt to open a session. */
  datatype Opening = Opened | OpenFailed | ConfigFailed

  datatype Action = StartInit | StartTerm | StartGet | Open(opening: Opening) | Go

  datatype Event = Event(thread: Thread, action: Action)

  /**
    `session` is empty while no session is open; sessions are numbered by `opens`. `credits[t]` is how
    often thread t has incremented the counter minus how often it has decremented it.
  */
  datatype State = State(
    refCount: int,
    session: Option<SessionId>,
    opens: nat,
    lock: Option<Thread>,
    pcs: seq<Pc>,
    credits: seq<int>)

  function Start(threads: nat): State {
    State(0, None, 0, None, seq(threads, _ => Idle), seq(threads, _ => 0))
  }

  predicate Enabled(s: State, e: Event) {
    && e.thread < |s.pcs| == |s.credits|
    && match s.pcs[e.thread]
       case Idle => e.action.StartInit? || e.action.StartTerm? || e.action.StartGet?
       case InitLock => e.action.Go? && s.lock.None?
       case TermLock => e.action.Go? && s.lock.None?
       case GetLock => e.action.Go? && s.lock.None?
       case InitOpen => e.action.Open?
       case _ => e.action.Go?
  }

  function At(s: State, t: Thread, pc: Pc): State
    requires t < |s.pcs|
  {
    s.(pcs := s.pcs[t := pc])
  }

  /** The counter changes by `d`, on behalf of thread `t`. */
  function Count(s: State, t: Thread, d: int): State
    requires t < |s.credits|
  {
    s.(refCount := s.refCount + d, credits := s.credits[t := s.credits[t] + d])
  }

  function Next(s: State, e: Event): State
    requires Enabled(s, e)
  {
    var t := e.thread;
    match s.pcs[t]
    case Idle => At(s, t, if e.action.StartInit? then InitCheck else if e.action.StartTerm? then TermLock else GetLock)
    case InitCheck => At(s, t, if s.refCount == 0 then InitLock else InitFastAdd)
    case InitLock => At(s, t, InitRecheck).(lock := Some(t))
    case InitRecheck => At(s, t, if s.refCount == 0 then InitOpen else InitAdd)
    case InitOpen =>
      (match e.action.opening
       case Opened => At(s, t, InitAdd).(session := Some(s.opens), opens := s.opens + 1)
       case OpenFailed => At(s, t, InitUnlock(INTERNAL)).(session := None)
       case ConfigFailed => At(s, t, InitUnlock(INTERNAL)))
    case InitAdd => At(Count(s, t, 1), t, InitUnlock(OK))
    case InitUnlock(_) => At(s, t, Idle).(lock := None)
    case InitFastAdd => At(Count(s, t, 1), t, Idle)
    case TermLock => At(s, t, TermCheck).(lock := Some(t))
    case TermCheck => At(s, t, if 0 < s.refCount then TermSub else TermUnlock)
    case TermSub => At(Count(s, t, -1), t, TermReadBack)
    case TermReadBack => At(s, t, if s.refCount == 0 then TermClose else TermUnlock)
    case TermClose => At(s, t, TermUnlock).(session := None)
    case TermUnlock => At(s, t, Idle).(lock := None)
    case GetLock => At(s, t, GetCheck).(lock := Some(t))
    case GetCheck => At(s, t, if 0 < s.refCount then GetRead else GetUnlock(None))
    case GetRead => At(s, t, GetUnlock(Some(s.session)))
    case GetUnlock(_) => At(s, t, Idle).(lock := None)
  }

  ghost predicate IsRun(s: State, events: seq<Event>, t: State)
    decreases |events|
  {
    if events == [] then s == t else Enabled(s, events[0]) && IsRun(Next(s, events[0]), events[1..], t)
  }

  // ---------- what holds of every run ----------

  predicate InCritical(pc: Pc) {
    !pc.Idle? && !pc.InitCheck? && !pc.InitLock? && !pc.InitFastAdd? && !pc.TermLock? && !pc.GetLock?
  }

  function Sum(s: seq<int>): int {
    if s == [] then 0 else s[0] + Sum(s[1..])
  }

  lemma {:induction false} SumUpdate(s: seq<int>, i: nat, v: int)
    requires i < |s|
    ensures Sum(s[i := v]) == Sum(s) - s[i] + v
  {
    if i == 0 {
      assert s[i := v][1..] == s[1..];
    } else {
      assert s[i := v][1..] == s[1..][i - 1 := v];
      SumUpdate(s[1..], i - 1, v);
    }
  }

  /** The mutex is held by exactly the thread that is between its acquisition and its release. */
  ghost predicate Mutex(s: State) {
    && |s.pcs| == |s.credits|
    && (s.lock.Some? ==> s.lock.value < |s.pcs|)
    && forall t: Thread :: t < |s.pcs| ==> (InCritical(s.pcs[t]) <==> s.lock == Some(t))
  }

  /** Where the holder of the mutex is. */
  function HolderPc(s: State): Pc {
    if s.lock.Some? && s.lock.value < |s.pcs| then s.pcs[s.lock.value] else Idle
  }

  /** Holds whatever the callers do. */
  ghost predicate Safe(s: State) {
    && Mutex(s)
    && 0 <= s.refCount == Sum(s.credits)
    && (HolderPc(s).TermSub? ==> 0 < s.refCount)
    && (HolderPc(s).InitOpen? ==> s.session.None?)
    && (s.session.Some? ==>
          0 < s.refCount || HolderPc(s).InitAdd? || HolderPc(s).TermReadBack? || HolderPc(s).TermClose?)
  }

  lemma StepKeepsSafe(s: State, e: Event)
    requires Safe(s) && Enabled(s, e)
    ensures Safe(Next(s, e))
  {
    var t := e.thread;
    SumUpdate(s.credits, t, s.credits[t] + 1);
    SumUpdate(s.credits, t, s.credits[t] - 1);
    StepKeepsMutex(s, e);
    hide Sum;
  }

  lemma StepKeepsMutex(s: State, e: Event)
    requires Mutex(s) && Enabled(s, e)
    ensures Mutex(Next(s, e))
  {
  }

  /** A step leaves other threads alone. */
  lemma StepLeaves(s: State, e: Event)
    requires Enabled(s, e)
    ensures |Next(s, e).pcs| == |s.pcs| && |Next(s, e).credits| == |s.credits|
    ensures forall t: Thread :: t < |s.pcs| && t != e.thread ==> Next(s, e).pcs[t] == s.pcs[t]
  {
  }

  lemma {:induction false} SumZeros(n: nat)
    ensures Sum(seq(n, _ => 0)) == 0
  {
    if n == 0 {
    } else {
      assert seq(n, _ => 0)[1..] == seq(n - 1, _ => 0);
      SumZeros(n - 1);
    }
  }

  lemma {:induction false} RunKeepsSafe(s: State, events: seq<Event>, t: State)
    requires Safe(s) && IsRun(s, events, t)
    ensures Safe(t)
    decreases |events|
  {
    hide Safe, Next, Enabled;
    if events == [] {
    } else {
      StepKeepsSafe(s, events[0]);
      RunKeepsSafe(Next(s, events[0]), events[1..], t);
    }
  }

  /**
    Under every interleaving: the counter never underflows and is increments minus decrements; a session
    is opened only while none is open; and a free lock with count zero means that no session is open.
  */
  lemma Unconditional(n: nat, events: seq<Event>, t: State)
    requires IsRun(Start(n), events, t)
    ensures 0 <= t.refCount == Sum(t.credits)
    ensures forall u: Thread :: u < |t.pcs| && t.pcs[u].TermSub? ==> 0 < t.refCount
    ensures forall u: Thread :: u < |t.pcs| && t.pcs[u].InitOpen? ==> t.session.None?
    ensures t.lock.None? && t.refCount == 0 ==> t.session.None?
  {
    SumZeros(n);
    RunKeepsSafe(Start(n), events, t);
    hide Sum;
  }

  // ---------- what holds unless a close races with a fast-path increment ----------

  predicate FastAddPending(s: State) {
    exists u: Thread :: u < |s.pcs| && s.pcs[u].InitFastAdd?
  }

  /** A thread about to close reads back zero while another has decided to increment without the lock. */
  predicate Races(s: State, e: Event) {
    e.thread < |s.pcs| && s.pcs[e.thread].TermReadBack? && s.refCount == 0 && FastAddPending(s)
  }

  ghost predicate RaceFree(s: State, events: seq<Event>, t: State)
    decreases |events|
  {
    if events == [] then s == t
    else Enabled(s, events[0]) && !Races(s, events[0]) && RaceFree(Next(s, events[0]), events[1..], t)
  }

  ghost predicate Usable(s: State) {
    && Safe(s)
    && (0 < s.refCount ==> s.session.Some?)
    && (HolderPc(s).InitAdd? || HolderPc(s).TermReadBack? || HolderPc(s).TermClose? ==> s.session.Some?)
    && (HolderPc(s).InitOpen? || HolderPc(s).TermClose? ==> s.refCount == 0)
    && (HolderPc(s).GetRead? ==> 0 < s.refCount)
    && (FastAddPending(s) ==> 0 < s.refCount || HolderPc(s).TermReadBack?)
  }

  lemma StepKeepsUsable(s: State, e: Event)
    requires Usable(s) && Enabled(s, e) && !Races(s, e)
    ensures Usable(Next(s, e))
  {
    StepKeepsSafe(s, e);
    PendingBefore(s, e);
    hide Sum, FastAddPending;
  }

  lemma RaceLeavesUnusable(s: State, e: Event)
    requires Safe(s) && Enabled(s, e) && Races(s, e)
    ensures !Usable(Next(s, e))
  {
    var u: Thread :| u < |s.pcs| && s.pcs[u].InitFastAdd?;
    assert Next(s, e).pcs[u].InitFastAdd?;
    hide Sum;
  }

  /** An increment is pending after a step only if it was before, or if this step read a positive count. */
  lemma PendingBefore(s: State, e: Event)
    requires Enabled(s, e)
    ensures FastAddPending(Next(s, e)) ==> FastAddPending(s) || (s.pcs[e.thread].InitCheck? && s.refCount != 0)
    ensures s.pcs[e.thread].InitFastAdd? ==> FastAddPending(s)
  {
  }

  lemma {:induction false} RaceFreeKeepsUsable(s: State, events: seq<Event>, t: State)
    requires Usable(s) && RaceFree(s, events, t)
    ensures Usable(t)
    decreases |events|
  {
    hide Usable, Next, Enabled, Races;
    if events == [] {
    } else {
      StepKeepsUsable(s, events[0]);
      RaceFreeKeepsUsable(Next(s, events[0]), events[1..], t);
    }
  }

  lemma StartIsUsable(n: nat)
    ensures Usable(Start(n))
  {
    SumZeros(n);
    hide Sum;
  }

  /**
    Over every run without the race: a positive count means that a session is open, a close closes an open
    session, and `getSession` never returns one that is not open.
  */
  lemma CountMeansOpen(n: nat, events: seq<Event>, t: State)
    requires RaceFree(Start(n), events, t)
    ensures 0 < t.refCount ==> t.session.Some?
    ensures t.lock.None? ==> (0 < t.refCount <==> t.session.Some?)
    ensures forall u: Thread :: u < |t.pcs| && (t.pcs[u].TermClose? || t.pcs[u].GetRead?) ==> t.session.Some?
  {
    StartIsUsable(n);
    RaceFreeKeepsUsable(Start(n), events, t);
    hide Sum;
  }

  // ---------- callers that terminate only what they initialized ----------

  /** A call of `term` starts only in a thread that holds a reference. */
  predicate Disciplined(s: State, e: Event) {
    e.action.StartTerm? && e.thread < |s.credits| ==> 0 < s.credits[e.thread]
  }

  ghost predicate IsDisciplined(s: State, events: seq<Event>, t: State)
    decreases |events|
  {
    if events == [] then s == t
    else Enabled(s, events[0]) && Disciplined(s, events[0]) && IsDisciplined(Next(s, events[0]), events[1..], t)
  }

  lemma {:induction false} RunsCompose(r: State, x: seq<Event>, s: State, y: seq<Event>, t: State)
    requires IsDisciplined(r, x, s) && IsDisciplined(s, y, t)
    ensures IsDisciplined(r, x + y, t)
    decreases |x|
  {
    hide Enabled, Next, Disciplined;
    if x == [] {
      assert x + y == y;
    } else {
      assert (x + y)[0] == x[0] && (x + y)[1..] == x[1..] + y;
      RunsCompose(Next(r, x[0]), x[1..], s, y, t);
    }
  }

  // ---------- the race cannot be excused ----------

  /** The race, run to its end: the lock is free, the count is positive and no session is open. */
  ghost predicate Broken(s: State) {
    s.lock.None? && 0 < s.refCount && s.session.None?
  }

  /** Wherever the race is possible, three steps after it the manager is broken. */
  lemma RaceBreaks(s: State, t: Thread, u: Thread)
    requires Mutex(s) && t < |s.pcs| && u < |s.pcs|
    requires s.pcs[t].TermReadBack? && s.refCount == 0 && s.pcs[u].InitFastAdd?
    ensures exists z :: RaceFree(Next(s, Event(t, Go)), [Event(u, Go), Event(t, Go), Event(t, Go)], z) && Broken(z)
  {
    var s1 := Next(s, Event(t, Go));
    var s2 := Next(s1, Event(u, Go));
    var s3 := Next(s2, Event(t, Go));
    var z := Next(s3, Event(t, Go));
    assert Broken(z);
    assert RaceFree(z, [], z);
    RaceFreeStep(s3, Event(t, Go), [], z);
    RaceFreeStep(s2, Event(t, Go), [Event(t, Go)], z);
    RaceFreeStep(s1, Event(u, Go), [Event(t, Go), Event(t, Go)], z);
  }

  lemma RaceFreeStep(s: State, e: Event, es: seq<Event>, z: State)
    requires Enabled(s, e) && !Races(s, e) && RaceFree(Next(s, e), es, z)
    ensures RaceFree(s, [e] + es, z)
  {
    assert ([e] + es)[1..] == es;
  }

  /**
    The race is the only cause: from a usable state, a step leads to a broken one, without any further race,
    exactly when it is the race itself.
  */
  lemma OnlyRacesBreak(s: State, e: Event)
    requires Usable(s) && Enabled(s, e)
    ensures Races(s, e) <==> exists es, z :: RaceFree(Next(s, e), es, z) && Broken(z)
  {
    if Races(s, e) {
      var u: Thread :| u < |s.pcs| && s.pcs[u].InitFastAdd?;
      RaceBreaks(s, e.thread, u);
    } else {
      StepKeepsUsable(s, e);
      forall es, z | RaceFree(Next(s, e), es, z)
        ensures !Broken(z)
      {
        RaceFreeKeepsUsable(Next(s, e), es, z);
      }
    }
  }

  /** So over runs: the first race, and nothing before it, makes a broken state reachable without another. */
  lemma BrokenExactlyByRace(n: nat, events: seq<Event>, s: State, e: Event)
    requires RaceFree(Start(n), events, s) && Enabled(s, e)
    ensures !Broken(s)
    ensures Races(s, e) <==> exists es, z :: RaceFree(Next(s, e), es, z) && Broken(z)
  {
    StartIsUsable(n);
    RaceFreeKeepsUsable(Start(n), events, s);
    OnlyRacesBreak(s, e);
    hide RaceFree, Next, Enabled, Races, Sum;
  }

  const LAP1 := [Event(0, StartInit), Event(0, Go), Event(0, Go), Event(0, Go)]
  const LAP2 := [Event(0, Open(Opened)), Event(0, Go), Event(0, Go), Event(1, StartInit)]
  const LAP3 := [Event(1, Go), Event(0, StartTerm), Event(0, Go), Event(0, Go)]
  const LAP4 := [Event(0, Go), Event(0, Go), Event(1, Go), Event(0, Go)]
  const LAP5 := [Event(0, Go), Event(1, StartGet), Event(1, Go), Event(1, Go)]

  const OPENING := State(0, None, 0, Some(0), [InitOpen, Idle], [0, 0])
  const OPEN := State(1, Some(0), 1, None, [Idle, InitCheck], [1, 0])
  const TERMINATING := State(1, Some(0), 1, Some(0), [TermSub, InitFastAdd], [1, 0])
  const CLOSED := State(1, None, 1, Some(0), [TermUnlock, Idle], [0, 1])
  const BROKEN := State(1, None, 1, None, [Idle, Idle], [0, 1])
  const READING := State(1, None, 1, Some(1), [Idle, GetRead], [0, 1])

  lemma Lap1()
    ensures IsDisciplined(Start(2), LAP1, OPENING)
  {
  }

  lemma Lap2()
    ensures IsDisciplined(OPENING, LAP2, OPEN)
  {
  }

  lemma Lap3()
    ensures IsDisciplined(OPEN, LAP3, TERMINATING)
  {
  }

  lemma Lap4()
    ensures IsDisciplined(TERMINATING, LAP4, CLOSED)
  {
  }

  lemma Lap5()
    ensures IsDisciplined(CLOSED, LAP5, READING)
  {
  }

  lemma Release()
    ensures IsDisciplined(CLOSED, [Event(0, Go)], BROKEN)
  {
  }

  predicate HolderReadsClosed(s: State, u: Thread) {
    u < |s.pcs| == |s.credits| && 0 < s.credits[u] && s.pcs[u].GetRead? && s.session.None?
  }

  /**
    The race does occur: two threads and disciplined calls suffice. The lock is then free, the count
    positive and no session open; and the thread that holds the one reference is handed the closed session.
  */
  lemma RaceIsReachable()
    ensures exists events, t :: IsDisciplined(Start(2), events, t) && Broken(t)
    ensures exists events, t :: IsDisciplined(Start(2), events, t) && HolderReadsClosed(t, 1)
  {
    Lap1();
    Lap2();
    Lap3();
    Lap4();
    Lap5();
    Release();
    hide IsDisciplined;
    RunsCompose(Start(2), LAP1, OPENING, LAP2, OPEN);
    RunsCompose(Start(2), LAP1 + LAP2, OPEN, LAP3, TERMINATING);
    RunsCompose(Start(2), LAP1 + LAP2 + LAP3, TERMINATING, LAP4, CLOSED);
    RunsCompose(Start(2), LAP1 + LAP2 + LAP3 + LAP4, CLOSED, [Event(0, Go)], BROKEN);
    RunsCompose(Start(2), LAP1 + LAP2 + LAP3 + LAP4, CLOSED, LAP5, READING);
  }

  predicate GivesUp(pc: Pc) {
    pc.TermLock? || pc.TermCheck? || pc.TermSub?
  }

  /** No thread owes a reference, and one that is about to give one up has one. */
  ghost predicate Credited(s: State) {
    && |s.pcs| == |s.credits|
    && forall t: Thread :: t < |s.pcs| ==> 0 <= s.credits[t] && (GivesUp(s.pcs[t]) ==> 0 < s.credits[t])
  }

  ghost predicate Honest(s: State) {
    Safe(s) && Credited(s)
  }

  lemma StepKeepsHonest(s: State, e: Event)
    requires Honest(s) && Enabled(s, e) && Disciplined(s, e)
    ensures Honest(Next(s, e))
  {
    StepKeepsSafe(s, e);
    StepKeepsCredits(s, e);
    hide Safe, Next;
  }

  lemma StepKeepsCredits(s: State, e: Event)
    requires Credited(s) && Enabled(s, e) && Disciplined(s, e)
    ensures Credited(Next(s, e))
  {
  }

  lemma {:induction false} DisciplineKeepsHonest(s: State, events: seq<Event>, t: State)
    requires Honest(s) && IsDisciplined(s, events, t)
    ensures Honest(t)
    decreases |events|
  {
    hide Honest, Next, Enabled, Disciplined;
    if events == [] {
    } else {
      StepKeepsHonest(s, events[0]);
      DisciplineKeepsHonest(Next(s, events[0]), events[1..], t);
    }
  }

  function Holders(credits: seq<int>): nat {
    if credits == [] then 0 else (if 0 < credits[0] then 1 else 0) + Holders(credits[1..])
  }

  lemma {:induction false} HoldersAreCounted(credits: seq<int>)
    requires forall i :: 0 <= i < |credits| ==> 0 <= credits[i]
    ensures Holders(credits) <= Sum(credits)
    ensures forall i :: 0 <= i < |credits| ==> credits[i] <= Sum(credits)
  {
    if credits == [] {
    } else {
      HoldersAreCounted(credits[1..]);
      forall i | 0 <= i < |credits|
        ensures credits[i] <= Sum(credits)
      {
        if i > 0 { assert credits[i] == credits[1..][i - 1]; }
      }
    }
  }

  /**
    With disciplined callers the count is at least the number of holders, so whatever the others do a
    holder's `getSession` finds the count positive and returns a value.
  */
  lemma HoldersGetASession(n: nat, events: seq<Event>, t: State)
    requires IsDisciplined(Start(n), events, t)
    ensures Safe(t) && Holders(t.credits) <= t.refCount
    ensures forall u: Thread :: u < |t.pcs| && 0 < t.credits[u] ==>
              && 0 < t.refCount
              && (t.pcs[u].GetCheck? ==> Next(t, Event(u, Go)).pcs[u].GetRead?)
              && (t.pcs[u].GetRead? ==> Next(t, Event(u, Go)).pcs[u] == GetUnlock(Some(t.session)))
              && (t.pcs[u].TermCheck? ==> Next(t, Event(u, Go)).pcs[u].TermSub?)
  {
    SumZeros(n);
    DisciplineKeepsHonest(Start(n), events, t);
    HoldersAreCounted(t.credits);
    hide Sum, IsDisciplined;
    forall u: Thread | u < |t.pcs| && 0 < t.credits[u]
      ensures 0 < t.refCount
    {
    }
  }

  /** While the count is positive, no step but the race changes which session is open. */
  lemma CountedSessionStays(s: State, e: Event)
    requires Usable(s) && Enabled(s, e) && !Races(s, e) && 0 < s.refCount
    ensures s.session.Some? && Next(s, e).session == s.session
  {
    hide Sum;
  }

  /** While a thread holds a reference, no step of any thread changes which session is open, and none races. */
  lemma HeldSessionStays(s: State, e: Event, u: Thread)
    requires Honest(s) && Usable(s) && Enabled(s, e)
    requires u < |s.credits| && 0 < s.credits[u]
    ensures s.session.Some? && Next(s, e).session == s.session && !Races(s, e)
  {
    HoldersAreCounted(s.credits);
    hide Sum;
  }

  /** A stretch of a run in which the thread keeps a reference. */
  ghost predicate Holding(s: State, events: seq<Event>, t: State, u: Thread)
    decreases |events|
  {
    && u < |s.credits| && 0 < s.credits[u]
    && if events == [] then s == t
       else && Enabled(s, events[0]) && Disciplined(s, events[0])
            && Holding(Next(s, events[0]), events[1..], t, u)
  }

  /** Two calls of `getSession` by one holder, with anything in between, see the same open session. */
  lemma {:induction false} OneSessionPerHolding(s: State, events: seq<Event>, t: State, u: Thread)
    requires Honest(s) && Usable(s) && Holding(s, events, t, u)
    ensures s.session.Some? && t.session == s.session
    ensures Honest(t) && Usable(t)
    decreases |events|
  {
    if events == [] {
      HoldersAreCounted(s.credits);
    } else {
      HeldSessionStays(s, events[0], u);
      StepKeepsHonest(s, events[0]);
      StepKeepsUsable(s, events[0]);
      hide Honest, Usable, Next, Enabled, Disciplined, Races;
      OneSessionPerHolding(Next(s, events[0]), events[1..], t, u);
    }
  }
}

/**
  Runs of two threads in which the client that was returned is left with a closed session, by the race or by a theft,
  and one in which a constructor throws.
*/
module ClientWitnesses {
  import opened Common
  import opened ClientLives
  import opened SharedSession
  import opened ClientSteps
  import S = Session
  import I = Singleton

  /** A state of two threads in which none is inside the session manager. */
  function Rest(inst: I.State, count: int, session: Option<S.SessionId>, opens: nat, credits: seq<int>,
                progress: Progress, duties: seq<Duty>,
                held: seq<nat>, transports: seq<Option<S.SessionId>>, rpcs: seq<Option<S.SessionId>>): State {
    State(inst, S.State(count, session, opens, None, [S.Idle, S.Idle], credits),
          progress, duties, held, transports, rpcs, false)
  }

  const QUIET := [Free, Free]
  const UNDERWAY := Progress(TCheck, 1, None)

  /** A caller has a client, the only one alive and with references to its name, and no session is open. */
  predicate Lost(s: State, h: I.Token) {
    && h in s.inst.handles && s.inst.handles[h].keeper.None? && I.IsNamed(s.inst, h)
    && s.inst.handles[h].client < |s.held| && s.held[s.inst.handles[h].client] == 2
    && s.sess.lock.None? && s.sess.session.None?
  }

  // ---------- the race ----------

  const BEGUN := Rest(I.State(None, map[], 0, [], None, [I.Outside, I.Outside]), 0, None, 0, [0, 0],
                      FIRST, QUIET, [], [], [])
  const BUILDING := I.State(None, map[], 0, [], Some(0), [I.Build, I.Outside])
  const ENTERED := Rest(BUILDING, 0, None, 0, [0, 0], FIRST, QUIET, [], [], [])
  const OPEN := Rest(BUILDING, 1, Some(0), 1, [1, 0], UNDERWAY, QUIET, [], [], [])
  const BUILT := Rest(I.State(None, map[0 := I.Handle(0, Some(0))], 1, [true], Some(0), [I.Assess(0), I.Outside]),
                      2, Some(0), 1, [2, 0], FIRST, QUIET, [2], [Some(0)], [Some(0)])
  const OWNED := Rest(I.State(Some(0), map[0 := I.Handle(0, None)], 1, [true], None, [I.Outside, I.Outside]),
                      2, Some(0), 1, [2, 0], FIRST, QUIET, [2], [Some(0)], [Some(0)])

  lemma FirstEnters(clean: bool)
    ensures Reach(BEGUN, ENTERED, clean)
  {
    Enters(BEGUN, 0, clean);
    hide Reach;
    Arrives(BEGUN, Entered(BEGUN, 0), ENTERED, clean);
  }

  lemma FirstOpens()
    ensures Reach(ENTERED, OPEN, true)
  {
    InitOpens(ENTERED, 0, true);
    hide Reach;
    Arrives(ENTERED, SessionOpened(ENTERED, 0), OPEN, true);
  }

  lemma FirstCompletes()
    ensures Reach(OPEN, BUILT, true)
  {
    Completes(OPEN, 0, true);
    hide Reach;
    Arrives(OPEN, Completed(OPEN, 0), BUILT, true);
  }

  lemma FirstLeaves()
    ensures Reach(BUILT, OWNED, true)
  {
    Leaves(BUILT, 0, 0, true);
    hide Reach;
    Arrives(BUILT, Left(BUILT, 0, 0), OWNED, true);
  }

  const DOOMED := I.State(Some(0), map[], 1, [true], None, [I.Outside, I.Outside])
  const DROPPED := Rest(DOOMED, 2, Some(0), 1, [2, 0], FIRST, [Destroys(0, 2), Free], [2], [Some(0)], [Some(0)])
  const HALVED := Rest(DOOMED, 1, Some(0), 1, [1, 0], FIRST, [Destroys(0, 1), Free], [1], [Some(0)], [Some(0)])
  const SECOND := I.State(Some(0), map[], 1, [true], Some(1), [I.Outside, I.Build])
  const BETWEEN := Rest(SECOND, 1, Some(0), 1, [1, 0], FIRST, [Destroys(0, 1), Free], [1], [Some(0)], [Some(0)])

  lemma FirstIsDropped()
    ensures Reach(OWNED, DROPPED, true)
  {
    var z := Next(OWNED, Drop(0, 0));
    assert z.inst.handles == map[];
    assert !I.Alive(z.inst.handles, 0);
    Do(OWNED, Drop(0, 0), z, true);
    hide Reach;
    Arrives(OWNED, z, DROPPED, true);
  }

  lemma FirstGivesOneBack()
    ensures Reach(DROPPED, HALVED, true)
  {
    GivesBackOne(DROPPED, 0, true);
    hide Reach;
    Arrives(DROPPED, GivenBack(DROPPED, 0), HALVED, true);
  }

  lemma SecondEnters()
    ensures Reach(HALVED, BETWEEN, true)
  {
    assert !I.NamedAlive(DOOMED);
    Enters(HALVED, 1, true);
    hide Reach;
    Arrives(HALVED, Entered(HALVED, 1), BETWEEN, true);
  }

  /** Inside the session manager, where thread 0 holds the lock. */
  function Racing(count: int, session: Option<S.SessionId>, pc0: S.Pc, pc1: S.Pc, credits: seq<int>,
                  progress: Progress, held: seq<nat>): State {
    State(SECOND, S.State(count, session, 1, Some(0), [pc0, pc1], credits), progress, [Destroys(0, 0), Free],
          held, [Some(0)], [Some(0)], false)
  }

  const LOCKING := State(SECOND, S.State(1, Some(0), 1, None, [S.TermLock, S.Idle], [1, 0]), FIRST,
                         [Destroys(0, 0), Free], [1], [Some(0)], [Some(0)], false)
  const LOCKED := Racing(1, Some(0), S.TermCheck, S.Idle, [1, 0], FIRST, [1])
  const CHECKED := Racing(1, Some(0), S.TermSub, S.Idle, [1, 0], FIRST, [1])
  const READING := Racing(1, Some(0), S.TermSub, S.InitCheck, [1, 0], FIRST, [1])
  const READ := Racing(1, Some(0), S.TermSub, S.InitFastAdd, [1, 0], FIRST, [1])
  const ZERO := Racing(0, Some(0), S.TermReadBack, S.InitFastAdd, [0, 0], FIRST, [0])
  const CLOSING := Racing(0, Some(0), S.TermClose, S.InitFastAdd, [0, 0], FIRST, [0])
  const ADDED := Racing(1, Some(0), S.TermClose, S.Idle, [0, 1], UNDERWAY, [0])
  const CLOSED := Racing(1, None, S.TermUnlock, S.Idle, [0, 1], UNDERWAY, [0])
  const RACED := Rest(SECOND, 1, None, 1, [0, 1], UNDERWAY, QUIET, [0], [Some(0)], [Some(0)])

  /** A single step between two of these states. */
  lemma Steps(s: State, e: Event, t: State)
    requires Enabled(s, e) && Succeeds(e) && SameParts(Next(s, e), t)
    ensures Reach(s, t, true)
  {
    Do(s, e, Next(s, e), true);
    hide Reach, Next, Enabled;
    Arrives(s, Next(s, e), t, true);
  }

  lemma TermBegins()
    ensures Reach(BETWEEN, LOCKING, true)
  {
    Steps(BETWEEN, Begin(0), LOCKING);
  }

  lemma TermLocks()
    ensures Reach(LOCKING, LOCKED, true)
  {
    Steps(LOCKING, Micro(0, S.Opened), LOCKED);
  }

  lemma TermChecks()
    ensures Reach(LOCKED, CHECKED, true)
  {
    Steps(LOCKED, Micro(0, S.Opened), CHECKED);
  }

  lemma InitBegins()
    ensures Reach(CHECKED, READING, true)
  {
    Steps(CHECKED, Begin(1), READING);
  }

  lemma InitReadsOne()
    ensures Reach(READING, READ, true)
  {
    Steps(READING, Micro(1, S.Opened), READ);
  }

  lemma TermSubtracts()
    ensures Reach(READ, ZERO, true)
  {
    Steps(READ, Micro(0, S.Opened), ZERO);
  }

  lemma TermReadsZero()
    ensures Reach(ZERO, CLOSING, true)
  {
    Steps(ZERO, Micro(0, S.Opened), CLOSING);
  }

  lemma InitAdds()
    ensures Reach(CLOSING, ADDED, true)
  {
    Steps(CLOSING, Micro(1, S.Opened), ADDED);
  }

  lemma TermCloses()
    ensures Reach(ADDED, CLOSED, true)
  {
    Steps(ADDED, Micro(0, S.Opened), CLOSED);
  }

  lemma TermUnlocks()
    ensures Reach(CLOSED, RACED, true)
  {
    Steps(CLOSED, Micro(0, S.Opened), RACED);
  }

  /** The new client's first `init` reads a positive count; the old one's second `term` reads back zero and closes. */
  lemma CallsOverlap()
    ensures Reach(BETWEEN, RACED, true)
  {
    TermBegins();
    TermLocks();
    TermChecks();
    InitBegins();
    InitReadsOne();
    TermSubtracts();
    TermReadsZero();
    InitAdds();
    TermCloses();
    TermUnlocks();
    hide Reach, Rest, Racing, LOCKING;
    Then(BETWEEN, LOCKING, LOCKED, true);
    Then(BETWEEN, LOCKED, CHECKED, true);
    Then(BETWEEN, CHECKED, READING, true);
    Then(BETWEEN, READING, READ, true);
    Then(BETWEEN, READ, ZERO, true);
    Then(BETWEEN, ZERO, CLOSING, true);
    Then(BETWEEN, CLOSING, ADDED, true);
    Then(BETWEEN, ADDED, CLOSED, true);
    Then(BETWEEN, CLOSED, RACED, true);
  }

  const ASSESSED := Rest(I.State(Some(0), map[1 := I.Handle(1, Some(1))], 2, [true, true], Some(1),
                                 [I.Outside, I.Assess(1)]),
                         2, None, 1, [0, 2], FIRST, QUIET, [0, 2], [Some(0), None], [Some(0), None])
  const UNSERVED := Rest(I.State(Some(1), map[1 := I.Handle(1, None)], 2, [true, true], None, [I.Outside, I.Outside]),
                         2, None, 1, [0, 2], FIRST, QUIET, [0, 2], [Some(0), None], [Some(0), None])

  lemma SecondCompletes()
    ensures Reach(RACED, ASSESSED, true)
  {
    Completes(RACED, 1, true);
    hide Reach;
    Arrives(RACED, Completed(RACED, 1), ASSESSED, true);
  }

  lemma SecondLeaves()
    ensures Reach(ASSESSED, UNSERVED, true)
  {
    Leaves(ASSESSED, 1, 1, true);
    hide Reach;
    Arrives(ASSESSED, Left(ASSESSED, 1, 1), UNSERVED, true);
  }

  lemma TheyRace()
    ensures Reach(BEGUN, UNSERVED, true)
  {
    FirstEnters(true);
    FirstOpens();
    FirstCompletes();
    FirstLeaves();
    FirstIsDropped();
    FirstGivesOneBack();
    SecondEnters();
    CallsOverlap();
    SecondCompletes();
    SecondLeaves();
    hide Reach, Rest, Racing;
    Then(BEGUN, ENTERED, OPEN, true);
    Then(BEGUN, OPEN, BUILT, true);
    Then(BEGUN, BUILT, OWNED, true);
    Then(BEGUN, OWNED, DROPPED, true);
    Then(BEGUN, DROPPED, HALVED, true);
    Then(BEGUN, HALVED, BETWEEN, true);
    Then(BEGUN, BETWEEN, RACED, true);
    Then(BEGUN, RACED, ASSESSED, true);
    Then(BEGUN, ASSESSED, UNSERVED, true);
  }

  lemma StartsHere(t: State, clean: bool)
    requires Reach(BEGUN, t, clean)
    ensures Reach(Start(2), t, clean)
  {
    assert Start(2).inst == BEGUN.inst && Start(2).sess == BEGUN.sess && Start(2).duties == QUIET;
    assert Start(2) == BEGUN;
  }

  /**
    Every session opens, nobody steals, and yet a client is returned whose session is closed: the last `term` of the
    client before it races with its first `init`.
  */
  lemma RaceIsReachable()
    ensures exists events, t ::
              IsRun(Start(2), events, t) && AllSucceed(events) && NeverSteals(Start(2), events) && Lost(t, 1)
  {
    TheyRace();
    StartsHere(UNSERVED, true);
    assert Lost(UNSERVED, 1);
    hide Lost, IsRun, NeverSteals;
    var events :| IsRun(Start(2), events, UNSERVED) && AllSucceed(events);
    NoTheftWithoutFailure(2, events, UNSERVED);
  }

  // ---------- a theft ----------

  const FRUSTRATED := Rest(BUILDING, 0, None, 0, [0, 0], Progress(TCheck, 0, None), QUIET, [], [], [])
  const HOPELESS := Rest(BUILDING, 0, None, 0, [0, 0], Progress(RInit, 0, None), QUIET, [], [], [])
  const FAILED := Rest(I.State(None, map[0 := I.Handle(0, Some(0))], 1, [false], Some(0), [I.Assess(0), I.Outside]),
                       0, None, 0, [0, 0], FIRST, QUIET, [0], [None], [None])
  const RELEASED := Rest(I.State(None, map[0 := I.Handle(0, Some(0))], 1, [false], None, [I.DropFailed(0), I.Outside]),
                         0, None, 0, [0, 0], FIRST, QUIET, [0], [None], [None])
  const NEXT := I.State(None, map[0 := I.Handle(0, Some(0))], 1, [false], Some(1), [I.DropFailed(0), I.Build])
  const AGAIN := Rest(NEXT, 0, None, 0, [0, 0], FIRST, QUIET, [0], [None], [None])
  const HOPEFUL := Rest(NEXT, 1, Some(0), 1, [0, 1], UNDERWAY, QUIET, [0], [None], [None])

  lemma FirstCannotOpen()
    ensures Reach(ENTERED, FRUSTRATED, false)
  {
    InitFails(ENTERED, 0);
    hide Reach;
    Arrives(ENTERED, Constructs(ENTERED, 0, OutcomeOf(FIRST, S.InitUnlock(INTERNAL))), FRUSTRATED, false);
  }

  lemma FirstGetsNothing()
    ensures Reach(FRUSTRATED, HOPELESS, false)
  {
    Gets(FRUSTRATED, 0, false);
    hide Reach;
    Arrives(FRUSTRATED, Constructs(FRUSTRATED, 0, OutcomeOf(FRUSTRATED.progress, S.GetUnlock(None))), HOPELESS, false);
  }

  lemma FirstFails()
    ensures Reach(HOPELESS, FAILED, false)
  {
    InitFails(HOPELESS, 0);
    hide Reach;
    Arrives(HOPELESS, Constructs(HOPELESS, 0, OutcomeOf(HOPELESS.progress, S.InitUnlock(INTERNAL))), FAILED, false);
  }

  lemma FirstReleases()
    ensures Reach(FAILED, RELEASED, false)
  {
    Gives(FAILED, 0, 0);
    hide Reach;
    Arrives(FAILED, GivenUp(FAILED, 0, 0), RELEASED, false);
  }

  lemma NextEnters()
    ensures Reach(RELEASED, AGAIN, false)
  {
    Enters(RELEASED, 1, false);
    hide Reach;
    Arrives(RELEASED, Entered(RELEASED, 1), AGAIN, false);
  }

  lemma NextOpens()
    ensures Reach(AGAIN, HOPEFUL, false)
  {
    InitOpens(AGAIN, 1, false);
    hide Reach;
    Arrives(AGAIN, SessionOpened(AGAIN, 1), HOPEFUL, false);
  }

  /** Thread 0 fails to build a client and releases the lock; thread 1 starts to build the next and opens a session. */
  lemma NextIsHopeful()
    ensures Reach(BEGUN, HOPEFUL, false)
  {
    FirstEnters(false);
    FirstCannotOpen();
    FirstGetsNothing();
    FirstFails();
    FirstReleases();
    NextEnters();
    NextOpens();
    hide Reach, Rest;
    Then(BEGUN, ENTERED, FRUSTRATED, false);
    Then(BEGUN, FRUSTRATED, HOPELESS, false);
    Then(BEGUN, HOPELESS, FAILED, false);
    Then(BEGUN, FAILED, RELEASED, false);
    Then(BEGUN, RELEASED, AGAIN, false);
    Then(BEGUN, AGAIN, HOPEFUL, false);
  }

  const PASSED := Rest(I.State(None, map[0 := I.Handle(0, Some(0)), 1 := I.Handle(1, Some(1))], 2, [false, true],
                               Some(1), [I.DropFailed(0), I.Assess(1)]),
                       2, Some(0), 1, [0, 2], FIRST, QUIET, [0, 2], [None, Some(0)], [None, Some(0)])
  const RETURNED := Rest(I.State(Some(1), map[0 := I.Handle(0, Some(0)), 1 := I.Handle(1, None)], 2, [false, true],
                                 None, [I.DropFailed(0), I.Outside]),
                         2, Some(0), 1, [0, 2], FIRST, QUIET, [0, 2], [None, Some(0)], [None, Some(0)])
  const ALONE := I.State(Some(1), map[1 := I.Handle(1, None)], 2, [false, true], None, [I.Outside, I.Outside])
  const DYING := Rest(ALONE, 2, Some(0), 1, [0, 2], FIRST, [Destroys(0, 2), Free],
                      [0, 2], [None, Some(0)], [None, Some(0)])
  const ROBBING := Rest(ALONE, 1, Some(0), 1, [-1, 2], FIRST, [Destroys(0, 1), Free],
                        [0, 2], [None, Some(0)], [None, Some(0)])
  const ROBBED := Rest(ALONE, 0, None, 1, [-2, 2], FIRST, QUIET, [0, 2], [None, Some(0)], [None, Some(0)])

  lemma NextCompletes()
    ensures Reach(HOPEFUL, PASSED, false)
  {
    Completes(HOPEFUL, 1, false);
    hide Reach;
    Arrives(HOPEFUL, Completed(HOPEFUL, 1), PASSED, false);
  }

  lemma NextLeaves()
    ensures Reach(PASSED, RETURNED, false)
  {
    Leaves(PASSED, 1, 1, false);
    hide Reach;
    Arrives(PASSED, Left(PASSED, 1, 1), RETURNED, false);
  }

  lemma FailedIsDropped()
    ensures Reach(RETURNED, DYING, false)
  {
    var z := Next(RETURNED, Inside(0));
    assert z.inst.handles == map[1 := I.Handle(1, None)];
    assert !I.Alive(z.inst.handles, 0);
    Do(RETURNED, Inside(0), z, false);
    hide Reach;
    Arrives(RETURNED, z, DYING, false);
  }

  lemma FailedTakesOne()
    ensures Reach(DYING, ROBBING, false)
  {
    GivesBackOne(DYING, 0, false);
    hide Reach;
    Arrives(DYING, GivenBack(DYING, 0), ROBBING, false);
  }

  lemma FailedTakesAnother()
    ensures Reach(ROBBING, ROBBED, false)
  {
    GivesBackOne(ROBBING, 0, false);
    hide Reach;
    Arrives(ROBBING, GivenBack(ROBBING, 0), ROBBED, false);
  }

  lemma NextIsRobbed()
    ensures Reach(BEGUN, ROBBED, false)
  {
    NextIsHopeful();
    NextCompletes();
    NextLeaves();
    FailedIsDropped();
    FailedTakesOne();
    FailedTakesAnother();
    hide Reach, Rest;
    Then(BEGUN, HOPEFUL, PASSED, false);
    Then(BEGUN, PASSED, RETURNED, false);
    Then(BEGUN, RETURNED, DYING, false);
    Then(BEGUN, DYING, ROBBING, false);
    Then(BEGUN, ROBBING, ROBBED, false);
  }

  /** The next client is returned; then thread 0 drops its failed client, which closes the session. */
  lemma TheftIsReachable()
    ensures exists events, t :: IsRun(Start(2), events, t) && Lost(t, 1) && t.sess.refCount == 0
  {
    NextIsRobbed();
    StartsHere(ROBBED, false);
    assert Lost(ROBBED, 1) && ROBBED.sess.refCount == 0;
    hide Lost, IsRun;
    var events :| IsRun(Start(2), events, ROBBED);
  }

  // ---------- an exception ----------

  const CHECKED_OPEN := Rest(NEXT, 1, Some(0), 1, [0, 1], Progress(TValue, 1, None), QUIET, [0], [None], [None])
  const HALFWAY := I.State(None, map[], 1, [false], Some(1), [I.Outside, I.Build])
  const UNLUCKY := Rest(HALFWAY, 1, Some(0), 1, [0, 1], Progress(TValue, 1, None), [Destroys(0, 2), Free],
                        [0], [None], [None])
  const EMPTY := Rest(HALFWAY, 0, None, 1, [-1, 1], Progress(TValue, 1, None), [Destroys(0, 1), Free],
                      [0], [None], [None])

  lemma NextFindsSession()
    ensures Reach(HOPEFUL, CHECKED_OPEN, false)
  {
    Gets(HOPEFUL, 1, false);
    hide Reach;
    Arrives(HOPEFUL, Constructs(HOPEFUL, 1, OutcomeOf(UNDERWAY, S.GetUnlock(Some(Some(0))))), CHECKED_OPEN, false);
  }

  lemma FailedIsDroppedEarly()
    ensures Reach(CHECKED_OPEN, UNLUCKY, false)
  {
    var z := Next(CHECKED_OPEN, Inside(0));
    assert z.inst.handles == map[];
    assert !I.Alive(z.inst.handles, 0);
    Do(CHECKED_OPEN, Inside(0), z, false);
    hide Reach;
    Arrives(CHECKED_OPEN, z, UNLUCKY, false);
  }

  lemma FailedTakesTheOnly()
    ensures Reach(UNLUCKY, EMPTY, false)
  {
    GivesBackOne(UNLUCKY, 0, false);
    hide Reach;
    Arrives(UNLUCKY, GivenBack(UNLUCKY, 0), EMPTY, false);
  }

  lemma NextThrows()
    ensures exists t :: Reach(EMPTY, t, false) && t.thrown
  {
    Gets(EMPTY, 1, false);
    hide Reach;
    assert Constructs(EMPTY, 1, OutcomeOf(EMPTY.progress, S.GetUnlock(None))).thrown;
  }

  /**
    It is dropped earlier, between the two `getSession` calls of the transport part of the other constructor, where
    `value()` then throws.
  */
  lemma ThrowIsReachable()
    ensures exists events, t :: IsRun(Start(2), events, t) && t.thrown
  {
    NextIsHopeful();
    NextFindsSession();
    FailedIsDroppedEarly();
    FailedTakesTheOnly();
    NextThrows();
    hide Rest, IsRun;
    var t :| Reach(EMPTY, t, false) && t.thrown;
    Then(BEGUN, HOPEFUL, CHECKED_OPEN, false);
    Then(BEGUN, CHECKED_OPEN, UNLUCKY, false);
    Then(BEGUN, UNLUCKY, EMPTY, false);
    Then(BEGUN, EMPTY, t, false);
    StartsHere(t, false);
    var events :| IsRun(Start(2), events, t);
  }
}

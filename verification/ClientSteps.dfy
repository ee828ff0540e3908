/** What threads do when nothing interrupts them: whole calls of constructors and destructors, as runs. */
module ClientSteps {
  import opened Common
  import opened ClientLives
  import opened SharedSession
  import opened SessionCalls
  import S = Session
  import I = Singleton

  /** A run leads from s to t; where `clean`, one in which every session opens. */
  ghost predicate Reach(s: State, t: State, clean: bool) {
    exists events :: IsRun(s, events, t) && (clean ==> AllSucceed(events))
  }

  ghost predicate AllSucceed(events: seq<Event>) {
    forall i :: 0 <= i < |events| ==> Succeeds(events[i])
  }

  lemma Do(s: State, e: Event, t: State, clean: bool)
    requires Enabled(s, e) && Next(s, e) == t && (clean ==> Succeeds(e))
    ensures Reach(s, t, clean)
  {
    assert IsRun(t, [], t);
    assert [e][1..] == [];
    assert IsRun(s, [e], t);
  }

  lemma {:induction false} RunsCompose(r: State, x: seq<Event>, s: State, y: seq<Event>, t: State)
    requires IsRun(r, x, s) && IsRun(s, y, t)
    ensures IsRun(r, x + y, t)
    decreases |x|
  {
    if x == [] {
      assert x + y == y;
    } else {
      assert (x + y)[0] == x[0] && (x + y)[1..] == x[1..] + y;
      hide Enabled, Next;
      RunsCompose(Next(r, x[0]), x[1..], s, y, t);
    }
  }

  lemma Then(r: State, s: State, t: State, clean: bool)
    requires Reach(r, s, clean) && Reach(s, t, clean)
    ensures Reach(r, t, clean)
  {
    var x :| IsRun(r, x, s) && (clean ==> AllSucceed(x));
    var y :| IsRun(s, y, t) && (clean ==> AllSucceed(y));
    RunsCompose(r, x, s, y, t);
    hide IsRun, Succeeds;
    assert clean ==> AllSucceed(x + y);
  }

  // ---------- calls that nothing interrupts ----------

  predicate Ready(s: State, t: Thread) {
    && !s.thrown
    && t < |s.duties| == |s.inst.pcs| == |s.sess.pcs| == |s.sess.credits|
    && s.sess.pcs[t].Idle? && s.sess.lock.None?
  }

  predicate Moves(x: S.State, e: S.Event, y: S.State) {
    S.Enabled(x, e) && S.Next(x, e) == y
  }

  /** A call of the constructor begins. */
  lemma Begins(s: State, t: Thread, y: S.State, clean: bool)
    requires !s.thrown && Building(s, t) && t < |s.duties| && t < |s.sess.pcs| && s.duties[t].Free?
    requires s.sess.pcs[t].Idle?
    requires Moves(s.sess, S.Event(t, StartOf(s, t)), y)
    ensures Reach(s, s.(sess := y), clean)
  {
    hide S.Next, S.Enabled, I.Next, I.Enabled;
    Do(s, Begin(t), s.(sess := y), clean);
  }

  /** A micro-step of the constructor that adds to the counter or returns. */
  lemma Goes(s: State, t: Thread, opening: S.Opening, y: S.State, clean: bool)
    requires !s.thrown && Building(s, t) && t < |s.duties| && t < |s.sess.pcs| && s.duties[t].Free?
    requires !s.sess.pcs[t].Idle?
    requires Moves(s.sess, S.Event(t, ActionOf(s, t, opening)), y) && (clean ==> opening.Opened?)
    ensures Reach(s, Constructs(s.(sess := y), t, OutcomeOf(s.progress, s.sess.pcs[t])), clean)
  {
    hide S.Next, S.Enabled, I.Next, I.Enabled, OutcomeOf;
    Do(s, Micro(t, opening), Constructs(s.(sess := y), t, OutcomeOf(s.progress, s.sess.pcs[t])), clean);
  }

  predicate Middle(pc: S.Pc) {
    !pc.Idle? && !pc.InitAdd? && !pc.InitFastAdd? && !pc.InitUnlock? && !pc.GetUnlock?
  }

  /** Any other micro-step of it. */
  lemma Passes(r: State, s: State, t: Thread, opening: S.Opening, y: S.State, clean: bool)
    requires Reach(r, s, clean)
    requires !s.thrown && Building(s, t) && t < |s.duties| && t < |s.sess.pcs| && s.duties[t].Free?
    requires Middle(s.sess.pcs[t])
    requires Moves(s.sess, S.Event(t, ActionOf(s, t, opening)), y) && (clean ==> opening.Opened?)
    ensures Reach(r, s.(sess := y), clean)
  {
    Goes(s, t, opening, y, clean);
    hide Reach, Moves;
    Then(r, s, s.(sess := y), clean);
  }

  predicate AtRest(x: S.State, t: Thread) {
    t < |x.pcs| == |x.credits| && x.pcs[t].Idle? && x.lock.None?
  }

  lemma GetPath(x: S.State, t: Thread)
    requires AtRest(x, t) && 0 <= x.refCount
    ensures var held, result := x.(lock := Some(t)), if 0 < x.refCount then Some(x.session) else None;
            && Moves(x, S.Event(t, S.StartGet), S.At(x, t, S.GetLock))
            && Moves(S.At(x, t, S.GetLock), S.Event(t, S.Go), S.At(held, t, S.GetCheck))
            && (0 < x.refCount ==>
                  && Moves(S.At(held, t, S.GetCheck), S.Event(t, S.Go), S.At(held, t, S.GetRead))
                  && Moves(S.At(held, t, S.GetRead), S.Event(t, S.Go), S.At(held, t, S.GetUnlock(result))))
            && (x.refCount == 0 ==>
                  Moves(S.At(held, t, S.GetCheck), S.Event(t, S.Go), S.At(held, t, S.GetUnlock(result))))
            && Moves(S.At(held, t, S.GetUnlock(result)), S.Event(t, S.Go), x)
  {
    var held, result := x.(lock := Some(t)), S.GetUnlock(if 0 < x.refCount then Some(x.session) else None);
    AtAt(x, t, S.GetLock, S.GetCheck);
    AtAt(held, t, S.GetCheck, S.GetRead);
    AtAt(held, t, S.GetRead, result);
    AtAt(held, t, S.GetCheck, result);
    AtAt(x, t, result, S.Idle);
  }

  /** A constructor's `getSession`. */
  lemma Gets(s: State, t: Thread, clean: bool)
    requires Ready(s, t) && Building(s, t) && s.duties[t].Free? && 0 <= s.sess.refCount
    requires !s.progress.stage.TInit? && !s.progress.stage.RInit?
    ensures var result := if 0 < s.sess.refCount then Some(s.sess.session) else None;
            Reach(s, Constructs(s, t, OutcomeOf(s.progress, S.GetUnlock(result))), clean)
  {
    var x := s.sess;
    var held, result := x.(lock := Some(t)), if 0 < x.refCount then Some(x.session) else None;
    var s1, s2 := s.(sess := S.At(x, t, S.GetLock)), s.(sess := S.At(held, t, S.GetCheck));
    var s3, s4 := s.(sess := S.At(held, t, S.GetRead)), s.(sess := S.At(held, t, S.GetUnlock(result)));
    GetPath(x, t);
    hide Moves, Reach, I.Next, OutcomeOf, Constructs;
    Begins(s, t, s1.sess, clean);
    Passes(s, s1, t, S.Opened, s2.sess, clean);
    if 0 < x.refCount {
      Passes(s, s2, t, S.Opened, s3.sess, clean);
      Passes(s, s3, t, S.Opened, s4.sess, clean);
    } else {
      Passes(s, s2, t, S.Opened, s4.sess, clean);
    }
    Goes(s4, t, S.Opened, x, clean);
    Then(s, s4, Constructs(s, t, OutcomeOf(s.progress, S.GetUnlock(result))), clean);
  }

  lemma FastPath(x: S.State, t: Thread)
    requires AtRest(x, t) && 0 < x.refCount
    ensures Moves(x, S.Event(t, S.StartInit), S.At(x, t, S.InitCheck))
    ensures Moves(S.At(x, t, S.InitCheck), S.Event(t, S.Go), S.At(x, t, S.InitFastAdd))
    ensures Moves(S.At(x, t, S.InitFastAdd), S.Event(t, S.Go), S.Count(x, t, 1))
  {
    AtAt(x, t, S.InitCheck, S.InitFastAdd);
    AtAt(S.Count(x, t, 1), t, S.InitFastAdd, S.Idle);
  }

  /** A constructor's `init` while the count is positive. */
  lemma InitsFast(s: State, t: Thread, clean: bool)
    requires Ready(s, t) && Building(s, t) && s.duties[t].Free? && 0 < s.sess.refCount
    requires s.progress.stage.TInit? || s.progress.stage.RInit?
    ensures Reach(s, Constructs(s.(sess := S.Count(s.sess, t, 1)), t, OutcomeOf(s.progress, S.InitFastAdd)), clean)
  {
    var x := s.sess;
    var s1, s2 := s.(sess := S.At(x, t, S.InitCheck)), s.(sess := S.At(x, t, S.InitFastAdd));
    FastPath(x, t);
    hide Moves, Reach, I.Next, OutcomeOf, Constructs;
    Begins(s, t, s1.sess, clean);
    Passes(s, s1, t, S.Opened, s2.sess, clean);
    Goes(s2, t, S.Opened, S.Count(x, t, 1), clean);
    Then(s, s2, Constructs(s.(sess := S.Count(x, t, 1)), t, OutcomeOf(s.progress, S.InitFastAdd)), clean);
  }

  lemma SlowPath(x: S.State, t: Thread)
    requires AtRest(x, t) && x.refCount == 0
    ensures var held := x.(lock := Some(t));
            && Moves(x, S.Event(t, S.StartInit), S.At(x, t, S.InitCheck))
            && Moves(S.At(x, t, S.InitCheck), S.Event(t, S.Go), S.At(x, t, S.InitLock))
            && Moves(S.At(x, t, S.InitLock), S.Event(t, S.Go), S.At(held, t, S.InitRecheck))
            && Moves(S.At(held, t, S.InitRecheck), S.Event(t, S.Go), S.At(held, t, S.InitOpen))
  {
    AtAt(x, t, S.InitCheck, S.InitLock);
    AtAt(x, t, S.InitLock, S.InitRecheck);
    AtAt(x.(lock := Some(t)), t, S.InitRecheck, S.InitOpen);
  }

  /** A constructor's `init` while the count is zero, as far as the opening. */
  lemma Reopens(s: State, t: Thread, clean: bool)
    requires Ready(s, t) && Building(s, t) && s.duties[t].Free? && s.sess.refCount == 0
    requires s.progress.stage.TInit? || s.progress.stage.RInit?
    ensures Reach(s, s.(sess := S.At(s.sess.(lock := Some(t)), t, S.InitOpen)), clean)
  {
    var x := s.sess;
    var held := x.(lock := Some(t));
    var s1, s2 := s.(sess := S.At(x, t, S.InitCheck)), s.(sess := S.At(x, t, S.InitLock));
    var s3 := s.(sess := S.At(held, t, S.InitRecheck));
    SlowPath(x, t);
    hide Moves, Reach, I.Next;
    Begins(s, t, s1.sess, clean);
    Passes(s, s1, t, S.Opened, s2.sess, clean);
    Passes(s, s2, t, S.Opened, s3.sess, clean);
    Passes(s, s3, t, S.Opened, S.At(held, t, S.InitOpen), clean);
  }

  /** The session manager with a session just opened for thread t. */
  function Opened(x: S.State, t: Thread): S.State
    requires t < |x.credits|
  {
    S.Count(x.(session := Some(x.opens), opens := x.opens + 1), t, 1)
  }

  function SessionOpened(s: State, t: Thread): State
    requires t < |s.sess.credits|
  {
    s.(sess := Opened(s.sess, t), progress := s.progress.(stage := TCheck, got := s.progress.got + 1))
  }

  /** The transport's `init` where it opens the session. */
  lemma InitOpens(s: State, t: Thread, clean: bool)
    requires Ready(s, t) && Building(s, t) && s.duties[t].Free? && s.sess.refCount == 0 && s.progress.stage.TInit?
    ensures Reach(s, SessionOpened(s, t), clean)
  {
    var x := s.sess;
    var held := x.(lock := Some(t));
    var y, z := held.(session := Some(x.opens), opens := x.opens + 1), Opened(x, t);
    var more := s.progress.(got := s.progress.got + 1);
    var s1, s2 := s.(sess := S.At(held, t, S.InitOpen)), s.(sess := S.At(y, t, S.InitAdd));
    var s3 := s.(sess := S.At(z.(lock := Some(t)), t, S.InitUnlock(OK)), progress := more);
    AtAt(held, t, S.InitOpen, S.InitAdd);
    AtAt(z.(lock := Some(t)), t, S.InitAdd, S.InitUnlock(OK));
    AtAt(z, t, S.InitUnlock(OK), S.Idle);
    assert Moves(s1.sess, S.Event(t, S.Open(S.Opened)), s2.sess);
    assert Moves(s2.sess, S.Event(t, S.Go), s3.sess);
    assert Moves(s3.sess, S.Event(t, S.Go), z);
    hide Moves, Reach, I.Next, S.Next;
    Reopens(s, t, clean);
    Passes(s, s1, t, S.Opened, s2.sess, clean);
    Goes(s2, t, S.Opened, s3.sess, clean);
    Then(s, s2, s3, clean);
    Goes(s3, t, S.Opened, z, clean);
    Then(s, s3, s.(sess := z, progress := more.(stage := TCheck)), clean);
  }

  /** A constructor's `init` where the session cannot be opened. */
  lemma InitFails(s: State, t: Thread)
    requires Ready(s, t) && Building(s, t) && s.duties[t].Free? && s.sess.refCount == 0 && s.sess.session.None?
    requires s.progress.stage.TInit? || s.progress.stage.RInit?
    ensures Reach(s, Constructs(s, t, OutcomeOf(s.progress, S.InitUnlock(INTERNAL))), false)
  {
    var x := s.sess;
    var held := x.(lock := Some(t));
    var s1, s2 := s.(sess := S.At(held, t, S.InitOpen)), s.(sess := S.At(held, t, S.InitUnlock(INTERNAL)));
    AtAt(held, t, S.InitOpen, S.InitUnlock(INTERNAL));
    AtAt(x, t, S.InitUnlock(INTERNAL), S.Idle);
    assert Moves(s1.sess, S.Event(t, S.Open(S.OpenFailed)), s2.sess);
    assert Moves(s2.sess, S.Event(t, S.Go), x);
    hide Moves, Reach, I.Next, OutcomeOf, Constructs, S.Next;
    Reopens(s, t, false);
    Passes(s, s1, t, S.OpenFailed, s2.sess, false);
    Goes(s2, t, S.Opened, x, false);
    Then(s, s2, Constructs(s, t, OutcomeOf(s.progress, S.InitUnlock(INTERNAL))), false);
  }

  /** The state after a constructor whose transport part has its reference went through undisturbed. */
  function Completed(s: State, t: Thread): State
    requires Building(s, t) && t < |s.sess.credits|
  {
    var session := s.sess.session;
    Constructs(s.(sess := S.Count(s.sess, t, 1), progress := Progress(RValue, 2, session)), t, Ends(true, session))
  }

  lemma Completes(s: State, t: Thread, clean: bool)
    requires Ready(s, t) && Building(s, t) && s.duties[t].Free? && 0 < s.sess.refCount
    requires s.progress == Progress(TCheck, 1, None)
    ensures Reach(s, Completed(s, t), clean)
  {
    var session := s.sess.session;
    var s1, s2 := s.(progress := Progress(TValue, 1, None)), s.(progress := Progress(RInit, 1, session));
    var s3 := s.(sess := S.Count(s.sess, t, 1), progress := Progress(RCheck, 2, session));
    var s4 := s3.(progress := Progress(RValue, 2, session));
    hide Reach, I.Next;
    Gets(s, t, clean);
    Gets(s1, t, clean);
    Then(s, s1, s2, clean);
    InitsFast(s2, t, clean);
    Then(s, s2, s3, clean);
    Gets(s3, t, clean);
    Then(s, s3, s4, clean);
    Gets(s4, t, clean);
    Then(s, s4, Completed(s, t), clean);
  }

  /** A step of a thread inside `instance`. */
  lemma Walks(r: State, s: State, t: Thread, i: I.State, clean: bool)
    requires Reach(r, s, clean) && !s.thrown && ClientLives.AtRest(s, t) && I.Enabled(s.inst, I.Step(t))
    requires I.Next(s.inst, I.Step(t)) == i && !s.inst.pcs[t].DropFailed?
    ensures Reach(r, s.(inst := i), clean)
  {
    hide I.Next, I.Enabled;
    Do(s, Inside(t), s.(inst := i), clean);
    hide Reach;
    Then(r, s, s.(inst := i), clean);
  }

  function Placed(i: I.State, t: Thread, pc: I.Pc): I.State
    requires t < |i.pcs|
  {
    i.(pcs := i.pcs[t := pc])
  }

  function Entered(s: State, t: Thread): State
    requires t < |s.inst.pcs|
  {
    s.(inst := Placed(s.inst.(lock := Some(t)), t, I.Build))
  }

  /** A thread enters `instance` and finds no client alive. */
  lemma Enters(s: State, t: Thread, clean: bool)
    requires !s.thrown && ClientLives.AtRest(s, t) && s.inst.pcs[t].Outside?
    requires s.inst.lock.None? && !I.NamedAlive(s.inst)
    ensures Reach(s, Entered(s, t), clean)
  {
    var i := s.inst;
    var j := i.(lock := Some(t));
    var s1, s2 := s.(inst := Placed(i, t, I.TryLock)), s.(inst := Placed(i, t, I.Acquire));
    var s3, s4 := s.(inst := Placed(j, t, I.Retry)), s.(inst := Placed(j, t, I.Build));
    assert !I.NamedAlive(s1.inst) && !I.NamedAlive(s3.inst);
    assert s1.inst.pcs[t := I.Acquire] == s2.inst.pcs && s2.inst.pcs[t := I.Retry] == s3.inst.pcs;
    assert s3.inst.pcs[t := I.Build] == s4.inst.pcs;
    assert I.Next(s1.inst, I.Step(t)) == s2.inst && I.Next(s2.inst, I.Step(t)) == s3.inst;
    assert I.Next(s3.inst, I.Step(t)) == s4.inst;
    assert I.Next(i, I.Call(t)) == s1.inst;
    hide I.NamedAlive, I.Next, Reach;
    Do(s, Call(t), s1, clean);
    Walks(s, s1, t, s2.inst, clean);
    Walks(s, s2, t, s3.inst, clean);
    Walks(s, s3, t, s4.inst, clean);
  }

  function Left(s: State, t: Thread, h: I.Token): State
    requires t < |s.inst.pcs| && h in s.inst.handles
  {
    var c := s.inst.handles[h].client;
    var i := s.inst.(named := Some(c), lock := None, handles := s.inst.handles[h := I.Handle(c, None)]);
    s.(inst := Placed(i, t, I.Outside))
  }

  /** A client that passed is named and returned. */
  lemma Leaves(s: State, t: Thread, h: I.Token, clean: bool)
    requires !s.thrown && ClientLives.AtRest(s, t) && s.inst.pcs[t] == I.Assess(h)
    requires I.Passed(s.inst, h)
    ensures Reach(s, Left(s, t, h), clean)
  {
    var c := s.inst.handles[h].client;
    var s1 := s.(inst := Placed(s.inst, t, I.Name(h)));
    var s2 := s.(inst := Placed(s.inst.(named := Some(c)), t, I.Leave(h)));
    var i := s.inst.(named := Some(c), lock := None, handles := s.inst.handles[h := I.Handle(c, None)]);
    var s3 := s.(inst := Placed(i, t, I.Outside));
    assert s1.inst.pcs[t := I.Leave(h)] == s2.inst.pcs && s2.inst.pcs[t := I.Outside] == s3.inst.pcs;
    Do(s, Inside(t), s1, clean);
    hide Reach;
    Walks(s, s1, t, s2.inst, clean);
    Walks(s, s2, t, s3.inst, clean);
  }

  function GivenUp(s: State, t: Thread, h: I.Token): State
    requires t < |s.inst.pcs|
  {
    s.(inst := Placed(s.inst.(lock := None), t, I.DropFailed(h)))
  }

  /** A client that failed is about to be dropped, the lock already released. */
  lemma Gives(s: State, t: Thread, h: I.Token)
    requires !s.thrown && ClientLives.AtRest(s, t) && s.inst.pcs[t] == I.Assess(h)
    requires h in s.inst.handles && s.inst.handles[h].client < |s.inst.status| && !I.Passed(s.inst, h)
    ensures Reach(s, GivenUp(s, t, h), false)
  {
    var s1 := s.(inst := Placed(s.inst, t, I.LeaveFailed(h)));
    var s2 := s.(inst := Placed(s.inst.(lock := None), t, I.DropFailed(h)));
    assert s1.inst.pcs[t := I.DropFailed(h)] == s2.inst.pcs;
    Do(s, Inside(t), s1, false);
    hide Reach;
    Walks(s, s1, t, s2.inst, false);
  }

  // ---------- a destructor ----------

  /** A destructor begins a call of `term`. */
  lemma Terminates(s: State, t: Thread, y: S.State, clean: bool)
    requires !s.thrown && t < |s.duties| && t < |s.sess.pcs| && s.duties[t].Destroys? && s.duties[t].calls > 0
    requires s.sess.pcs[t].Idle? && Moves(s.sess, S.Event(t, S.StartTerm), y)
    ensures Reach(s, s.(sess := y, duties := s.duties[t := s.duties[t].(calls := s.duties[t].calls - 1)]), clean)
  {
    hide S.Next, S.Enabled, I.Next, I.Enabled;
    Do(s, Begin(t), s.(sess := y, duties := s.duties[t := s.duties[t].(calls := s.duties[t].calls - 1)]), clean);
  }

  predicate Destroying(s: State, t: Thread) {
    && !s.thrown && !Building(s, t) && t < |s.duties| && t < |s.sess.pcs|
    && s.duties[t].Destroys? && s.duties[t].client < |s.held|
  }

  /** It takes a micro-step. */
  lemma Ceases(r: State, s: State, t: Thread, y: S.State, clean: bool)
    requires Reach(r, s, clean) && Destroying(s, t) && !s.sess.pcs[t].Idle? && !s.sess.pcs[t].InitOpen?
    requires Moves(s.sess, S.Event(t, S.Go), y)
    ensures Reach(r, Destructs(s.(sess := y), t, s.sess.pcs[t]), clean)
  {
    hide S.Next, S.Enabled, I.Next, I.Enabled;
    var z := Destructs(s.(sess := y), t, s.sess.pcs[t]);
    Do(s, Micro(t, S.Opened), z, clean);
    hide Reach, Destructs;
    Then(r, s, z, clean);
  }

  /** The session manager after a whole call of `term` by thread t. */
  function Terminated(x: S.State, t: Thread): S.State
    requires t < |x.credits|
  {
    if x.refCount == 1 then S.Count(x, t, -1).(session := None) else S.Count(x, t, -1)
  }

  lemma TermPath(x: S.State, t: Thread)
    requires AtRest(x, t) && 0 < x.refCount
    ensures var held, y := x.(lock := Some(t)), S.Count(x, t, -1).(lock := Some(t));
            var z := Terminated(x, t).(lock := Some(t));
            && Moves(x, S.Event(t, S.StartTerm), S.At(x, t, S.TermLock))
            && Moves(S.At(x, t, S.TermLock), S.Event(t, S.Go), S.At(held, t, S.TermCheck))
            && Moves(S.At(held, t, S.TermCheck), S.Event(t, S.Go), S.At(held, t, S.TermSub))
            && Moves(S.At(held, t, S.TermSub), S.Event(t, S.Go), S.At(y, t, S.TermReadBack))
            && (x.refCount == 1 ==>
                  && Moves(S.At(y, t, S.TermReadBack), S.Event(t, S.Go), S.At(y, t, S.TermClose))
                  && Moves(S.At(y, t, S.TermClose), S.Event(t, S.Go), S.At(z, t, S.TermUnlock)))
            && (x.refCount != 1 ==> Moves(S.At(y, t, S.TermReadBack), S.Event(t, S.Go), S.At(z, t, S.TermUnlock)))
            && Moves(S.At(z, t, S.TermUnlock), S.Event(t, S.Go), Terminated(x, t))
  {
    var held, y, z := x.(lock := Some(t)), S.Count(x, t, -1).(lock := Some(t)), Terminated(x, t);
    AtAt(x, t, S.TermLock, S.TermCheck);
    AtAt(held, t, S.TermCheck, S.TermSub);
    AtAt(y, t, S.TermSub, S.TermReadBack);
    AtAt(y, t, S.TermReadBack, S.TermClose);
    AtAt(z.(lock := Some(t)), t, S.TermClose, S.TermUnlock);
    AtAt(z.(lock := Some(t)), t, S.TermReadBack, S.TermUnlock);
    AtAt(z, t, S.TermUnlock, S.Idle);
  }

  /** The state after a destructor's call of `term` that nothing interrupted. */
  function GivenBack(s: State, t: Thread): State
    requires Destroying(s, t) && s.duties[t].calls > 0 && t < |s.sess.credits|
  {
    var c, k := s.duties[t].client, s.duties[t].calls - 1;
    s.(sess := Terminated(s.sess, t), duties := s.duties[t := if k == 0 then Free else Destroys(c, k)],
       held := s.held[c := if s.held[c] > 0 then s.held[c] - 1 else 0])
  }

  lemma GivesBackOne(s: State, t: Thread, clean: bool)
    requires Ready(s, t) && Destroying(s, t) && s.duties[t].calls > 0 && 0 < s.sess.refCount
    ensures Reach(s, GivenBack(s, t), clean)
  {
    var x, d := s.sess, s.duties[t].(calls := s.duties[t].calls - 1);
    var held, y, z := x.(lock := Some(t)), S.Count(x, t, -1).(lock := Some(t)), Terminated(x, t).(lock := Some(t));
    var s1 := s.(sess := S.At(x, t, S.TermLock), duties := s.duties[t := d]);
    var s2, s3 := s1.(sess := S.At(held, t, S.TermCheck)), s1.(sess := S.At(held, t, S.TermSub));
    var s4 := s1.(sess := S.At(y, t, S.TermReadBack), held := GivenBack(s, t).held);
    var s5, s6 := s4.(sess := S.At(y, t, S.TermClose)), s4.(sess := S.At(z, t, S.TermUnlock));
    TermPath(x, t);
    hide Moves, Reach, Terminated;
    Terminates(s, t, s1.sess, clean);
    Ceases(s, s1, t, s2.sess, clean);
    Ceases(s, s2, t, s3.sess, clean);
    Ceases(s, s3, t, s4.sess, clean);
    if x.refCount == 1 {
      Ceases(s, s4, t, s5.sess, clean);
      Ceases(s, s5, t, s6.sess, clean);
    } else {
      Ceases(s, s4, t, s6.sess, clean);
    }
    Ceases(s, s6, t, Terminated(x, t), clean);
    assert s.duties[t := d][t := Free] == s.duties[t := Free];
  }

  // ---------- states of two threads ----------

  /** The two states have the same parts. */
  ghost predicate SameParts(s: State, t: State) {
    && s.inst.named == t.inst.named && s.inst.handles == t.inst.handles && s.inst.tokens == t.inst.tokens
    && s.inst.status == t.inst.status && s.inst.lock == t.inst.lock && s.inst.pcs == t.inst.pcs
    && s.sess.refCount == t.sess.refCount && s.sess.session == t.sess.session && s.sess.opens == t.sess.opens
    && s.sess.lock == t.sess.lock && s.sess.pcs == t.sess.pcs && s.sess.credits == t.sess.credits
    && s.progress == t.progress && s.duties == t.duties && s.thrown == t.thrown
    && s.held == t.held && s.transports == t.transports && s.rpcs == t.rpcs
  }

  lemma Arrives(r: State, s: State, t: State, clean: bool)
    requires Reach(r, s, clean) && SameParts(s, t)
    ensures Reach(r, t, clean)
  {
    assert s.inst == t.inst && s.sess == t.sess;
    assert s == t;
  }
}

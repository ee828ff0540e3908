/** What the clients hold of the session they share, and what becomes of it: thefts, races, and nothing else. */
module SharedSession {
  import opened Common
  import opened ClientLives
  import S = Session
  import I = Singleton
  import Clients

  // ---------- references ----------

  /** All references the clients hold, the one under construction included. */
  function Held(s: State): int {
    S.Sum(s.held) + s.progress.got
  }

  /** The count is what the clients hold. */
  predicate Exact(s: State) {
    s.sess.refCount == Held(s)
  }

  /** A destructor calls `term` for a client with nothing left to give back, and takes a reference of another. */
  predicate Steals(s: State, e: Event) {
    GivesBack(s, e) && s.held[s.duties[e.thread].client] == 0
  }

  /** The race of the session manager. */
  predicate Races(s: State, e: Event) {
    SessionEvent(s, e).Some? && S.Races(s.sess, SessionEvent(s, e).value)
  }

  lemma HeldUpdate(held: seq<nat>, c: nat, v: nat)
    requires c < |held|
    ensures S.Sum(held[c := v]) == S.Sum(held) - held[c] + v
    ensures held[c] <= S.Sum(held)
  {
    S.SumUpdate(held, c, v);
    S.HoldersAreCounted(held);
  }

  lemma CountChanges(s: S.State, e: S.Event)
    requires S.Enabled(s, e)
    ensures S.Next(s, e).refCount ==
            s.refCount + (if Adds(s.pcs[e.thread]) then 1 else if s.pcs[e.thread].TermSub? then -1 else 0)
  {
  }

  lemma GotChanges(p: Progress, pc: S.Pc)
    ensures OutcomeOf(p, pc).Goes? ==> OutcomeOf(p, pc).next.got == p.got + (if Adds(pc) then 1 else 0)
    ensures !OutcomeOf(p, pc).Goes? ==> !Adds(pc)
  {
  }

  /** What a step does to the references: it keeps the count exact, exactly when it does not steal. */
  lemma StepKeepsExact(s: State, e: Event)
    requires Sound(s) && Enabled(s, e) && Exact(s)
    ensures Exact(Next(s, e)) <==> !Steals(s, e)
  {
    StepInSession(s, e);
    StepInClients(s, e);
    if e.Begin? || e.Micro? {
      assert PlaceOk(s, e.thread) && DutyOk(s, e.thread);
      CountChanges(s.sess, SessionEvent(s, e).value);
      GotChanges(s.progress, s.sess.pcs[e.thread]);
    }
    if GivesBack(s, e) {
      var c := s.duties[e.thread].client;
      HeldUpdate(s.held, c, if s.held[c] > 0 then s.held[c] - 1 else 0);
    }
    Clients.SumAppend(s.held, [s.progress.got]);
    assert S.Sum([s.progress.got]) == s.progress.got by { assert [s.progress.got][1..] == []; }
    hide Next, S.Safe, S.Next, S.Enabled, I.Enabled, I.Inv, S.Sum, I.Alive, OutcomeOf;
  }

  // ---------- until something goes wrong ----------

  /** What holds of the constructor under way, where `others` is what the other clients hold. */
  predicate BuilderOk(p: Progress, pc: S.Pc, session: Option<S.SessionId>, others: int) {
    var added, first := if pc == S.InitUnlock(OK) then 1 else 0, if p.transport.Some? then 1 else 0;
    && (p.transport.Some? ==> p.transport == session)
    && (pc.InitUnlock? && pc.code != OK ==> p.got == 0 && others == 0)
    && match p.stage
       case TInit => p.transport.None? && p.got == added
       case TCheck =>
         && p.transport.None? && p.got <= 1 && (p.got == 0 ==> others == 0)
         && (pc.GetRead? ==> p.got == 1) && (pc.GetUnlock? ==> (pc.result.Some? <==> p.got == 1))
       case TValue => p.transport.None? && p.got == 1 && (pc.GetUnlock? ==> pc.result == Some(session))
       case RInit => p.got == first + added
       case RCheck => p.got == first + 1 && (pc.GetUnlock? ==> pc.result.Some?)
       case RValue => p.got == first + 1 && (pc.GetUnlock? ==> pc.result == Some(session))
  }

  /** Where a constructor ends, it holds what it was given sessions for, and these are the open one. */
  predicate EndsWell(p: Progress, o: Outcome, session: Option<S.SessionId>) {
    && !o.Throws?
    && (o.Ends? && o.ok ==> o.rpc == session && p.got == (if p.transport.Some? then 2 else 1))
    && (o.Ends? && !o.ok ==> p.got == 0)
  }

  /** A micro-step of the constructor. */
  lemma BuilderSteps(x: S.State, e: S.Event, p: Progress, others: nat)
    requires S.Usable(x) && S.Enabled(x, e) && !S.Races(x, e)
    requires x.refCount == others + p.got
    requires FitsStage(x.pcs[e.thread], p.stage) && BuilderOk(p, x.pcs[e.thread], x.session, others)
    ensures var o, y := OutcomeOf(p, x.pcs[e.thread]), S.Next(x, e);
            && EndsWell(p, o, y.session)
            && (o.Goes? && !x.pcs[e.thread].Idle? ==> BuilderOk(o.next, y.pcs[e.thread], y.session, others))
  {
    if x.refCount > 0 { S.CountedSessionStays(x, e); }
    hide S.Sum, S.FastAddPending;
  }

  /**
    A client that failed holds nothing. One that passed holds a reference for each session it was given until its
    destructor runs, and these sessions are the open one.
  */
  predicate ClientOk(s: State, c: I.Client)
    requires c < |s.held| == |s.transports| == |s.rpcs| == |s.inst.status|
  {
    && (!s.inst.status[c] ==> s.held[c] == 0)
    && (s.inst.status[c] && I.Alive(s.inst.handles, c) ==>
          && s.rpcs[c] == s.sess.session
          && s.held[c] == (if s.transports[c].Some? then 2 else 1)
          && (s.transports[c].Some? ==> s.transports[c] == s.sess.session))
  }

  predicate BuildsWell(s: State, t: Thread)
    requires t < |s.sess.pcs|
  {
    Building(s, t) ==> BuilderOk(s.progress, s.sess.pcs[t], s.sess.session, S.Sum(s.held))
  }

  ghost predicate Healthy(s: State) {
    && Sound(s) && Exact(s) && S.Usable(s.sess) && !s.thrown
    && (forall t: Thread :: t < |s.duties| ==> BuildsWell(s, t))
    && (forall c: I.Client :: c < |s.held| ==> ClientOk(s, c))
  }

  predicate Undisturbed(s: State, e: Event) {
    !Steals(s, e) && !Races(s, e)
  }

  lemma StepKeepsUsable(s: State, e: Event)
    requires S.Usable(s.sess) && Enabled(s, e) && !Races(s, e)
    ensures S.Usable(Next(s, e).sess)
    ensures 0 < s.sess.refCount ==> s.sess.session.Some? && Next(s, e).sess.session == s.sess.session
  {
    StepInSession(s, e);
    if SessionEvent(s, e).Some? {
      S.StepKeepsUsable(s.sess, SessionEvent(s, e).value);
      if 0 < s.sess.refCount { S.CountedSessionStays(s.sess, SessionEvent(s, e).value); }
    } else if 0 < s.sess.refCount {
      hide S.Safe;
    }
    hide S.Usable, Next, Enabled, S.Next, S.Enabled, S.Races;
  }

  /** What the others hold only gets less. */
  lemma HeldByOthers(s: State, e: Event)
    requires Sound(s) && Enabled(s, e) && !EndsHere(s, e)
    ensures 0 <= S.Sum(Next(s, e).held) <= S.Sum(s.held)
  {
    StepInClients(s, e);
    Clients.SumIsNat(Next(s, e).held);
    if GivesBack(s, e) {
      var c := s.duties[e.thread].client;
      HeldUpdate(s.held, c, if s.held[c] > 0 then s.held[c] - 1 else 0);
    }
    hide Next, Enabled, S.Sum, S.Safe, I.Inv, PlaceOk, DutyOk, Outcomes;
  }

  /** The constructor while another thread takes a step. */
  lemma BuilderWaits(s: State, e: Event, t: Thread)
    requires Healthy(s) && Enabled(s, e) && Undisturbed(s, e) && t < |s.duties| && (e.Copy? || t != e.thread)
    ensures Shape(Next(s, e)) && BuildsWell(Next(s, e), t)
  {
    OthersStay(s, e, t);
    StepKeepsUsable(s, e);
    if Building(s, t) {
      HeldByOthers(s, e);
      Clients.SumIsNat(s.held);
      assert BuildsWell(s, t);
    }
    hide Next, Enabled, S.Sum, S.Usable, Sound, Races, Steals, ClientOk;
  }

  /** The constructor while it takes a step itself. */
  lemma BuilderGoes(s: State, e: Event)
    requires Healthy(s) && Enabled(s, e) && Undisturbed(s, e) && !e.Copy? && e.thread < |s.duties|
    ensures Shape(Next(s, e)) && BuildsWell(Next(s, e), e.thread)
    ensures Outcomes(s, e).Some? ==> EndsWell(s.progress, Outcomes(s, e).value, Next(s, e).sess.session)
  {
    var t := e.thread;
    StepKeepsShape(s, e);
    StepInInstance(s, e);
    StepInSession(s, e);
    StepInClients(s, e);
    Clients.SumIsNat(s.held);
    assert BuildsWell(s, t) && PlaceOk(s, t);
    if Building(s, t) && e.Micro? {
      BuilderSteps(s.sess, SessionEvent(s, e).value, s.progress, S.Sum(s.held));
      hide OutcomeOf, EndsWell, BuilderOk;
    }
    hide Next, S.Sum, S.Safe, S.Usable, I.Alive, ClientOk, DutyOk, I.Kept, I.Knows, I.IsNamed;
  }

  /** A client there was before the step. */
  lemma ClientStaysOk(s: State, e: Event, c: I.Client)
    requires Healthy(s) && Enabled(s, e) && Undisturbed(s, e) && c < |s.held|
    ensures Shape(Next(s, e)) && c < |Next(s, e).held| && ClientOk(Next(s, e), c)
  {
    StepKeepsShape(s, e);
    InstanceLeaves(s, e);
    StepKeepsUsable(s, e);
    StepInClients(s, e);
    HeldUpdate(s.held, c, 0);
    assert ClientOk(s, c);
    if GivesBack(s, e) { assert DutyOk(s, e.thread); }
    hide Next, Enabled, S.Sum, S.Safe, S.Usable, I.Inv, I.Alive, PlaceOk, BuildsWell, Races, Outcomes;
  }

  /** The client a constructor has just made. */
  lemma NewClientOk(s: State, e: Event)
    requires Healthy(s) && Enabled(s, e) && Undisturbed(s, e) && EndsHere(s, e)
    ensures Shape(Next(s, e)) && |Next(s, e).held| == |s.held| + 1 && ClientOk(Next(s, e), |s.held|)
  {
    StepKeepsShape(s, e);
    InstanceLeaves(s, e);
    StepKeepsUsable(s, e);
    StepInClients(s, e);
    BuilderGoes(s, e);
    Clients.SumIsNat(s.held);
    assert BuildsWell(s, e.thread);
    hide Next, Enabled, S.Sum, S.Safe, S.Usable, I.Inv, I.Alive, PlaceOk, DutyOk, OutcomeOf;
  }

  lemma StepKeepsHealthy(s: State, e: Event)
    requires Healthy(s) && Enabled(s, e) && Undisturbed(s, e)
    ensures Healthy(Next(s, e))
  {
    StepKeepsSound(s, e);
    StepKeepsExact(s, e);
    StepKeepsUsable(s, e);
    StepInClients(s, e);
    StepInDuties(s, e);
    if e.Micro? { BuilderGoes(s, e); }
    hide Next, Enabled, S.Usable, ClientOk, BuildsWell, Exact, Steals, Races, OutcomeOf;
    forall t: Thread | t < |s.duties|
      ensures BuildsWell(Next(s, e), t)
    {
      if e.Copy? || t != e.thread { BuilderWaits(s, e, t); } else { BuilderGoes(s, e); }
    }
    forall c: I.Client | c < |Next(s, e).held|
      ensures ClientOk(Next(s, e), c)
    {
      if c < |s.held| { ClientStaysOk(s, e, c); } else { NewClientOk(s, e); }
    }
    hide Sound;
  }

  /** After the race the session manager is not usable. */
  lemma RaceSpoils(s: State, e: Event)
    requires Sound(s) && Enabled(s, e) && Races(s, e)
    ensures !S.Usable(Next(s, e).sess)
  {
    StepInSession(s, e);
    S.RaceLeavesUnusable(s.sess, SessionEvent(s, e).value);
    hide Next, Enabled, S.Usable, S.Next, S.Enabled;
  }

  /** A step keeps everything in order exactly when it neither steals nor races. */
  lemma HealthyUnlessDisturbed(s: State, e: Event)
    requires Healthy(s) && Enabled(s, e)
    ensures Healthy(Next(s, e)) <==> Undisturbed(s, e)
  {
    if Undisturbed(s, e) {
      StepKeepsHealthy(s, e);
    } else if Races(s, e) {
      RaceSpoils(s, e);
    } else {
      StepKeepsExact(s, e);
    }
    hide Next, Enabled, S.Usable, Sound, Exact, Steals, Races, ClientOk, BuildsWell;
  }

  lemma StartIsHealthy(n: nat)
    ensures Healthy(Start(n))
  {
    StartIsSound(n);
    S.StartIsUsable(n);
  }

  // ---------- whole runs ----------

  ghost predicate AlwaysExact(s: State, events: seq<Event>)
    decreases |events|
  {
    Exact(s) && (events == [] || (Enabled(s, events[0]) && AlwaysExact(Next(s, events[0]), events[1..])))
  }

  ghost predicate NeverSteals(s: State, events: seq<Event>)
    decreases |events|
  {
    events == []
    || (Enabled(s, events[0]) && !Steals(s, events[0]) && NeverSteals(Next(s, events[0]), events[1..]))
  }

  /**
    Over every run, races or not: the count is at every point what the clients hold exactly when no destructor
    steals.
  */
  lemma {:induction false} ExactUntilTheft(s: State, events: seq<Event>)
    requires Sound(s) && Exact(s)
    ensures AlwaysExact(s, events) <==> NeverSteals(s, events)
    decreases |events|
  {
    if events == [] {
    } else if Enabled(s, events[0]) {
      StepKeepsSound(s, events[0]);
      StepKeepsExact(s, events[0]);
      hide Sound, Next, Enabled, Exact, Steals;
      if Exact(Next(s, events[0])) {
        ExactUntilTheft(Next(s, events[0]), events[1..]);
      }
    }
  }

  ghost predicate AlwaysHealthy(s: State, events: seq<Event>)
    decreases |events|
  {
    Healthy(s) && (events == [] || (Enabled(s, events[0]) && AlwaysHealthy(Next(s, events[0]), events[1..])))
  }

  ghost predicate NeverDisturbed(s: State, events: seq<Event>)
    decreases |events|
  {
    events == []
    || (Enabled(s, events[0]) && Undisturbed(s, events[0]) && NeverDisturbed(Next(s, events[0]), events[1..]))
  }

  /** Over every run everything is in order at every point exactly when no step steals and none races. */
  lemma {:induction false} HealthyUntilDisturbed(s: State, events: seq<Event>)
    requires Healthy(s)
    ensures AlwaysHealthy(s, events) <==> NeverDisturbed(s, events)
    decreases |events|
  {
    if events == [] {
    } else if Enabled(s, events[0]) {
      HealthyUnlessDisturbed(s, events[0]);
      hide Healthy, Next, Enabled, Undisturbed;
      if Healthy(Next(s, events[0])) {
        HealthyUntilDisturbed(Next(s, events[0]), events[1..]);
      }
    }
  }

  lemma {:induction false} HealthyAtTheEnd(s: State, events: seq<Event>, t: State)
    requires Healthy(s) && IsRun(s, events, t) && NeverDisturbed(s, events)
    ensures Healthy(t)
    decreases |events|
  {
    if events == [] {
    } else {
      HealthyUnlessDisturbed(s, events[0]);
      hide Healthy, Next, Enabled, Undisturbed;
      HealthyAtTheEnd(Next(s, events[0]), events[1..], t);
    }
  }

  /**
    Until the first theft or race, under every interleaving: no constructor has thrown; and a client that was
    returned to a caller holds its references, the count covers them, a session is open, and the sessions the client
    was given are that session.
  */
  lemma ReturnedClientIsServed(n: nat, events: seq<Event>, t: State)
    requires IsRun(Start(n), events, t) && NeverDisturbed(Start(n), events)
    ensures !t.thrown
    ensures forall h :: h in t.inst.handles && t.inst.handles[h].keeper.None? ==> IsServed(t, t.inst.handles[h].client)
  {
    StartIsHealthy(n);
    HealthyAtTheEnd(Start(n), events, t);
    forall h | h in t.inst.handles && t.inst.handles[h].keeper.None?
      ensures IsServed(t, t.inst.handles[h].client)
    {
      var c := t.inst.handles[h].client;
      assert I.IsNamed(t.inst, h);
      assert I.Alive(t.inst.handles, c);
      assert ClientOk(t, c);
      HeldUpdate(t.held, c, 0);
      hide S.Sum, IsRun, NeverDisturbed, PlaceOk, DutyOk, BuildsWell;
    }
  }

  predicate IsServed(s: State, c: I.Client) {
    && c < |s.held| == |s.transports| == |s.rpcs|
    && 0 < s.held[c] <= s.sess.refCount
    && s.held[c] == (if s.transports[c].Some? then 2 else 1)
    && s.sess.session.Some? && s.rpcs[c] == s.sess.session
    && (s.transports[c].Some? ==> s.transports[c] == s.sess.session)
  }

  /**
    Who steals: the destructor of a client that failed, at its first `term` and whenever another holds a reference,
    and so in particular while the client that was returned is alive.
  */
  lemma FailedClientSteals(s: State, t: Thread, opening: S.Opening)
    requires Healthy(s) && t < |s.duties| && s.duties[t].Destroys? && s.sess.pcs[t].TermCheck?
    requires s.duties[t].client < |s.inst.status| && !s.inst.status[s.duties[t].client]
    ensures Enabled(s, Micro(t, opening))
    ensures var s' := Next(s, Micro(t, opening));
            && (s'.sess.pcs[t].TermSub? <==> s.sess.refCount > 0)
            && (s.sess.refCount > 0 ==> Enabled(s', Micro(t, opening)) && Steals(s', Micro(t, opening)))
    ensures I.NamedAlive(s.inst) ==> s.sess.refCount > 0
  {
    var c := s.duties[t].client;
    assert PlaceOk(s, t) && DutyOk(s, t) && ClientOk(s, c);
    if I.NamedAlive(s.inst) {
      var d := s.inst.named.value;
      assert ClientOk(s, d);
      HeldUpdate(s.held, d, 0);
      Clients.SumIsNat(s.held);
    }
    hide S.Sum, I.Kept, I.Knows, S.Safe, S.Usable, BuildsWell;
  }

  // ---------- the race ----------

  ghost predicate RaceFree(s: State, events: seq<Event>, t: State)
    decreases |events|
  {
    if events == [] then s == t
    else Enabled(s, events[0]) && !Races(s, events[0]) && RaceFree(Next(s, events[0]), events[1..], t)
  }

  lemma {:induction false} RaceFreeStaysUsable(s: State, events: seq<Event>, t: State)
    requires S.Usable(s.sess) && RaceFree(s, events, t)
    ensures S.Usable(t.sess)
    decreases |events|
  {
    if events == [] {
    } else {
      StepKeepsUsable(s, events[0]);
      hide S.Usable, Next, Enabled, Races;
      RaceFreeStaysUsable(Next(s, events[0]), events[1..], t);
    }
  }

  lemma RaceFreeStep(s: State, e: Event, events: seq<Event>, t: State)
    requires Enabled(s, e) && !Races(s, e) && RaceFree(Next(s, e), events, t)
    ensures RaceFree(s, [e] + events, t)
  {
    assert ([e] + events)[1..] == events;
  }

  /** The last steps of a close and of an increment without the lock, seen from the session manager. */
  lemma MicroStep(s: State, t: Thread, opening: S.Opening)
    requires Sound(s) && !s.thrown && t < |s.duties|
    requires var pc := s.sess.pcs[t];
             pc.TermReadBack? || pc.InitFastAdd? || pc.TermClose? || pc.TermUnlock?
    ensures var e := Micro(t, opening);
            && Enabled(s, e)
            && SessionEvent(s, e) == Some(S.Event(t, S.Go))
            && Sound(Next(s, e)) && |Next(s, e).duties| == |s.duties|
            && Next(s, e).sess == S.Next(s.sess, S.Event(t, S.Go))
            && !Next(s, e).thrown
  {
    assert PlaceOk(s, t) && DutyOk(s, t);
    var e := Micro(t, opening);
    StepInSession(s, e);
    StepInClients(s, e);
    StepInDuties(s, e);
    StepKeepsSound(s, e);
    hide Next, I.Inv, S.Safe, S.Next, DutyOk;
  }

  /** Wherever the race is taken, three steps after it the count is positive, the lock free and no session open. */
  lemma RaceBreaks(s: State, e: Event)
    requires Sound(s) && Enabled(s, e) && Races(s, e)
    ensures exists es, z :: RaceFree(Next(s, e), es, z) && S.Broken(z.sess)
  {
    var u: Thread :| u < |s.sess.pcs| && s.sess.pcs[u].InitFastAdd?;
    MicroStep(s, e.thread, e.opening);
    hide Next, Sound, Enabled, S.Safe;
    AfterTheRace(Next(s, e), e.thread, u);
  }

  lemma AfterTheRace(s: State, t: Thread, u: Thread)
    requires Sound(s) && !s.thrown && t < |s.duties| && u < |s.duties|
    requires s.sess.pcs[t].TermClose? && s.sess.pcs[u].InitFastAdd? && s.sess.refCount == 0
    ensures exists es, z :: RaceFree(s, es, z) && S.Broken(z.sess)
  {
    var add, go := Micro(u, S.Opened), Micro(t, S.Opened);
    hide Next, Enabled, S.Safe, SessionEvent, I.Inv, PlaceOk, DutyOk, ProgressOk;
    MicroStep(s, u, S.Opened);
    var s2 := Next(s, add);
    MicroStep(s2, t, S.Opened);
    var s3 := Next(s2, go);
    MicroStep(s3, t, S.Opened);
    var z := Next(s3, go);
    hide Sound;
    assert s3.sess.refCount == 1 && s3.sess.session.None? && s3.sess.pcs[t].TermUnlock?;
    assert S.Broken(z.sess);
    assert !Races(s, add) && !Races(s2, go) && !Races(s3, go);
    hide S.Next, Races;
    assert RaceFree(z, [], z);
    RaceFreeStep(s3, go, [], z);
    RaceFreeStep(s2, go, [go], z);
    RaceFreeStep(s, add, [go] + [go], z);
  }

  /**
    From an orderly state, a step makes a positive count without an open session reachable, without a further race,
    exactly when it is the race: thefts alone do not.
  */
  lemma OnlyRacesBreak(s: State, e: Event)
    requires Sound(s) && S.Usable(s.sess) && Enabled(s, e)
    ensures Races(s, e) <==> exists es, z :: RaceFree(Next(s, e), es, z) && S.Broken(z.sess)
  {
    if Races(s, e) {
      RaceBreaks(s, e);
    } else {
      StepKeepsUsable(s, e);
      forall es, z | RaceFree(Next(s, e), es, z)
        ensures !S.Broken(z.sess)
      {
        RaceFreeStaysUsable(Next(s, e), es, z);
      }
    }
  }

  // ---------- where every session opens ----------

  predicate Succeeds(e: Event) {
    e.Micro? ==> e.opening.Opened?
  }

  predicate PaidBuilder(p: Progress, pc: S.Pc) {
    var added := if pc.InitUnlock? then 1 else 0;
    && (pc.InitUnlock? ==> pc.code == OK)
    && (pc.GetUnlock? ==> pc.result.Some?)
    && p.got == match p.stage
                case TInit => added
                case TCheck => 1
                case TValue => 1
                case RInit => 1 + added
                case RCheck => 2
                case RValue => 2
  }

  /** A destructor's client holds a reference for each `term` that has still to take one. */
  predicate PaidDuty(s: State, t: Thread)
    requires t < |s.duties| && t < |s.sess.pcs|
  {
    s.duties[t].Destroys? ==>
      var pc := s.sess.pcs[t];
      && s.duties[t].client < |s.held|
      && s.held[s.duties[t].client] ==
         s.duties[t].calls + (if pc.TermLock? || pc.TermCheck? || pc.TermSub? then 1 else 0)
  }

  predicate PaidClient(s: State, c: I.Client)
    requires c < |s.held| == |s.inst.status|
  {
    s.inst.status[c] && (I.Alive(s.inst.handles, c) ==> s.held[c] == 2)
  }

  predicate SameClient(s: State, t: Thread, u: Thread)
    requires t < |s.duties| && u < |s.duties|
  {
    s.duties[t].Destroys? && s.duties[u].Destroys? && s.duties[t].client == s.duties[u].client
  }

  ghost predicate Paid(s: State) {
    && Sound(s) && Exact(s) && !s.thrown
    && (forall t: Thread :: t < |s.duties| ==>
          PaidDuty(s, t) && (Building(s, t) ==> PaidBuilder(s.progress, s.sess.pcs[t])))
    && (forall c: I.Client :: c < |s.held| ==> PaidClient(s, c))
    && (forall t: Thread, u: Thread :: t < |s.duties| && u < |s.duties| && SameClient(s, t, u) ==> t == u)
  }

  /** The constructor takes a micro-step. */
  lemma PaidBuilderSteps(x: S.State, e: S.Event, p: Progress, others: nat)
    requires S.Safe(x) && S.Enabled(x, e) && (e.action.Open? ==> e.action.opening.Opened?)
    requires x.refCount == others + p.got && !x.pcs[e.thread].Idle?
    requires FitsStage(x.pcs[e.thread], p.stage) && PaidBuilder(p, x.pcs[e.thread])
    ensures var o, y := OutcomeOf(p, x.pcs[e.thread]), S.Next(x, e);
            && !o.Throws?
            && (o.Goes? ==> PaidBuilder(o.next, y.pcs[e.thread]))
            && (o.Ends? ==> o.ok && p.got == 2)
  {
    hide S.Sum, S.HolderPc;
  }

  lemma PaidDutyWaits(s: State, e: Event, t: Thread)
    requires Paid(s) && Enabled(s, e) && t < |s.duties| && (e.Copy? || t != e.thread)
    ensures Shape(Next(s, e)) && PaidDuty(Next(s, e), t)
    ensures Building(Next(s, e), t) ==> PaidBuilder(Next(s, e).progress, Next(s, e).sess.pcs[t])
  {
    OthersStay(s, e, t);
    StepInClients(s, e);
    assert PaidDuty(s, t);
    if GivesBack(s, e) { assert !SameClient(s, t, e.thread); }
    hide Next, Enabled, Sound, Exact, PaidBuilder, Outcomes, PaidClient;
  }

  lemma PaidDutyGoes(s: State, e: Event)
    requires Paid(s) && Enabled(s, e) && Succeeds(e) && !e.Copy? && e.thread < |s.duties|
    ensures Shape(Next(s, e)) && PaidDuty(Next(s, e), e.thread)
    ensures !Steals(s, e)
  {
    StepKeepsShape(s, e);
    assert PaidDuty(s, e.thread);
    if e.Begin? || e.Micro? {
      PaidDutyCalls(s, e);
    } else {
      StepInSession(s, e);
      StepInClients(s, e);
      StepInDuties(s, e);
      if e.Drop? { PaidDrop(s, e.token, I.Drop(e.token)); }
      if e.Inside? && s.inst.pcs[e.thread].DropFailed? { PaidDrop(s, s.inst.pcs[e.thread].token, I.Step(e.thread)); }
      hide Next, S.Sum, S.Safe, I.Alive, I.Inv, OutcomeOf, PaidBuilder, PaidClient, DutyOk;
    }
  }

  lemma PaidDutyCalls(s: State, e: Event)
    requires Paid(s) && Enabled(s, e) && (e.Begin? || e.Micro?) && e.thread < |s.duties|
    ensures Shape(Next(s, e)) && PaidDuty(Next(s, e), e.thread)
    ensures !Steals(s, e)
  {
    var t := e.thread;
    StepKeepsShape(s, e);
    StepInSession(s, e);
    StepInClients(s, e);
    StepInDuties(s, e);
    assert PaidDuty(s, t) && PlaceOk(s, t) && DutyOk(s, t);
    Clients.SumIsNat(s.held);
    if s.duties[t].Destroys? { HeldUpdate(s.held, s.duties[t].client, 0); }
    hide Next, S.Sum, S.Safe, I.Alive, I.Inv, I.Enabled, OutcomeOf, PaidBuilder, PaidClient;
  }

  /** A client that loses its last owner holds both its references. */
  lemma PaidDrop(s: State, h: I.Token, i: I.Event)
    requires Paid(s) && h in s.inst.handles && I.Enabled(s.inst, i)
    ensures s.inst.handles[h].client < |s.held| && s.held[s.inst.handles[h].client] == 2
  {
    assert I.HandleKept(s.inst, h);
    assert PaidClient(s, s.inst.handles[h].client);
    hide I.Knows, I.IsNamed, PaidDuty, PaidBuilder;
  }

  lemma PaidBuilderGoes(s: State, e: Event)
    requires Paid(s) && Enabled(s, e) && Succeeds(e) && !e.Copy? && e.thread < |s.duties|
    ensures Shape(Next(s, e)) && !Next(s, e).thrown
    ensures Building(Next(s, e), e.thread) ==> PaidBuilder(Next(s, e).progress, Next(s, e).sess.pcs[e.thread])
    ensures EndsHere(s, e) ==> Outcomes(s, e).value.ok && s.progress.got == 2
  {
    var t := e.thread;
    StepKeepsShape(s, e);
    StepInInstance(s, e);
    StepInSession(s, e);
    StepInClients(s, e);
    Clients.SumIsNat(s.held);
    assert PlaceOk(s, t);
    if Building(s, t) && e.Micro? {
      PaidBuilderSteps(s.sess, SessionEvent(s, e).value, s.progress, S.Sum(s.held));
      hide OutcomeOf, PaidBuilder;
    }
    hide Next, S.Sum, S.Safe, I.Alive, PaidClient, PaidDuty, DutyOk, I.Kept, I.Knows, I.IsNamed;
  }

  lemma PaidClientStays(s: State, e: Event, c: I.Client)
    requires Paid(s) && Enabled(s, e) && Succeeds(e) && Shape(Next(s, e)) && c < |Next(s, e).held|
    ensures PaidClient(Next(s, e), c)
  {
    InstanceLeaves(s, e);
    StepInClients(s, e);
    if EndsHere(s, e) { PaidBuilderGoes(s, e); }
    if GivesBack(s, e) { assert DutyOk(s, e.thread); }
    if c < |s.held| { assert PaidClient(s, c); }
    hide Next, Enabled, S.Safe, I.Inv, I.Alive, PlaceOk, PaidDuty, PaidBuilder, Outcomes;
  }

  /** No two threads destroy the same client. */
  lemma DutiesStayApart(s: State, e: Event, t: Thread, u: Thread)
    requires Paid(s) && Enabled(s, e) && t < |s.duties| && u < |s.duties| && t != u
    ensures |Next(s, e).duties| == |s.duties| && !SameClient(Next(s, e), t, u)
  {
    StepInDuties(s, e);
    assert DutyOk(s, t) && DutyOk(s, u) && !SameClient(s, t, u);
    hide Next, S.Safe, I.Inv, PlaceOk, PaidDuty, PaidBuilder, S.Enabled;
  }

  lemma StepKeepsPaid(s: State, e: Event)
    requires Paid(s) && Enabled(s, e) && Succeeds(e)
    ensures Paid(Next(s, e)) && !Steals(s, e)
  {
    StepKeepsSound(s, e);
    StepKeepsExact(s, e);
    StepInClients(s, e);
    StepInDuties(s, e);
    if !e.Copy? && e.thread < |s.duties| {
      PaidBuilderGoes(s, e);
      PaidDutyGoes(s, e);
    }
    hide Next, Enabled, PaidClient, PaidDuty, PaidBuilder, Exact, Steals, OutcomeOf, Building, SameClient;
    forall t: Thread | t < |s.duties|
      ensures PaidDuty(Next(s, e), t)
      ensures Building(Next(s, e), t) ==> PaidBuilder(Next(s, e).progress, Next(s, e).sess.pcs[t])
    {
      if e.Copy? || t != e.thread { PaidDutyWaits(s, e, t); }
    }
    forall c: I.Client | c < |Next(s, e).held|
      ensures PaidClient(Next(s, e), c)
    {
      PaidClientStays(s, e, c);
    }
    forall t: Thread, u: Thread | t < |s.duties| && u < |s.duties| && SameClient(Next(s, e), t, u)
      ensures t == u
    {
      if t != u { DutiesStayApart(s, e, t, u); }
    }
    hide Sound;
  }

  lemma StartIsPaid(n: nat)
    ensures Paid(Start(n))
  {
    StartIsSound(n);
    hide S.Safe;
  }

  lemma {:induction false} PaidRun(s: State, events: seq<Event>, t: State)
    requires Paid(s) && IsRun(s, events, t) && forall i :: 0 <= i < |events| ==> Succeeds(events[i])
    ensures NeverSteals(s, events) && Paid(t)
    decreases |events|
  {
    if events == [] {
    } else {
      StepKeepsPaid(s, events[0]);
      hide Paid, Next, Enabled, Steals, Succeeds;
      PaidRun(Next(s, events[0]), events[1..], t);
    }
  }

  lemma {:induction false} DisturbedByRacesOnly(s: State, events: seq<Event>, t: State)
    requires NeverSteals(s, events) && RaceFree(s, events, t)
    ensures NeverDisturbed(s, events)
    decreases |events|
  {
    hide Next, Enabled, Steals, Races;
    if events == [] {
    } else {
      DisturbedByRacesOnly(Next(s, events[0]), events[1..], t);
    }
  }

  /**
    Where every session opens, races or not: no destructor steals, no constructor throws, every client passes and
    holds two references until its destructor runs. What can still go wrong is the race alone.
  */
  lemma NoTheftWithoutFailure(n: nat, events: seq<Event>, t: State)
    requires IsRun(Start(n), events, t) && forall i :: 0 <= i < |events| ==> Succeeds(events[i])
    ensures NeverSteals(Start(n), events) && !t.thrown
    ensures forall c: I.Client :: c < |t.inst.status| ==>
              c < |t.held| && t.inst.status[c] && (I.Alive(t.inst.handles, c) ==> t.held[c] == 2)
    ensures RaceFree(Start(n), events, t) ==> NeverDisturbed(Start(n), events)
  {
    StartIsPaid(n);
    PaidRun(Start(n), events, t);
    if RaceFree(Start(n), events, t) { DisturbedByRacesOnly(Start(n), events, t); }
    forall c: I.Client | c < |t.inst.status|
      ensures c < |t.held| && t.inst.status[c] && (I.Alive(t.inst.handles, c) ==> t.held[c] == 2)
    {
      assert PaidClient(t, c);
    }
    hide IsRun, NeverSteals, RaceFree, NeverDisturbed, I.Inv, S.Safe, PaidDuty, PaidBuilder, I.Alive;
  }
}

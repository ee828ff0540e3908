/**
  The one client and the session it shares: `instance` under any interleaving of threads, with every step that
  constructors and destructors take inside the session manager. A destructor runs in the thread that drops its
  client's last owner, any time after that.
*/
module ClientLives {
  import opened Common
  import S = Session
  import I = Singleton

  type Thread = nat

  /** The call of the session manager a constructor makes next, or is making: three for the transport, three for RPC. */
  datatype Stage = TInit | TCheck | TValue | RInit | RCheck | RValue

  /** What the constructor under way has acquired, and the session its transport part was given. */
  datatype Progress = Progress(stage: Stage, got: nat, transport: Option<S.SessionId>)

  const FIRST := Progress(TInit, 0, None)

  /** What a thread owes the client whose last owner it dropped: so many more calls of `term`. */
  datatype Duty = Free | Destroys(client: I.Client, calls: nat)

  datatype Event =
    | Call(thread: Thread)
    | Inside(thread: Thread)
    | Begin(thread: Thread)
    | Micro(thread: Thread, opening: S.Opening)
    | Copy(token: I.Token)
    | Drop(thread: Thread, token: I.Token)

  /**
    `held[c]` is what client c has acquired and not given back, `transports[c]` and `rpcs[c]` the sessions it was
    given. An exception in a constructor ends the process: `thrown`.
  */
  datatype State = State(
    inst: I.State,
    sess: S.State,
    progress: Progress,
    duties: seq<Duty>,
    held: seq<nat>,
    transports: seq<Option<S.SessionId>>,
    rpcs: seq<Option<S.SessionId>>,
    thrown: bool)

  function Start(threads: nat): State {
    State(I.Start(threads), S.Start(threads), FIRST, seq(threads, _ => Free), [], [], [], false)
  }

  predicate Building(s: State, t: Thread) {
    t < |s.inst.pcs| && s.inst.pcs[t].Build?
  }

  /** A thread that is neither in a constructor's or destructor's call nor has one to make. */
  predicate AtRest(s: State, t: Thread) {
    t < |s.duties| == |s.sess.pcs| == |s.inst.pcs| && s.duties[t].Free? && s.sess.pcs[t].Idle?
  }

  function ActionOf(s: State, t: Thread, opening: S.Opening): S.Action
    requires t < |s.sess.pcs|
  {
    if s.sess.pcs[t].InitOpen? then S.Open(opening) else S.Go
  }

  function StartOf(s: State, t: Thread): S.Action
    requires t < |s.duties|
  {
    if s.duties[t].Destroys? then S.StartTerm
    else if s.progress.stage.TInit? || s.progress.stage.RInit? then S.StartInit
    else S.StartGet
  }

  /** The step of the session manager that a step is, if it is one. */
  function SessionEvent(s: State, e: Event): Option<S.Event> {
    if e.Begin? && e.thread < |s.duties| then Some(S.Event(e.thread, StartOf(s, e.thread)))
    else if e.Micro? && e.thread < |s.sess.pcs| then Some(S.Event(e.thread, ActionOf(s, e.thread, e.opening)))
    else None
  }

  predicate HasCall(s: State, t: Thread) {
    t < |s.duties| && (Building(s, t) || (s.duties[t].Destroys? && s.duties[t].calls > 0))
  }

  predicate Enabled(s: State, e: Event) {
    && !s.thrown
    && match e
       case Call(t) => AtRest(s, t) && I.Enabled(s.inst, I.Call(t))
       case Inside(t) => AtRest(s, t) && I.Enabled(s.inst, I.Step(t))
       case Copy(h) => I.Enabled(s.inst, I.Copy(h))
       case Drop(t, h) => AtRest(s, t) && s.inst.pcs[t].Outside? && I.Enabled(s.inst, I.Drop(h))
       case Begin(t) =>
         && HasCall(s, t) && t < |s.sess.pcs| && s.sess.pcs[t].Idle?
         && S.Enabled(s.sess, S.Event(t, StartOf(s, t)))
       case Micro(t, opening) =>
         && t < |s.sess.pcs| && t < |s.duties| && !s.sess.pcs[t].Idle?
         && S.Enabled(s.sess, S.Event(t, ActionOf(s, t, opening)))
         && (s.duties[t].Destroys? ==> s.duties[t].client < |s.held|)
  }

  /** A shared pointer goes away; the thread destroys the client if it was the last. */
  function Dropped(s: State, t: Thread, h: I.Token, e: I.Event): State
    requires h in s.inst.handles && I.Enabled(s.inst, e) && t < |s.duties|
  {
    var c, inst := s.inst.handles[h].client, I.Next(s.inst, e);
    s.(inst := inst, duties := if I.Alive(inst.handles, c) then s.duties else s.duties[t := Destroys(c, 2)])
  }

  /** What the constructor does after a micro-step from `pc`: go on, end with a status, or throw. */
  datatype Outcome = Goes(next: Progress) | Ends(ok: bool, rpc: Option<S.SessionId>) | Throws

  /** The micro-steps that add to the counter. */
  predicate Adds(pc: S.Pc) {
    pc.InitAdd? || pc.InitFastAdd?
  }

  function Acquired(p: Progress, pc: S.Pc): Progress {
    if Adds(pc) then p.(got := p.got + 1) else p
  }

  /** Where a call returns the constructor goes on; a second `getSession` that finds nothing makes `value()` throw. */
  function OutcomeOf(p: Progress, pc: S.Pc): Outcome {
    var q := Acquired(p, pc);
    match pc
    case InitFastAdd => InitReturned(q, OK)
    case InitUnlock(code) => InitReturned(q, code)
    case GetUnlock(result) => GetReturned(q, result)
    case _ => Goes(q)
  }

  function InitReturned(p: Progress, code: UCode): Outcome {
    match p.stage
    case TInit => Goes(p.(stage := TCheck))
    case RInit => if code == OK then Goes(p.(stage := RCheck)) else Ends(false, None)
    case _ => Goes(p)
  }

  function GetReturned(p: Progress, result: Option<Option<S.SessionId>>): Outcome {
    match p.stage
    case TCheck => Goes(p.(stage := if result.Some? then TValue else RInit))
    case TValue => if result.Some? then Goes(p.(stage := RInit, transport := result.value)) else Throws
    case RCheck => if result.Some? then Goes(p.(stage := RValue)) else Ends(false, None)
    case RValue => if result.Some? then Ends(true, result.value) else Throws
    case _ => Goes(p)
  }

  /**
    How constructors end: with success exactly where the RPC client's second `getSession` finds a session; with failure
    exactly where its `init` fails or its first `getSession` finds none; by an exception exactly where a second
    `getSession` finds none.
  */
  lemma EndsExactly(p: Progress, pc: S.Pc)
    ensures var o := OutcomeOf(p, pc);
            && (o.Ends? && o.ok <==> p.stage.RValue? && pc.GetUnlock? && pc.result.Some?)
            && (o.Ends? && o.ok ==> Some(o.rpc) == pc.result)
            && (o.Ends? && !o.ok <==>
                  || (p.stage.RInit? && pc.InitUnlock? && pc.code != OK)
                  || (p.stage.RCheck? && pc.GetUnlock? && pc.result.None?))
            && (o.Throws? <==> (p.stage.TValue? || p.stage.RValue?) && pc.GetUnlock? && pc.result.None?)
            && (o.Goes? && o.next.stage != p.stage ==>
                  || (p.stage.TInit? && o.next.stage.TCheck?)
                  || (p.stage.TCheck? && o.next.stage == if pc.GetUnlock? && pc.result.Some? then TValue else RInit)
                  || (p.stage.TValue? && o.next.stage.RInit? && pc.GetUnlock? && Some(o.next.transport) == pc.result)
                  || (p.stage.RInit? && o.next.stage.RCheck?)
                  || (p.stage.RCheck? && o.next.stage.RValue?))
  {
  }

  /** The constructor's share of a step. The transport's status is OK in any case, so the RPC client's decides. */
  function Constructs(s: State, t: Thread, outcome: Outcome): State
    requires Building(s, t)
  {
    match outcome
    case Goes(next) => s.(progress := next)
    case Ends(ok, rpc) =>
      s.(inst := I.Next(s.inst, I.Construct(t, ok)), progress := FIRST, held := s.held + [s.progress.got],
         transports := s.transports + [s.progress.transport], rpcs := s.rpcs + [rpc])
    case Throws => s.(thrown := true)
  }

  /** The destructor's share: a reference is given back where the counter changes. */
  function Destructs(s: State, t: Thread, pc: S.Pc): State
    requires t < |s.duties| && s.duties[t].Destroys? && s.duties[t].client < |s.held|
  {
    var c := s.duties[t].client;
    if pc.TermSub? then s.(held := s.held[c := if s.held[c] > 0 then s.held[c] - 1 else 0])
    else if pc.TermUnlock? && s.duties[t].calls == 0 then s.(duties := s.duties[t := Free])
    else s
  }

  function Next(s: State, e: Event): State
    requires Enabled(s, e)
  {
    match e
    case Call(t) => s.(inst := I.Next(s.inst, I.Call(t)))
    case Copy(h) => s.(inst := I.Next(s.inst, I.Copy(h)))
    case Inside(t) =>
      if s.inst.pcs[t].DropFailed? then Dropped(s, t, s.inst.pcs[t].token, I.Step(t))
      else s.(inst := I.Next(s.inst, I.Step(t)))
    case Drop(t, h) => Dropped(s, t, h, I.Drop(h))
    case Begin(t) =>
      var d := s.duties[t];
      s.(sess := S.Next(s.sess, S.Event(t, StartOf(s, t))),
         duties := if d.Destroys? && d.calls > 0 then s.duties[t := d.(calls := d.calls - 1)] else s.duties)
    case Micro(t, opening) =>
      var pc, s1 := s.sess.pcs[t], s.(sess := S.Next(s.sess, S.Event(t, ActionOf(s, t, opening))));
      if Building(s, t) then Constructs(s1, t, OutcomeOf(s.progress, pc))
      else if s.duties[t].Destroys? then Destructs(s1, t, pc)
      else s1
  }

  ghost predicate IsRun(s: State, events: seq<Event>, t: State)
    decreases |events|
  {
    if events == [] then s == t else Enabled(s, events[0]) && IsRun(Next(s, events[0]), events[1..], t)
  }

  // ---------- what a step is ----------

  /** What a step does inside `instance`, if anything: a constructor that ends is one step of it. */
  lemma StepInSession(s: State, e: Event)
    requires Enabled(s, e)
    ensures SessionEvent(s, e).Some? <==> e.Begin? || e.Micro?
    ensures SessionEvent(s, e).Some? ==> S.Enabled(s.sess, SessionEvent(s, e).value)
    ensures Next(s, e).sess ==
            if SessionEvent(s, e).Some? then S.Next(s.sess, SessionEvent(s, e).value) else s.sess
    ensures |Next(s, e).duties| == |s.duties|
  {
    hide S.Next, I.Next, S.Enabled, I.Enabled, I.Alive;
  }

  /** The constructor's outcome, if this is a step of it. */
  function Outcomes(s: State, e: Event): Option<Outcome> {
    if e.Micro? && e.thread < |s.sess.pcs| && Building(s, e.thread)
    then Some(OutcomeOf(s.progress, s.sess.pcs[e.thread]))
    else None
  }

  predicate EndsHere(s: State, e: Event) {
    Outcomes(s, e).Some? && Outcomes(s, e).value.Ends?
  }

  /** The step of `instance` that a step is, if it is one. */
  function InstanceEvent(s: State, e: Event): Option<I.Event> {
    match e
    case Call(t) => Some(I.Call(t))
    case Inside(t) => Some(I.Step(t))
    case Copy(h) => Some(I.Copy(h))
    case Drop(_, h) => Some(I.Drop(h))
    case Begin(_) => None
    case Micro(t, _) => if EndsHere(s, e) then Some(I.Construct(t, Outcomes(s, e).value.ok)) else None
  }

  lemma StepInInstance(s: State, e: Event)
    requires Enabled(s, e)
    ensures var i := InstanceEvent(s, e);
            && (i.Some? ==> I.Enabled(s.inst, i.value))
            && Next(s, e).inst == if i.Some? then I.Next(s.inst, i.value) else s.inst
  {
    hide S.Next, S.Enabled, I.Next, I.Alive, OutcomeOf;
  }

  /** What a step does to the references and sessions of clients and of the constructor. */
  lemma StepInClients(s: State, e: Event)
    requires Enabled(s, e)
    ensures var s', o := Next(s, e), Outcomes(s, e);
            && s'.progress == (if o.None? || o.value.Throws? then s.progress
                               else if o.value.Ends? then FIRST else o.value.next)
            && s'.thrown == (o.Some? && o.value.Throws?)
            && |s'.held| == |s.held| + (if EndsHere(s, e) then 1 else 0)
            && s'.transports == (if EndsHere(s, e) then s.transports + [s.progress.transport] else s.transports)
            && s'.rpcs == (if EndsHere(s, e) then s.rpcs + [o.value.rpc] else s.rpcs)
            && (EndsHere(s, e) ==> s'.held == s.held + [s.progress.got])
            && (!EndsHere(s, e) && !GivesBack(s, e) ==> s'.held == s.held)
            && (GivesBack(s, e) ==>
                  var c := s.duties[e.thread].client;
                  s'.held == s.held[c := if s.held[c] > 0 then s.held[c] - 1 else 0])
  {
    hide S.Next, S.Enabled, I.Next, I.Enabled, I.Alive, OutcomeOf;
  }

  /** A destructor's `term` takes a reference away. */
  predicate GivesBack(s: State, e: Event) {
    && e.Micro? && e.thread < |s.sess.pcs| && e.thread < |s.duties| && !Building(s, e.thread)
    && s.sess.pcs[e.thread].TermSub?
    && s.duties[e.thread].Destroys? && s.duties[e.thread].client < |s.held|
  }

  /** The duty of the thread that takes the step. */
  function DutyAfter(s: State, e: Event): Duty
    requires Enabled(s, e) && !e.Copy? && e.thread < |s.duties|
  {
    var d := s.duties[e.thread];
    match e
    case Begin(_) => if d.Destroys? && d.calls > 0 then d.(calls := d.calls - 1) else d
    case Micro(t, _) =>
      if !Building(s, t) && d.Destroys? && s.sess.pcs[t].TermUnlock? && d.calls == 0 then Free else d
    case Drop(_, h) => DutyAfterDrop(s, d, h, I.Drop(h))
    case Inside(t) => if s.inst.pcs[t].DropFailed? then DutyAfterDrop(s, d, s.inst.pcs[t].token, I.Step(t)) else d
    case Call(_) => d
    case Copy(_) => d
  }

  function DutyAfterDrop(s: State, d: Duty, h: I.Token, e: I.Event): Duty
    requires I.Enabled(s.inst, e) && h in s.inst.handles
  {
    var c := s.inst.handles[h].client;
    if I.Alive(I.Next(s.inst, e).handles, c) then d else Destroys(c, 2)
  }

  /** What a step does to the duties. */
  lemma StepInDuties(s: State, e: Event)
    requires Enabled(s, e)
    ensures var s' := Next(s, e);
            && |s'.duties| == |s.duties|
            && (forall t: Thread :: t < |s.duties| && (e.Copy? || t != e.thread) ==> s'.duties[t] == s.duties[t])
            && (!e.Copy? && e.thread < |s.duties| ==> s'.duties[e.thread] == DutyAfter(s, e))
  {
    hide S.Next, S.Enabled, I.Next, I.Enabled, I.Alive, OutcomeOf;
  }

  // ---------- what holds of every run ----------

  predicate InInit(pc: S.Pc) {
    || pc.InitCheck? || pc.InitLock? || pc.InitRecheck? || pc.InitOpen? || pc.InitAdd? || pc.InitUnlock?
    || pc.InitFastAdd?
  }

  predicate InTerm(pc: S.Pc) {
    pc.TermLock? || pc.TermCheck? || pc.TermSub? || pc.TermReadBack? || pc.TermClose? || pc.TermUnlock?
  }

  predicate InGet(pc: S.Pc) {
    pc.GetLock? || pc.GetCheck? || pc.GetRead? || pc.GetUnlock?
  }

  predicate FitsStage(pc: S.Pc, stage: Stage) {
    pc.Idle? || (if stage.TInit? || stage.RInit? then InInit(pc) else InGet(pc))
  }

  ghost predicate Shape(s: State) {
    && |s.duties| == |s.inst.pcs| == |s.sess.pcs|
    && |s.held| == |s.transports| == |s.rpcs| == |s.inst.status|
  }

  /** Each thread is in the session manager for the constructor or the destructor it is in, or not at all. */
  predicate PlaceOk(s: State, t: Thread)
    requires t < |s.duties| && t < |s.sess.pcs|
  {
    if Building(s, t) then s.duties[t].Free? && FitsStage(s.sess.pcs[t], s.progress.stage)
    else if s.duties[t].Destroys? then
      && t < |s.inst.pcs| && s.inst.pcs[t].Outside?
      && (InTerm(s.sess.pcs[t]) || (s.sess.pcs[t].Idle? && s.duties[t].calls > 0))
    else s.sess.pcs[t].Idle?
  }

  /** A client that is being destroyed has no owner left. */
  predicate DutyOk(s: State, t: Thread)
    requires t < |s.duties|
  {
    s.duties[t].Destroys? ==>
      && s.duties[t].client < |s.held| && s.duties[t].calls <= 2
      && !I.Alive(s.inst.handles, s.duties[t].client)
  }

  predicate ProgressOk(s: State) {
    s.progress != FIRST ==> s.inst.lock.Some? && Building(s, s.inst.lock.value)
  }

  ghost predicate Sound(s: State) {
    && Shape(s) && I.Inv(s.inst) && S.Safe(s.sess) && ProgressOk(s)
    && forall t: Thread :: t < |s.duties| ==> PlaceOk(s, t) && DutyOk(s, t)
  }

  lemma InstanceKeepsInv(s: State, e: Event)
    requires I.Inv(s.inst) && Enabled(s, e)
    ensures I.Inv(Next(s, e).inst)
  {
    StepInInstance(s, e);
    if InstanceEvent(s, e).Some? { I.StepKeepsInv(s.inst, InstanceEvent(s, e).value); }
    hide I.Inv, Next, Enabled;
  }

  /** Clients do not come back to life, and keep their status; other threads stay where they are. */
  lemma InstanceLeaves(s: State, e: Event)
    requires I.Inv(s.inst) && Enabled(s, e)
    ensures var s' := Next(s, e);
            && |s'.inst.pcs| == |s.inst.pcs|
            && s'.inst.status == (if EndsHere(s, e) then s.inst.status + [Outcomes(s, e).value.ok] else s.inst.status)
            && (forall t: Thread :: t < |s.inst.pcs| && (e.Copy? || t != e.thread) ==>
                  s'.inst.pcs[t] == s.inst.pcs[t])
            && forall c: I.Client :: c < |s.inst.status| && I.Alive(s'.inst.handles, c) ==> I.Alive(s.inst.handles, c)
  {
    StepInInstance(s, e);
    if InstanceEvent(s, e).Some? { I.StepLeaves(s.inst, InstanceEvent(s, e).value); }
    hide I.Inv, Next, Enabled, I.Next, I.Enabled, OutcomeOf;
  }

  lemma SessionKeepsSafe(s: State, e: Event)
    requires S.Safe(s.sess) && Enabled(s, e)
    ensures S.Safe(Next(s, e).sess) && |Next(s, e).sess.pcs| == |s.sess.pcs|
    ensures forall t: Thread :: t < |s.sess.pcs| && (e.Copy? || t != e.thread) ==>
              Next(s, e).sess.pcs[t] == s.sess.pcs[t]
  {
    StepInSession(s, e);
    if SessionEvent(s, e).Some? {
      S.StepKeepsSafe(s.sess, SessionEvent(s, e).value);
      S.StepLeaves(s.sess, SessionEvent(s, e).value);
    }
    hide S.Safe, Next, Enabled, S.Next, S.Enabled;
  }

  lemma StepKeepsShape(s: State, e: Event)
    requires Sound(s) && Enabled(s, e)
    ensures Shape(Next(s, e))
  {
    InstanceLeaves(s, e);
    SessionKeepsSafe(s, e);
    StepInClients(s, e);
    StepInDuties(s, e);
    hide Next, Enabled, I.Inv, S.Safe, Outcomes;
  }

  /** A step of one thread leaves the places of the others alone. */
  lemma OthersStay(s: State, e: Event, t: Thread)
    requires Sound(s) && Enabled(s, e) && t < |s.duties| && (e.Copy? || t != e.thread)
    ensures Shape(Next(s, e))
    ensures Next(s, e).duties[t] == s.duties[t] && Next(s, e).sess.pcs[t] == s.sess.pcs[t]
    ensures Building(Next(s, e), t) <==> Building(s, t)
    ensures Next(s, e).inst.pcs[t] == s.inst.pcs[t]
    ensures Building(s, t) ==> Next(s, e).progress == s.progress && !EndsHere(s, e)
  {
    StepKeepsShape(s, e);
    InstanceLeaves(s, e);
    SessionKeepsSafe(s, e);
    StepInClients(s, e);
    StepInDuties(s, e);
    hide Next, Enabled, S.Safe, I.Kept, I.Knows, I.IsNamed;
  }

  lemma OthersKeepPlace(s: State, e: Event, t: Thread)
    requires Sound(s) && Enabled(s, e) && t < |s.duties| && (e.Copy? || t != e.thread)
    ensures Shape(Next(s, e))
    ensures PlaceOk(Next(s, e), t) && DutyOk(Next(s, e), t)
  {
    OthersStay(s, e, t);
    InstanceLeaves(s, e);
    StepInClients(s, e);
    assert PlaceOk(s, t) && DutyOk(s, t);
    hide Next, Enabled, S.Safe, I.Inv, Outcomes, I.Alive;
  }

  lemma OwnDutyOk(s: State, e: Event)
    requires Sound(s) && Enabled(s, e) && !e.Copy? && e.thread < |s.duties|
    ensures Shape(Next(s, e))
    ensures DutyOk(Next(s, e), e.thread)
  {
    StepKeepsShape(s, e);
    InstanceLeaves(s, e);
    StepInInstance(s, e);
    StepInClients(s, e);
    StepInDuties(s, e);
    assert DutyOk(s, e.thread);
    if e.Drop? { assert I.HandleKept(s.inst, e.token); }
    if e.Inside? && s.inst.pcs[e.thread].DropFailed? { assert I.HandleKept(s.inst, s.inst.pcs[e.thread].token); }
    hide Next, S.Safe, I.Alive, Outcomes, S.Enabled, I.Next, I.Knows, I.IsNamed, PlaceOk, I.ThreadKeeps, I.Mutex;
  }

  lemma OwnPlaceOk(s: State, e: Event)
    requires Sound(s) && Enabled(s, e) && !e.Copy? && e.thread < |s.duties|
    ensures Shape(Next(s, e))
    ensures PlaceOk(Next(s, e), e.thread)
  {
    StepKeepsShape(s, e);
    StepInInstance(s, e);
    StepInSession(s, e);
    StepInClients(s, e);
    StepInDuties(s, e);
    assert PlaceOk(s, e.thread);
    hide Next, S.Safe, I.Alive, I.Inv, DutyOk;
  }

  lemma StepKeepsProgress(s: State, e: Event)
    requires Sound(s) && Enabled(s, e)
    ensures ProgressOk(Next(s, e))
  {
    StepInInstance(s, e);
    StepInClients(s, e);
    hide Next, S.Safe, I.Alive, DutyOk, PlaceOk, I.Kept, I.Knows, I.IsNamed;
  }

  lemma StepKeepsSound(s: State, e: Event)
    requires Sound(s) && Enabled(s, e)
    ensures Sound(Next(s, e))
  {
    StepKeepsShape(s, e);
    InstanceKeepsInv(s, e);
    SessionKeepsSafe(s, e);
    StepKeepsProgress(s, e);
    StepInDuties(s, e);
    hide Next, S.Safe, I.Inv, PlaceOk, DutyOk, ProgressOk, S.Enabled, I.Enabled, I.Alive;
    forall t: Thread | t < |s.duties|
      ensures PlaceOk(Next(s, e), t) && DutyOk(Next(s, e), t)
    {
      if e.Copy? || t != e.thread {
        OthersKeepPlace(s, e, t);
      } else {
        OwnDutyOk(s, e);
        OwnPlaceOk(s, e);
      }
    }
  }

  lemma StartIsSound(n: nat)
    ensures Sound(Start(n))
  {
    S.StartIsUsable(n);
    I.StartInv(n);
    hide S.Sum;
  }
}

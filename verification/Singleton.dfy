/**
  The one client: `instance` under any interleaving of any number of threads, while callers copy and drop
  the handles they were given in any order. Locking the weak pointer, assigning it, and every change of an
  owner count are steps of their own.
*/
module Singleton {
  import opened Common

  type Thread = nat
  type Client = nat
  type Token = nat

  /** Where a thread is in `instance`; a token is a shared pointer it holds in a local variable. */
  datatype Pc =
    | Outside
    | TryLock
    | Acquire
    | Retry
    | Build
    | Assess(token: Token)
    | Name(token: Token)
    | Leave(token: Token)
    | LeaveFailed(token: Token)
    | DropFailed(token: Token)

  datatype Event =
    | Step(thread: Thread)
    | Call(thread: Thread)
    | Construct(thread: Thread, ok: bool)
    | Copy(token: Token)
    | Drop(token: Token)

  /** A shared pointer in existence: the client it owns, and the thread inside `instance` that holds it, if any. */
  datatype Handle = Handle(client: Client, keeper: Option<Thread>)

  /**
    A handle without a keeper is with the callers. `status[c]` is whether client c passed its status check;
    clients and tokens are numbered as they are made.
  */
  datatype State = State(
    named: Option<Client>,
    handles: map<Token, Handle>,
    tokens: nat,
    status: seq<bool>,
    lock: Option<Thread>,
    pcs: seq<Pc>)

  function Start(threads: nat): State {
    State(None, map[], 0, [], None, seq(threads, _ => Outside))
  }

  /** A client is alive while something owns it. */
  predicate Alive(handles: map<Token, Handle>, c: Client) {
    exists h :: h in handles && handles[h].client == c
  }

  /** What locking the weak pointer finds. */
  predicate NamedAlive(s: State) {
    s.named.Some? && Alive(s.handles, s.named.value)
  }

  predicate HasToken(pc: Pc) {
    pc.Assess? || pc.Name? || pc.Leave? || pc.LeaveFailed? || pc.DropFailed?
  }

  predicate Enabled(s: State, e: Event) {
    match e
    case Call(t) => t < |s.pcs| && s.pcs[t].Outside?
    case Construct(t, _) => t < |s.pcs| && s.pcs[t].Build?
    case Step(t) => t < |s.pcs| && !s.pcs[t].Outside? && !s.pcs[t].Build? && (s.pcs[t].Acquire? ==> s.lock.None?)
                    && (HasToken(s.pcs[t]) ==>
                          s.pcs[t].token in s.handles && s.handles[s.pcs[t].token].client < |s.status|)
    case Copy(h) => h in s.handles && s.handles[h].keeper.None?
    case Drop(h) => h in s.handles && s.handles[h].keeper.None?
  }

  function At(s: State, t: Thread, pc: Pc): State
    requires t < |s.pcs|
  {
    s.(pcs := s.pcs[t := pc])
  }

  /** A new shared pointer to client `c`. */
  function Own(s: State, c: Client, keeper: Option<Thread>): State {
    s.(handles := s.handles[s.tokens := Handle(c, keeper)], tokens := s.tokens + 1)
  }

  function Next(s: State, e: Event): State
    requires Enabled(s, e)
  {
    match e
    case Call(t) => At(s, t, TryLock)
    case Construct(t, ok) => At(Own(s, |s.status|, Some(t)), t, Assess(s.tokens)).(status := s.status + [ok])
    case Copy(h) => Own(s, s.handles[h].client, None)
    case Drop(h) => s.(handles := s.handles - {h})
    case Step(t) =>
      match s.pcs[t]
      case TryLock => if NamedAlive(s) then At(Own(s, s.named.value, None), t, Outside) else At(s, t, Acquire)
      case Acquire => At(s, t, Retry).(lock := Some(t))
      case Retry => if NamedAlive(s) then At(Own(s, s.named.value, Some(t)), t, Leave(s.tokens)) else At(s, t, Build)
      case Assess(h) => At(s, t, if s.status[s.handles[h].client] then Name(h) else LeaveFailed(h))
      case Name(h) => At(s, t, Leave(h)).(named := Some(s.handles[h].client))
      case Leave(h) => At(s, t, Outside).(lock := None, handles := s.handles[h := Handle(s.handles[h].client, None)])
      case LeaveFailed(h) => At(s, t, DropFailed(h)).(lock := None)
      case DropFailed(h) => At(s, t, Outside).(handles := s.handles - {h})
      case _ => s
  }

  ghost predicate IsRun(s: State, events: seq<Event>, t: State)
    decreases |events|
  {
    if events == [] then s == t else Enabled(s, events[0]) && IsRun(Next(s, events[0]), events[1..], t)
  }

  // ---------- invariants ----------

  predicate InCritical(pc: Pc) {
    pc.Retry? || pc.Build? || pc.Assess? || pc.Name? || pc.Leave? || pc.LeaveFailed?
  }

  ghost predicate Mutex(s: State) {
    forall t: Thread :: t < |s.pcs| ==> (InCritical(s.pcs[t]) <==> s.lock == Some(t))
  }

  predicate ThreadKeeps(s: State, t: Thread)
    requires t < |s.pcs|
  {
    HasToken(s.pcs[t]) ==> s.pcs[t].token in s.handles && s.handles[s.pcs[t].token].keeper == Some(t)
  }

  predicate HandleKept(s: State, h: Token)
    requires h in s.handles
  {
    && h < s.tokens && s.handles[h].client < |s.status|
    && (s.handles[h].keeper.Some? ==>
          var t := s.handles[h].keeper.value;
          t < |s.pcs| && HasToken(s.pcs[t]) && s.pcs[t].token == h)
  }

  /** Handles and the threads that keep them know each other. */
  ghost predicate Kept(s: State) {
    && (forall t: Thread :: t < |s.pcs| ==> ThreadKeeps(s, t))
    && (forall h :: h in s.handles ==> HandleKept(s, h))
  }

  /** The client of a handle passed its status check. */
  predicate Passed(s: State, h: Token) {
    h in s.handles && s.handles[h].client < |s.status| && s.status[s.handles[h].client]
  }

  predicate IsNamed(s: State, h: Token) {
    h in s.handles && s.named == Some(s.handles[h].client)
  }

  /** What a thread knows at each point of its way through `instance`. */
  predicate Knows(s: State, pc: Pc) {
    && (pc.Build? || pc.Assess? || pc.Name? || pc.LeaveFailed? ==> !NamedAlive(s))
    && (pc.Name? ==> Passed(s, pc.token))
    && (pc.Leave? ==> IsNamed(s, pc.token))
    && (pc.LeaveFailed? || pc.DropFailed? ==> !Passed(s, pc.token))
  }

  ghost predicate Inv(s: State) {
    && Mutex(s)
    && Kept(s)
    && (s.named.Some? ==> s.named.value < |s.status| && s.status[s.named.value])
    && (forall h :: h in s.handles && s.handles[h].keeper.None? ==> IsNamed(s, h))
    && (forall t: Thread :: t < |s.pcs| ==> Knows(s, s.pcs[t]))
  }

  lemma StartInv(n: nat)
    ensures Inv(Start(n))
  {
  }

  lemma StepKeepsMutex(s: State, e: Event)
    requires Mutex(s) && Enabled(s, e)
    ensures Mutex(Next(s, e))
  {
  }

  lemma StepKeepsKept(s: State, e: Event)
    requires Kept(s) && Enabled(s, e)
    ensures Kept(Next(s, e))
  {
    forall t: Thread | t < |s.pcs|
      ensures ThreadKeeps(Next(s, e), t)
    {
      StepKeepsThread(s, e, t);
    }
    forall h | h in Next(s, e).handles
      ensures HandleKept(Next(s, e), h)
    {
      StepKeepsHandle(s, e, h);
    }
    assert |Next(s, e).pcs| == |s.pcs|;
    hide Next, Enabled;
  }

  lemma StepKeepsThread(s: State, e: Event, t: Thread)
    requires Kept(s) && Enabled(s, e) && t < |s.pcs|
    ensures |Next(s, e).pcs| == |s.pcs| && ThreadKeeps(Next(s, e), t)
  {
    assert ThreadKeeps(s, t);
    if HasToken(s.pcs[t]) { assert HandleKept(s, s.pcs[t].token); }
    if !e.Copy? && !e.Drop? && e.thread != t { assert ThreadKeeps(s, e.thread); }
  }

  lemma StepKeepsHandle(s: State, e: Event, h: Token)
    requires Kept(s) && Enabled(s, e) && h in Next(s, e).handles
    ensures HandleKept(Next(s, e), h)
  {
    if h in s.handles { assert HandleKept(s, h); }
    if !e.Copy? && !e.Drop? { assert ThreadKeeps(s, e.thread); }
    if e.Copy? { assert HandleKept(s, e.token); }
  }

  /** The weak pointer expires only by drops, and revives only when a thread names its new client. */
  lemma NamedAliveBefore(s: State, e: Event)
    requires Kept(s) && Enabled(s, e) && (s.named.Some? ==> s.named.value < |s.status|)
    ensures NamedAlive(Next(s, e)) ==> NamedAlive(s) || (e.Step? && s.pcs[e.thread].Name?)
  {
  }

  lemma StepKeepsInv(s: State, e: Event)
    requires Inv(s) && Enabled(s, e)
    ensures Inv(Next(s, e))
  {
    StepKeepsMutex(s, e);
    StepKeepsKept(s, e);
    NamedAliveBefore(s, e);
    StepKeepsNamed(s, e);
    var s' := Next(s, e);
    forall t: Thread | t < |s'.pcs|
      ensures Knows(s', s'.pcs[t])
    {
      StepKeepsKnowing(s, e, t);
    }
  }

  /** Callers' handles are to the named client, before and after. */
  lemma StepKeepsNamed(s: State, e: Event)
    requires Inv(s) && Enabled(s, e)
    ensures var s' := Next(s, e);
            && (s'.named.Some? ==> s'.named.value < |s'.status| && s'.status[s'.named.value])
            && (forall h :: h in s'.handles && s'.handles[h].keeper.None? ==> IsNamed(s', h))
  {
    var s' := Next(s, e);
    forall h | h in s'.handles && s'.handles[h].keeper.None?
      ensures IsNamed(s', h)
    {
      if h in s.handles && s.handles[h].keeper.None? {
        assert IsNamed(s, h);
        assert NamedAlive(s);
      }
    }
  }

  lemma StepKeepsKnowing(s: State, e: Event, t: Thread)
    requires Inv(s) && Enabled(s, e) && t < |s.pcs|
    ensures Knows(Next(s, e), Next(s, e).pcs[t])
  {
    NamedAliveBefore(s, e);
    assert Knows(s, s.pcs[t]);
    if HasToken(s.pcs[t]) { TokenKept(s, t); }
    hide NamedAlive, Kept;
    if e.Copy? || e.Drop? {
      hide Mutex;
    } else if e.thread != t {
      OtherStepKeepsKnowing(s, e, t);
    }
  }

  lemma TokenKept(s: State, t: Thread)
    requires Kept(s) && t < |s.pcs| && HasToken(s.pcs[t])
    ensures s.pcs[t].token in s.handles
    ensures s.handles[s.pcs[t].token].keeper == Some(t)
    ensures s.pcs[t].token < s.tokens && s.handles[s.pcs[t].token].client < |s.status|
  {
    assert ThreadKeeps(s, t) && HandleKept(s, s.pcs[t].token);
  }

  lemma OtherStepKeepsKnowing(s: State, e: Event, t: Thread)
    requires Inv(s) && Enabled(s, e) && t < |s.pcs| && !e.Copy? && !e.Drop? && e.thread != t
    ensures Knows(Next(s, e), Next(s, e).pcs[t])
  {
    NamedAliveBefore(s, e);
    assert Knows(s, s.pcs[t]) && Knows(s, s.pcs[e.thread]);
    if HasToken(s.pcs[t]) { TokenKept(s, t); }
    if HasToken(s.pcs[e.thread]) { TokenKept(s, e.thread); }
    hide NamedAlive, Kept;
  }

  /** What a step leaves alone: other threads, and the clients there are; and no client comes back to life. */
  lemma StepLeaves(s: State, e: Event)
    requires Inv(s) && Enabled(s, e)
    ensures var s' := Next(s, e);
            && |s'.pcs| == |s.pcs|
            && s'.status == (if e.Construct? then s.status + [e.ok] else s.status)
            && (forall t: Thread :: t < |s.pcs| && (e.Copy? || e.Drop? || t != e.thread) ==> s'.pcs[t] == s.pcs[t])
            && forall c: Client :: c < |s.status| && Alive(s'.handles, c) ==> Alive(s.handles, c)
  {
  }

  lemma {:induction false} RunKeepsInv(s: State, events: seq<Event>, t: State)
    requires Inv(s) && IsRun(s, events, t)
    ensures Inv(t)
    decreases |events|
  {
    hide Inv, Next, Enabled;
    if events == [] {
    } else {
      StepKeepsInv(s, events[0]);
      RunKeepsInv(Next(s, events[0]), events[1..], t);
    }
  }

  /**
    Over every run: every client a caller has a handle to is the one the weak pointer names and has passed
    its status check; at most one client that passed is alive, whoever owns it; and no thread is left with
    a shared pointer that is gone.
  */
  lemma OneClient(n: nat, events: seq<Event>, t: State)
    requires IsRun(Start(n), events, t)
    ensures forall h :: h in t.handles && t.handles[h].keeper.None? ==> IsNamed(t, h) && Passed(t, h)
    ensures forall g, h :: Passed(t, g) && Passed(t, h) ==> t.handles[g].client == t.handles[h].client
    ensures forall u: Thread :: u < |t.pcs| && HasToken(t.pcs[u]) ==> Enabled(t, Step(u))
  {
    StartInv(n);
    RunKeepsInv(Start(n), events, t);
    forall g, h | Passed(t, g) && Passed(t, h)
      ensures t.handles[g].client == t.handles[h].client
    {
      PassedAgree(t, g, h);
    }
    forall u: Thread | u < |t.pcs| && HasToken(t.pcs[u])
      ensures Enabled(t, Step(u))
    {
      assert ThreadKeeps(t, u) && HandleKept(t, t.pcs[u].token);
    }
  }

  lemma PassedAgree(s: State, g: Token, h: Token)
    requires Inv(s) && Passed(s, g) && Passed(s, h)
    ensures s.handles[g].client == s.handles[h].client
  {
  }

  // ---------- what a call of `instance` gives its caller ----------

  /** This step hands the callers a shared pointer to client c, the named one, that they did not have before. */
  predicate Hands(s: State, s': State, h: Token, c: Client) {
    && h in s'.handles && s'.handles[h] == Handle(c, None) && s'.named == Some(c)
    && !(h in s.handles && s.handles[h].keeper.None?)
  }

  predicate Returns(s: State, s': State) {
    exists h :: h in s'.handles && Hands(s, s', h, s'.handles[h].client) && Passed(s', h)
  }

  /** How far a thread inside `instance` still has to go. */
  function Distance(pc: Pc): nat {
    match pc
    case Outside => 0
    case TryLock => 7
    case Acquire => 6
    case Retry => 5
    case Build => 4
    case Assess(_) => 3
    case Name(_) => 2
    case LeaveFailed(_) => 2
    case Leave(_) => 1
    case DropFailed(_) => 1
  }

  /** The thread whose step this is. */
  predicate IsStepOf(e: Event, t: Thread) {
    (e.Call? || e.Step? || e.Construct?) && e.thread == t
  }

  /**
    The step takes the thread further; where it comes out, it either drops its own client, which failed, or the callers
    have a new shared pointer to the named client, which passed; and it makes a client only while no named one is alive.
  */
  predicate Proceeds(s: State, e: Event, t: Thread)
    requires Enabled(s, e) && t < |s.pcs|
  {
    var s' := Next(s, e);
    && t < |s'.pcs| && Distance(s'.pcs[t]) < Distance(s.pcs[t])
    && (s'.pcs[t].Outside? && !s.pcs[t].DropFailed? ==> Returns(s, s'))
    && (s.pcs[t].DropFailed? ==> s'.pcs[t].Outside? && !Passed(s, s.pcs[t].token))
    && (e.Construct? ==> !NamedAlive(s))
  }

  lemma StepReturns(s: State, e: Event, t: Thread)
    requires Inv(s) && Enabled(s, e) && IsStepOf(e, t) && !s.pcs[t].Outside?
    ensures Proceeds(s, e, t)
  {
    assert Knows(s, s.pcs[t]);
    if HasToken(s.pcs[t]) { TokenKept(s, t); }
    var s' := Next(s, e);
    if s.pcs[t].TryLock? && NamedAlive(s) {
      TryLockReturns(s, t);
    } else if s.pcs[t].Leave? {
      LeaveReturns(s, t);
    }
    hide NamedAlive, Kept, Returns;
  }

  /** The first test finds the client alive: it is returned at once. */
  lemma TryLockReturns(s: State, t: Thread)
    requires Inv(s) && t < |s.pcs| && s.pcs[t].TryLock? && NamedAlive(s)
    ensures Enabled(s, Step(t))
    ensures var s' := Next(s, Step(t));
            && s'.pcs[t].Outside? && s'.status == s.status
            && Hands(s, s', s.tokens, s.named.value) && Passed(s', s.tokens)
            && Returns(s, s')
  {
    assert forall h :: h in s.handles ==> HandleKept(s, h);
    var s' := Next(s, Step(t));
    assert Hands(s, s', s.tokens, s.named.value);
  }

  lemma LeaveReturns(s: State, t: Thread)
    requires Inv(s) && t < |s.pcs| && s.pcs[t].Leave?
    ensures Enabled(s, Step(t))
    ensures var h := s.pcs[t].token;
            && h in s.handles
            && var s' := Next(s, Step(t));
               && s'.pcs[t].Outside? && s'.status == s.status
               && Hands(s, s', h, s.handles[h].client) && Passed(s', h)
               && Returns(s, s')
  {
    assert Knows(s, s.pcs[t]);
    TokenKept(s, t);
    var s' := Next(s, Step(t));
    assert Hands(s, s', s.pcs[t].token, s.handles[s.pcs[t].token].client);
    hide Kept, NamedAlive;
  }

  /** Over every run, every step of a thread inside `instance` proceeds in this way. */
  lemma EveryCallReturns(n: nat, events: seq<Event>, s: State, e: Event, t: Thread)
    requires IsRun(Start(n), events, s) && Enabled(s, e) && IsStepOf(e, t) && !s.pcs[t].Outside?
    ensures Proceeds(s, e, t)
  {
    StartInv(n);
    RunKeepsInv(Start(n), events, s);
    hide IsRun, Inv, Proceeds;
    StepReturns(s, e, t);
  }

  /** No step of these is thread t's. */
  predicate ByOthers(events: seq<Event>, t: Thread) {
    forall i :: 0 <= i < |events| ==> !IsStepOf(events[i], t)
  }

  /** While others go on, a thread that is leaving keeps its shared pointer. */
  lemma {:induction false} LeaverWaits(s: State, events: seq<Event>, z: State, t: Thread)
    requires Inv(s) && IsRun(s, events, z) && ByOthers(events, t) && t < |s.pcs| && s.pcs[t].Leave?
    ensures Inv(z) && t < |z.pcs| && z.pcs[t] == s.pcs[t]
    ensures s.pcs[t].token in s.handles && s.pcs[t].token in z.handles
    ensures z.handles[s.pcs[t].token] == s.handles[s.pcs[t].token]
    decreases |events|
  {
    TokenKept(s, t);
    if events == [] {
    } else {
      assert !IsStepOf(events[0], t);
      StepKeepsInv(s, events[0]);
      StepLeaves(s, events[0]);
      var s1 := Next(s, events[0]);
      HandlesWait(s, events[0], s.pcs[t].token);
      hide Inv, Next, Enabled;
      LeaverWaits(s1, events[1..], z, t);
    }
  }

  lemma HandlesWait(s: State, e: Event, h: Token)
    requires Inv(s) && Enabled(s, e) && h in s.handles && s.handles[h].keeper.Some?
    requires !IsStepOf(e, s.handles[h].keeper.value)
    ensures h in Next(s, e).handles && Next(s, e).handles[h] == s.handles[h]
  {
    assert HandleKept(s, h);
    if e.Step? || e.Call? || e.Construct? {
      if HasToken(s.pcs[e.thread]) { TokenKept(s, e.thread); }
    }
  }

  /**
    Over every run: a call that finds the named client alive returns this client and makes none, whether it finds it in
    the first test, at once, or under the lock, whatever the other threads do before it leaves.
  */
  lemma FoundIsReturned(n: nat, events: seq<Event>, s: State, t: Thread, others: seq<Event>, z: State)
    requires IsRun(Start(n), events, s) && t < |s.pcs| && NamedAlive(s)
    requires s.pcs[t].TryLock? || s.pcs[t].Retry?
    requires Enabled(s, Step(t)) && IsRun(Next(s, Step(t)), others, z) && ByOthers(others, t)
    ensures var c, s1 := s.named.value, Next(s, Step(t));
            && s1.status == s.status
            && (s.pcs[t].TryLock? ==> s1.pcs[t].Outside? && exists h :: Hands(s, s1, h, c) && Passed(s1, h))
            && (s.pcs[t].Retry? ==>
                  && Enabled(z, Step(t))
                  && var z1 := Next(z, Step(t));
                     z1.pcs[t].Outside? && z1.status == z.status && exists h :: Hands(z, z1, h, c) && Passed(z1, h))
  {
    StartInv(n);
    RunKeepsInv(Start(n), events, s);
    var s1 := Next(s, Step(t));
    if s.pcs[t].TryLock? {
      TryLockReturns(s, t);
    } else {
      StepKeepsInv(s, Step(t));
      assert s1.pcs[t] == Leave(s.tokens) && s1.handles[s.tokens].client == s.named.value;
      hide Inv, Next, NamedAlive, Enabled;
      LeaverWaits(s1, others, z, t);
      LeaveReturns(z, t);
    }
    hide Inv, Next, NamedAlive, Enabled, IsRun;
  }
}

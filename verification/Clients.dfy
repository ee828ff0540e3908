/** How the client objects use the session manager. */
module Clients {
  import opened Common
  import S = Session
  import opened SessionCalls
  import opened SessionManager

  /** The transport reports success whatever became of its session. */
  method ConstructTransport(manager: ZenohSessionManager, opening: S.Opening)
    returns (uSuccess: UCode, session: Option<S.SessionId>)
    requires manager.Valid()
    modifies manager
    ensures manager.Valid() && manager.View() == Init(old(manager.View()), opening).0
    ensures uSuccess == OK
    ensures session == if old(manager.refCount) > 0 || opening.Opened? then manager.session else None
  {
    session := None;
    var code := manager.Init(opening);
    if code != OK {
      uSuccess := INTERNAL;
    }
    var got := manager.GetSession();
    if got.Some? {
      var again := manager.GetSession();
      session := again.value;
    } else {
      uSuccess := INTERNAL;
    }
    uSuccess := OK;
  }

  /** The RPC client reports success exactly when its `init` succeeded, and then has an open session. */
  method ConstructRpcClient(manager: ZenohSessionManager, opening: S.Opening)
    returns (rpcSuccess: UCode, session: Option<S.SessionId>)
    requires manager.Valid()
    modifies manager
    ensures manager.Valid() && manager.View() == Init(old(manager.View()), opening).0
    ensures rpcSuccess == if old(manager.refCount) > 0 || opening.Opened? then OK else UNAVAILABLE
    ensures rpcSuccess == OK ==> session.Some? && session == manager.View().session
  {
    session := None;
    var code := manager.Init(opening);
    if code != OK {
      rpcSuccess := UNAVAILABLE;
      return;
    }
    var got := manager.GetSession();
    if got.Some? {
      var again := manager.GetSession();
      session := again.value;
    } else {
      rpcSuccess := UNAVAILABLE;
      return;
    }
    rpcSuccess := OK;
  }

  /** The shared state after a client, transport part first, was constructed. */
  function Built(x: Shared, transport: S.Opening, rpc: S.Opening): Shared {
    Init(Init(x, transport).0, rpc).0
  }

  /** Both destructors call `term`, whatever their `init` returned. */
  function Torn(x: Shared): Shared {
    Term(Term(x))
  }

  /** Whatever else holds references, a destructor takes exactly its client's own in just these cases. */
  lemma DestroyTakesOwnReferences(x: Shared, owed: nat)
    requires owed <= 2 && owed <= x.refCount
    ensures Torn(x).refCount == x.refCount - owed <==> owed == 2 || x.refCount == owed
  {
  }

  // ---------- any number of clients ----------

  /** How many of a client's two `init` calls succeed. */
  function Owes(x: Shared, transport: S.Opening, rpc: S.Opening): nat {
    (if Init(x, transport).1 == OK then 1 else 0) + (if Init(Init(x, transport).0, rpc).1 == OK then 1 else 0)
  }

  datatype Event = Construct(transport: S.Opening, rpc: S.Opening) | Destroy(client: nat)

  /** `owed[c]` is what live client c still owes the manager. */
  datatype State = State(shared: Shared, owed: seq<nat>)

  predicate Enabled(s: State, e: Event) {
    e.Destroy? ==> e.client < |s.owed|
  }

  function Without(owed: seq<nat>, c: nat): seq<nat>
    requires c < |owed|
  {
    owed[..c] + owed[c + 1..]
  }

  function Next(s: State, e: Event): State
    requires Enabled(s, e)
  {
    match e
    case Construct(transport, rpc) =>
      State(Built(s.shared, transport, rpc), s.owed + [Owes(s.shared, transport, rpc)])
    case Destroy(c) => State(Torn(s.shared), Without(s.owed, c))
  }

  /** The count is what the live clients owe, and it is positive exactly while a session is open. */
  ghost predicate Exact(s: State) {
    && (forall c :: 0 <= c < |s.owed| ==> s.owed[c] <= 2)
    && s.shared.refCount == S.Sum(s.owed)
    && (s.shared.refCount > 0 <==> s.shared.session.Some?)
  }

  /** A client is destroyed that owes two references, or while no other owes any. */
  predicate Fair(s: State, e: Event)
    requires Enabled(s, e)
  {
    e.Destroy? ==> s.owed[e.client] == 2 || S.Sum(Without(s.owed, e.client)) == 0
  }

  lemma {:induction false} SumAppend(x: seq<nat>, y: seq<nat>)
    ensures S.Sum(x + y) == S.Sum(x) + S.Sum(y)
  {
    if x == [] {
      assert x + y == y;
    } else {
      assert (x + y)[1..] == x[1..] + y;
      SumAppend(x[1..], y);
    }
  }

  lemma SumWithout(owed: seq<nat>, c: nat)
    requires c < |owed|
    ensures S.Sum(Without(owed, c)) == S.Sum(owed) - owed[c]
  {
    SumAppend(owed[..c], owed[c..]);
    SumAppend(owed[..c], owed[c + 1..]);
    assert owed == owed[..c] + owed[c..] && owed[c..][1..] == owed[c + 1..];
  }

  lemma {:induction false} SumIsNat(owed: seq<nat>)
    ensures S.Sum(owed) >= 0
  {
    if owed == [] {
    } else {
      SumIsNat(owed[1..]);
    }
  }

  /** A step keeps the count exact, exactly when it is fair. */
  lemma StepKeepsExact(s: State, e: Event)
    requires Exact(s) && Enabled(s, e)
    ensures Exact(Next(s, e)) <==> Fair(s, e)
  {
    match e {
      case Construct(transport, rpc) =>
        SumAppend(s.owed, [Owes(s.shared, transport, rpc)]);
      case Destroy(c) =>
        SumWithout(s.owed, c);
        SumIsNat(Without(s.owed, c));
    }
    hide S.Sum;
  }

  ghost predicate AlwaysExact(s: State, events: seq<Event>)
    decreases |events|
  {
    Exact(s) && (events == [] || (Enabled(s, events[0]) && AlwaysExact(Next(s, events[0]), events[1..])))
  }

  ghost predicate AlwaysFair(s: State, events: seq<Event>)
    decreases |events|
  {
    events == [] || (Enabled(s, events[0]) && Fair(s, events[0]) && AlwaysFair(Next(s, events[0]), events[1..]))
  }

  /**
    Over every sequence of constructions and destructions: the count is at every point what the live clients
    owe exactly when every client was destroyed while it owed two references or no other owed any.
  */
  lemma {:induction false} ExactWhileFair(s: State, events: seq<Event>)
    requires Exact(s)
    ensures AlwaysExact(s, events) <==> AlwaysFair(s, events)
    decreases |events|
  {
    if events == [] {
    } else if Enabled(s, events[0]) {
      StepKeepsExact(s, events[0]);
      hide Exact, Next, Fair;
      if Exact(Next(s, events[0])) {
        ExactWhileFair(Next(s, events[0]), events[1..]);
      }
    }
  }

  /** A client owes two references exactly when both its `init` calls succeeded; one that reported failure owes none. */
  lemma FailedOwesNothing(x: Shared, transport: S.Opening, rpc: S.Opening)
    ensures Built(x, transport, rpc).refCount == x.refCount + Owes(x, transport, rpc)
    ensures Owes(x, transport, rpc) == 2 <==> Init(x, transport).1 == OK
    ensures Init(Init(x, transport).0, rpc).1 != OK ==> Owes(x, transport, rpc) == 0
  {
  }

  /** A client whose `init` calls failed is destroyed while another is alive: its session is closed under it. */
  lemma HalfFailedClientTakesReferences()
    ensures var s0 := State(Shared(0, None, 0), []);
            var s1 := Next(s0, Construct(S.OpenFailed, S.OpenFailed));
            var s2 := Next(s1, Construct(S.Opened, S.Opened));
            var t := Next(s2, Destroy(0));
            && Exact(s0) && Exact(s2) && s2.shared == Shared(2, Some(0), 1)
            && t.owed == [2] && t.shared == Shared(0, None, 1)
  {
    var s1 := Next(State(Shared(0, None, 0), []), Construct(S.OpenFailed, S.OpenFailed));
    assert s1 == State(Shared(0, None, 0), [0]);
    assert Next(s1, Construct(S.Opened, S.Opened)).owed == [0, 2];
    assert S.Sum([0, 2]) == 2 by { assert [0, 2][1..] == [2] && [2][1..] == []; }
  }

  /** Constructing and destroying a client, with nothing in between, restores count and session. */
  lemma BuildThenTear(x: Shared, transport: S.Opening, rpc: S.Opening)
    requires x.refCount > 0 <==> x.session.Some?
    ensures Torn(Built(x, transport, rpc)).refCount == x.refCount
    ensures Torn(Built(x, transport, rpc)).session == x.session
  {
  }
}

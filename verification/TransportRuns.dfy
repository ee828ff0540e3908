/** Whole lives of a transport object: any sequence of calls and incoming queries, then the destructor. */
module TransportRuns {
  import opened Common
  import opened Attributes
  import opened Transport
  import opened TransportInvariants
  import opened RequestLedger

  /** Which call of a client a query comes from. The transport does not see it. */
  type CallId = nat

  datatype Op =
    | RegisterOp(uri: UUri, listener: Listener, declared: Option<Handle>)
    | UnregisterOp(uri: UUri, listener: Listener)
    | SendOp(uri: UUri, payload: UPayload, attributes: UAttributes, fate: Fate)
    | QueryOp(queryable: Handle, query: Sample, call: CallId)

  /** What Zenoh must respect: fresh handles, full deliveries, readable memory. */
  ghost predicate Offered(s: State, op: Op) {
    match op
    case RegisterOp(_, _, declared) => FreshHandle(s.world, declared)
    case UnregisterOp(_, _) => true
    case SendOp(uri, payload, a, fate) => CanSend(s, uri, payload, a, fate) && FreshHandle(s.world, fate.declared)
    case QueryOp(h, query, _) => h in s.world.queryables && ParseableSample(query)
  }

  /** And what the callers must: no key is in use for both kinds of URI. */
  ghost predicate Allowed(s: State, op: Op) {
    Offered(s, op) && (op.RegisterOp? ==> SameKind(EntryAt(s, op.uri.key), op.uri.rpc))
  }

  /** An erasure past the end of a vector has no defined result; `StepKeepsGood` shows that it does not occur. */
  ghost function Step(s: State, op: Op): State
    requires Offered(s, op)
  {
    match op
    case RegisterOp(uri, listener, declared) => Register(s, uri, listener, declared).0
    case UnregisterOp(uri, listener) =>
      if Erasable(EntryAt(s, uri.key), listener) then Unregister(s, uri, listener).0 else s
    case SendOp(uri, payload, a, fate) => Send(s, uri, payload, a, fate).0
    case QueryOp(h, query, _) => Query(s, query, s.world.queryables[h])
  }

  ghost predicate IsRun(s: State, ops: seq<Op>, t: State)
    decreases |ops|
  {
    if ops == [] then s == t else Allowed(s, ops[0]) && IsRun(Step(s, ops[0]), ops[1..], t)
  }

  /** A run in which the callers need not respect anything. */
  ghost predicate IsOffered(s: State, ops: seq<Op>, t: State)
    decreases |ops|
  {
    if ops == [] then s == t else Offered(s, ops[0]) && IsOffered(Step(s, ops[0]), ops[1..], t)
  }

  lemma {:induction false} RunIsOffered(s: State, ops: seq<Op>, t: State)
    requires IsRun(s, ops, t)
    ensures IsOffered(s, ops, t)
    decreases |ops|
  {
    hide Step, Offered;
    if ops == [] {
    } else {
      RunIsOffered(Step(s, ops[0]), ops[1..], t);
    }
  }

  ghost predicate Good(s: State) {
    RegistryInv(s) && PublisherInv(s) && QueryInv(s)
  }

  lemma FreshIsGood()
    ensures Good(FRESH)
  {
  }

  lemma RegistryUntouched(s: State, t: State)
    requires t.entries == s.entries
    requires t.world.subscribers == s.world.subscribers && t.world.queryables == s.world.queryables
    ensures RegistryInv(s) <==> RegistryInv(t)
  {
  }

  lemma PublishersUntouched(s: State, t: State)
    requires t.pubs == s.pubs && t.world.publishers == s.world.publishers && t.world.puts == s.world.puts
    ensures PublisherInv(s) <==> PublisherInv(t)
  {
  }

  lemma QueriesUntouched(s: State, t: State)
    requires LedgerOf(t) == LedgerOf(s) && t.world.replies == s.world.replies
    ensures QueryInv(s) <==> QueryInv(t)
  {
  }

  lemma StepKeepsGood(s: State, op: Op)
    requires Good(s) && Allowed(s, op)
    ensures Good(Step(s, op))
    ensures op.UnregisterOp? ==> Erasable(EntryAt(s, op.uri.key), op.listener)
  {
    hide RegistryInv, PublisherInv, QueryInv, ParseableSample, CanSend, Query, Transport.Send;
    var t := Step(s, op);
    match op {
      case RegisterOp(uri, listener, declared) =>
        RegisterKeepsRegistry(s, uri, listener, declared);
        PublishersUntouched(s, t);
        QueriesUntouched(s, t);
      case UnregisterOp(uri, listener) =>
        UnregisterKeepsRegistry(s, uri, listener);
        PublishersUntouched(s, t);
        QueriesUntouched(s, t);
      case SendOp(uri, payload, a, fate) =>
        SendKeepsPublishers(s, uri, payload, a, fate);
        SendKeepsQueries(s, uri, payload, a, fate);
        SendKeepsEntities(s, uri, payload, a, fate);
        RegistryUntouched(s, t);
      case QueryOp(h, query, _) =>
        QueryKeepsQueries(s, query, s.world.queryables[h]);
        QueryLeaves(s, query, s.world.queryables[h]);
        RegistryUntouched(s, t);
        PublishersUntouched(s, t);
    }
  }

  lemma SendKeepsEntities(s: State, uri: UUri, payload: UPayload, a: UAttributes, fate: Fate)
    requires CanSend(s, uri, payload, a, fate)
    ensures var t := Send(s, uri, payload, a, fate).0;
            && t.entries == s.entries
            && t.world.subscribers == s.world.subscribers && t.world.queryables == s.world.queryables
  {
    hide HeaderBytes, RunsOf, Wired, ParseableSample, Delivers, CallbacksOf, Addressable;
  }

  /** Every state a transport can get into is good. */
  lemma {:induction false} RunKeepsGood(s: State, ops: seq<Op>, t: State)
    requires Good(s) && IsRun(s, ops, t)
    ensures Good(t)
    decreases |ops|
  {
    hide Good, Step, Offered;
    if ops == [] {
    } else {
      StepKeepsGood(s, ops[0]);
      RunKeepsGood(Step(s, ops[0]), ops[1..], t);
    }
  }

  // ---------- one kind of URI per key ----------

  /** Whether a URI is an RPC method can be told from its key: no hash collides across the two kinds. */
  predicate Conforms(op: Op, kind: Key -> bool) {
    op.RegisterOp? ==> (op.uri.rpc <==> kind(op.uri.key))
  }

  ghost predicate ByKind(s: State, kind: Key -> bool) {
    forall k :: k in s.entries && s.entries[k].listeners != [] ==> (kind(k) <==> s.entries[k].qables != [])
  }

  /** Where keys tell the kinds apart, callers need not respect anything else. */
  lemma {:induction false} KeysDecideKind(kind: Key -> bool, s: State, ops: seq<Op>, t: State)
    requires Good(s) && ByKind(s, kind) && IsOffered(s, ops, t)
    requires forall i :: 0 <= i < |ops| ==> Conforms(ops[i], kind)
    ensures IsRun(s, ops, t) && ByKind(t, kind)
    decreases |ops|
  {
    if ops == [] {
    } else {
      StepKeepsKind(kind, s, ops[0]);
      StepKeepsGood(s, ops[0]);
      hide Good, Step, Offered, ByKind, Conforms;
      KeysDecideKind(kind, Step(s, ops[0]), ops[1..], t);
    }
  }

  lemma StepKeepsKind(kind: Key -> bool, s: State, op: Op)
    requires Good(s) && ByKind(s, kind) && Offered(s, op) && Conforms(op, kind)
    ensures Allowed(s, op) && ByKind(Step(s, op), kind)
  {
    hide PublisherInv, QueryInv, ParseableSample, CanSend, Query, Transport.Send, Aligned, Distinct, Kept;
    match op {
      case RegisterOp(_, _, _) =>
      case UnregisterOp(uri, listener) =>
        if uri.key in s.entries && listener in s.entries[uri.key].listeners {
          assert EntryOk(uri.key, s.entries[uri.key], s.world.subscribers, s.world.queryables);
          KindOfDropped(s.entries[uri.key], listener);
        }
      case SendOp(uri, payload, a, fate) =>
        SendKeepsEntities(s, uri, payload, a, fate);
      case QueryOp(h, query, _) =>
        QueryLeaves(s, query, s.world.queryables[h]);
    }
  }

  lemma KindOfDropped(e: Entry, listener: Listener)
    requires Lockstep(e) && listener in e.listeners && Erasable(e, listener)
    ensures var f := Dropped(e, listener);
            f.listeners != [] ==> (f.qables != [] <==> e.qables != [])
  {
  }

  // ---------- both kinds under one key ----------

  /** Whatever kinds of URI share the key: one listener for each handle, and no listener twice. */
  ghost predicate Tallied(e: Entry) {
    |e.listeners| == |e.subs| + |e.qables| && Distinct(e.listeners)
  }

  ghost predicate AllTallied(s: State) {
    forall k :: k in s.entries ==> Tallied(s.entries[k])
  }

  lemma AppendedTallied(e: Entry, rpc: bool, h: Handle, listener: Listener)
    requires Tallied(e) && listener !in e.listeners
    ensures Tallied(Appended(e, rpc, h, listener))
  {
  }

  lemma DroppedTallied(e: Entry, listener: Listener)
    requires Tallied(e) && listener in e.listeners && Erasable(e, listener)
    ensures Tallied(Dropped(e, listener))
  {
    EraseAt(e.listeners, IndexOf(e.listeners, listener));
  }

  lemma StepKeepsTally(s: State, op: Op)
    requires AllTallied(s) && Offered(s, op)
    ensures AllTallied(Step(s, op))
  {
    hide ParseableSample, CanSend, Query, Transport.Send, Tallied, Appended, Dropped, Erasable;
    match op {
      case RegisterOp(uri, listener, declared) =>
        assert Tallied(EntryAt(s, uri.key)) by { NothingTallied(); }
        if listener !in EntryAt(s, uri.key).listeners && declared.Some? {
          AppendedTallied(EntryAt(s, uri.key), uri.rpc, declared.value, listener);
        }
      case UnregisterOp(uri, listener) =>
        if uri.key in s.entries && listener in s.entries[uri.key].listeners && Erasable(s.entries[uri.key], listener) {
          DroppedTallied(s.entries[uri.key], listener);
        }
      case SendOp(uri, payload, a, fate) => SendKeepsEntities(s, uri, payload, a, fate);
      case QueryOp(h, query, _) => QueryLeaves(s, query, s.world.queryables[h]);
    }
  }

  lemma NothingTallied()
    ensures Tallied(Entry([], [], []))
  {
  }

  lemma {:induction false} RunKeepsTally(s: State, ops: seq<Op>, t: State)
    requires AllTallied(s) && IsOffered(s, ops, t)
    ensures AllTallied(t)
    decreases |ops|
  {
    if ops == [] {
    } else {
      StepKeepsTally(s, ops[0]);
      hide AllTallied, Step, Offered;
      RunKeepsTally(Step(s, ops[0]), ops[1..], t);
    }
  }

  /**
    Over every life, whatever shares a key: an unregistration erases past the end of a vector exactly when the
    listener's position is beyond the subscribers and there are some; and a key has a listener for which it
    does exactly when both kinds are registered under it.
  */
  lemma ErasesPastTheEnd(ops: seq<Op>, t: State, key: Key)
    requires IsOffered(FRESH, ops, t)
    ensures var e := EntryAt(t, key);
            && (forall l :: !Erasable(e, l) <==>
                  l in e.listeners && e.subs != [] && |e.subs| <= IndexOf(e.listeners, l))
            && ((exists l :: !Erasable(e, l)) <==> e.subs != [] && e.qables != [])
  {
    RunKeepsTally(FRESH, ops, t);
    var e := EntryAt(t, key);
    assert Tallied(e);
    if e.subs != [] && e.qables != [] {
      var last := e.listeners[|e.listeners| - 1];
      assert IndexOf(e.listeners, last) == |e.listeners| - 1;
      assert !Erasable(e, last);
    }
  }

  // ---------- pending queries ----------

  lemma StepKeepsQueries(s: State, op: Op)
    requires QueryInv(s) && Offered(s, op)
    ensures QueryInv(Step(s, op))
  {
    hide QueryInv, ParseableSample, CanSend, Query, Transport.Send;
    match op {
      case RegisterOp(_, _, _) => QueriesUntouched(s, Step(s, op));
      case UnregisterOp(_, _) => QueriesUntouched(s, Step(s, op));
      case SendOp(uri, payload, a, fate) => SendKeepsQueries(s, uri, payload, a, fate);
      case QueryOp(h, query, _) => QueryKeepsQueries(s, query, s.world.queryables[h]);
    }
  }

  lemma {:induction false} RunKeepsQueries(s: State, ops: seq<Op>, t: State)
    requires QueryInv(s) && IsOffered(s, ops, t)
    ensures QueryInv(t)
    decreases |ops|
  {
    if ops == [] {
    } else {
      StepKeepsQueries(s, ops[0]);
      hide QueryInv, Step, Offered;
      RunKeepsQueries(Step(s, ops[0]), ops[1..], t);
    }
  }

  /** The id a clone was filed under never changes. */
  lemma {:induction false} RunKeepsFiled(s: State, ops: seq<Op>, t: State)
    requires QueryInv(s) && IsOffered(s, ops, t)
    ensures forall q :: q in s.world.filed ==> q in t.world.filed && t.world.filed[q] == s.world.filed[q]
    decreases |ops|
  {
    if ops == [] {
    } else {
      StepKeepsQueries(s, ops[0]);
      StepKeepsFiled(s, ops[0]);
      hide QueryInv, Step, Offered;
      RunKeepsFiled(Step(s, ops[0]), ops[1..], t);
    }
  }

  lemma StepKeepsFiled(s: State, op: Op)
    requires QueryInv(s) && Offered(s, op)
    ensures forall q :: q in s.world.filed ==>
              q in Step(s, op).world.filed && Step(s, op).world.filed[q] == s.world.filed[q]
  {
    FilesOnlyNew(LedgerOf(s));
    var t := Step(s, op);
    assert s.world.filed == LedgerOf(s).filed && t.world.filed == LedgerOf(t).filed;
    if op.SendOp? {
      SendIsLedgerStep(s, op.uri, op.payload, op.attributes, op.fate);
    } else if op.QueryOp? {
      QueryIsLedgerStep(s, op.query, s.world.queryables[op.queryable]);
    }
    hide QueryInv, ParseableSample, CanSend, Query, Transport.Send, Answered;
  }

  lemma StepKeepsReplies(s: State, op: Op)
    requires Offered(s, op)
    ensures Extends(Step(s, op).world.replies, s.world.replies)
  {
    hide ParseableSample, CanSend, Query, Transport.Send;
    match op {
      case RegisterOp(_, _, _) =>
      case UnregisterOp(_, _) =>
      case SendOp(uri, payload, a, fate) => SendAppendsReply(s, uri, payload, a, fate);
      case QueryOp(h, query, _) => QueryLeaves(s, query, s.world.queryables[h]);
    }
  }

  predicate Extends(longer: seq<Reply>, shorter: seq<Reply>) {
    |shorter| <= |longer| && forall i :: 0 <= i < |shorter| ==> longer[i] == shorter[i]
  }

  /** A reply is never taken back. */
  lemma {:induction false} RunKeepsReplies(s: State, ops: seq<Op>, t: State)
    requires IsOffered(s, ops, t)
    ensures Extends(t.world.replies, s.world.replies)
    decreases |ops|
  {
    if ops == [] {
    } else {
      StepKeepsReplies(s, ops[0]);
      hide Step, Offered;
      RunKeepsReplies(Step(s, ops[0]), ops[1..], t);
    }
  }

  lemma SendAppendsReply(s: State, uri: UUri, payload: UPayload, a: UAttributes, fate: Fate)
    requires CanSend(s, uri, payload, a, fate)
    ensures var t := Send(s, uri, payload, a, fate).0;
            Extends(t.world.replies, s.world.replies)
  {
    hide HeaderBytes, RunsOf, Wired, ParseableSample, Delivers, CallbacksOf, Addressable;
  }

  /**
    Over every life: a cloned query gets at most one reply, a reply carries the id its query was filed
    under, and every clone is pending, answered or lost, never two of these.
  */
  lemma AnsweredAtMostOnce(ops: seq<Op>, t: State)
    requires IsOffered(FRESH, ops, t)
    ensures forall i, j :: 0 <= i < j < |t.world.replies| ==> t.world.replies[i].query != t.world.replies[j].query
    ensures forall i :: 0 <= i < |t.world.replies| ==> ReplyOk(t.world.filed, t.world.replies[i])
    ensures t.world.clones == |t.world.replies| + |t.pending| + |t.world.lost|
    ensures forall q: QueryId :: q in t.world.lost <==>
              && q < t.world.clones
              && Unanswered(t.world, q)
              && (q in t.world.filed ==> Overtaken(t.world.filed, q))
  {
    FreshIsGood();
    RunKeepsQueries(FRESH, ops, t);
    LossesOf(t);
  }

  ghost predicate Unanswered(w: World, q: QueryId) {
    forall i :: 0 <= i < |w.replies| ==> w.replies[i].query != q
  }

  lemma LossesOf(t: State)
    requires QueryInv(t)
    ensures forall q: QueryId :: q in t.world.lost <==>
              && q < t.world.clones
              && Unanswered(t.world, q)
              && (q in t.world.filed ==> Overtaken(t.world.filed, q))
  {
    UnansweredAreNotAnswered(t.world);
    hide Unanswered, ReplyOk, Overtaken, Answered;
  }

  lemma UnansweredAreNotAnswered(w: World)
    ensures forall q: QueryId :: q in Answered(w) <==> !Unanswered(w, q)
  {
    forall q: QueryId
      ensures q in Answered(w) <==> !Unanswered(w, q)
    {
      if q in Answered(w) {
        var r :| r in w.replies && r.query == q;
        var i :| 0 <= i < |w.replies| && w.replies[i] == r;
      }
    }
  }

  /** The query was filed under the id, no later one was, and it has no reply. */
  ghost predicate Awaits(w: World, q: QueryId, id: Uuid) {
    q in w.filed && w.filed[q] == id && !Overtaken(w.filed, q) && Unanswered(w, q)
  }

  /** What is pending is what awaits a reply. */
  lemma PendingAwaits(s: State, q: QueryId, id: Uuid)
    requires QueryInv(s)
    ensures id in s.pending && s.pending[id] == q <==> Awaits(s.world, q, id)
  {
    UnansweredAreNotAnswered(s.world);
    hide Unanswered, ReplyOk, Overtaken, Answered;
    var l := LedgerOf(s);
    assert IsPending(l, q) <==> q in l.filed && l.filed[q] in l.pending && l.pending[l.filed[q]] == q;
  }

  predicate HasPayload(payload: UPayload) {
    payload.data.Some? && payload.data.value != []
  }

  /** The hint is one that has an encoding. */
  predicate GoodHint(hint: Option<Int32>) {
    hint.None? || hint.value == PROTOBUF || hint.value == JSON || hint.value == SOMEIP || hint.value == RAW
  }

  /** The encoding a hint stands for. */
  predicate Encodes(hint: Option<Int32>, encoding: Encoding) {
    && (hint == Some(PROTOBUF) <==> encoding.AppOctetStream?)
    && (hint == Some(JSON) <==> encoding.AppJson?)
    && (hint.None? || hint == Some(SOMEIP) || hint == Some(RAW) <==> encoding.TextPlain?)
  }

  lemma HintsExactly(hint: Option<Int32>)
    ensures EncodingFor(hint).Some? <==> GoodHint(hint)
    ensures EncodingFor(hint).Some? ==> Encodes(hint, EncodingFor(hint).value)
  {
  }

  /** The world after just one more reply: to query q, with this payload and these attributes in its header. */
  predicate RepliesOnce(w: World, v: World, q: QueryId, payload: UPayload, a: UAttributes) {
    && |v.replies| == |w.replies| + 1
    && v == w.(replies := w.replies + [v.replies[|w.replies|]])
    && var r := v.replies[|w.replies|];
       && r.query == q && payload.data == Some(r.payload) && r.attributes == a && r.header == HeaderBytes(a)
       && Encodes(a.hint, r.encoding)
  }

  /**
    Over every life: a response is accepted exactly when it has a payload, a type and an encoding as it
    should, Zenoh takes it, and some query with its id awaits a reply. Then there is one reply more, to this query. For
    any other the status says why, and nothing changes, so that a query stays pending.
  */
  lemma ResponseAccepted(ops: seq<Op>, s: State, uri: UUri, payload: UPayload, a: UAttributes, fate: Fate)
    requires IsOffered(FRESH, ops, s) && uri.rpc && CanSend(s, uri, payload, a, fate)
    ensures var (t, status) := Send(s, uri, payload, a, fate);
            && status == (if !HasPayload(payload) then UNAVAILABLE
                          else if a.kind != RESPONSE then INVALID_ARGUMENT
                          else if !exists q :: Awaits(s.world, q, a.id) then UNAVAILABLE
                          else if !GoodHint(a.hint) || !fate.accepted then INTERNAL
                          else OK)
            && (status != OK ==> t == s)
            && (status == OK ==> exists q :: Awaits(s.world, q, a.id) && RepliesOnce(s.world, t.world, q, payload, a))
  {
    hide QueryInv, IsOffered, Awaits, Transport.Send, HeaderBytes, Good, RepliesOnce, GoodHint;
    FreshIsGood();
    RunKeepsQueries(FRESH, ops, s);
    ResponseNeedsPending(s, uri, payload, a, fate);
    IdsAwaited(s, a.id);
    if a.id in s.pending { PendingAwaits(s, s.pending[a.id], a.id); }
  }

  lemma IdsAwaited(s: State, id: Uuid)
    requires QueryInv(s)
    ensures id in s.pending <==> exists q :: Awaits(s.world, q, id)
  {
    hide QueryInv, Awaits;
    if id in s.pending { PendingAwaits(s, s.pending[id], id); }
    forall q | Awaits(s.world, q, id)
      ensures id in s.pending
    {
      PendingAwaits(s, q, id);
    }
  }

  lemma ResponseNeedsPending(s: State, uri: UUri, payload: UPayload, a: UAttributes, fate: Fate)
    requires uri.rpc && CanSend(s, uri, payload, a, fate)
    ensures var (t, status) := Send(s, uri, payload, a, fate);
            && status == (if !HasPayload(payload) then UNAVAILABLE
                          else if a.kind != RESPONSE then INVALID_ARGUMENT
                          else if a.id !in s.pending then UNAVAILABLE
                          else if !GoodHint(a.hint) || !fate.accepted then INTERNAL
                          else OK)
            && (status != OK ==> t == s)
            && (status == OK ==> RepliesOnce(s.world, t.world, s.pending[a.id], payload, a))
  {
    HintsExactly(a.hint);
    hide HeaderBytes, EncodingFor, GoodHint, Encodes;
  }

  // ---------- which keys are known ----------

  /** Some registration in this run was for the key and reported success. */
  ghost predicate EverRegistered(s: State, ops: seq<Op>, key: Key)
    decreases |ops|
  {
    && ops != [] && Offered(s, ops[0])
    && (|| Registers(s, ops[0], key)
        || EverRegistered(Step(s, ops[0]), ops[1..], key))
  }

  predicate Registers(s: State, op: Op, key: Key) {
    op.RegisterOp? && op.uri.key == key && Register(s, op.uri, op.listener, op.declared).1 == OK
  }

  /** The registry knows a key exactly when a registration for it ever succeeded. */
  lemma {:induction false} KnownKeys(s: State, ops: seq<Op>, t: State, key: Key)
    requires IsOffered(s, ops, t)
    ensures key in t.entries <==> key in s.entries || EverRegistered(s, ops, key)
    decreases |ops|
  {
    if ops == [] {
    } else {
      StepKnownKeys(s, ops[0], key);
      hide Step, Offered, Registers;
      KnownKeys(Step(s, ops[0]), ops[1..], t, key);
    }
  }

  lemma StepKnownKeys(s: State, op: Op, key: Key)
    requires Offered(s, op)
    ensures key in Step(s, op).entries <==> key in s.entries || Registers(s, op, key)
  {
    hide ParseableSample, CanSend, Query, Transport.Send;
    match op {
      case RegisterOp(_, _, _) =>
      case UnregisterOp(_, _) =>
      case SendOp(uri, payload, a, fate) => SendKeepsEntities(s, uri, payload, a, fate);
      case QueryOp(h, query, _) => QueryLeaves(s, query, s.world.queryables[h]);
    }
  }

  /**
    Over every life: unregistering reports success exactly when a registration for the key ever succeeded,
    whether or not the listener is or was registered.
  */
  lemma UnregisterStatus(ops: seq<Op>, t: State, uri: UUri, listener: Listener)
    requires IsRun(FRESH, ops, t)
    ensures Erasable(EntryAt(t, uri.key), listener)
    ensures Unregister(t, uri, listener).1 == OK <==> EverRegistered(FRESH, ops, uri.key)
    ensures Pairs(Unregister(t, uri, listener).0) == Pairs(t) - {(uri.key, listener)}
  {
    FreshIsGood();
    RunKeepsGood(FRESH, ops, t);
    RunIsOffered(FRESH, ops, t);
    KnownKeys(FRESH, ops, t, uri.key);
    UnregisterRemovesOnePair(t, uri, listener);
    hide IsRun, EverRegistered, RegistryInv, PublisherInv, QueryInv;
  }

  // ---------- the end ----------

  /**
    After any life and the destructor no publisher and no subscriber is left; what is left declared is
    exactly the queryables of the registered RPC listeners. Cache and registry are empty, and what has happened stays.
  */
  lemma DestructorLeavesQueryables(ops: seq<Op>, t: State)
    requires IsRun(FRESH, ops, t)
    ensures var w := Destroyed(t).world;
            && w.publishers == map[]
            && w.subscribers == map[]
            && w.queryables == t.world.queryables
            && w.queryables.Keys == AllQables(t)
            && Destroyed(t).pubs == map[] && Destroyed(t).entries == map[] && Destroyed(t).pending == t.pending
            && w.puts == t.world.puts && w.received == t.world.received && w.replies == t.world.replies
            && w.clones == t.world.clones && w.filed == t.world.filed && w.lost == t.world.lost
  {
    FreshIsGood();
    RunKeepsGood(FRESH, ops, t);
    UndeclaresAll(t);
  }

  lemma UndeclaresAll(t: State)
    requires RegistryInv(t) && PublisherInv(t)
    ensures Destroyed(t).world.publishers == map[] && Destroyed(t).world.subscribers == map[]
    ensures t.world.queryables.Keys == AllQables(t)
  {
  }
}

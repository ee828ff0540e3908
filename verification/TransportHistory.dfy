/** What the calls of the past decide: who publishes, and with which URI a listener is called. */
module TransportHistory {
  import opened Common
  import opened Attributes
  import opened Transport
  import opened TransportInvariants
  import opened TransportRuns

  // ---------- publishing ----------

  /** A publish that declares a publisher for the key, where there is none: it is well formed, and Zenoh would agree. */
  predicate Declares(op: Op, key: Key) {
    && op.SendOp? && !op.uri.rpc && op.uri.key == key
    && HasPayload(op.payload) && op.attributes.kind == PUBLISH && op.fate.declared.Some?
  }

  ghost predicate EverDeclared(ops: seq<Op>, key: Key) {
    exists i :: 0 <= i < |ops| && Declares(ops[i], key)
  }

  lemma StepCaches(s: State, op: Op, key: Key)
    requires Offered(s, op)
    ensures key in Step(s, op).pubs <==> key in s.pubs || Declares(op, key)
  {
    hide ParseableSample, Query, HeaderBytes, RunsOf, Wired, CallbacksOf, Delivers, Addressable;
    if op.QueryOp? { QueryLeaves(s, op.query, s.world.queryables[op.queryable]); }
  }

  /** A publisher is cached for exactly the keys for which one was ever declared. */
  lemma {:induction false} CachedKeys(s: State, ops: seq<Op>, t: State, key: Key)
    requires IsOffered(s, ops, t)
    ensures key in t.pubs <==> key in s.pubs || EverDeclared(ops, key)
    decreases |ops|
  {
    if ops == [] {
    } else {
      StepCaches(s, ops[0], key);
      CachedKeys(Step(s, ops[0]), ops[1..], t, key);
      hide Step, Offered, Declares;
      assert forall i :: 1 <= i < |ops| ==> ops[i] == ops[1..][i - 1];
    }
  }

  /** Just one more put: through this publisher, with this payload, and with these attributes in its header. */
  predicate PutsOnce(w: World, v: World, pub: Handle, key: Key, payload: UPayload, a: UAttributes) {
    && |v.puts| == |w.puts| + 1 && v.puts[..|w.puts|] == w.puts
    && var p := v.puts[|w.puts|];
       && p.publisher == pub && p.key == key && payload.data == Some(p.payload) && p.header == HeaderBytes(a)
       && Encodes(a.hint, p.encoding)
  }

  /** Nothing but the cache and the declared publishers may differ. */
  predicate OnlyCaches(s: State, t: State) {
    t == s.(pubs := t.pubs, world := s.world.(publishers := t.world.publishers))
  }

  lemma PublishNeedsPublisher(s: State, uri: UUri, payload: UPayload, a: UAttributes, fate: Fate)
    requires !uri.rpc && CanSend(s, uri, payload, a, fate)
    ensures var (t, status) := Send(s, uri, payload, a, fate);
            && status == (if !HasPayload(payload) then UNAVAILABLE
                          else if a.kind != PUBLISH then INVALID_ARGUMENT
                          else if uri.key !in s.pubs && fate.declared.None? then UNAVAILABLE
                          else if !GoodHint(a.hint) || !fate.accepted then UNAVAILABLE
                          else OK)
            && (status != OK ==> OnlyCaches(s, t))
            && (!HasPayload(payload) || a.kind != PUBLISH || uri.key in s.pubs ==>
                  t.pubs == s.pubs && t.world.publishers == s.world.publishers)
            && (forall k :: k in s.pubs ==> k in t.pubs && t.pubs[k] == s.pubs[k])
            && (status == OK ==>
                  uri.key in t.pubs && PutsOnce(s.world, t.world, t.pubs[uri.key], uri.key, payload, a))
  {
    HintsExactly(a.hint);
    hide HeaderBytes, EncodingFor, GoodHint, Encodes, RunsOf, Wired, ParseableSample, Delivers, CallbacksOf,
      Addressable;
  }

  /**
    Over every life: a message to a URI that is no RPC method is published exactly when it has a payload, the type
    PUBLISH and an encoding, a publisher for its key was declared before or is declared now, and Zenoh takes it; it is
    then put once, through the cached publisher. For any other the status says why, nothing is put or delivered, and at
    most the cache changes.
  */
  lemma PublishAccepted(ops: seq<Op>, s: State, uri: UUri, payload: UPayload, a: UAttributes, fate: Fate)
    requires IsOffered(FRESH, ops, s) && !uri.rpc && CanSend(s, uri, payload, a, fate)
    ensures var (t, status) := Send(s, uri, payload, a, fate);
            && status == (if !HasPayload(payload) then UNAVAILABLE
                          else if a.kind != PUBLISH then INVALID_ARGUMENT
                          else if !EverDeclared(ops, uri.key) && fate.declared.None? then UNAVAILABLE
                          else if !GoodHint(a.hint) || !fate.accepted then UNAVAILABLE
                          else OK)
            && (status != OK ==> OnlyCaches(s, t))
            && (!HasPayload(payload) || a.kind != PUBLISH || EverDeclared(ops, uri.key) ==>
                  t.pubs == s.pubs && t.world.publishers == s.world.publishers)
            && (forall k :: k in s.pubs ==> k in t.pubs && t.pubs[k] == s.pubs[k])
            && (status == OK ==>
                  uri.key in t.pubs && PutsOnce(s.world, t.world, t.pubs[uri.key], uri.key, payload, a))
  {
    hide IsOffered, CanSend, Transport.Send, EverDeclared, GoodHint, PutsOnce, OnlyCaches, HasPayload;
    CachedKeys(FRESH, ops, s, uri.key);
    PublishNeedsPublisher(s, uri, payload, a, fate);
  }

  // ---------- the URI a listener is called with ----------

  /** The listener is registered for the key by this call: it was not before, and Zenoh declares it. */
  predicate RegistersNow(s: State, op: Op, key: Key, listener: Listener) {
    && op.RegisterOp? && op.uri.key == key && op.listener == listener
    && op.declared.Some? && (key, listener) !in Pairs(s)
  }

  /** The URI of the latest successful registration of the listener for the key. */
  ghost function LatestUri(s: State, ops: seq<Op>, key: Key, listener: Listener): Option<UUri>
    decreases |ops|
  {
    if ops == [] || !Offered(s, ops[0]) then None else
    var later := LatestUri(Step(s, ops[0]), ops[1..], key, listener);
    if later.Some? then later
    else if RegistersNow(s, ops[0], key, listener) then Some(ops[0].uri)
    else None
  }

  function Known(w: World, rpc: bool): map<Handle, Callback> {
    if rpc then w.queryables else w.subscribers
  }

  lemma StepTraces(s: State, op: Op, rpc: bool, h: Handle)
    requires Good(s) && Allowed(s, op) && h in Known(Step(s, op).world, rpc)
    ensures var cb := Known(Step(s, op).world, rpc)[h];
            if RegistersNow(s, op, cb.key, cb.listener) then cb.uri == op.uri
            else h in Known(s.world, rpc) && Known(s.world, rpc)[h] == cb
  {
    hide PublisherInv, QueryInv, ParseableSample, CanSend, Query, Transport.Send, RegistryInv, Pairs, SameKind;
    match op {
      case RegisterOp(uri, listener, declared) =>
        RegisterAddsOnePair(s, uri, listener, declared);
        EntitiesArePairs(s);
        var cb := Known(Step(s, op).world, rpc)[h];
        if h in Known(s.world, rpc) && Known(s.world, rpc)[h] == cb {
          assert Declared(s.world, h, (cb.key, cb.listener));
        }
      case UnregisterOp(_, _) =>
      case SendOp(uri, payload, a, fate) => SendKeepsEntities(s, uri, payload, a, fate);
      case QueryOp(q, query, _) => QueryLeaves(s, query, s.world.queryables[q]);
    }
  }

  /** Every callback that Zenoh holds was registered with the latest URI, if it was registered in this run at all. */
  lemma {:induction false} CallbackIsLatest(s: State, ops: seq<Op>, t: State, rpc: bool, h: Handle)
    requires Good(s) && IsRun(s, ops, t) && h in Known(t.world, rpc)
    ensures var cb := Known(t.world, rpc)[h];
            var latest := LatestUri(s, ops, cb.key, cb.listener);
            if latest.Some? then cb.uri == latest.value
            else h in Known(s.world, rpc) && Known(s.world, rpc)[h] == cb
    decreases |ops|
  {
    if ops == [] {
    } else {
      var s1 := Step(s, ops[0]);
      StepKeepsGood(s, ops[0]);
      hide Good, Step, Offered, RegistersNow, Known;
      CallbackIsLatest(s1, ops[1..], t, rpc, h);
      if h in Known(s1.world, rpc) { StepTraces(s, ops[0], rpc, h); }
    }
  }

  /** In every life a callback's URI is that of the latest successful registration. */
  lemma CallbackUri(ops: seq<Op>, t: State, rpc: bool, h: Handle)
    requires IsRun(FRESH, ops, t) && h in Known(t.world, rpc)
    ensures var cb := Known(t.world, rpc)[h];
            LatestUri(FRESH, ops, cb.key, cb.listener) == Some(cb.uri)
  {
    FreshIsGood();
    hide IsRun, LatestUri;
    CallbackIsLatest(FRESH, ops, t, rpc, h);
  }

  /** Each run is that of one of the callbacks. */
  lemma {:induction false} RunsComeFrom(sample: Sample, callbacks: seq<Callback>)
    requires ParseableSample(sample)
    ensures forall e :: e in RunsOf(sample, callbacks) ==>
              exists cb :: cb in callbacks
                           && e.listener == cb.listener && e.uri == cb.uri && e.payload == sample.payload
  {
    hide ParseableSample, AttributesIn, HasHeader;
    if callbacks == [] {
    } else {
      RunsComeFrom(sample, callbacks[1..]);
      assert callbacks[0] in callbacks;
      assert forall cb :: cb in callbacks[1..] ==> cb in callbacks;
    }
  }
}

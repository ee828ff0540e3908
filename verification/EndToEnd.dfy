/** From sender to receiver: builder, transport, parser and reply loop composed. */
module EndToEnd {
  import opened Common
  import opened Wire
  import opened Attributes
  import opened MessageParser
  import opened Codec
  import opened Transport
  import opened TransportInvariants
  import opened TransportRuns
  import opened TransportHistory
  import opened Headers
  import opened RpcClient
  import MessageBuilder

  /** A header that was built can be parsed where it arrives, and yields the attributes it was built from. */
  lemma HeaderArrives(payload: seq<Byte>, a: UAttributes, beyond: seq<Byte>)
    requires Addressable(a)
    ensures var s := Wired(payload, HeaderBytes(a), beyond);
            && HasHeader(s)
            && (ParseableSample(s) <==> HeaderReadable(a) || |beyond| >= LENGTH_BYTES)
            && (ParseableSample(s) ==>
                  AttributesIn(s.attachment.header) == if HeaderReadable(a) then Some(Received(a)) else None)
  {
    var header := HeaderBytes(a);
    assert (header + beyond)[..|header|] == header;
    MessageBuilder.HeaderLength(a);
    HeaderContents(a);
    if HeaderReadable(a) {
      HeaderRoundTrip(a);
    }
    hide HeaderBytes, Decode, Readable, AttributesOf, Received, Addressable;
  }

  /** What a listener is run with when attributes `a` were sent. */
  function Delivery(cb: Callback, payload: seq<Byte>, a: UAttributes): Event {
    Event(cb.listener, cb.uri, payload, Received(a))
  }

  /** Samples with a readable header run every listener once, in order; with an unreadable one they run none. */
  lemma {:induction false} RunsOfHeader(payload: seq<Byte>, a: UAttributes, beyond: seq<Byte>, callbacks: seq<Callback>)
    requires Addressable(a) && ParseableSample(Wired(payload, HeaderBytes(a), beyond))
    ensures var runs := RunsOf(Wired(payload, HeaderBytes(a), beyond), callbacks);
            if HeaderReadable(a) then
              |runs| == |callbacks| && forall i :: 0 <= i < |runs| ==> runs[i] == Delivery(callbacks[i], payload, a)
            else runs == []
  {
    HeaderArrives(payload, a, beyond);
    hide HeaderBytes, Wired, AttributesIn, ParseableSample, HasHeader, HeaderReadable, Addressable;
    if callbacks == [] {
    } else {
      RunsOfHeader(payload, a, beyond, callbacks[1..]);
    }
  }

  /** These events run each of the listeners exactly once, with this message. */
  ghost predicate RunsEachOnce(events: seq<Event>, listeners: seq<Listener>,
                               key: Key, payload: seq<Byte>, a: UAttributes) {
    && |events| == |listeners|
    && (forall i, j :: 0 <= i < j < |events| ==> events[i].listener != events[j].listener)
    && (forall i :: 0 <= i < |events| ==>
          && events[i].listener in listeners
          && events[i].uri.key == key
          && events[i].payload == payload
          && events[i].attributes == Received(a))
    && (forall l :: l in listeners ==> exists i :: 0 <= i < |events| && events[i].listener == l)
  }

  /** The subscribers of a key, in whatever order they are named, are the registered listeners. */
  lemma DeliveriesCoverListeners(s: State, key: Key, order: seq<Handle>,
                                 payload: seq<Byte>, a: UAttributes, events: seq<Event>)
    requires RegistryInv(s) && EntryAt(s, key).qables == [] && Delivers(s.world, key, order)
    requires |events| == |order|
    requires forall i :: 0 <= i < |order| ==> events[i] == Delivery(s.world.subscribers[order[i]], payload, a)
    ensures RunsEachOnce(events, EntryAt(s, key).listeners, key, payload, a)
  {
    hide Received;
    var e := EntryAt(s, key);
    var known := s.world.subscribers;
    if key in s.entries {
      assert EntryOk(key, e, known, s.world.queryables);
    }
    forall i | 0 <= i < |order|
      ensures IndexOf(e.listeners, events[i].listener) < |e.subs|
      ensures e.subs[IndexOf(e.listeners, events[i].listener)] == order[i]
      ensures events[i].uri.key == key
    {
      assert order[i] in order;
      assert order[i] in HandlesOf(s.entries[key], false);
      PositionOf(e.subs, e.listeners, key, false, known, order[i]);
      var j :| 0 <= j < |e.subs| && e.subs[j] == order[i];
    }
    forall l | l in e.listeners
      ensures exists i :: 0 <= i < |events| && events[i].listener == l
    {
      var j := IndexOf(e.listeners, l);
      assert e.subs[j] in order;
      var i :| 0 <= i < |order| && order[i] == e.subs[j];
      assert events[i].listener == l;
    }
    SameLength(order, e.subs);
  }

  /** Two sequences without repetitions that hold the same elements are equally long. */
  lemma SameLength(x: seq<Handle>, y: seq<Handle>)
    requires Distinct(x) && Distinct(y)
    requires forall h :: h in x <==> h in y
    ensures |x| == |y|
  {
    DistinctCount(x);
    DistinctCount(y);
    assert ElementsOf(x) == ElementsOf(y);
  }

  ghost function ElementsOf(x: seq<Handle>): (s: set<Handle>)
    ensures forall h :: h in s <==> h in x
  {
    if x == [] then {} else {x[0]} + ElementsOf(x[1..])
  }

  lemma {:induction false} DistinctCount(x: seq<Handle>)
    requires Distinct(x)
    ensures |ElementsOf(x)| == |x|
  {
    if x == [] {
    } else {
      assert x[0] !in x[1..];
      DistinctCount(x[1..]);
    }
  }

  /**
    Publishing, end to end: when `send` reports success, every listener registered on the key has run
    exactly once with the payload and the attributes as received, unless a sink made the header
    unreadable; then none has run although `send` reported success.
  */
  lemma PublishReachesEveryListener(s: State, uri: UUri, payload: UPayload, a: UAttributes, fate: Fate)
    requires Good(s) && !uri.rpc && CanSend(s, uri, payload, a, fate)
    requires Send(s, uri, payload, a, fate).1 == OK
    requires SameKind(EntryAt(s, uri.key), uri.rpc)
    ensures var t := Send(s, uri, payload, a, fate).0;
            && |s.world.received| <= |t.world.received|
            && t.world.received[..|s.world.received|] == s.world.received
            && var runs := t.world.received[|s.world.received|..];
               if HeaderReadable(a) then RunsEachOnce(runs, EntryAt(s, uri.key).listeners, uri.key, payload.Bytes(), a)
               else runs == []
  {
    RunsReachEveryListener(s, uri, payload, a, fate);
    PublishAppendsRuns(s, uri, payload, a, fate);
    hide RunsOf, Wired, HeaderBytes, ParseableSample, CallbacksOf, Transport.Send, RunsEachOnce, HeaderReadable, Good;
    var callbacks := CallbacksOf(s.world.subscribers, fate.order);
    var runs := RunsOf(Wired(payload.Bytes(), HeaderBytes(a), fate.beyond), callbacks);
    assert Send(s, uri, payload, a, fate).0.world.received[|s.world.received|..] == runs;
  }

  /** The runs of the callbacks a put reaches, in whatever order, are one run of each listener. */
  lemma RunsReachEveryListener(s: State, uri: UUri, payload: UPayload, a: UAttributes, fate: Fate)
    requires RegistryInv(s) && CanPublish(s, uri, payload, a, fate)
    requires !uri.rpc && SameKind(EntryAt(s, uri.key), uri.rpc)
    ensures var runs := RunsOf(Wired(payload.Bytes(), HeaderBytes(a), fate.beyond),
                               CallbacksOf(s.world.subscribers, fate.order));
            if HeaderReadable(a) then RunsEachOnce(runs, EntryAt(s, uri.key).listeners, uri.key, payload.Bytes(), a)
            else runs == []
  {
    if uri.key in s.entries {
      assert EntryOk(uri.key, s.entries[uri.key], s.world.subscribers, s.world.queryables);
    }
    var callbacks := CallbacksOf(s.world.subscribers, fate.order);
    var runs := RunsOf(Wired(payload.Bytes(), HeaderBytes(a), fate.beyond), callbacks);
    RunsOfHeader(payload.Bytes(), a, fate.beyond, callbacks);
    hide HeaderBytes, Wired, RunsEachOnce, HeaderReadable, ParseableSample;
    if HeaderReadable(a) {
      DeliveriesCoverListeners(s, uri.key, fate.order, payload.Bytes(), a, runs);
    }
  }

  /**
    So in every life of a transport, if whether a URI is an RPC method can be told from its key. Each listener is called
    with exactly the URI of its latest successful registration for the key.
  */
  lemma PublishInEveryLife(kind: Key -> bool, ops: seq<Op>, s: State,
                           uri: UUri, payload: UPayload, a: UAttributes, fate: Fate)
    requires IsOffered(FRESH, ops, s) && forall i :: 0 <= i < |ops| ==> Conforms(ops[i], kind)
    requires !uri.rpc && !kind(uri.key) && CanSend(s, uri, payload, a, fate)
    requires Send(s, uri, payload, a, fate).1 == OK
    ensures var t := Send(s, uri, payload, a, fate).0;
            && |s.world.received| <= |t.world.received|
            && t.world.received[..|s.world.received|] == s.world.received
            && var runs := t.world.received[|s.world.received|..];
               && (if HeaderReadable(a)
                   then RunsEachOnce(runs, EntryAt(s, uri.key).listeners, uri.key, payload.Bytes(), a)
                   else runs == [])
               && (forall e :: e in runs ==> LatestUri(FRESH, ops, uri.key, e.listener) == Some(e.uri))
  {
    FreshIsGood();
    KeysDecideKind(kind, FRESH, ops, s);
    RunKeepsGood(FRESH, ops, s);
    PublishAppendsRuns(s, uri, payload, a, fate);
    hide IsRun, IsOffered, Good, HeaderBytes, RunsEachOnce, HeaderReadable, Transport.Send, Conforms, RunsOf, LatestUri,
      ParseableSample, Wired;
    PublishReachesEveryListener(s, uri, payload, a, fate);
    UrisAreLatest(ops, s, uri, Wired(payload.Bytes(), HeaderBytes(a), fate.beyond), fate.order);
    hide CanSend, CallbacksOf, Delivers;
  }

  /** The runs of the subscribers of a key carry the URIs these were registered with last. */
  lemma UrisAreLatest(ops: seq<Op>, s: State, uri: UUri, sample: Sample, order: seq<Handle>)
    requires IsRun(FRESH, ops, s) && Delivers(s.world, uri.key, order) && ParseableSample(sample)
    ensures forall e :: e in RunsOf(sample, CallbacksOf(s.world.subscribers, order)) ==>
              LatestUri(FRESH, ops, uri.key, e.listener) == Some(e.uri)
  {
    hide IsRun, LatestUri, ParseableSample, RunsOf;
    var callbacks := CallbacksOf(s.world.subscribers, order);
    RunsComeFrom(sample, callbacks);
    forall cb | cb in callbacks
      ensures LatestUri(FRESH, ops, uri.key, cb.listener) == Some(cb.uri)
    {
      var i :| 0 <= i < |callbacks| && callbacks[i] == cb;
      assert order[i] in order;
      assert order[i] in Known(s.world, false);
      CallbackUri(ops, s, false, order[i]);
    }
  }

  /**
    In every life an incoming query runs the listener of its queryable exactly when its header is complete and its type
    is REQUEST, with the URI of the latest successful registration, and otherwise runs nobody.
  */
  lemma QueryInEveryLife(ops: seq<Op>, s: State, h: Handle, query: Sample)
    requires IsRun(FRESH, ops, s) && h in s.world.queryables && ParseableSample(query)
    ensures var t, cb := Query(s, query, s.world.queryables[h]), s.world.queryables[h];
            && LatestUri(FRESH, ops, cb.key, cb.listener) == Some(cb.uri)
            && (if query.attachment.Attachment? && Complete(query.attachment.header)
                   && AttributesIn(query.attachment.header).Some?
                   && AttributesIn(query.attachment.header).value.kind == REQUEST
                then t.world.received == s.world.received
                       + [Event(cb.listener, cb.uri, query.payload, AttributesIn(query.attachment.header).value)]
                else t.world.received == s.world.received)
  {
    if query.attachment.Attachment? { CompleteExactly(query.attachment.header); }
    hide IsRun, LatestUri, ParseableSample, AttributesIn, Query, Complete;
    QueryRuns(s, query, s.world.queryables[h]);
    CallbackUri(ops, s, true, h);
  }

  lemma PublishAppendsRuns(s: State, uri: UUri, payload: UPayload, a: UAttributes, fate: Fate)
    requires !uri.rpc && CanSend(s, uri, payload, a, fate) && Send(s, uri, payload, a, fate).1 == OK
    ensures Send(s, uri, payload, a, fate).0.world.received ==
            s.world.received + RunsOf(Wired(payload.Bytes(), HeaderBytes(a), fate.beyond),
                                      CallbacksOf(s.world.subscribers, fate.order))
  {
  }

  /** A request whose header is readable is filed under its id and handed to the listener of the queryable. */
  lemma RequestIsFiled(s: State, payload: seq<Byte>, a: UAttributes, beyond: seq<Byte>, cb: Callback)
    requires Addressable(a) && HeaderReadable(a) && a.kind == REQUEST
    ensures ParseableSample(Wired(payload, HeaderBytes(a), beyond))
    ensures var t := Query(s, Wired(payload, HeaderBytes(a), beyond), cb);
            && a.id in t.pending && t.pending[a.id] == s.world.clones
            && t.world.received == s.world.received + [Delivery(cb, payload, a)]
  {
    HeaderArrives(payload, a, beyond);
    hide HeaderBytes, ParseableSample, HasHeader, AttributesIn, HeaderReadable, Addressable;
  }

  /**
    Responding, end to end: a response that `send` accepts is a reply to the query pending under its id,
    and if it is the only reply the caller gets exactly its payload, unless a sink made the header
    unreadable; then the caller gets no payload.
  */
  lemma ResponseReachesCaller(s: State, uri: UUri, payload: UPayload, b: UAttributes, fate: Fate, beyond: seq<Byte>,
                              result: UPayload)
    requires uri.rpc && CanSend(s, uri, payload, b, fate) && Send(s, uri, payload, b, fate).1 == OK
    requires HeaderReadable(b) || |beyond| >= LENGTH_BYTES
    ensures var t := Send(s, uri, payload, b, fate).0;
            && |t.world.replies| == |s.world.replies| + 1
            && b.id in s.pending
            && var r := t.world.replies[|s.world.replies|];
               && r.query == s.pending[b.id]
               && ParseableReplies([OkReply(Wired(r.payload, r.header, beyond))])
               && (IsResult([OkReply(Wired(r.payload, r.header, beyond))], result) ==>
                     result == if HeaderReadable(b) then payload else NO_PAYLOAD)
  {
    HeaderArrives(payload.Bytes(), b, beyond);
    var m := OkReply(Wired(payload.Bytes(), HeaderBytes(b), beyond));
    assert Acceptable(m) <==> HeaderReadable(b);
    hide HeaderBytes, ParseableSample, AttributesIn, HeaderReadable, Addressable, HasHeader, Acceptable, IsResult;
    if IsResult([m], result) {
      ResultOfOne(m, result);
    }
  }

  /**
    A whole call: a request reaches a queryable, and any calls and queries follow. An accepted response
    with its id answers this very query exactly when no later query was filed under the id and the query
    has no reply yet.
  */
  lemma CallIsAnswered(s0: State, cb: Callback, request: seq<Byte>, a: UAttributes, beyond: seq<Byte>,
                       ops: seq<Op>, s: State, uri: UUri, response: UPayload, b: UAttributes, fate: Fate)
    requires QueryInv(s0) && Addressable(a) && HeaderReadable(a) && a.kind == REQUEST
    requires ParseableSample(Wired(request, HeaderBytes(a), beyond))
    requires IsOffered(Query(s0, Wired(request, HeaderBytes(a), beyond), cb), ops, s)
    requires uri.rpc && CanSend(s, uri, response, b, fate) && b.id == a.id
    requires Send(s, uri, response, b, fate).1 == OK
    ensures var q, w := s0.world.clones, Send(s, uri, response, b, fate).0.world;
            && |w.replies| == |s.world.replies| + 1
            && (w.replies[|s.world.replies|].query == q <==> Awaits(s.world, q, a.id))
  {
    var query := Wired(request, HeaderBytes(a), beyond);
    QueryKeepsQueries(s0, query, cb);
    hide Query, HeaderBytes, ParseableSample, HeaderReadable, Addressable, Awaits, IsOffered, QueryInv;
    RunKeepsQueries(Query(s0, query, cb), ops, s);
    ResponseReachesCaller(s, uri, response, b, fate, Zeros(8), response);
    PendingAwaits(s, s0.world.clones, a.id);
  }
}

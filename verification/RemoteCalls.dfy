/** Remote calls: from the request a client issues to the payload in its future. */
module RemoteCalls {
  import opened Common
  import opened Wire
  import opened Attributes
  import opened Codec
  import opened Transport
  import opened TransportInvariants
  import opened TransportRuns
  import opened TransportHistory
  import opened RpcClient
  import opened EndToEnd

  // ---------- the clones of a call ----------

  /**
    One call reaches every queryable of its key, and each of their callbacks clones it. These are the clones
    made for a call during a run.
  */
  ghost function ClonesOf(s: State, ops: seq<Op>, call: CallId): set<QueryId>
    decreases |ops|
  {
    if ops == [] || !Offered(s, ops[0]) then {} else
    (if IsCloned(ops[0], call) then {s.world.clones} else {}) + ClonesOf(Step(s, ops[0]), ops[1..], call)
  }

  predicate IsCloned(op: Op, call: CallId) {
    op.QueryOp? && op.call == call && HasHeader(op.query)
  }

  /** Every query of the call is the request as issued, at a queryable of its key. */
  ghost predicate Carries(s: State, ops: seq<Op>, call: CallId, request: Request)
    decreases |ops|
  {
    ops == []
    || (Offered(s, ops[0])
        && (ops[0].QueryOp? && ops[0].call == call ==> CarriesHere(s, ops[0].queryable, ops[0].query, request))
        && Carries(Step(s, ops[0]), ops[1..], call, request))
  }

  ghost predicate CarriesHere(s: State, h: Handle, query: Sample, request: Request)
    requires h in s.world.queryables
  {
    && s.world.queryables[h].key == request.key
    && exists beyond :: query == Wired(request.payload, request.header, beyond)
  }

  /** Every clone of the call is filed under the id of its request. */
  lemma {:induction false} ClonesAreFiled(s: State, ops: seq<Op>, t: State, call: CallId,
                                          uri: UUri, payload: UPayload, a: UAttributes)
    requires QueryInv(s) && IsOffered(s, ops, t) && Carries(s, ops, call, Issued(uri, payload, a))
    requires Addressable(a) && HeaderReadable(a)
    ensures forall q :: q in ClonesOf(s, ops, call) ==> q in t.world.filed && t.world.filed[q] == a.id
    decreases |ops|
  {
    if ops == [] {
    } else {
      var s1 := Step(s, ops[0]);
      StepKeepsQueries(s, ops[0]);
      if IsCloned(ops[0], call) {
        CloneIsFiled(s, ops[0].queryable, ops[0].query, uri, payload, a);
        assert s.world.clones in s1.world.filed && s1.world.filed[s.world.clones] == a.id;
      }
      hide QueryInv, Step, Offered, CarriesHere, HeaderReadable, Addressable, Issued, IsCloned;
      RunKeepsFiled(s1, ops[1..], t);
      ClonesAreFiled(s1, ops[1..], t, call, uri, payload, a);
    }
  }

  lemma CloneIsFiled(s: State, h: Handle, query: Sample, uri: UUri, payload: UPayload, a: UAttributes)
    requires h in s.world.queryables && CarriesHere(s, h, query, Issued(uri, payload, a)) && ParseableSample(query)
    requires Addressable(a) && HeaderReadable(a)
    ensures var w := Query(s, query, s.world.queryables[h]).world;
            s.world.clones in w.filed && w.filed[s.world.clones] == a.id
  {
    var beyond :| query == Wired(payload.Bytes(), HeaderBytes(a), beyond);
    HeaderArrives(payload.Bytes(), a, beyond);
    QueryIsLedgerStep(s, query, s.world.queryables[h]);
    hide HeaderBytes, ParseableSample, AttributesIn, HasHeader, Wired, Query, HeaderReadable, Addressable;
    var t := Query(s, query, s.world.queryables[h]);
    assert t.world.filed == LedgerOf(t).filed;
  }

  /** In every life the listener of a queryable runs with exactly the payload the caller passed to `invokeMethod`. */
  lemma RequestRunsListener(ops: seq<Op>, s: State, h: Handle, query: Sample,
                            uri: UUri, payload: UPayload, a: UAttributes)
    requires IsRun(FRESH, ops, s) && h in s.world.queryables && CarriesHere(s, h, query, Issued(uri, payload, a))
    requires Addressable(a) && HeaderReadable(a) && a.kind == REQUEST
    ensures ParseableSample(query)
    ensures var t, cb := Query(s, query, s.world.queryables[h]), s.world.queryables[h];
            && cb.key == uri.key && LatestUri(FRESH, ops, uri.key, cb.listener) == Some(cb.uri)
            && var passed := if payload.data.Some? then payload.data.value else [];
               t.world.received == s.world.received + [Event(cb.listener, cb.uri, passed, Received(a))]
  {
    var beyond :| query == Wired(Issued(uri, payload, a).payload, Issued(uri, payload, a).header, beyond);
    assert query == Wired(payload.Bytes(), HeaderBytes(a), beyond);
    hide HeaderBytes, IsRun, LatestUri, ParseableSample, Query, Addressable, HeaderReadable, Wired, Received;
    RequestIsFiled(s, payload.Bytes(), a, beyond, s.world.queryables[h]);
    CallbackUri(ops, s, true, h);
  }

  // ---------- the future ----------

  /** What the channel of a call carries from the i-th reply on; `beyond` follows every header where it arrives. */
  function ChannelFrom(replies: seq<Reply>, i: nat, clones: set<QueryId>, beyond: seq<Byte>): seq<ReplyMessage>
    requires i <= |replies|
    decreases |replies| - i
  {
    if i == |replies| then []
    else if replies[i].query in clones then
      [OkReply(Wired(replies[i].payload, replies[i].header, beyond))] + ChannelFrom(replies, i + 1, clones, beyond)
    else ChannelFrom(replies, i + 1, clones, beyond)
  }

  predicate IsReadable(r: Reply) {
    HeaderReadable(r.attributes)
  }

  /** What the parser reads past the end of a header that a sink made unreadable is there to be read. */
  predicate Legible(replies: seq<Reply>, clones: set<QueryId>, beyond: seq<Byte>) {
    |beyond| >= LENGTH_BYTES || forall j :: 0 <= j < |replies| && replies[j].query in clones ==> IsReadable(replies[j])
  }

  /** From the i-th reply on, each reply to the call is unreadable or comes after one that is. */
  predicate Barren(replies: seq<Reply>, i: nat, clones: set<QueryId>) {
    forall j :: i <= j < |replies| && replies[j].query in clones ==>
      exists k :: i <= k <= j && replies[k].query in clones && !IsReadable(replies[k])
  }

  /** Reply n answers the call, every reply to it from the i-th up to this one is readable, and the next is not. */
  predicate Decides(replies: seq<Reply>, i: nat, clones: set<QueryId>, n: nat) {
    && i <= n < |replies| && replies[n].query in clones
    && (forall j :: i <= j <= n && replies[j].query in clones ==> IsReadable(replies[j]))
    && Barren(replies, n + 1, clones)
  }

  /** One reply decides, or none can be read. */
  lemma {:induction false} SomeReplyDecides(replies: seq<Reply>, i: nat, clones: set<QueryId>)
    requires i <= |replies|
    ensures Barren(replies, i, clones) <==> !exists n: nat :: Decides(replies, i, clones, n)
    ensures forall m: nat, n: nat :: Decides(replies, i, clones, m) && Decides(replies, i, clones, n) ==> m == n
    decreases |replies| - i
  {
    if i == |replies| {
    } else {
      SomeReplyDecides(replies, i + 1, clones);
      if replies[i].query !in clones {
        SkipOther(replies, i, clones);
      } else if IsReadable(replies[i]) {
        SkipReadable(replies, i, clones);
      } else {
        UnreadableFirst(replies, i, clones);
      }
      hide Decides, Barren, IsReadable;
      var next := i + 1;
      if n: nat :| Decides(replies, next, clones, n) {
        DecidesLater(replies, next, clones, n);
        if replies[i].query !in clones || IsReadable(replies[i]) {
          assert Decides(replies, i, clones, n);
        }
      }
      forall m: nat, n: nat | Decides(replies, i, clones, m) && Decides(replies, i, clones, n)
        ensures m == n
      {
        DecidesLater(replies, i, clones, m);
        DecidesLater(replies, i, clones, n);
      }
    }
  }

  lemma SkipOther(replies: seq<Reply>, i: nat, clones: set<QueryId>)
    requires i < |replies| && replies[i].query !in clones
    ensures Barren(replies, i, clones) <==> Barren(replies, i + 1, clones)
    ensures forall n: nat :: Decides(replies, i, clones, n) <==> Decides(replies, i + 1, clones, n)
  {
    hide IsReadable;
  }

  lemma SkipReadable(replies: seq<Reply>, i: nat, clones: set<QueryId>)
    requires i < |replies| && replies[i].query in clones && IsReadable(replies[i])
    ensures !Barren(replies, i, clones)
    ensures Decides(replies, i, clones, i) <==> Barren(replies, i + 1, clones)
    ensures forall n: nat :: n > i ==> (Decides(replies, i, clones, n) <==> Decides(replies, i + 1, clones, n))
  {
    hide IsReadable;
  }

  lemma UnreadableFirst(replies: seq<Reply>, i: nat, clones: set<QueryId>)
    requires i < |replies| && replies[i].query in clones && !IsReadable(replies[i])
    ensures Barren(replies, i, clones)
    ensures forall n: nat :: !Decides(replies, i, clones, n)
  {
    hide IsReadable;
  }

  lemma DecidesLater(replies: seq<Reply>, i: nat, clones: set<QueryId>, n: nat)
    requires Decides(replies, i, clones, n)
    ensures i <= n < |replies| && replies[n].query in clones && IsReadable(replies[n])
  {
  }

  /** A reply that was sent passes the checks of the loop unless a sink made its header unreadable. */
  lemma ReplyAcceptable(filed: map<QueryId, Uuid>, r: Reply, beyond: seq<Byte>)
    requires ReplyOk(filed, r) && (IsReadable(r) || |beyond| >= LENGTH_BYTES)
    ensures var m := OkReply(Wired(r.payload, r.header, beyond));
            && ParseableSample(m.sample) && m.sample.payload == r.payload
            && (Acceptable(m) <==> IsReadable(r))
  {
    HeaderArrives(r.payload, r.attributes, beyond);
    hide HeaderBytes, HeaderReadable, AttributesIn, ParseableSample;
  }

  /** The channel's fold from the i-th reply on: the payload of the reply that decides, or what there was before. */
  lemma {:induction false} FoldDecides(w: World, i: nat, clones: set<QueryId>, beyond: seq<Byte>, last: UPayload)
    requires Answers(w) && i <= |w.replies|
    requires Legible(w.replies, clones, beyond)
    ensures ParseableReplies(ChannelFrom(w.replies, i, clones, beyond))
    ensures var p := Fold(ChannelFrom(w.replies, i, clones, beyond), last);
            && (Barren(w.replies, i, clones) ==> p == last)
            && forall n: nat :: Decides(w.replies, i, clones, n) ==> p == UPayload(Some(w.replies[n].payload))
    decreases |w.replies| - i
  {
    var r := w.replies;
    if i == |r| {
    } else {
      var next := if r[i].query in clones then UPayload(Some(r[i].payload)) else last;
      FoldDecides(w, i + 1, clones, beyond, next);
      FoldStep(w, i, clones, beyond, last);
      hide Answers, Fold, ChannelFrom, ParseableReplies, IsReadable;
      if r[i].query !in clones {
        SkipOther(r, i, clones);
      } else if IsReadable(r[i]) {
        SkipReadable(r, i, clones);
        LaterDecides(r, i, clones);
      } else {
        UnreadableFirst(r, i, clones);
      }
    }
  }

  lemma LaterDecides(replies: seq<Reply>, i: nat, clones: set<QueryId>)
    ensures forall n: nat :: Decides(replies, i, clones, n) ==> n >= i
  {
  }

  /** One turn of the fold. */
  lemma FoldStep(w: World, i: nat, clones: set<QueryId>, beyond: seq<Byte>, last: UPayload)
    requires Answers(w) && i < |w.replies| && Legible(w.replies, clones, beyond)
    requires ParseableReplies(ChannelFrom(w.replies, i + 1, clones, beyond))
    ensures ParseableReplies(ChannelFrom(w.replies, i, clones, beyond))
    ensures var p := Fold(ChannelFrom(w.replies, i, clones, beyond), last);
            var rest := ChannelFrom(w.replies, i + 1, clones, beyond);
            if w.replies[i].query !in clones then p == Fold(rest, last)
            else if IsReadable(w.replies[i]) then p == Fold(rest, UPayload(Some(w.replies[i].payload)))
            else p == last
  {
    var r := w.replies[i];
    if r.query in clones {
      assert ReplyOk(w.filed, r);
      ReplyAcceptable(w.filed, r, beyond);
      hide Answers, ReplyOk, ParseableSample, Acceptable, Wired, IsReadable;
      var m, rest := OkReply(Wired(r.payload, r.header, beyond)), ChannelFrom(w.replies, i + 1, clones, beyond);
      assert ([m] + rest)[1..] == rest;
    }
  }

  /** The caller's future, exactly: the payload of the reply that decides, and none if no reply does. */
  lemma FutureOf(w: World, clones: set<QueryId>, beyond: seq<Byte>, future: UPayload)
    requires Answers(w) && Legible(w.replies, clones, beyond)
    ensures var channel := ChannelFrom(w.replies, 0, clones, beyond);
            && ParseableReplies(channel)
            && (IsResult(channel, future) <==>
                  && (forall n: nat :: Decides(w.replies, 0, clones, n) ==>
                        future == UPayload(Some(w.replies[n].payload)))
                  && (Barren(w.replies, 0, clones) ==> future == NO_PAYLOAD))
  {
    FoldDecides(w, 0, clones, beyond, NO_PAYLOAD);
    SomeReplyDecides(w.replies, 0, clones);
    ResultIsFold(ChannelFrom(w.replies, 0, clones, beyond), future);
    hide Answers, IsResult, Fold, Barren, Decides, ChannelFrom, ParseableSample;
  }

  /** Where a call was cloned once, the one reply to it decides if it can be read, and the future is empty if not. */
  lemma OneCloneDecides(w: World, i: nat)
    requires Answers(w) && i < |w.replies|
    ensures Decides(w.replies, 0, {w.replies[i].query}, i) <==> IsReadable(w.replies[i])
    ensures Barren(w.replies, 0, {w.replies[i].query}) <==> !IsReadable(w.replies[i])
  {
    hide IsReadable, ReplyOk, Answered;
    assert forall j :: 0 <= j < |w.replies| && w.replies[j].query in {w.replies[i].query} ==> j == i;
  }

  // ---------- a whole call ----------

  /** Clones are numbered as they are made. */
  lemma {:induction false} ClonesAreNew(s: State, ops: seq<Op>, t: State, call: CallId)
    requires IsOffered(s, ops, t)
    ensures s.world.clones <= t.world.clones
    ensures forall q :: q in ClonesOf(s, ops, call) ==> s.world.clones <= q < t.world.clones
    decreases |ops|
  {
    if ops == [] {
    } else {
      StepClones(s, ops[0], call);
      hide Step, Offered, IsCloned;
      ClonesAreNew(Step(s, ops[0]), ops[1..], t, call);
    }
  }

  lemma StepClones(s: State, op: Op, call: CallId)
    requires Offered(s, op)
    ensures s.world.clones + (if IsCloned(op, call) then 1 else 0) <= Step(s, op).world.clones
  {
    var t := Step(s, op);
    assert t.world.clones == LedgerOf(t).clones && s.world.clones == LedgerOf(s).clones;
    if op.SendOp? {
      SendIsLedgerStep(s, op.uri, op.payload, op.attributes, op.fate);
    } else if op.QueryOp? {
      QueryIsLedgerStep(s, op.query, s.world.queryables[op.queryable]);
    }
    hide ParseableSample, CanSend, Query, Transport.Send, AttributesIn, HasHeader, Answered;
  }

  /**
    A remote call, end to end. The request that `invokeMethod` issues is cloned by any number of queryables of its
    key, in any life of the transport; in between a response is accepted. It is a reply to the call exactly when a
    clone of the call awaits one under its id, and then it carries the id of the request. Where it is the one that
    decides, the caller's future holds its payload; by `FutureOf` that is so in no other case.
  */
  lemma CallReturns(call: CallId, uri: UUri, payload: UPayload, a: UAttributes, before: seq<Op>, s: State,
                    target: UUri, response: UPayload, b: UAttributes, fate: Fate, after: seq<Op>, t: State,
                    back: seq<Byte>, future: UPayload)
    requires uri.rpc && a.kind == REQUEST && Addressable(a) && HeaderReadable(a)
    requires IsOffered(FRESH, before, s) && Carries(FRESH, before, call, Issued(uri, payload, a))
    requires target.rpc && CanSend(s, target, response, b, fate) && Send(s, target, response, b, fate).1 == OK
    requires var s1 := Send(s, target, response, b, fate).0;
             IsOffered(s1, after, t) && Carries(s1, after, call, Issued(uri, payload, a))
    requires Legible(t.world.replies, CallClones(before, Send(s, target, response, b, fate).0, after, call), back)
    ensures var clones := CallClones(before, Send(s, target, response, b, fate).0, after, call);
            var n, channel := |s.world.replies|, ChannelFrom(t.world.replies, 0, clones, back);
            && n < |t.world.replies|
            && t.world.replies[n].attributes == b
            && (t.world.replies[n].query in clones <==>
                  exists q :: q in ClonesOf(FRESH, before, call) && Awaits(s.world, q, b.id))
            && (t.world.replies[n].query in clones ==> b.id == a.id)
            && ParseableReplies(channel)
            && (IsResult(channel, future) && Decides(t.world.replies, 0, clones, n) ==> future == response)
  {
    var s1 := Send(s, target, response, b, fate).0;
    var clones, n := CallClones(before, s1, after, call), |s.world.replies|;
    ReplySent(s, target, response, b, fate);
    AnswersTheCall(call, uri, payload, a, before, s, b.id);
    hide HeaderBytes, Addressable, HeaderReadable, Issued, Legible, Awaits, QueryInv, IsOffered, Carries, ClonesOf;
    FreshIsGood();
    RunKeepsQueries(FRESH, before, s);
    SendKeepsQueries(s, target, response, b, fate);
    SendIsLedgerStep(s, target, response, b, fate);
    assert s1.world.clones == LedgerOf(s1).clones == LedgerOf(s).clones;
    hide CanSend, Transport.Send;
    RunKeepsReplies(s1, after, t);
    RunKeepsQueries(s1, after, t);
    ClonesAreNew(s1, after, t, call);
    assert Answers(t.world) by { assert QueryInv(t); AnswersFrom(t); }
    FutureOf(t.world, clones, back, future);
    hide Answers, Decides, Barren, ParseableReplies, IsResult, ChannelFrom;
  }

  lemma AnswersFrom(s: State)
    requires QueryInv(s)
    ensures Answers(s.world)
  {
  }

  /** The query pending under an id is a clone of the call exactly when one awaits a reply, and the id is the call's. */
  lemma AnswersTheCall(call: CallId, uri: UUri, payload: UPayload, a: UAttributes, before: seq<Op>, s: State, id: Uuid)
    requires Addressable(a) && HeaderReadable(a)
    requires IsOffered(FRESH, before, s) && Carries(FRESH, before, call, Issued(uri, payload, a)) && id in s.pending
    ensures s.pending[id] < s.world.clones
    ensures s.pending[id] in ClonesOf(FRESH, before, call) <==>
              exists q :: q in ClonesOf(FRESH, before, call) && Awaits(s.world, q, id)
    ensures s.pending[id] in ClonesOf(FRESH, before, call) ==> id == a.id
  {
    var q := s.pending[id];
    FreshIsGood();
    RunKeepsQueries(FRESH, before, s);
    hide QueryInv, Awaits, IsOffered, Carries, Addressable, HeaderReadable, Issued;
    ClonesAreFiled(FRESH, before, s, call, uri, payload, a);
    PendingAwaits(s, q, id);
    AwaitingIsFiled(s, q, id);
    hide ClonesOf;
    forall p | p in ClonesOf(FRESH, before, call) && Awaits(s.world, p, id)
      ensures p == q
    {
      PendingAwaits(s, p, id);
    }
  }

  lemma AwaitingIsFiled(s: State, q: QueryId, id: Uuid)
    requires QueryInv(s) && Awaits(s.world, q, id)
    ensures q in s.world.filed && s.world.filed[q] == id && q < s.world.clones
  {
    assert LedgerOf(s).filed == s.world.filed && LedgerOf(s).clones == s.world.clones;
  }

  ghost function CallClones(before: seq<Op>, s1: State, after: seq<Op>, call: CallId): set<QueryId> {
    ClonesOf(FRESH, before, call) + ClonesOf(s1, after, call)
  }

  lemma ReplySent(s: State, uri: UUri, payload: UPayload, a: UAttributes, fate: Fate)
    requires uri.rpc && CanSend(s, uri, payload, a, fate) && Send(s, uri, payload, a, fate).1 == OK
    ensures var w := Send(s, uri, payload, a, fate).0.world;
            && |w.replies| == |s.world.replies| + 1
            && a.id in s.pending
            && w.replies[|s.world.replies|].query == s.pending[a.id]
            && w.replies[|s.world.replies|].attributes == a
            && UPayload(Some(w.replies[|s.world.replies|].payload)) == payload
  {
    hide HeaderBytes, Addressable;
  }
}

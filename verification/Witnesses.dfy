/** Inputs at which the client does not do what its documentation says, and one at which a call succeeds. */
module Witnesses {
  import opened Common
  import opened Wire
  import opened Attributes
  import opened Codec
  import opened Transport
  import opened TransportInvariants
  import opened TransportRuns
  import opened RpcClient
  import opened EndToEnd
  import opened RemoteCalls
  import opened RequestLedger
  import MessageBuilder

  const LISTENER: Listener := 7
  const STRANGER: Listener := 8
  const PAYLOAD_BYTE := UPayload(Some([42]))

  function Uri(rpc: bool): UUri {
    UUri("/thing/1/rpc", 5, rpc)
  }

  function Message(kind: Int32, sink: Option<seq<Byte>>): UAttributes {
    UAttributes(Zeros(16), kind, 0, None, None, None, sink, None, None, None)
  }

  lemma MessageIsAddressable(kind: Int32, sink: Option<seq<Byte>>)
    requires sink.Some? ==> |sink.value| < 100
    ensures Addressable(Message(kind, sink))
  {
    MessageBuilder.HeaderLength(Message(kind, sink));
  }

  function RegisterIt(rpc: bool): Op {
    RegisterOp(Uri(rpc), LISTENER, Some(0))
  }

  /** A transport with one listener. */
  function Registered(rpc: bool): State {
    Register(FRESH, Uri(rpc), LISTENER, Some(0)).0
  }

  lemma OneRegistration(rpc: bool)
    ensures IsRun(FRESH, [RegisterIt(rpc)], Registered(rpc)) && Good(Registered(rpc))
    ensures (5, LISTENER) in Pairs(Registered(rpc))
  {
    FreshIsGood();
    assert [RegisterIt(rpc)][1..] == [];
    assert IsRun(Registered(rpc), [], Registered(rpc));
    StepKeepsGood(FRESH, RegisterIt(rpc));
    assert Registered(rpc).entries[5].listeners[0] == LISTENER;
  }

  // ---------- publishing ----------

  const DELIVERED := Fate(Some(1), true, [0], Zeros(8))

  lemma CanPublishIt(sink: Option<seq<Byte>>)
    requires sink.Some? ==> |sink.value| < 100
    ensures CanSend(Registered(false), Uri(false), PAYLOAD_BYTE, Message(PUBLISH, sink), DELIVERED)
  {
    var s := Registered(false);
    MessageIsAddressable(PUBLISH, sink);
    HeaderArrives(PAYLOAD_BYTE.Bytes(), Message(PUBLISH, sink), Zeros(8));
    hide HeaderBytes, ParseableSample, HeaderReadable, Addressable, HasHeader;
    assert Delivers(s.world, 5, [0]) by { assert [0][0] == 0; }
  }

  lemma ItIsSent(s: State, uri: UUri, payload: UPayload, a: UAttributes, fate: Fate)
    requires CanSend(s, uri, payload, a, fate)
    requires !uri.rpc && !payload.Empty() && a.kind == PUBLISH && a.hint.None? && fate.declared.Some? && fate.accepted
    ensures Send(s, uri, payload, a, fate).1 == OK
  {
  }

  /** The one listener is run once, or not at all if a sink spoils the header; `send` reports success in any case. */
  lemma OnePublish(sink: Option<seq<Byte>>)
    requires sink.Some? ==> |sink.value| < 100
    ensures CanSend(Registered(false), Uri(false), PAYLOAD_BYTE, Message(PUBLISH, sink), DELIVERED)
    ensures var (t, status) := Send(Registered(false), Uri(false), PAYLOAD_BYTE, Message(PUBLISH, sink), DELIVERED);
            && status == OK
            && |t.world.received| == if HeaderReadable(Message(PUBLISH, sink)) then 1 else 0
  {
    var s, a := Registered(false), Message(PUBLISH, sink);
    OneRegistration(false);
    CanPublishIt(sink);
    assert s.world.received == [] && EntryAt(s, 5) == Entry([0], [], [LISTENER]);
    hide HeaderBytes, CanSend, HeaderReadable, Good, Send, IsRun;
    ItIsSent(s, Uri(false), PAYLOAD_BYTE, a, DELIVERED);
    PublishReachesEveryListener(s, Uri(false), PAYLOAD_BYTE, a, DELIVERED);
    var received := Send(s, Uri(false), PAYLOAD_BYTE, a, DELIVERED).0.world.received;
    assert received[0..] == received;
  }

  /** A publish that reports success and reaches nobody, although a listener is registered. */
  lemma PublishReachesNobody()
    ensures var s, a := Registered(false), Message(PUBLISH, Some([1, 2, 3, 4]));
            && IsRun(FRESH, [RegisterIt(false)], s) && (5, LISTENER) in Pairs(s)
            && CanSend(s, Uri(false), PAYLOAD_BYTE, a, DELIVERED)
            && var (t, status) := Send(s, Uri(false), PAYLOAD_BYTE, a, DELIVERED);
               status == OK && t.world.received == []
  {
    OneRegistration(false);
    OnePublish(Some([1, 2, 3, 4]));
    hide Send, CanSend, IsRun, Pairs;
  }

  // ---------- the registry ----------

  /** Unregistering a listener that was never registered reports success. */
  lemma StrangerIsUnregistered()
    ensures var s := Registered(false);
            && IsRun(FRESH, [RegisterIt(false)], s)
            && (5, STRANGER) !in Pairs(s)
            && Erasable(EntryAt(s, 5), STRANGER)
            && Unregister(s, Uri(false), STRANGER) == (s, OK)
  {
    OneRegistration(false);
  }

  /** A queryable is still declared after the destructor. */
  lemma QueryableSurvives()
    ensures var s := Registered(true);
            IsRun(FRESH, [RegisterIt(true)], s) && 0 in Destroyed(s).world.queryables
  {
    OneRegistration(true);
  }

  // ---------- both kinds under one key ----------

  const MIXED := [RegisterOp(Uri(false), LISTENER, Some(0)), RegisterOp(Uri(true), STRANGER, Some(1))]

  /** With a subscriber and a queryable under one key, unregistering the RPC listener erases past the end. */
  lemma MixedKindsErasePastTheEnd()
    ensures exists t :: IsOffered(FRESH, MIXED, t) && !Erasable(EntryAt(t, 5), STRANGER)
  {
    var s := Registered(false);
    var t := Register(s, Uri(true), STRANGER, Some(1)).0;
    assert t.entries[5] == Entry([0], [1], [LISTENER, STRANGER]);
    assert IndexOf([LISTENER, STRANGER], STRANGER) == 1;
    assert IsOffered(t, [], t);
    assert MIXED[1..] == [MIXED[1]] && MIXED[1..][1..] == [];
    assert IsOffered(s, MIXED[1..], t);
    assert IsOffered(FRESH, MIXED, t);
  }

  // ---------- queries ----------

  function Request(): Sample {
    Wired([1], HeaderBytes(Message(REQUEST, None)), [])
  }

  /** The request arrives at the callback of a queryable. */
  function Asked(s: State, h: Handle): State
    requires ParseableSample(Request()) && h in s.world.queryables
  {
    Query(s, Request(), s.world.queryables[h])
  }

  lemma RequestArrives()
    ensures ParseableSample(Request()) && HasHeader(Request())
    ensures AttributesIn(Request().attachment.header).Some?
    ensures AttributesIn(Request().attachment.header).value.id == Zeros(16)
  {
    MessageIsAddressable(REQUEST, None);
    HeaderArrives([1], Message(REQUEST, None), []);
    hide HeaderBytes, ParseableSample, AttributesIn;
  }

  lemma AskOnce(s: State, h: Handle, call: CallId)
    requires h in s.world.queryables
    ensures ParseableSample(Request()) && IsCloned(Ask(h, call), call)
    ensures LedgerOf(Asked(s, h)) == File(LedgerOf(s), Zeros(16))
    ensures Moves(s, Ask(h, call), Asked(s, h))
    ensures Asked(s, h).world.queryables == s.world.queryables && Asked(s, h).world.replies == s.world.replies
  {
    RequestArrives();
    hide ParseableSample, AttributesIn, Answered, Request, HasHeader, Query, SameKind;
    QueryIsLedgerStep(s, Request(), s.world.queryables[h]);
    QueryLeaves(s, Request(), s.world.queryables[h]);
  }

  ghost predicate Moves(s: State, op: Op, t: State) {
    Allowed(s, op) && Step(s, op) == t
  }

  lemma Then(s: State, op: Op, ops: seq<Op>, t: State)
    requires Allowed(s, op) && IsRun(Step(s, op), ops, t)
    ensures IsRun(s, [op] + ops, t)
  {
    assert ([op] + ops)[1..] == ops;
  }

  function Ask(h: Handle, call: CallId): Op {
    QueryOp(h, Request(), call)
  }

  /** A second call under the same id: the first query is lost, though its header was readable. */
  lemma FirstQueryIsLost()
    ensures exists t :: IsRun(FRESH, [RegisterIt(true), Ask(0, 0), Ask(0, 1)], t)
                        && 0 in t.world.filed && 0 in t.world.lost && t.pending == map[Zeros(16) := 1]
  {
    var s := Registered(true);
    assert 0 in s.world.queryables;
    AskOnce(s, 0, 0);
    AskOnce(Asked(s, 0), 0, 1);
    var t := Asked(Asked(s, 0), 0);
    LedgerOfTwo(t, s);
    assert IsRun(t, [], t);
    hide Query, ParseableSample, Step, IsRun, Wired, LedgerOf;
    Then(Asked(s, 0), Ask(0, 1), [], t);
    Then(s, Ask(0, 0), [Ask(0, 1)], t);
    FirstRegister(true, [Ask(0, 0), Ask(0, 1)], t);
  }

  lemma LedgerOfTwo(t: State, s: State)
    requires s == Registered(true)
    requires LedgerOf(t) == File(File(LedgerOf(s), Zeros(16)), Zeros(16))
    ensures 0 in t.world.filed && 0 in t.world.lost && t.pending == map[Zeros(16) := 1]
  {
    assert t.pending == LedgerOf(t).pending && t.world.filed == LedgerOf(t).filed && t.world.lost == LedgerOf(t).lost;
  }

  lemma FirstRegister(rpc: bool, ops: seq<Op>, t: State)
    requires IsRun(Registered(rpc), ops, t)
    ensures IsRun(FRESH, [RegisterIt(rpc)] + ops, t)
  {
    hide IsRun;
    Then(FRESH, RegisterIt(rpc), ops, t);
  }

  // ---------- one call, two answers ----------

  const ANSWER := Message(RESPONSE, None)
  const TAKEN := Fate(None, true, [], [])

  function Answer(byte: Byte): Op {
    SendOp(Uri(true), UPayload(Some([byte])), ANSWER, TAKEN)
  }

  /** The request has arrived once more and is pending as clone q. */
  lemma AskMoves(s: State, h: Handle, call: CallId, t: State)
    requires h in s.world.queryables && ParseableSample(Request()) && t == Asked(s, h)
    ensures Moves(s, Ask(h, call), t) && IsCloned(Ask(h, call), call)
    ensures t.pending == s.pending[Zeros(16) := s.world.clones] && t.world.clones == s.world.clones + 1
    ensures t.world.replies == s.world.replies && t.world.queryables == s.world.queryables
  {
    hide Query, ParseableSample, Step, Allowed, Wired;
    AskOnce(s, h, call);
    assert t.pending == LedgerOf(t).pending && t.world.clones == LedgerOf(t).clones;
  }

  /** The pending query has been answered. */
  lemma AnswerMoves(s: State, byte: Byte) returns (t: State, r: Reply)
    requires Zeros(16) in s.pending
    ensures Moves(s, Answer(byte), t) && Addressable(ANSWER)
    ensures Send(s, Uri(true), UPayload(Some([byte])), ANSWER, TAKEN) == (t, OK)
    ensures t.pending == s.pending - {Zeros(16)} && t.world.clones == s.world.clones
    ensures t.world.replies == s.world.replies + [r] && t.world.queryables == s.world.queryables
    ensures r.query == s.pending[Zeros(16)] && r.payload == [byte] && r.attributes == ANSWER
  {
    MessageIsAddressable(RESPONSE, None);
    hide HeaderBytes;
    t := Send(s, Uri(true), UPayload(Some([byte])), ANSWER, TAKEN).0;
    r := t.world.replies[|s.world.replies|];
  }

  const SECOND := RegisterOp(Uri(true), STRANGER, Some(1))
  const REGISTER_TWO := [RegisterIt(true), SECOND]

  /** A transport with two listeners for one method. */
  function Served(): State {
    Register(Registered(true), Uri(true), STRANGER, Some(1)).0
  }

  /** A call that reaches both listeners, the second after the first has answered; the second answers too. */
  lemma TwoAnswers() returns (s1: State, s2: State, s3: State, s4: State)
    ensures Moves(Served(), Ask(0, 0), s1) && Moves(s1, Answer(42), s2)
    ensures Moves(s2, Ask(1, 0), s3) && Moves(s3, Answer(43), s4)
    ensures Send(s1, Uri(true), UPayload(Some([42])), ANSWER, TAKEN) == (s2, OK)
    ensures s1.pending == map[Zeros(16) := 0] && s1.world.replies == [] && s2.world.clones == 1
    ensures |s2.world.replies| == 1 && |s4.world.replies| == 2 && s4.world.replies[0] == s2.world.replies[0]
    ensures s4.world.replies[0].query == 0 && s4.world.replies[1].query == 1
    ensures s4.world.replies[0].payload == [42] && s4.world.replies[1].payload == [43]
    ensures s4.world.replies[0].attributes == s4.world.replies[1].attributes == ANSWER
  {
    var s := Served();
    MessageIsAddressable(REQUEST, None);
    HeaderArrives([1], Message(REQUEST, None), []);
    assert s.world.replies == [] && s.world.clones == 0 && s.pending == map[];
    assert 0 in s.world.queryables && 1 in s.world.queryables;
    hide Query, ParseableSample, Transport.Send, Register, Wired, Moves, HeaderBytes;
    var r0, r1;
    s1 := Asked(s, 0);
    AskMoves(s, 0, 0, s1);
    s2, r0 := AnswerMoves(s1, 42);
    s3 := Asked(s2, 1);
    AskMoves(s2, 1, 0, s3);
    s4, r1 := AnswerMoves(s3, 43);
  }

  lemma MovesThen(s: State, op: Op, s1: State, ops: seq<Op>, t: State, call: CallId)
    requires Moves(s, op, s1) && IsRun(s1, ops, t)
    ensures IsRun(s, [op] + ops, t)
    ensures ClonesOf(s, [op] + ops, call) ==
            (if IsCloned(op, call) then {s.world.clones} else {}) + ClonesOf(s1, ops, call)
  {
    assert ([op] + ops)[0] == op && ([op] + ops)[1..] == ops;
    hide Step, Offered, SameKind, IsCloned;
  }

  lemma TwoRegistrations(ops: seq<Op>, t: State, call: CallId)
    requires IsRun(Served(), ops, t)
    ensures IsRun(FRESH, REGISTER_TWO + ops, t)
    ensures ClonesOf(FRESH, REGISTER_TWO + ops, call) == ClonesOf(Served(), ops, call)
  {
    TwoMoves();
    hide Moves, Register, ClonesOf, IsRun, Served, IsCloned;
    MovesThen(Registered(true), SECOND, Served(), ops, t, call);
    MovesThen(FRESH, RegisterIt(true), Registered(true), [SECOND] + ops, t, call);
    assert REGISTER_TWO + ops == [RegisterIt(true)] + ([SECOND] + ops);
  }

  lemma TwoMoves()
    ensures Moves(FRESH, RegisterIt(true), Registered(true)) && Moves(Registered(true), SECOND, Served())
    ensures forall call :: !IsCloned(SECOND, call) && !IsCloned(RegisterIt(true), call)
  {
    assert Registered(true).entries[5] == Entry([], [0], [LISTENER]);
  }

  /** After this run from a new transport the future of call 0 holds exactly this byte. */
  ghost predicate Returns(ops: seq<Op>, t: State, byte: Byte) {
    && IsRun(FRESH, ops, t)
    && var channel := ChannelFrom(t.world.replies, 0, ClonesOf(FRESH, ops, 0), []);
       && ParseableReplies(channel)
       && IsResult(channel, UPayload(Some([byte])))
  }

  lemma LastReadableReturns(ops: seq<Op>, t: State, n: nat, byte: Byte)
    requires IsRun(FRESH, ops, t) && |t.world.replies| == n + 1 && t.world.replies[n].payload == [byte]
    requires t.world.replies[n].query in ClonesOf(FRESH, ops, 0)
    requires forall i :: 0 <= i <= n ==> t.world.replies[i].attributes == ANSWER
    ensures Returns(ops, t, byte)
  {
    FreshIsGood();
    RunIsOffered(FRESH, ops, t);
    RunKeepsQueries(FRESH, ops, t);
    var clones := ClonesOf(FRESH, ops, 0);
    assert IsReadable(t.world.replies[n]);
    assert Decides(t.world.replies, 0, clones, n);
    hide IsRun, IsOffered, ClonesOf, Answers, IsResult, Barren;
    SomeReplyDecides(t.world.replies, 0, clones);
    FutureOf(t.world, clones, [], UPayload(Some([byte])));
  }

  lemma Clonings()
    ensures IsCloned(Ask(0, 0), 0) && IsCloned(Ask(1, 0), 0)
    ensures !IsCloned(Answer(42), 0) && !IsCloned(Answer(43), 0)
  {
    RequestArrives();
    hide HasHeader, Request;
  }

  lemma NoOps(s: State)
    ensures IsRun(s, [], s) && ClonesOf(s, [], 0) == {}
  {
  }

  /** Two steps, and then the rest of the run. */
  lemma TwoThen(s: State, a: Op, s1: State, b: Op, s2: State, ops: seq<Op>, t: State, call: CallId)
    requires Moves(s, a, s1) && Moves(s1, b, s2) && IsRun(s2, ops, t)
    ensures IsRun(s, [a, b] + ops, t)
    ensures ClonesOf(s, [a, b] + ops, call) ==
            (if IsCloned(a, call) then {s.world.clones} else {}) + (if IsCloned(b, call) then {s1.world.clones} else {})
            + ClonesOf(s2, ops, call)
  {
    hide Moves, IsRun, ClonesOf, IsCloned;
    MovesThen(s1, b, s2, ops, t, call);
    MovesThen(s, a, s1, [b] + ops, t, call);
    assert [a, b] + ops == [a] + ([b] + ops);
  }

  const FIRST_HALF := [Ask(0, 0), Answer(42)]
  const SECOND_HALF := [Ask(1, 0), Answer(43)]

  /** The runs of the call, from the point where both listeners are registered. */
  lemma BothHalves(s1: State, s2: State, s3: State, s4: State)
    requires Moves(Served(), Ask(0, 0), s1) && Moves(s1, Answer(42), s2) && s2.world.clones == 1
    requires Moves(s2, Ask(1, 0), s3) && Moves(s3, Answer(43), s4)
    ensures IsRun(Served(), FIRST_HALF, s2) && ClonesOf(Served(), FIRST_HALF, 0) == {0}
    ensures IsRun(Served(), FIRST_HALF + SECOND_HALF, s4) && ClonesOf(Served(), FIRST_HALF + SECOND_HALF, 0) == {0, 1}
  {
    Clonings();
    NoOps(s2);
    NoOps(s4);
    assert Served().world.clones == 0;
    hide Moves, IsRun, ClonesOf, IsCloned, Ask, Answer, Served;
    TwoThen(s2, Ask(1, 0), s3, Answer(43), s4, [], s4, 0);
    TwoThen(Served(), Ask(0, 0), s1, Answer(42), s2, [], s2, 0);
    assert SECOND_HALF + [] == SECOND_HALF && FIRST_HALF + [] == FIRST_HALF;
    TwoThen(Served(), Ask(0, 0), s1, Answer(42), s2, SECOND_HALF, s4, 0);
  }

  /** A call that succeeds, and the same call when a second listener answers it too: the later answer is returned. */
  lemma LaterAnswerIsReturned()
    ensures exists t :: Returns(REGISTER_TWO + FIRST_HALF, t, 42)
    ensures exists t :: Returns(REGISTER_TWO + (FIRST_HALF + SECOND_HALF), t, 43)
  {
    var s1, s2, s3, s4 := TwoAnswers();
    hide Moves, IsRun, ClonesOf, Served, Returns, FIRST_HALF, SECOND_HALF, Transport.Send, Message;
    BothHalves(s1, s2, s3, s4);
    TwoRegistrations(FIRST_HALF, s2, 0);
    TwoRegistrations(FIRST_HALF + SECOND_HALF, s4, 0);
    LastReadableReturns(REGISTER_TWO + FIRST_HALF, s2, 0, 42);
    LastReadableReturns(REGISTER_TWO + (FIRST_HALF + SECOND_HALF), s4, 1, 43);
  }

  // ---------- the same, through the theorem on calls ----------

  const REQUESTED := Message(REQUEST, None)

  function TheRequest(): RpcClient.Request {
    Issued(Uri(true), UPayload(Some([1])), REQUESTED)
  }

  lemma CarriesThen(s: State, op: Op, s1: State, ops: seq<Op>)
    requires Moves(s, op, s1) && Carries(s1, ops, 0, TheRequest())
    requires op.QueryOp? && op.call == 0 ==> CarriesHere(s, op.queryable, op.query, TheRequest())
    ensures Carries(s, [op] + ops, 0, TheRequest())
  {
    assert ([op] + ops)[0] == op && ([op] + ops)[1..] == ops;
    hide Step, Offered, SameKind, CarriesHere, TheRequest;
  }

  lemma TheCallCarries(s1: State)
    requires Moves(Served(), Ask(0, 0), s1)
    ensures Carries(FRESH, REGISTER_TWO + [Ask(0, 0)], 0, TheRequest())
    ensures IsRun(FRESH, REGISTER_TWO + [Ask(0, 0)], s1)
    ensures ClonesOf(FRESH, REGISTER_TWO + [Ask(0, 0)], 0) == {0}
  {
    Clonings();
    TwoMoves();
    TheyAsk();
    NoOps(s1);
    assert Served().world.clones == 0;
    assert Carries(s1, [], 0, TheRequest());
    hide Moves, Register, Carries, CarriesHere, TheRequest, IsRun, ClonesOf, Served, IsCloned, Request;
    MovesThen(Served(), Ask(0, 0), s1, [], s1, 0);
    assert [Ask(0, 0)] + [] == [Ask(0, 0)];
    TwoRegistrations([Ask(0, 0)], s1, 0);
    CarriesThen(Served(), Ask(0, 0), s1, []);
    CarriesThen(Registered(true), SECOND, Served(), [Ask(0, 0)]);
    CarriesThen(FRESH, RegisterIt(true), Registered(true), [SECOND] + [Ask(0, 0)]);
    assert REGISTER_TWO + [Ask(0, 0)] == [RegisterIt(true)] + ([SECOND] + [Ask(0, 0)]);
  }

  lemma TheyAsk()
    ensures 0 in Served().world.queryables && CarriesHere(Served(), 0, Request(), TheRequest())
  {
    assert Request() == Wired(TheRequest().payload, TheRequest().header, []);
  }

  /** Every hypothesis of the theorem can be met: the first answer decides. */
  lemma CallSucceeds(future: UPayload) returns (s: State, t: State)
    ensures IsRun(FRESH, REGISTER_TWO + [Ask(0, 0)], s) && Moves(s, Answer(42), t)
    ensures FirstDecides(REGISTER_TWO + [Ask(0, 0)], t, future)
  {
    var s3, s4;
    s, t, s3, s4 := TwoAnswers();
    TheCallCarries(s);
    hide Moves, IsRun, FirstDecides, REGISTER_TWO, Ask, ClonesOf, Carries, TheRequest;
    ThroughTheTheorem(REGISTER_TWO + [Ask(0, 0)], s, t, future);
  }

  ghost predicate FirstDecides(before: seq<Op>, t: State, future: UPayload) {
    var clones := CallClones(before, t, [], 0);
    var channel := ChannelFrom(t.world.replies, 0, clones, []);
    && Decides(t.world.replies, 0, clones, 0)
    && ParseableReplies(channel)
    && (IsResult(channel, future) ==> future == UPayload(Some([42])))
  }

  lemma ThroughTheTheorem(before: seq<Op>, s: State, t: State, future: UPayload)
    requires IsRun(FRESH, before, s) && Carries(FRESH, before, 0, TheRequest()) && ClonesOf(FRESH, before, 0) == {0}
    requires Moves(s, Answer(42), t) && s.world.replies == []
    requires Send(s, Uri(true), UPayload(Some([42])), ANSWER, TAKEN) == (t, OK)
    requires |t.world.replies| == 1 && t.world.replies[0].query == 0 && t.world.replies[0].attributes == ANSWER
    ensures FirstDecides(before, t, future)
  {
    MessageIsAddressable(REQUEST, None);
    AnswerIsAllowed(s, t);
    NoOps(t);
    NothingCarried(t);
    assert HeaderReadable(REQUESTED) && IsReadable(t.world.replies[0]);
    hide Moves, IsOffered, Carries, ClonesOf, Transport.Send, HeaderBytes, IsResult, Addressable, IsRun, HeaderReadable,
      CanSend, Awaits;
    RunIsOffered(FRESH, before, s);
    CallReturns(0, Uri(true), UPayload(Some([1])), REQUESTED, before, s,
                Uri(true), UPayload(Some([42])), ANSWER, TAKEN, [], t, [], future);
  }

  lemma NothingCarried(t: State)
    ensures IsOffered(t, [], t) && Carries(t, [], 0, TheRequest())
  {
  }

  lemma AnswerIsAllowed(s: State, t: State)
    requires Moves(s, Answer(42), t)
    ensures CanSend(s, Uri(true), UPayload(Some([42])), ANSWER, TAKEN)
  {
  }
}

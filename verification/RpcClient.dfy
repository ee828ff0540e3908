/** The calling side of an RPC: the request that is sent, and the fold over the replies. */
module RpcClient {
  import opened Common
  import opened Attributes
  import opened Transport
  import opened Headers
  import MessageBuilder
  import UTransport

  /** What comes out of the reply channel. A payload without data is an empty one. */
  datatype ReplyMessage = ErrorReply | OkReply(sample: Sample)

  datatype Request = Request(key: Key, payload: seq<Byte>, header: seq<Byte>)

  const NO_PAYLOAD := UPayload(None)

  ghost predicate ParseableReplies(channel: seq<ReplyMessage>) {
    forall i :: 0 <= i < |channel| && channel[i].OkReply? ==> ParseableSample(channel[i].sample)
  }

  /** A reply that passes every check of the loop. */
  predicate Acceptable(r: ReplyMessage)
    requires r.OkReply? ==> ParseableSample(r.sample)
  {
    && r.OkReply?
    && r.sample.payload != []
    && r.sample.attachment.Attachment?
    && r.sample.attachment.header.start.Some?
    && AttributesIn(r.sample.attachment.header).Some?
  }

  ghost predicate StopsAt(channel: seq<ReplyMessage>, k: nat)
    requires ParseableReplies(channel)
  {
    && k <= |channel|
    && (forall i :: 0 <= i < k ==> Acceptable(channel[i]))
    && (k < |channel| ==> !Acceptable(channel[k]))
  }

  /** The payload of the reply just before position `k`; none if there is none. */
  function PayloadBefore(channel: seq<ReplyMessage>, k: nat): UPayload
    requires k <= |channel|
  {
    if k == 0 || channel[k - 1].ErrorReply? then NO_PAYLOAD else UPayload(Some(channel[k - 1].sample.payload))
  }

  /** The payload just before the first reply that fails a check. */
  ghost predicate IsResult(channel: seq<ReplyMessage>, payload: UPayload)
    requires ParseableReplies(channel)
  {
    exists k :: StopsAt(channel, k) && payload == PayloadBefore(channel, k)
  }

  /** An OK reply that has a payload, an attachment, a header in it, and in this an id, a type and a priority. */
  ghost predicate Passes(r: ReplyMessage) {
    && r.OkReply?
    && r.sample.payload != []
    && r.sample.attachment.Attachment?
    && r.sample.attachment.header.start.Some?
    && Complete(r.sample.attachment.header)
  }

  /** Reply k and all before it pass, and the next, if there is one, does not. */
  ghost predicate LastToPass(channel: seq<ReplyMessage>, k: nat) {
    && k < |channel|
    && (forall i :: 0 <= i <= k ==> Passes(channel[i]))
    && (k + 1 < |channel| ==> !Passes(channel[k + 1]))
  }

  /** The payload of the last reply to pass, which is not empty; none exactly if the first does not pass. */
  ghost predicate PassedOn(channel: seq<ReplyMessage>, payload: UPayload) {
    && (payload.data.Some? ==>
          && payload.data.value != []
          && exists k: nat :: LastToPass(channel, k) && payload.data.value == channel[k].sample.payload)
    && (payload.data.None? <==> channel == [] || !Passes(channel[0]))
  }

  lemma AcceptableExactly(r: ReplyMessage)
    requires r.OkReply? ==> ParseableSample(r.sample)
    ensures Acceptable(r) <==> Passes(r)
  {
    hide Complete, AttributesIn, Parseable;
    if r.OkReply? && r.sample.attachment.Attachment? {
      CompleteExactly(r.sample.attachment.header);
    }
  }

  lemma StopsExactly(channel: seq<ReplyMessage>, k: nat)
    requires ParseableReplies(channel)
    ensures StopsAt(channel, k) <==>
              if k == 0 then channel == [] || !Passes(channel[0]) else LastToPass(channel, k - 1)
    ensures k > 0 && StopsAt(channel, k) ==> PayloadBefore(channel, k) == UPayload(Some(channel[k - 1].sample.payload))
  {
    forall i | 0 <= i < |channel|
      ensures Acceptable(channel[i]) <==> Passes(channel[i])
      ensures Passes(channel[i]) ==> channel[i].OkReply?
    {
      AcceptableExactly(channel[i]);
    }
    hide ParseableSample, Acceptable, Passes;
  }

  lemma LastIsPassedOn(channel: seq<ReplyMessage>, k: nat)
    requires LastToPass(channel, k)
    ensures channel[k].OkReply? && PassedOn(channel, UPayload(Some(channel[k].sample.payload)))
  {
    assert Passes(channel[k]) && Passes(channel[0]);
    hide Complete;
  }

  lemma ResultIsPassedOn(channel: seq<ReplyMessage>, payload: UPayload)
    requires ParseableReplies(channel) && IsResult(channel, payload)
    ensures PassedOn(channel, payload)
  {
    var k: nat :| StopsAt(channel, k) && payload == PayloadBefore(channel, k);
    StopsExactly(channel, k);
    if k > 0 {
      hide Passes, StopsAt, ParseableSample;
      LastIsPassedOn(channel, k - 1);
    }
  }

  lemma PassedOnIsResult(channel: seq<ReplyMessage>, payload: UPayload)
    requires ParseableReplies(channel) && PassedOn(channel, payload)
    ensures IsResult(channel, payload)
  {
    hide StopsAt, ParseableSample, Complete, AttributesIn, Acceptable;
    if payload.data.None? {
      StopsExactly(channel, 0);
      assert StopsAt(channel, 0);
    } else {
      var k: nat :| LastToPass(channel, k) && payload.data.value == channel[k].sample.payload;
      StopsExactly(channel, k + 1);
      assert StopsAt(channel, k + 1);
    }
  }

  /** The result, in terms of what the replies carry. */
  lemma ResultExactly(channel: seq<ReplyMessage>, payload: UPayload)
    requires ParseableReplies(channel)
    ensures IsResult(channel, payload) <==> PassedOn(channel, payload)
  {
    if IsResult(channel, payload) { ResultIsPassedOn(channel, payload); }
    hide IsResult;
    if PassedOn(channel, payload) { PassedOnIsResult(channel, payload); }
    hide PassedOn;
  }

  method HandleReply(channel: seq<ReplyMessage>) returns (retPayload: UPayload)
    requires ParseableReplies(channel)
    ensures IsResult(channel, retPayload) && PassedOn(channel, retPayload)
  {
    hide PassedOn;
    retPayload := NO_PAYLOAD;
    var i := 0;
    while i < |channel|
      invariant i <= |channel|
      invariant forall j :: 0 <= j < i ==> Acceptable(channel[j])
      invariant retPayload == PayloadBefore(channel, i)
    {
      var reply := channel[i];
      if reply.ErrorReply? {
        break;
      }
      var sample := reply.sample;
      if sample.payload == [] {
        break;
      }
      if sample.attachment.NoAttachment? {
        break;
      }
      var index := sample.attachment.header;
      if index.start.None? {
        break;
      }
      var header := UTransport.ReadHeader(index);
      if header.None? {
        break;
      }
      retPayload := UPayload(Some(sample.payload));
      i := i + 1;
    }
    assert StopsAt(channel, i);
    ResultExactly(channel, retPayload);
  }

  /** There is one result. */
  lemma ResultIsUnique(channel: seq<ReplyMessage>, p: UPayload, q: UPayload)
    requires ParseableReplies(channel) && IsResult(channel, p) && IsResult(channel, q)
    ensures p == q
  {
    hide Acceptable, ParseableSample;
    var j: nat :| StopsAt(channel, j) && p == PayloadBefore(channel, j);
    var k: nat :| StopsAt(channel, k) && q == PayloadBefore(channel, k);
    assert j == k;
  }

  lemma {:induction false} SomeStop(channel: seq<ReplyMessage>, k: nat)
    requires ParseableReplies(channel) && k <= |channel|
    requires forall i :: 0 <= i < k ==> Acceptable(channel[i])
    ensures exists p :: IsResult(channel, p)
    decreases |channel| - k
  {
    if k == |channel| || !Acceptable(channel[k]) {
      assert StopsAt(channel, k);
      assert IsResult(channel, PayloadBefore(channel, k));
    } else {
      SomeStop(channel, k + 1);
    }
  }

  /** The loop as a fold: every acceptable reply replaces the payload, the first other one ends it. */
  ghost function Fold(channel: seq<ReplyMessage>, last: UPayload): UPayload
    requires ParseableReplies(channel)
  {
    if channel == [] || !Acceptable(channel[0]) then last
    else Fold(channel[1..], UPayload(Some(channel[0].sample.payload)))
  }

  lemma {:induction false} FoldStops(channel: seq<ReplyMessage>, last: UPayload, k: nat)
    requires ParseableReplies(channel) && StopsAt(channel, k)
    ensures Fold(channel, last) == if k == 0 then last else PayloadBefore(channel, k)
  {
    hide ParseableSample, AttributesIn;
    if k == 0 {
    } else {
      FoldStops(channel[1..], UPayload(Some(channel[0].sample.payload)), k - 1);
    }
  }

  /** The result is the fold. */
  lemma ResultIsFold(channel: seq<ReplyMessage>, p: UPayload)
    requires ParseableReplies(channel)
    ensures IsResult(channel, p) <==> p == Fold(channel, NO_PAYLOAD)
  {
    hide Acceptable, ParseableSample, Fold;
    SomeStop(channel, 0);
    var q :| IsResult(channel, q);
    var k: nat :| StopsAt(channel, k) && q == PayloadBefore(channel, k);
    FoldStops(channel, NO_PAYLOAD, k);
    if IsResult(channel, p) { ResultIsUnique(channel, p, q); }
  }

  /** Where there is one reply, the result is its payload if it passes every check, and none otherwise. */
  lemma ResultOfOne(m: ReplyMessage, p: UPayload)
    requires ParseableReplies([m]) && IsResult([m], p)
    ensures p == if Acceptable(m) then UPayload(Some(m.sample.payload)) else NO_PAYLOAD
  {
    hide ParseableSample, AttributesIn;
    assert StopsAt([m], if Acceptable(m) then 1 else 0);
    ResultIsUnique([m], p, PayloadBefore([m], if Acceptable(m) then 1 else 0));
  }

  /** The request that is sent. */
  function Issued(uri: UUri, payload: UPayload, a: UAttributes): Request {
    Request(uri.key, payload.Bytes(), HeaderBytes(a))
  }

  /**
    The call: a future exists exactly when the URI is an RPC method, the message is a request and the
    query was issued; it then holds the result of the replies.
  */
  method InvokeMethod(uri: UUri, payload: UPayload, attributes: UAttributes, accepted: bool, channel: seq<ReplyMessage>)
    returns (request: Option<Request>, future: Option<UPayload>)
    requires Addressable(attributes) && ParseableReplies(channel)
    ensures request == if uri.rpc && attributes.kind == REQUEST && accepted
                       then Some(Issued(uri, payload, attributes)) else None
    ensures request.Some? ==>
              && request.value.key == uri.key && request.value.header == HeaderBytes(attributes)
              && request.value.payload == if payload.data.Some? then payload.data.value else []
    ensures future.Some? <==> request.Some?
    ensures future.Some? ==> IsResult(channel, future.value)
  {
    if !uri.rpc {
      return None, None;
    }
    if attributes.kind != REQUEST {
      return None, None;
    }
    var header, _ := MessageBuilder.BuildHeader(attributes);
    var value: seq<Byte> := [];
    if !payload.Empty() {
      value := payload.data.value;
    }
    if !accepted {
      return None, None;
    }
    request := Some(Request(uri.key, value, header[..]));
    var result := HandleReply(channel);
    future := Some(result);
  }
}

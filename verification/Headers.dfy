/** When a message that arrives is heard: which headers yield attributes, in terms of their bytes. */
module Headers {
  import opened Common
  import opened Wire
  import opened Attributes
  import opened MessageParser
  import opened Codec
  import opened Transport

  /** There is a header, and its bytes are records among which are an id, a type and a priority. */
  ghost predicate Complete(z: ZBytes) {
    z.start.Some? && z.len <= |z.start.value| && EncodesMandatory(z.start.value[..z.len])
  }

  lemma CompleteExactly(z: ZBytes)
    requires Parseable(z)
    ensures z.start.Some? && AttributesIn(z).Some? <==> Complete(z)
  {
    hide Decode, EncodesMandatory, AttributesOf;
    if z.start.Some? {
      AttributesExactly(z.start.value[..z.len]);
    }
  }

  lemma CompleteIsNotEmpty(z: ZBytes)
    requires Complete(z)
    ensures z.len > 0
  {
    var rs :| IsMandatory(rs, z.start.value[..z.len]);
    assert |EncodeAll(rs)| >= |Encode(rs[0])| >= HEAD_BYTES;
  }

  /** A subscriber's listener is run exactly when the sample has a complete header, and with what the sample carries. */
  lemma HandledExactly(sample: Sample, cb: Callback)
    requires ParseableSample(sample)
    ensures Handled(sample, cb).Some? <==> sample.attachment.Attachment? && Complete(sample.attachment.header)
    ensures Handled(sample, cb).Some? ==>
              && AttributesIn(sample.attachment.header).Some?
              && Handled(sample, cb).value ==
                 Event(cb.listener, cb.uri, sample.payload, AttributesIn(sample.attachment.header).value)
  {
    hide AttributesIn, Parseable, Complete;
    if sample.attachment.Attachment? {
      CompleteExactly(sample.attachment.header);
      if Complete(sample.attachment.header) { CompleteIsNotEmpty(sample.attachment.header); }
    }
  }

  /**
    An incoming query without a header does nothing. Any other is cloned; its listener is run exactly when the header is
    complete and the type is REQUEST, with the queryable's URI and the query's payload.
  */
  lemma QueryRuns(s: State, query: Sample, cb: Callback)
    requires ParseableSample(query)
    ensures var t, a := Query(s, query, cb), query.attachment;
            && (a.NoAttachment? || a.header.len == 0 || a.header.start.None? ==> t == s)
            && (a.Attachment? && a.header.len != 0 && a.header.start.Some? ==> t.world.clones == s.world.clones + 1)
            && (a.Attachment? && Complete(a.header) ==>
                  && AttributesIn(a.header).Some?
                  && var attributes := AttributesIn(a.header).value;
                     t.world.received == if attributes.kind == REQUEST
                                         then s.world.received + [Event(cb.listener, cb.uri, query.payload, attributes)]
                                         else s.world.received)
            && (!(a.Attachment? && Complete(a.header)) ==> t.world.received == s.world.received)
  {
    hide AttributesIn, Parseable, Complete, Answered;
    if query.attachment.Attachment? {
      CompleteExactly(query.attachment.header);
      if Complete(query.attachment.header) { CompleteIsNotEmpty(query.attachment.header); }
    }
  }
}

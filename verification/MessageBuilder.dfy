/** Building a header: one pass to size the buffer, one pass to fill it in place. */
module MessageBuilder {
  import opened Common
  import opened Wire
  import opened Attributes

  /** `msgSize` grows by one record with a value of `size` bytes, in `size_t` arithmetic. */
  method UpdateSize(size: nat, msgSize: nat) returns (r: nat)
    ensures r == (msgSize + HEAD_BYTES + size) % SIZE_LIMIT
  {
    r := (msgSize + 1) % SIZE_LIMIT;
    r := (r + LENGTH_BYTES) % SIZE_LIMIT;
    r := (r + size) % SIZE_LIMIT;
  }

  /** `msgSize` is `exact` up to whole turns of the counter. */
  ghost predicate Wrapped(msgSize: nat, exact: nat) {
    exists turns: nat :: IsWrapped(msgSize, exact, turns)
  }

  ghost predicate IsWrapped(msgSize: nat, exact: nat, turns: nat) {
    msgSize < SIZE_LIMIT && exact == msgSize + turns * SIZE_LIMIT
  }

  /** The same for a typed value. */
  method UpdateSizeOf(value: Value, msgSize: nat, ghost exact: nat) returns (r: nat)
    requires Wrapped(msgSize, exact)
    ensures Wrapped(r, exact + HEAD_BYTES + value.Size())
  {
    var valueSize;
    match value {
      case Text(chars) => valueSize := |chars|;
      case Vector(bytes) => valueSize := |bytes|;
      case Word(_) => valueSize := 4;
    }
    r := UpdateSize(valueSize, msgSize);
    ghost var turns: nat :| IsWrapped(msgSize, exact, turns);
    assert IsWrapped(r, exact + HEAD_BYTES + valueSize, turns + (msgSize + HEAD_BYTES + valueSize) / SIZE_LIMIT);
  }

  /** An optional attribute counts only when it has a value. */
  method UpdateSizeIfPresent(value: Option<Value>, msgSize: nat, ghost exact: nat) returns (r: nat)
    requires Wrapped(msgSize, exact)
    ensures Wrapped(r, exact + PresentSize(value))
  {
    r := msgSize;
    if value.Some? {
      r := UpdateSizeOf(value.value, msgSize, exact);
    }
  }

  function PresentSize(v: Option<Value>): nat {
    if v.None? then 0 else HEAD_BYTES + v.value.Size()
  }

  /** The first pass agrees with what the second pass writes, plus the room a sink reserves. */
  method CalculateSize(attributes: UAttributes) returns (msgSize: nat)
    ensures msgSize == |HeaderBytes(attributes)| % SIZE_LIMIT
  {
    var a := attributes;
    assert IsWrapped(0, 0, 0);
    msgSize := UpdateSizeOf(Vector(a.id), 0, 0);
    msgSize := UpdateSizeOf(Word(a.kind), msgSize, 25);
    msgSize := UpdateSizeOf(Word(a.priority), msgSize, 38);
    ghost var exact := 51;
    msgSize := UpdateSizeIfPresent(AsWord(a.ttl), msgSize, exact);
    exact := exact + PresentSize(AsWord(a.ttl));
    msgSize := UpdateSizeIfPresent(AsText(a.token), msgSize, exact);
    exact := exact + PresentSize(AsText(a.token));
    msgSize := UpdateSizeIfPresent(AsWord(a.hint), msgSize, exact);
    exact := exact + PresentSize(AsWord(a.hint));
    msgSize := UpdateSizeIfPresent(AsText(a.sink), msgSize, exact);
    exact := exact + PresentSize(AsText(a.sink));
    msgSize := UpdateSizeIfPresent(AsWord(a.plevel), msgSize, exact);
    exact := exact + PresentSize(AsWord(a.plevel));
    msgSize := UpdateSizeIfPresent(AsWord(a.commstatus), msgSize, exact);
    exact := exact + PresentSize(AsWord(a.commstatus));
    msgSize := UpdateSizeIfPresent(AsVector(a.reqid), msgSize, exact);
    exact := exact + PresentSize(AsVector(a.reqid));
    HeaderLength(a);
    WrappedRemainder(msgSize, exact);
  }

  lemma WrappedRemainder(msgSize: nat, exact: nat)
    requires Wrapped(msgSize, exact)
    ensures msgSize == exact % SIZE_LIMIT
  {
  }

  lemma PresentLength(tag: Tag, v: Option<Value>)
    ensures |EncodeAll(Present(tag, v))| == PresentSize(v)
  {
  }

  lemma FixedLength(id: Record, kind: Record, priority: Record)
    ensures EncodeAll([id, kind, priority]) == Encode(id) + Encode(kind) + Encode(priority)
  {
    assert [id, kind, priority] == [id] + ([kind] + [priority]);
    EncodeAllAppend([id], [kind] + [priority]);
    EncodeAllAppend([kind], [priority]);
    EncodeOne(id);
    EncodeOne(kind);
    EncodeOne(priority);
  }

  /** The header's length, field by field. */
  lemma HeaderLength(a: UAttributes)
    ensures |HeaderBytes(a)| ==
            51 + PresentSize(AsWord(a.ttl)) + PresentSize(AsText(a.token)) + PresentSize(AsWord(a.hint))
            + PresentSize(AsText(a.sink)) + PresentSize(AsWord(a.plevel)) + PresentSize(AsWord(a.commstatus))
            + PresentSize(AsVector(a.reqid))
  {
    var id, kind := Record(ID, a.id), Record(TYPE, Int32Bytes(a.kind));
    var priority := Record(PRIORITY, Int32Bytes(a.priority));
    FixedLength(id, kind, priority);
    var r0 := [id, kind, priority];
    var r1 := r0 + Present(TTL, AsWord(a.ttl));
    var r2 := r1 + Present(TOKEN, AsText(a.token));
    var r3 := r2 + Present(HINT, AsWord(a.hint));
    var r4 := r3 + Present(PLEVEL, AsWord(a.plevel));
    var r5 := r4 + Present(COMMSTATUS, AsWord(a.commstatus));
    EncodeAllAppend(r0, Present(TTL, AsWord(a.ttl)));
    EncodeAllAppend(r1, Present(TOKEN, AsText(a.token)));
    EncodeAllAppend(r2, Present(HINT, AsWord(a.hint)));
    EncodeAllAppend(r3, Present(PLEVEL, AsWord(a.plevel)));
    EncodeAllAppend(r4, Present(COMMSTATUS, AsWord(a.commstatus)));
    EncodeAllAppend(r5, Present(REQID, AsVector(a.reqid)));
    PresentLength(TTL, AsWord(a.ttl));
    PresentLength(TOKEN, AsText(a.token));
    PresentLength(HINT, AsWord(a.hint));
    PresentLength(PLEVEL, AsWord(a.plevel));
    PresentLength(COMMSTATUS, AsWord(a.commstatus));
    PresentLength(REQID, AsVector(a.reqid));
  }

  /** `memcpy` of `data` to `buffer + at`. */
  method CopyInto(buffer: array<Byte>, at: nat, data: seq<Byte>)
    requires at + |data| <= buffer.Length
    modifies buffer
    ensures forall k :: 0 <= k < buffer.Length ==>
              buffer[k] == if at <= k < at + |data| then data[k - at] else old(buffer[k])
  {
    for i := 0 to |data|
      invariant forall k :: 0 <= k < buffer.Length ==>
                  buffer[k] == if at <= k < at + i then data[k - at] else old(buffer[k])
    {
      buffer[at + i] := data[i];
    }
  }

  /** Write one record at the cursor; every other byte of the buffer stays as it was. */
  method AddTag(buffer: array<Byte>, tag: Tag, data: seq<Byte>, pos: nat) returns (next: nat)
    requires pos + HEAD_BYTES + |data| <= buffer.Length
    modifies buffer
    ensures next == pos + |Encode(Record(tag, data))|
    ensures forall k :: 0 <= k < buffer.Length ==>
              buffer[k] == if pos <= k < next then Encode(Record(tag, data))[k - pos] else old(buffer[k])
  {
    hide LittleEndian;
    buffer[pos] := tag;
    CopyInto(buffer, pos + 1, LittleEndian(|data|, LENGTH_BYTES));
    CopyInto(buffer, pos + HEAD_BYTES, data);
    next := pos + 1 + LENGTH_BYTES + |data|;
  }

  /** The buffer holds `written` up to the cursor and zeros from there on. */
  ghost predicate Filled(buffer: seq<Byte>, written: seq<Record>, pos: nat) {
    && pos == |EncodeAll(written)| <= |buffer|
    && buffer == EncodeAll(written) + Zeros(|buffer| - pos)
  }

  lemma FilledFurther(before: seq<Byte>, after: seq<Byte>, written: seq<Record>, r: Record, pos: nat)
    requires Filled(before, written, pos)
    requires pos + |Encode(r)| <= |before| == |after|
    requires forall k :: 0 <= k < |after| ==>
               after[k] == if pos <= k < pos + |Encode(r)| then Encode(r)[k - pos] else before[k]
    ensures Filled(after, written + [r], pos + |Encode(r)|)
  {
    EncodeAllAppend(written, [r]);
    EncodeOne(r);
    hide Encode, EncodeAll;
    var next := pos + |Encode(r)|;
    var target := EncodeAll(written) + Encode(r) + Zeros(|after| - next);
    forall k | 0 <= k < |after|
      ensures after[k] == target[k]
    {
    }
    assert after == target;
  }

  /** The same for a typed value: the records so far are extended by one. */
  method AddValue(buffer: array<Byte>, tag: Tag, value: Value, pos: nat, ghost written: seq<Record>)
    returns (next: nat)
    requires Filled(buffer[..], written, pos)
    requires pos + HEAD_BYTES + value.Size() <= buffer.Length
    modifies buffer
    ensures Filled(buffer[..], written + [Record(tag, value.Image())], next)
    ensures next == pos + HEAD_BYTES + value.Size()
  {
    var data;
    match value {
      case Text(chars) => data := chars;
      case Vector(bytes) => data := bytes;
      case Word(word) => data := Int32Bytes(word);
    }
    ghost var before := buffer[..];
    next := AddTag(buffer, tag, data, pos);
    FilledFurther(before, buffer[..], written, Record(tag, data), pos);
  }

  /** An optional attribute is written only when it has a value. */
  method AddIfPresent(buffer: array<Byte>, tag: Tag, value: Option<Value>, pos: nat, ghost written: seq<Record>)
    returns (next: nat)
    requires Filled(buffer[..], written, pos)
    requires pos + PresentSize(value) <= buffer.Length
    modifies buffer
    ensures Filled(buffer[..], written + Present(tag, value), next)
    ensures next == pos + PresentSize(value)
  {
    next := pos;
    if value.Some? {
      next := AddValue(buffer, tag, value.value, pos, written);
    } else {
      assert written + [] == written;
    }
  }

  /**
    The header holds exactly the records of the attributes, followed by the room reserved for a sink,
    and the cursor stops where that room begins.
  */
  method BuildHeader(attributes: UAttributes) returns (message: array<Byte>, ghost pos: nat)
    requires Addressable(attributes)
    ensures fresh(message)
    ensures message[..] == HeaderBytes(attributes)
    ensures pos == message.Length - SinkTail(attributes)
  {
    var a := attributes;
    hide Present, PresentSize, AsWord, AsText, AsVector, LittleEndian;
    var messageSize := CalculateSize(a);
    message := new Byte[messageSize](_ => 0);
    HeaderLength(a);
    ghost var rs := [];
    var at := AddValue(message, ID, Vector(a.id), 0, rs);
    rs := rs + [Record(ID, a.id)];
    at := AddValue(message, TYPE, Word(a.kind), at, rs);
    rs := rs + [Record(TYPE, Int32Bytes(a.kind))];
    at := AddValue(message, PRIORITY, Word(a.priority), at, rs);
    rs := rs + [Record(PRIORITY, Int32Bytes(a.priority))];
    at := AddIfPresent(message, TTL, AsWord(a.ttl), at, rs);
    rs := rs + Present(TTL, AsWord(a.ttl));
    at := AddIfPresent(message, TOKEN, AsText(a.token), at, rs);
    rs := rs + Present(TOKEN, AsText(a.token));
    at := AddIfPresent(message, HINT, AsWord(a.hint), at, rs);
    rs := rs + Present(HINT, AsWord(a.hint));
    at := AddIfPresent(message, PLEVEL, AsWord(a.plevel), at, rs);
    rs := rs + Present(PLEVEL, AsWord(a.plevel));
    at := AddIfPresent(message, COMMSTATUS, AsWord(a.commstatus), at, rs);
    rs := rs + Present(COMMSTATUS, AsWord(a.commstatus));
    at := AddIfPresent(message, REQID, AsVector(a.reqid), at, rs);
    rs := rs + Present(REQID, AsVector(a.reqid));
    pos := at;
    assert rs == Records(a);
    assert message.Length - pos == SinkTail(a);
  }
}

/** Message attributes and the header that carries them, as values. */
module Attributes {
  import opened Common
  import opened Wire

  /** The sixteen bytes a UUID serializes to. */
  type Uuid = s: seq<Byte> | |s| == 16 witness Zeros(16)

  /** Enumerations travel as four-byte words; only the distinctness of these three matters. */
  const PUBLISH: Int32 := 1
  const REQUEST: Int32 := 2
  const RESPONSE: Int32 := 3

  /** `sink` is the encoded text of the sink URI. */
  datatype UAttributes = UAttributes(
    id: Uuid,
    kind: Int32,
    priority: Int32,
    ttl: Option<Int32>,
    token: Option<seq<Byte>>,
    hint: Option<Int32>,
    sink: Option<seq<Byte>>,
    plevel: Option<Int32>,
    commstatus: Option<Int32>,
    reqid: Option<Uuid>)

  /** The C++ types a record value may have. */
  datatype Value = Text(chars: seq<Byte>) | Vector(bytes: seq<Byte>) | Word(word: Int32) {
    function Image(): seq<Byte> {
      match this
      case Text(chars) => chars
      case Vector(bytes) => bytes
      case Word(word) => Int32Bytes(word)
    }

    function Size(): nat {
      match this
      case Text(chars) => |chars|
      case Vector(bytes) => |bytes|
      case Word(_) => 4
    }
  }

  function AsWord(v: Option<Int32>): Option<Value> {
    if v.None? then None else Some(Word(v.value))
  }

  function AsText(v: Option<seq<Byte>>): Option<Value> {
    if v.None? then None else Some(Text(v.value))
  }

  function AsVector(v: Option<Uuid>): Option<Value> {
    if v.None? then None else Some(Vector(v.value))
  }

  function Present(tag: Tag, v: Option<Value>): seq<Record> {
    if v.None? then [] else [Record(tag, v.value.Image())]
  }

  /** The records a header holds, in the order they are written. The sink has none. */
  function Records(a: UAttributes): seq<Record> {
    [Record(ID, a.id), Record(TYPE, Int32Bytes(a.kind)), Record(PRIORITY, Int32Bytes(a.priority))]
    + Present(TTL, AsWord(a.ttl))
    + Present(TOKEN, AsText(a.token))
    + Present(HINT, AsWord(a.hint))
    + Present(PLEVEL, AsWord(a.plevel))
    + Present(COMMSTATUS, AsWord(a.commstatus))
    + Present(REQID, AsVector(a.reqid))
  }

  /** The room reserved for a sink and never filled. */
  function SinkTail(a: UAttributes): nat {
    if a.sink.None? then 0 else HEAD_BYTES + |a.sink.value|
  }

  function HeaderBytes(a: UAttributes): seq<Byte> {
    EncodeAll(Records(a)) + Zeros(SinkTail(a))
  }

  /** The header fits the address space, so no size computation wraps around. */
  predicate Addressable(a: UAttributes) {
    |HeaderBytes(a)| < SIZE_LIMIT
  }

  function WithoutSink(a: UAttributes): UAttributes {
    a.(sink := None)
  }
}

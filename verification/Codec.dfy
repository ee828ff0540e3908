/** What builder and parser do to each other: round trips, the sink tail, and what a header determines. */
module Codec {
  import opened Common
  import opened Wire
  import opened Attributes
  import opened MessageParser

  function AsTLV(r: Record): TLV {
    TLV(r.tag, |r.value|, r.value)
  }

  /** The last record of each tag, defined from the back of the sequence. */
  function Latest(rs: seq<Record>): map<Tag, TLV> {
    if rs == [] then map[] else
    var last := rs[|rs| - 1];
    Latest(rs[..|rs| - 1])[last.tag := AsTLV(last)]
  }

  // ---------- the parser on arbitrary bytes ----------

  lemma {:induction false} DecodeRecord(r: Record, rest: seq<Byte>)
    requires Sendable(r)
    ensures Decode(Encode(r) + rest) == Decode(rest).After(map[r.tag := AsTLV(r)])
  {
    RecordLayout(r, rest);
  }

  /** Whatever follows a string that parses is parsed as if it stood alone, and its records win. */
  lemma {:induction false} DecodeConcatenation(s: seq<Byte>, t: seq<Byte>)
    requires Decode(s).Parsed?
    ensures Decode(s + t) == Decode(t).After(Decode(s).records)
  {
    if s == [] {
      assert s + t == t;
      AfterNothing(Decode(t));
    } else {
      var length := FromLittleEndian(s[1..HEAD_BYTES]);
      var end := HEAD_BYTES + length;
      var first := map[s[0] := TLV(s[0], length, s[HEAD_BYTES..end])];
      var u := s + t;
      assert u[1..HEAD_BYTES] == s[1..HEAD_BYTES] && u[HEAD_BYTES..end] == s[HEAD_BYTES..end];
      assert u[end..] == s[end..] + t;
      DecodeConcatenation(s[end..], t);
      AfterAfter(Decode(t), first, Decode(s[end..]).records);
    }
  }

  lemma LatestAppend(init: seq<Record>, last: Record)
    ensures Latest(init + [last]) == Latest(init) + map[last.tag := AsTLV(last)]
  {
  }

  lemma DecodeOne(r: Record)
    requires Sendable(r)
    ensures Decode(Encode(r)) == Parsed(map[r.tag := AsTLV(r)])
  {
    DecodeRecord(r, []);
    assert Encode(r) + [] == Encode(r);
    AfterNothing(Parsed(map[r.tag := AsTLV(r)]));
  }

  /** The record strings of sendable records parse, to the last record of each tag. */
  lemma {:induction false} DecodeEncodeAll(rs: seq<Record>)
    requires AllSendable(rs)
    ensures Decode(EncodeAll(rs)) == Parsed(Latest(rs))
  {
    if rs == [] {
    } else {
      hide Decode, Encode, EncodeAll, Latest;
      var init, last := rs[..|rs| - 1], rs[|rs| - 1];
      assert last in rs;
      DecodeEncodeAll(init);
      assert rs == init + [last];
      EncodeAllAppend(init, [last]);
      EncodeOne(last);
      DecodeOne(last);
      DecodeConcatenation(EncodeAll(init), Encode(last));
      LatestAppend(init, last);
    }
  }

  /** The records a parsed string consists of. */
  function Split(s: seq<Byte>): (rs: seq<Record>)
    requires Decode(s).Parsed?
    ensures AllSendable(rs) && EncodeAll(rs) == s
  {
    if s == [] then [] else
    var length := FromLittleEndian(s[1..HEAD_BYTES]);
    var end := HEAD_BYTES + length;
    var r := Record(s[0], s[HEAD_BYTES..end]);
    var rest := Split(s[end..]);
    SplitFirst(s);
    assert EncodeAll([r] + rest) == Encode(r) + EncodeAll(rest) by { assert ([r] + rest)[1..] == rest; }
    [r] + rest
  }

  lemma SplitFirst(s: seq<Byte>)
    requires Decode(s).Parsed? && s != []
    ensures var end := HEAD_BYTES + FromLittleEndian(s[1..HEAD_BYTES]);
            && end <= |s|
            && Sendable(Record(s[0], s[HEAD_BYTES..end]))
            && Encode(Record(s[0], s[HEAD_BYTES..end])) + s[end..] == s
  {
    assert IsValidTag(s[0]) && |s| >= HEAD_BYTES + FromLittleEndian(s[1..HEAD_BYTES]);
    hide Decode;
    ReencodeFirst(s);
  }

  lemma ReencodeFirst(s: seq<Byte>)
    requires |s| >= HEAD_BYTES && |s| >= HEAD_BYTES + FromLittleEndian(s[1..HEAD_BYTES])
    ensures var end := HEAD_BYTES + FromLittleEndian(s[1..HEAD_BYTES]);
            && end - HEAD_BYTES < SIZE_LIMIT
            && Encode(Record(s[0], s[HEAD_BYTES..end])) + s[end..] == s
  {
    hide FromLittleEndian, LittleEndian;
    Widths();
    EncodeDecodeWord(s[1..HEAD_BYTES]);
  }

  /** The parser returns the last record of each tag of the records it is given, and nothing if there are none. */
  lemma ParseEncodeAll(rs: seq<Record>)
    requires AllSendable(rs)
    ensures Decode(EncodeAll(rs)).Defined()
    ensures Parse(EncodeAll(rs)) == if rs == [] then None else Some(Latest(rs))
  {
    DecodeEncodeAll(rs);
  }

  /** Where its behaviour is defined, the parser accepts exactly the encodings of records, of at least one. */
  lemma AcceptedExactly(s: seq<Byte>)
    requires Decode(s).Defined()
    ensures Parse(s).Some? <==> exists rs :: rs != [] && AllSendable(rs) && EncodeAll(rs) == s
    ensures Parse(s).Some? ==> Parse(s).value == Latest(Split(s))
  {
    if Parse(s).Some? {
      var rs := Split(s);
      assert rs != [] && AllSendable(rs) && EncodeAll(rs) == s;
      DecodeEncodeAll(rs);
    }
    forall rs | rs != [] && AllSendable(rs) && EncodeAll(rs) == s
      ensures Parse(s).Some?
    {
      ParseEncodeAll(rs);
    }
  }

  /** Two strings the parser accepts make one that it accepts, with the records of the second on top. */
  lemma ParseConcatenation(s: seq<Byte>, t: seq<Byte>)
    requires Parse(s).Some?
    ensures Parse(s + t) == if t == [] then Parse(s)
                            else if Parse(t).Some? then Some(Parse(s).value + Parse(t).value) else None
  {
    DecodeConcatenation(s, t);
    assert s + t != [];
    if t == [] {
      assert s + t == s;
    }
    hide Decode;
  }

  // ---------- the records found ----------

  /** No tag comes with two different values. */
  ghost predicate Functional(rs: seq<Record>) {
    forall x, y :: x in rs && y in rs && x.tag == y.tag ==> x == y
  }

  /** The value kept for a tag is that of the record nothing of the same tag follows. */
  lemma {:induction false} LastDuplicateWins(rs: seq<Record>, i: nat)
    requires i < |rs|
    requires forall j :: i < j < |rs| ==> rs[j].tag != rs[i].tag
    ensures rs[i].tag in Latest(rs) && Latest(rs)[rs[i].tag] == AsTLV(rs[i])
  {
    if i < |rs| - 1 {
      assert rs[|rs| - 1].tag != rs[i].tag;
      LastDuplicateWins(rs[..|rs| - 1], i);
    }
  }

  lemma {:induction false} LatestFunctional(rs: seq<Record>)
    requires Functional(rs)
    ensures forall r :: r in rs ==> r.tag in Latest(rs) && Latest(rs)[r.tag] == AsTLV(r)
    ensures forall t :: t in Latest(rs) ==> exists r :: r in rs && r.tag == t
  {
    if rs == [] {
    } else {
      var init, last := rs[..|rs| - 1], rs[|rs| - 1];
      LatestFunctional(init);
      assert forall r :: r in init ==> r in rs;
      assert forall r :: r in rs ==> r in init || r == last;
      assert last in rs;
    }
  }

  lemma LatestOfSameRecords(x: seq<Record>, y: seq<Record>)
    requires Functional(x)
    requires forall r :: r in x <==> r in y
    ensures Latest(x) == Latest(y)
  {
    LatestFunctional(x);
    LatestFunctional(y);
    hide Latest;
    assert Latest(x).Keys == Latest(y).Keys;
    forall t | t in Latest(x)
      ensures Latest(x)[t] == Latest(y)[t]
    {
      var r :| r in x && r.tag == t;
      assert r in y;
    }
  }

  /** Where tags are not repeated, the order of the records does not matter. */
  lemma OrderIrrelevant(x: seq<Record>, y: seq<Record>)
    requires Functional(x) && AllSendable(x)
    requires forall r :: r in x <==> r in y
    ensures Decode(EncodeAll(x)) == Decode(EncodeAll(y))
  {
    DecodeEncodeAll(x);
    DecodeEncodeAll(y);
    LatestOfSameRecords(x, y);
  }

  /** One record with this tag byte is accepted exactly when the byte is at most eleven. */
  lemma TagsAccepted(tag: Byte, value: seq<Byte>)
    requires |value| < SIZE_LIMIT
    ensures Parse([tag] + LittleEndian(|value|, 8) + value).Some? <==> tag <= 11
  {
    var r := Record(tag, value);
    assert Encode(r) == [tag] + LittleEndian(|value|, 8) + value;
    if tag <= 11 {
      DecodeOne(r);
    }
  }

  ghost predicate HasTag(rs: seq<Record>, t: Tag) {
    exists r :: r in rs && r.tag == t
  }

  lemma {:induction false} LatestTags(rs: seq<Record>)
    ensures forall t: Tag :: t in Latest(rs) <==> HasTag(rs, t)
  {
    if rs == [] {
    } else {
      var init, last := rs[..|rs| - 1], rs[|rs| - 1];
      LatestTags(init);
      assert forall r :: r in rs <==> r in init || r == last;
      forall t: Tag
        ensures t in Latest(rs) <==> HasTag(rs, t)
      {
        if HasTag(init, t) {
          var r :| r in init && r.tag == t;
          assert r in rs;
        }
        if t == last.tag { assert last in rs; }
      }
    }
  }

  /** The bytes are records, and among these are an id, a type and a priority. */
  ghost predicate EncodesMandatory(s: seq<Byte>) {
    exists rs :: IsMandatory(rs, s)
  }

  ghost predicate IsMandatory(rs: seq<Record>, s: seq<Byte>) {
    AllSendable(rs) && EncodeAll(rs) == s && HasTag(rs, 1) && HasTag(rs, 2) && HasTag(rs, 3)
  }

  /** The two parser calls yield attributes exactly for such bytes. */
  lemma AttributesExactly(s: seq<Byte>)
    requires Decode(s).Defined() && (Decode(s).Parsed? ==> Readable(Decode(s).records))
    ensures Decode(s).Parsed? && AttributesOf(Decode(s).records).Some? <==> EncodesMandatory(s)
    ensures Parse(s).Some? && AttributesOf(Parse(s).value).Some? <==> EncodesMandatory(s)
  {
    hide Decode, EncodeAll, Latest;
    if Decode(s).Parsed? {
      var rs := Split(s);
      DecodeEncodeAll(rs);
      LatestTags(rs);
      if AttributesOf(Decode(s).records).Some? {
        assert IsMandatory(rs, s);
      }
    }
    forall rs | IsMandatory(rs, s)
      ensures Decode(s).Parsed? && AttributesOf(Decode(s).records).Some?
    {
      DecodeEncodeAll(rs);
      LatestTags(rs);
    }
    NothingDecodes();
  }

  lemma NothingDecodes()
    ensures Decode([]) == Parsed(map[])
  {
  }

  // ---------- headers ----------

  /** What a header carries under a tag. */
  function Field(a: UAttributes, t: Tag): Option<seq<Byte>> {
    if t == ID then Some(a.id)
    else if t == TYPE then Some(Int32Bytes(a.kind))
    else if t == PRIORITY then Some(Int32Bytes(a.priority))
    else if t == TTL && a.ttl.Some? then Some(Int32Bytes(a.ttl.value))
    else if t == TOKEN && a.token.Some? then Some(a.token.value)
    else if t == HINT && a.hint.Some? then Some(Int32Bytes(a.hint.value))
    else if t == PLEVEL && a.plevel.Some? then Some(Int32Bytes(a.plevel.value))
    else if t == COMMSTATUS && a.commstatus.Some? then Some(Int32Bytes(a.commstatus.value))
    else if t == REQID && a.reqid.Some? then Some(a.reqid.value)
    else None
  }

  lemma RecordsAreFields(a: UAttributes)
    ensures forall r :: r in Records(a) <==> Field(a, r.tag) == Some(r.value)
    ensures Functional(Records(a))
  {
    var fixed := [Record(ID, a.id), Record(TYPE, Int32Bytes(a.kind)), Record(PRIORITY, Int32Bytes(a.priority))];
    forall r: Record
      ensures r in Records(a) <==> Field(a, r.tag) == Some(r.value)
    {
      assert r in Records(a) <==>
             || r in fixed
             || r in Present(TTL, AsWord(a.ttl))
             || r in Present(TOKEN, AsText(a.token))
             || r in Present(HINT, AsWord(a.hint))
             || r in Present(PLEVEL, AsWord(a.plevel))
             || r in Present(COMMSTATUS, AsWord(a.commstatus))
             || r in Present(REQID, AsVector(a.reqid));
    }
  }

  /** What a header holds, by the numbers of the tags. */
  lemma FieldsByNumber(a: UAttributes)
    ensures Field(a, 1) == Some(a.id)
    ensures Field(a, 2) == Some(Int32Bytes(a.kind)) && Field(a, 3) == Some(Int32Bytes(a.priority))
    ensures Field(a, 4) == if a.ttl.Some? then Some(Int32Bytes(a.ttl.value)) else None
    ensures Field(a, 5) == a.token
    ensures Field(a, 6) == if a.hint.Some? then Some(Int32Bytes(a.hint.value)) else None
    ensures Field(a, 8) == if a.plevel.Some? then Some(Int32Bytes(a.plevel.value)) else None
    ensures Field(a, 9) == if a.commstatus.Some? then Some(Int32Bytes(a.commstatus.value)) else None
    ensures Field(a, 10) == if a.reqid.Some? then Some(a.reqid.value) else None
    ensures Field(a, 0) == Field(a, 7) == Field(a, 11) == None
  {
  }

  /** A sink adds nine zero bytes and one for each byte of its text, whatever that is. */
  lemma SinkRoom(a: UAttributes)
    ensures a.sink.Some? ==> HeaderBytes(a) == HeaderBytes(WithoutSink(a)) + seq(9 + |a.sink.value|, _ => 0)
  {
    assert HeaderBytes(WithoutSink(a)) == EncodeAll(Records(a));
  }

  /** The records of a header come in the order of their tags, each tag once. */
  lemma RecordsAscend(a: UAttributes)
    ensures forall i, j :: 0 <= i < j < |Records(a)| ==> Records(a)[i].tag < Records(a)[j].tag
  {
    var fixed := [Record(ID, a.id), Record(TYPE, Int32Bytes(a.kind)), Record(PRIORITY, Int32Bytes(a.priority))];
    var r1 := fixed + Present(TTL, AsWord(a.ttl));
    var r2 := r1 + Present(TOKEN, AsText(a.token));
    var r3 := r2 + Present(HINT, AsWord(a.hint));
    var r4 := r3 + Present(PLEVEL, AsWord(a.plevel));
    var r5 := r4 + Present(COMMSTATUS, AsWord(a.commstatus));
    hide Int32Bytes, AsWord, AsText, AsVector;
    AscendsFurther(fixed, TTL, AsWord(a.ttl), PRIORITY);
    AscendsFurther(r1, TOKEN, AsText(a.token), TTL);
    AscendsFurther(r2, HINT, AsWord(a.hint), TOKEN);
    AscendsFurther(r3, PLEVEL, AsWord(a.plevel), HINT);
    AscendsFurther(r4, COMMSTATUS, AsWord(a.commstatus), PLEVEL);
    AscendsFurther(r5, REQID, AsVector(a.reqid), COMMSTATUS);
  }

  ghost predicate Ascends(rs: seq<Record>, last: Tag) {
    && (forall i, j :: 0 <= i < j < |rs| ==> rs[i].tag < rs[j].tag)
    && (forall i :: 0 <= i < |rs| ==> rs[i].tag <= last)
  }

  lemma AscendsFurther(rs: seq<Record>, tag: Tag, v: Option<Value>, last: Tag)
    requires Ascends(rs, last) && last < tag
    ensures Ascends(rs + Present(tag, v), tag)
  {
  }

  lemma RecordsAreSendable(a: UAttributes)
    requires Addressable(a)
    ensures AllSendable(Records(a))
    ensures forall r :: r in Records(a) ==> r.tag != UURI
  {
    RecordsAreFields(a);
    hide Records, EncodeAll;
    forall r | r in Records(a)
      ensures Sendable(r)
    {
      RecordFits(Records(a), r);
    }
  }

  lemma {:induction false} RecordFits(rs: seq<Record>, r: Record)
    requires r in rs
    ensures |r.value| < |EncodeAll(rs)|
  {
    if r != rs[0] {
      RecordFits(rs[1..], r);
    }
  }

  /** What `n` zero bytes read as: empty records of tag zero, nine bytes at a time. */
  function ZeroOutcome(n: nat): Outcome {
    if n == 0 then Parsed(map[])
    else if n % 9 == 0 then Parsed(map[UURI := TLV(UURI, 0, [])])
    else Truncated
  }

  lemma {:induction false} DecodeZeros(n: nat)
    ensures Decode(Zeros(n)) == ZeroOutcome(n)
  {
    if n >= HEAD_BYTES {
      DecodeZerosStep(n);
      DecodeZeros(n - HEAD_BYTES);
      hide Decode;
      OneMoreEmptyRecord(n);
    }
  }

  lemma OneMoreEmptyRecord(n: nat)
    requires n >= 9
    ensures ZeroOutcome(n - 9).After(map[UURI := TLV(UURI, 0, [])]) == ZeroOutcome(n)
  {
  }

  lemma DecodeZerosStep(n: nat)
    requires n >= HEAD_BYTES
    ensures Decode(Zeros(n)) == Decode(Zeros(n - HEAD_BYTES)).After(map[UURI := TLV(UURI, 0, [])])
  {
    hide Decode, LittleEndian, FromLittleEndian;
    var empty := Record(UURI, []);
    EncodeDecodeWord(Zeros(LENGTH_BYTES));
    ZeroWord(LENGTH_BYTES);
    assert Zeros(n) == Encode(empty) + Zeros(n - HEAD_BYTES);
    DecodeRecord(empty, Zeros(n - HEAD_BYTES));
  }

  lemma {:induction false} ZeroWord(n: nat)
    ensures FromLittleEndian(Zeros(n)) == 0
  {
    if n == 0 {
    } else {
      assert Zeros(n)[1..] == Zeros(n - 1);
      ZeroWord(n - 1);
    }
  }

  /** A header parses when no sink is set, or when the sink's text fills whole empty records. */
  predicate HeaderReadable(a: UAttributes) {
    a.sink.None? || |a.sink.value| % 9 == 0
  }

  /**
    What the parser makes of any header: nothing if a sink leaves a ragged tail, and otherwise exactly
    the present fields with their bytes, plus one empty UURI record when there is a sink at all.
  */
  lemma HeaderContents(a: UAttributes)
    requires Addressable(a)
    ensures Decode(HeaderBytes(a)).Parsed? <==> HeaderReadable(a)
    ensures !HeaderReadable(a) ==> Decode(HeaderBytes(a)) == Truncated
    ensures HeaderReadable(a) ==>
              var m := Decode(HeaderBytes(a)).records;
              && (forall t :: t in m <==> Field(a, t).Some? || (t == UURI && a.sink.Some?))
              && (forall t :: t in m ==>
                    var v := if t == UURI then [] else Field(a, t).value;
                    m[t] == TLV(t, |v|, v))
  {
    hide Decode, Records, EncodeAll, Latest, Int32Bytes;
    RecordsAreFields(a);
    RecordsAreSendable(a);
    DecodeEncodeAll(Records(a));
    LatestFunctional(Records(a));
    DecodeConcatenation(EncodeAll(Records(a)), Zeros(SinkTail(a)));
    DecodeZeros(SinkTail(a));
    var fields := Latest(Records(a));
    forall t: Tag
      ensures t in fields <==> Field(a, t).Some?
      ensures t in fields ==> fields[t] == TLV(t, |Field(a, t).value|, Field(a, t).value)
    {
      if Field(a, t).Some? {
        assert Record(t, Field(a, t).value) in Records(a);
      }
    }
  }

  /** The attributes a receiver is handed for attributes `a` that were sent. */
  function Received(a: UAttributes): UAttributes {
    UAttributes(a.id, a.kind, a.priority,
                if a.ttl.Some? then Some(ReadInt32(a.id)) else None,
                None, None, None, a.plevel, a.commstatus, None)
  }

  /** Decoding a header yields id, type, priority, permission level and comm status unchanged. */
  lemma HeaderRoundTrip(a: UAttributes)
    requires Addressable(a) && HeaderReadable(a)
    ensures Decode(HeaderBytes(a)).Parsed? && Readable(Decode(HeaderBytes(a)).records)
    ensures AttributesOf(Decode(HeaderBytes(a)).records) == Some(Received(a))
    ensures var r := Received(a);
            && r.id == a.id && r.kind == a.kind && r.priority == a.priority
            && r.plevel == a.plevel && r.commstatus == a.commstatus
            && (r.ttl.Some? <==> a.ttl.Some?)
            && r.token.None? && r.hint.None? && r.sink.None? && r.reqid.None?
  {
    hide Decode, HeaderBytes, Int32Bytes, ReadInt32;
    HeaderContents(a);
    Int32RoundTrip(a.kind, []);
    Int32RoundTrip(a.priority, []);
    if a.plevel.Some? { Int32RoundTrip(a.plevel.value, []); }
    if a.commstatus.Some? { Int32RoundTrip(a.commstatus.value, []); }
  }

  /** The time to live arrives as sent exactly when there is none or it equals the first word of the id. */
  lemma TtlSurvives(a: UAttributes)
    ensures Received(a).ttl == a.ttl <==> a.ttl.None? || Int32Bytes(a.ttl.value) == a.id[..4]
  {
    if a.ttl.Some? {
      var word := a.id[..4];
      Int32RoundTrip(a.ttl.value, word);
      assert word[..4] == word;
    }
  }

  /** One message whose time to live does not survive. */
  lemma TtlLost()
    ensures exists a :: Addressable(a) && HeaderReadable(a) && Received(a).ttl != a.ttl
  {
    assert Int32Bytes(1000)[0] == 232;
    hide Encode, EncodeAll, LittleEndian, FromLittleEndian, ReadInt32;
    var a := UAttributes(Zeros(16), PUBLISH, 0, Some(1000), None, None, None, None, None, None);
    var records := [Record(ID, a.id), Record(TYPE, Int32Bytes(PUBLISH)), Record(PRIORITY, Int32Bytes(0)),
                    Record(TTL, Int32Bytes(1000))];
    assert Records(a) == records;
    SizeOfFour(records[0], records[1], records[2], records[3]);
    assert Addressable(a);
    TtlSurvives(a);
    assert a.id[..4][0] == 0;
  }

  lemma SizeOfFour(p: Record, q: Record, r: Record, s: Record)
    ensures |EncodeAll([p, q, r, s])| == 4 * HEAD_BYTES + |p.value| + |q.value| + |r.value| + |s.value|
  {
    assert [p, q, r, s] == [p] + ([q] + ([r] + [s]));
    EncodeAllAppend([p], [q] + ([r] + [s]));
    EncodeAllAppend([q], [r] + [s]);
    EncodeAllAppend([r], [s]);
    EncodeOne(p);
    EncodeOne(q);
    EncodeOne(r);
    EncodeOne(s);
  }

  /** Two headers are equal exactly when every field is, up to the text (not the length) of a sink. */
  lemma HeaderDetermines(a: UAttributes, b: UAttributes)
    requires Addressable(a) && Addressable(b)
    ensures HeaderBytes(a) == HeaderBytes(b) <==> WithoutSink(a) == WithoutSink(b) && SinkTail(a) == SinkTail(b)
  {
    if HeaderBytes(a) == HeaderBytes(b) {
      RecordsAreSendable(a);
      RecordsAreSendable(b);
      PaddedEncodingInjective(Records(a), SinkTail(a), Records(b), SinkTail(b));
      RecordsDetermine(a, b);
    }
  }

  lemma RecordsDetermine(a: UAttributes, b: UAttributes)
    requires Records(a) == Records(b)
    ensures WithoutSink(a) == WithoutSink(b)
  {
    hide Records, Int32Bytes;
    RecordsAreFields(a);
    RecordsAreFields(b);
    forall t: Tag
      ensures Field(a, t) == Field(b, t)
    {
      if Field(a, t).Some? {
        assert Record(t, Field(a, t).value) in Records(b);
      } else if Field(b, t).Some? {
        assert Record(t, Field(b, t).value) in Records(a);
      }
    }
    assert Field(a, ID) == Field(b, ID) && Field(a, TOKEN) == Field(b, TOKEN) && Field(a, REQID) == Field(b, REQID);
    SameWord(a, b, TYPE, Some(a.kind), Some(b.kind));
    SameWord(a, b, PRIORITY, Some(a.priority), Some(b.priority));
    SameWord(a, b, TTL, a.ttl, b.ttl);
    SameWord(a, b, HINT, a.hint, b.hint);
    SameWord(a, b, PLEVEL, a.plevel, b.plevel);
    SameWord(a, b, COMMSTATUS, a.commstatus, b.commstatus);
  }

  lemma SameWord(a: UAttributes, b: UAttributes, t: Tag, v: Option<Int32>, w: Option<Int32>)
    requires Field(a, t) == Field(b, t)
    requires Field(a, t) == if v.None? then None else Some(Int32Bytes(v.value))
    requires Field(b, t) == if w.None? then None else Some(Int32Bytes(w.value))
    ensures v == w
  {
    if v.Some? {
      Int32RoundTrip(v.value, []);
      Int32RoundTrip(w.value, []);
    }
  }
}

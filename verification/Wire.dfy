/**
  The bytes on the wire: little-endian words, tags and tag-length-value records.
  `size_t` is eight bytes and the machine is little-endian.
*/
module Wire {
  import opened Common

  const LENGTH_BYTES: nat := 8
  const HEAD_BYTES: nat := 9
  const SIZE_LIMIT: nat := 0x1_0000_0000_0000_0000
  const WORD_LIMIT: nat := 0x1_0000_0000

  function Power256(k: nat): (p: nat)
    ensures p > 0
  {
    if k == 0 then 1 else 256 * Power256(k - 1)
  }

  /** The memory image of an unsigned integer, least significant byte first. */
  function LittleEndian(n: nat, width: nat): (s: seq<Byte>)
    ensures |s| == width
  {
    if width == 0 then [] else [n % 256] + LittleEndian(n / 256, width - 1)
  }

  function FromLittleEndian(s: seq<Byte>): nat {
    if s == [] then 0 else s[0] + 256 * FromLittleEndian(s[1..])
  }

  lemma {:induction false} DecodeEncodeWord(n: nat, width: nat)
    requires n < Power256(width)
    ensures FromLittleEndian(LittleEndian(n, width)) == n
  {
    if width == 0 {
    } else {
      DecodeEncodeWord(n / 256, width - 1);
      var s := LittleEndian(n, width);
      assert s[1..] == LittleEndian(n / 256, width - 1);
    }
  }

  lemma {:induction false} EncodeDecodeWord(s: seq<Byte>)
    ensures FromLittleEndian(s) < Power256(|s|)
    ensures LittleEndian(FromLittleEndian(s), |s|) == s
  {
    if s == [] {
    } else {
      EncodeDecodeWord(s[1..]);
      var n := FromLittleEndian(s);
      assert n % 256 == s[0] && n / 256 == FromLittleEndian(s[1..]);
    }
  }

  lemma DivideTwice(n: nat, p: nat)
    requires p > 0
    ensures n / (256 * p) == (n / 256) / p
  {
    var m, q := n / 256, n / 256 / p;
    assert m == p * q + m % p;
    assert 256 * (p * q) == (256 * p) * q;
    Quotient(n, 256 * p, q, 256 * (m % p) + n % 256);
  }

  lemma Quotient(n: int, d: int, q: int, r: int)
    requires 0 <= r < d && n == d * q + r
    ensures n / d == q
  {
    var k := n / d - q;
    Distribute(d, n / d, q);
    assert d * k == r - n % d;
    AtLeastOnce(d, k);
  }

  lemma Distribute(d: int, x: int, y: int)
    ensures d * (x - y) == d * x - d * y
  {
  }

  lemma AtLeastOnce(d: int, k: int)
    requires d > 0
    ensures k > 0 ==> d * k >= d
    ensures k < 0 ==> d * k <= -d
  {
  }

  /** Byte i of the image is the i-th digit to the base of 256, counted from the least significant. */
  lemma {:induction false} LittleEndianDigits(n: nat, width: nat, i: nat)
    requires i < width
    ensures LittleEndian(n, width)[i] == (n / Power256(i)) % 256
  {
    if i == 0 {
    } else {
      LittleEndianDigits(n / 256, width - 1, i - 1);
      DivideTwice(n, Power256(i - 1));
    }
  }

  lemma Widths()
    ensures Power256(4) == WORD_LIMIT && Power256(8) == SIZE_LIMIT
  {
  }

  /** Every length below 2^64 survives the eight-byte field. */
  lemma LengthRoundTrip(n: nat)
    requires n < SIZE_LIMIT
    ensures FromLittleEndian(LittleEndian(n, LENGTH_BYTES)) == n
  {
    Widths();
    DecodeEncodeWord(n, LENGTH_BYTES);
  }

  /** The four bytes of an `int32_t` or of an enumeration: two's complement, little-endian. */
  function Int32Bytes(v: Int32): (s: seq<Byte>)
    ensures |s| == 4
  {
    LittleEndian(if v < 0 then v + WORD_LIMIT else v, 4)
  }

  /** Byte i of a signed word is the i-th digit of its residue modulo 2^32. */
  lemma Int32Digits(v: Int32, i: nat)
    requires i < 4
    ensures Int32Bytes(v)[i] == (v % 0x1_0000_0000 / Power256(i)) % 256
  {
    assert v % WORD_LIMIT == if v < 0 then v + WORD_LIMIT else v;
    LittleEndianDigits(v % WORD_LIMIT, 4, i);
  }

  /** What reading an `int32_t` at the start of `s` yields. */
  function ReadInt32(s: seq<Byte>): Int32
    requires |s| >= 4
  {
    Widths();
    EncodeDecodeWord(s[..4]);
    var n := FromLittleEndian(s[..4]);
    if n < 0x8000_0000 then n else n - WORD_LIMIT
  }

  /** Signed words are read back unchanged, and every four bytes are the image of the word they read as. */
  lemma Int32RoundTrip(v: Int32, s: seq<Byte>)
    ensures ReadInt32(Int32Bytes(v)) == v
    ensures |s| == 4 ==> Int32Bytes(ReadInt32(s)) == s
  {
    Widths();
    DecodeEncodeWord(if v < 0 then v + WORD_LIMIT else v, 4);
    assert Int32Bytes(v)[..4] == Int32Bytes(v);
    if |s| == 4 {
      assert s[..4] == s;
      EncodeDecodeWord(s);
    }
  }

  /** A tag is one byte; the names below are the values of the enumeration. */
  type Tag = Byte

  const UURI: Tag := 0
  const ID: Tag := 1
  const TYPE: Tag := 2
  const PRIORITY: Tag := 3
  const TTL: Tag := 4
  const TOKEN: Tag := 5
  const HINT: Tag := 6
  const SINK: Tag := 7
  const PLEVEL: Tag := 8
  const COMMSTATUS: Tag := 9
  const REQID: Tag := 10
  const PAYLOAD: Tag := 11

  predicate IsValidTag(t: Tag) {
    UURI <= t <= PAYLOAD
  }

  datatype Record = Record(tag: Tag, value: seq<Byte>)

  /** A record both sides can handle: a known tag, and a length that fits the length field. */
  predicate Sendable(r: Record) {
    IsValidTag(r.tag) && |r.value| < SIZE_LIMIT
  }

  ghost predicate AllSendable(rs: seq<Record>) {
    forall r :: r in rs ==> Sendable(r)
  }

  /** tag(1) | length(8) | value */
  function Encode(r: Record): (s: seq<Byte>)
    ensures |s| == HEAD_BYTES + |r.value|
  {
    [r.tag] + LittleEndian(|r.value|, LENGTH_BYTES) + r.value
  }

  function EncodeAll(rs: seq<Record>): seq<Byte> {
    if rs == [] then [] else Encode(rs[0]) + EncodeAll(rs[1..])
  }

  function Zeros(n: nat): (s: seq<Byte>)
    ensures |s| == n
    ensures forall i :: 0 <= i < n ==> s[i] == 0
  {
    seq(n, _ => 0)
  }

  lemma {:induction false} EncodeAllAppend(x: seq<Record>, y: seq<Record>)
    ensures EncodeAll(x + y) == EncodeAll(x) + EncodeAll(y)
  {
    if x == [] {
      assert x + y == y;
    } else {
      assert (x + y)[1..] == x[1..] + y;
      EncodeAllAppend(x[1..], y);
    }
  }

  lemma EncodeOne(r: Record)
    ensures EncodeAll([r]) == Encode(r)
  {
  }

  /** Where the three parts of a record lie in any byte string that starts with it. */
  lemma RecordLayout(r: Record, rest: seq<Byte>)
    requires Sendable(r)
    ensures var s := Encode(r) + rest;
            && s[0] == r.tag
            && FromLittleEndian(s[1..HEAD_BYTES]) == |r.value|
            && s[HEAD_BYTES..HEAD_BYTES + |r.value|] == r.value
            && s[HEAD_BYTES + |r.value|..] == rest
  {
    var s := Encode(r) + rest;
    LengthRoundTrip(|r.value|);
    assert s[1..HEAD_BYTES] == LittleEndian(|r.value|, LENGTH_BYTES);
  }

  lemma RecordIsNotPadding(x: seq<Record>, m: nat)
    requires AllSendable(x) && x != [] && x[0].tag != UURI
    ensures |EncodeAll(x)| > 0 && (EncodeAll(x) + Zeros(m))[0] != 0
  {
  }

  /**
    Record strings followed by zero padding can be told apart: the bytes determine the records and
    the amount of padding, as long as no record carries the tag whose code is zero.
  */
  lemma {:induction false} PaddedEncodingInjective(x: seq<Record>, m: nat, y: seq<Record>, n: nat)
    requires AllSendable(x) && AllSendable(y)
    requires forall r :: r in x || r in y ==> r.tag != UURI
    requires EncodeAll(x) + Zeros(m) == EncodeAll(y) + Zeros(n)
    ensures x == y && m == n
  {
    if x == [] && y == [] {
      assert |EncodeAll(x) + Zeros(m)| == m && |EncodeAll(y) + Zeros(n)| == n;
    } else if x == [] {
      RecordIsNotPadding(y, n);
    } else if y == [] {
      RecordIsNotPadding(x, m);
    } else {
      assert x[0] in x && y[0] in y;
      var xs, ys := EncodeAll(x[1..]) + Zeros(m), EncodeAll(y[1..]) + Zeros(n);
      assert EncodeAll(x) + Zeros(m) == Encode(x[0]) + xs;
      assert EncodeAll(y) + Zeros(n) == Encode(y[0]) + ys;
      RecordLayout(x[0], xs);
      RecordLayout(y[0], ys);
      assert x[0] == y[0] && xs == ys;
      PaddedEncodingInjective(x[1..], m, y[1..], n);
      assert x == [x[0]] + x[1..] && y == [y[0]] + y[1..];
    }
  }
}

/** Parsing a header: a cursor loop over the bytes, then the attributes from the records found. */
module MessageParser {
  import opened Common
  import opened Wire
  import opened Attributes

  datatype TLV = TLV(kind: Tag, length: nat, value: seq<Byte>)

  /**
    What a byte string holds. The parser gives up on a bad tag and on a truncated head; on a value
    longer than the bytes left it reads on regardless, and what it does then is not defined.
  */
  datatype Outcome = Parsed(records: map<Tag, TLV>) | BadTag | Truncated | Overrun {
    predicate Defined() {
      this != Overrun
    }

    function Get(): Option<map<Tag, TLV>> {
      if Parsed? then Some(records) else None
    }

    /** The outcome once the records in `before` have already been read: later ones win. */
    function After(before: map<Tag, TLV>): Outcome {
      if Parsed? then Parsed(before + records) else this
    }
  }

  function Decode(s: seq<Byte>): Outcome {
    if s == [] then
      Parsed(map[])
    else if !IsValidTag(s[0]) then
      BadTag
    else if |s| < HEAD_BYTES then
      Truncated
    else
      var length := FromLittleEndian(s[1..HEAD_BYTES]);
      if |s| < HEAD_BYTES + length then
        Overrun
      else
        var end := HEAD_BYTES + length;
        Decode(s[end..]).After(map[s[0] := TLV(s[0], length, s[HEAD_BYTES..end])])
  }

  /** What the parser returns for these bytes, where its behaviour is defined: nothing for none at all. */
  function Parse(s: seq<Byte>): Option<map<Tag, TLV>> {
    if s == [] then None else Decode(s).Get()
  }

  /**
    Read all records from memory that starts at `data` (nothing there when the pointer is null).
    Only a truncated head makes the loop look at bytes past `size`, at most eight of them, and they
    do not influence the result.
  */
  method GetAllTlv(data: Option<seq<Byte>>, size: nat) returns (r: Option<map<Tag, TLV>>)
    requires data.Some? ==> size <= |data.value| && Decode(data.value[..size]).Defined()
    requires data.Some? && Decode(data.value[..size]).Truncated? ==> size + LENGTH_BYTES <= |data.value|
    ensures r == if data.None? then None else Parse(data.value[..size])
  {
    if data.None? {
      return None;
    }
    if size == 0 {
      return None;
    }
    var memory := data.value;
    var pos := 0;
    var umap := map[];
    ghost var whole := Decode(memory[..size]);
    FromEnds(memory, size);
    AfterNothing(whole);
    hide Decode, From, FromLittleEndian, Outcome.After;
    while size > pos
      invariant pos <= size
      invariant whole == From(memory, pos, size).After(umap)
    {
      DecodeStep(memory, pos, size);
      AfterFailure(From(memory, pos, size), umap);
      ghost var seen := umap;
      var kind := memory[pos];
      if !IsValidTag(kind) {
        return None;
      }
      pos := pos + 1;
      if size < pos {
        return None;
      }
      var length := FromLittleEndian(memory[pos..pos + LENGTH_BYTES]);
      pos := pos + LENGTH_BYTES;
      if size < pos {
        return None;
      }
      var value := memory[pos..pos + length];
      pos := pos + length;
      umap := umap[kind := TLV(kind, length, value)];
      AfterOneMore(From(memory, pos, size), seen, kind, TLV(kind, length, value));
    }
    AfterAll(umap);
    return Some(umap);
  }

  /** What the bytes from the cursor on hold. */
  ghost function From(memory: seq<Byte>, pos: nat, size: nat): Outcome
    requires pos <= size <= |memory|
  {
    Decode(memory[pos..size])
  }

  lemma FromEnds(memory: seq<Byte>, size: nat)
    requires size <= |memory|
    ensures From(memory, 0, size) == Decode(memory[..size])
    ensures From(memory, size, size) == Parsed(map[])
  {
  }

  /** One turn of the loop, in terms of the memory the cursor moves through. */
  lemma DecodeStep(memory: seq<Byte>, pos: nat, size: nat)
    requires pos < size <= |memory|
    ensures !IsValidTag(memory[pos]) ==> From(memory, pos, size) == BadTag
    ensures IsValidTag(memory[pos]) && size < pos + HEAD_BYTES ==> From(memory, pos, size) == Truncated
    ensures IsValidTag(memory[pos]) && pos + HEAD_BYTES <= size ==>
              var length := FromLittleEndian(memory[pos + 1..pos + HEAD_BYTES]);
              var end := pos + HEAD_BYTES + length;
              if size < end then
                From(memory, pos, size) == Overrun
              else
                From(memory, pos, size) ==
                From(memory, end, size).After(
                  map[memory[pos] := TLV(memory[pos], length, memory[pos + HEAD_BYTES..end])])
  {
    if IsValidTag(memory[pos]) && pos + HEAD_BYTES <= size {
      var rest := memory[pos..size];
      SliceOfSlice(memory, pos, size, 1, HEAD_BYTES);
      var length := FromLittleEndian(memory[pos + 1..pos + HEAD_BYTES]);
      var end := HEAD_BYTES + length;
      if |rest| >= end {
        SliceOfSlice(memory, pos, size, HEAD_BYTES, end);
        SliceOfSlice(memory, pos, size, end, |rest|);
        assert rest[end..|rest|] == rest[end..];
      }
    }
  }

  lemma AfterNothing(o: Outcome)
    ensures o.After(map[]) == o
  {
  }

  lemma AfterAll(m: map<Tag, TLV>)
    ensures Parsed(map[]).After(m) == Parsed(m)
  {
  }

  lemma AfterFailure(o: Outcome, m: map<Tag, TLV>)
    ensures !o.Parsed? ==> o.After(m) == o
  {
  }

  lemma AfterOneMore(o: Outcome, m: map<Tag, TLV>, t: Tag, v: TLV)
    ensures o.After(map[t := v]).After(m) == o.After(m[t := v])
  {
  }

  lemma AfterAfter(o: Outcome, x: map<Tag, TLV>, y: map<Tag, TLV>)
    ensures o.After(y).After(x) == o.After(x + y)
  {
  }

  /** The values are as long as the words read from them. */
  predicate Readable(m: map<Tag, TLV>) {
    ID in m && TYPE in m && PRIORITY in m ==>
      && |m[ID].value| == 16
      && |m[TYPE].value| == m[TYPE].length == 4
      && |m[PRIORITY].value| == m[PRIORITY].length == 4
      && (PLEVEL in m ==> |m[PLEVEL].value| >= 4)
      && (COMMSTATUS in m ==> |m[COMMSTATUS].value| >= 4)
  }

  /** The attributes the parser makes of a set of records. The word stored as ttl is read from the ID record. */
  function AttributesOf(m: map<Tag, TLV>): Option<UAttributes>
    requires Readable(m)
  {
    if ID !in m || TYPE !in m || PRIORITY !in m then
      None
    else
      Some(UAttributes(
        m[ID].value,
        ReadInt32(m[TYPE].value),
        ReadInt32(m[PRIORITY].value),
        if TTL in m then Some(ReadInt32(m[ID].value)) else None,
        None, None, None,
        if PLEVEL in m then Some(ReadInt32(m[PLEVEL].value)) else None,
        if COMMSTATUS in m then Some(ReadInt32(m[COMMSTATUS].value)) else None,
        None))
  }

  /** `UAttributesBuilder`: the mandatory fields first, then one optional field at a time. */
  class AttributesBuilder {
    var attributes: UAttributes

    constructor (id: Uuid, kind: Int32, priority: Int32)
      ensures attributes == UAttributes(id, kind, priority, None, None, None, None, None, None, None)
    {
      attributes := UAttributes(id, kind, priority, None, None, None, None, None, None, None);
    }

    method WithTtl(value: Int32)
      modifies this
      ensures attributes == old(attributes).(ttl := Some(value))
    {
      attributes := attributes.(ttl := Some(value));
    }

    method WithPermissionLevel(value: Int32)
      modifies this
      ensures attributes == old(attributes).(plevel := Some(value))
    {
      attributes := attributes.(plevel := Some(value));
    }

    method WithCommStatus(value: Int32)
      modifies this
      ensures attributes == old(attributes).(commstatus := Some(value))
    {
      attributes := attributes.(commstatus := Some(value));
    }
  }

  method GetAttributes(m: map<Tag, TLV>) returns (r: Option<UAttributes>)
    requires Readable(m)
    ensures r == AttributesOf(m)
  {
    if ID !in m {
      return None;
    }
    if TYPE !in m {
      return None;
    }
    if PRIORITY !in m {
      return None;
    }
    var id := m[ID].value;
    var kind := ReadInt32(m[TYPE].value);
    var priority := ReadInt32(m[PRIORITY].value);
    var builder := new AttributesBuilder(id, kind, priority);
    if TTL in m {
      var value := ReadInt32(m[ID].value);
      builder.WithTtl(value);
    }
    if PLEVEL in m {
      var value := ReadInt32(m[PLEVEL].value);
      builder.WithPermissionLevel(value);
    }
    if COMMSTATUS in m {
      var value := ReadInt32(m[COMMSTATUS].value);
      builder.WithCommStatus(value);
    }
    return Some(builder.attributes);
  }
}

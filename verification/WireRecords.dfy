/**
 What one record on the wire does to a message, whatever the writer would have written: every varint, the
 unpacked form of a packed field, wire types that do not fit, and records of unknown fields.
 */
module WireRecords {
  import opened Wrappers
  import opened Varint
  import opened Wire
  import opened WireLaws
  import opened WireRoundTrip

  /** The tag of a record. */
  function TagBytes(number: nat, wireType: nat): Bytes {
    Encode(8 * number + wireType)
  }

  lemma ReadTagBytes(number: nat, wireType: nat, b: Bytes)
    requires 1 <= number < 0x1000_0000 && wireType < 8 && wireType != 4 && Holds(b, 0, TagBytes(number, wireType))
    ensures ReadTag(b, 0) == Success(Parsed(Tag(number, wireType), |TagBytes(number, wireType)|))
  {
    hide Read, Encode;
    var wire := 8 * number + wireType;
    ReadEncode(b, 0, wire);
    assert wire % 0x1_0000_0000_0000_0000 == wire;
    assert wire / 8 == number && wire % 8 == wireType && ToInt32(number) == number;
  }

  /** A record of a known field that takes up the whole input. */
  lemma KnownRecord(schema: Schema, k: nat, wireType: nat, b: Bytes, m: Message)
    requires WellFormed(schema) && Typed(schema, m) && k < |schema| && wireType < 8 && wireType != 4
    requires Holds(b, 0, TagBytes(schema[k].number, wireType))
    ensures var start := |TagBytes(schema[k].number, wireType)|;
            var read := ReadValue(schema[k].kind, wireType, b, start, m.fields[k]);
            && (read.Failure? ==> Unmarshal(schema, b, m) == Failure(read.error))
            && (read.Success? && read.value.next == |b| ==>
                  Unmarshal(schema, b, m) == Success(m.(fields := m.fields[k := read.value.value])))
  {
    hide ReadTag, ReadValue, ReadUnknown, Find;
    assert TagMatches(schema[k]);
    ReadTagBytes(schema[k].number, wireType, b);
    FindHit(schema, k, 0);
    assert b != [];
    var read := ReadValue(schema[k].kind, wireType, b, |TagBytes(schema[k].number, wireType)|, m.fields[k]);
    if read.Success? && read.value.next == |b| {
      var m' := m.(fields := m.fields[k := read.value.value]);
      assert ReadRecord(schema, b, 0, m) == Success(Parsed(m', |b|));
      assert UnmarshalFrom(schema, b, |b|, m') == Success(m');
    }
  }

  /** A varint: an int32 gets its low 32 bits, a bool whether it is not 0, a repeated int32 one more element. */
  lemma {:induction false} VarintRecord(schema: Schema, k: nat, m: Message, raw: nat)
    requires WellFormed(schema) && Typed(schema, m) && k < |schema| && raw < 0x1_0000_0000_0000_0000
    ensures var kind, b := schema[k].kind, TagBytes(schema[k].number, 0) + Encode(raw);
            if kind == StringKind || kind == StringsKind then Unmarshal(schema, b, m) == Failure(WrongWireType)
            else
              var v := if kind == Int32Kind then IntValue(ToInt32(raw))
                       else if kind == BoolKind then BoolValue(raw != 0)
                       else PackedValue(m.fields[k].ints + [ToInt32(raw)]);
              Unmarshal(schema, b, m) == Success(m.(fields := m.fields[k := v]))
  {
    hide Read, Unmarshal, Encode;
    var tag := TagBytes(schema[k].number, 0);
    var b := tag + Encode(raw);
    assert Holds(b, 0, tag) && Holds(b, |tag|, Encode(raw));
    ReadEncode(b, |tag|, raw);
    KnownRecord(schema, k, 0, b, m);
  }

  /** A string replaces a string and is appended to repeated ones; other kinds but the packed one do not take it. */
  lemma {:induction false} LengthRecord(schema: Schema, k: nat, m: Message, s: Bytes)
    requires WellFormed(schema) && Typed(schema, m) && k < |schema| && |s| < TWO_63 && schema[k].kind != PackedKind
    ensures var kind, b := schema[k].kind, EncodeBytes(TagBytes(schema[k].number, 2), s);
            if kind == Int32Kind || kind == BoolKind then Unmarshal(schema, b, m) == Failure(WrongWireType)
            else
              var v := if kind == StringKind then StringValue(s) else StringsValue(m.fields[k].ss + [s]);
              Unmarshal(schema, b, m) == Success(m.(fields := m.fields[k := v]))
  {
    hide ReadLength, EncodeBytes, Unmarshal, Encode;
    var tag := TagBytes(schema[k].number, 2);
    var b := EncodeBytes(tag, s);
    BytesLayout(tag, s);
    ReadLengthOf(b, |tag|, |s|);
    assert b[|tag| + |Encode(|s|)|..|b|] == s;
    KnownRecord(schema, k, 2, b, m);
  }

  /** A packed run of numbers is appended element by element. */
  lemma {:induction false} PackedRun(schema: Schema, k: nat, m: Message, ints: seq<Int32>)
    requires WellFormed(schema) && Typed(schema, m) && k < |schema| && schema[k].kind == PackedKind
    requires |EncodeInts(ints)| < TWO_63
    ensures Unmarshal(schema, EncodeBytes(TagBytes(schema[k].number, 2), EncodeInts(ints)), m)
         == Success(m.(fields := m.fields[k := PackedValue(m.fields[k].ints + ints)]))
  {
    hide Unmarshal;
    assert TagMatches(schema[k]);
    PackedRecord(schema, k, m, ints);
  }

  /** Fixed-width wire types fit no field. */
  lemma {:induction false} FixedWidthRefused(schema: Schema, k: nat, wireType: nat, b: Bytes, m: Message)
    requires WellFormed(schema) && Typed(schema, m) && k < |schema| && wireType in {1, 3, 5, 6, 7}
    requires Holds(b, 0, TagBytes(schema[k].number, wireType))
    ensures Unmarshal(schema, b, m) == Failure(WrongWireType)
  {
    hide Unmarshal;
    KnownRecord(schema, k, wireType, b, m);
  }

  /** A stray end of a group, and numbers that no field can have, are refused whatever follows. */
  lemma {:induction false} BadTagsRefused(schema: Schema, b: Bytes, m: Message, raw: nat)
    requires Typed(schema, m) && raw < 0x1_0000_0000_0000_0000 && Holds(b, 0, Encode(raw))
    ensures raw % 8 == 4 ==> Unmarshal(schema, b, m) == Failure(EndGroup)
    ensures raw % 8 != 4 && ToInt32(raw / 8) <= 0 ==> Unmarshal(schema, b, m) == Failure(IllegalTag)
  {
    hide Read, Encode, ReadUnknown, Find, ReadValue;
    ReadEncode(b, 0, raw);
    assert |Encode(raw)| > 0;
  }

  /** A length that the rest of the input does not have, or that no index reaches, is refused. */
  lemma {:induction false} ShortInputRefused(schema: Schema, k: nat, b: Bytes, m: Message, len: nat)
    requires WellFormed(schema) && Typed(schema, m) && k < |schema| && len < 0x1_0000_0000_0000_0000
    requires schema[k].kind !in {Int32Kind, BoolKind} && Holds(b, 0, TagBytes(schema[k].number, 2) + Encode(len))
    ensures len >= 0x8000_0000_0000_0000 ==> Unmarshal(schema, b, m) == Failure(InvalidLength)
    ensures len < 0x8000_0000_0000_0000 && |TagBytes(schema[k].number, 2) + Encode(len)| + len > |b| ==>
      Unmarshal(schema, b, m) == Failure(UnexpectedEof)
  {
    hide Read, Unmarshal, Encode;
    var tag := TagBytes(schema[k].number, 2);
    var head := tag + Encode(len);
    assert Holds(b, 0, tag) by {
      assert forall x :: 0 <= x < |tag| ==> head[x] == tag[x];
    }
    assert Holds(b, |tag|, Encode(len)) by {
      assert forall x :: 0 <= x < |Encode(len)| ==> head[|tag| + x] == Encode(len)[x];
    }
    ReadEncode(b, |tag|, len);
    KnownRecord(schema, k, 2, b, m);
  }

  // ---------------------------------------------------------------- unknown fields

  /** The payloads of the wire types: a varint, 8 bytes, a length and as many bytes, 4 bytes. */
  ghost predicate IsPayload(wireType: nat, p: Bytes) {
    match wireType
    case 0 => exists raw: nat :: raw < 0x1_0000_0000_0000_0000 && p == Encode(raw)
    case 1 => |p| == 8
    case 2 => exists s: Bytes :: |s| < TWO_63 && p == Encode(|s|) + s
    case 5 => |p| == 4
    case _ => false
  }

  lemma SkipsVarint(b: Bytes, i: nat, raw: nat, depth: nat)
    requires raw < 0x1_0000_0000_0000_0000 && Holds(b, i, Encode(raw))
    ensures SkipPayload(b, i, 0, depth) == Success(Parsed(depth, i + |Encode(raw)|))
  {
    hide Read, Encode;
    ReadEncode(b, i, raw);
  }

  lemma {:induction false} SkipsPayload(b: Bytes, i: nat, wireType: nat, p: Bytes, depth: nat)
    requires i <= |b| && IsPayload(wireType, p) && b[i..] == p
    ensures SkipPayload(b, i, wireType, depth) == Success(Parsed(depth, |b|))
  {
    hide Read, ReadLength, Encode;
    assert b == b[..i] + p;
    if wireType == 0 {
      var raw: nat :| raw < 0x1_0000_0000_0000_0000 && p == Encode(raw);
      assert Holds(b, i, Encode(raw));
      SkipsVarint(b, i, raw, depth);
    } else if wireType == 2 {
      var s: Bytes :| |s| < TWO_63 && p == Encode(|s|) + s;
      assert Holds(b, i, Encode(|s|)) by {
        assert forall x :: 0 <= x < |Encode(|s|)| ==> b[i + x] == p[x];
      }
      ReadLengthOf(b, i, |s|);
    }
  }

  /** A record of a field the table does not have is kept as it stands, of whatever wire type. */
  lemma {:induction false} UnknownRecord(schema: Schema, number: nat, wireType: nat, p: Bytes, m: Message)
    requires Typed(schema, m) && 1 <= number < 0x1000_0000 && IsPayload(wireType, p)
    requires Find(schema, number, 0) == None
    ensures var b := TagBytes(number, wireType) + p;
            Unmarshal(schema, b, m) == Success(m.(unknown := m.unknown + b))
  {
    hide ReadTag, Find, IsPayload, Encode;
    var tag := TagBytes(number, wireType);
    var b := tag + p;
    assert wireType in {0, 1, 2, 5} by { PayloadTypes(wireType, p); }
    assert Holds(b, 0, tag) && b[|tag|..] == p;
    ReadTagBytes(number, wireType, b);
    assert tag != [] by { assert |Encode(8 * number + wireType)| > 0; }
    TagIsRead(b, number, wireType);
    SkipsPayload(b, |tag|, wireType, p, 0);
    assert b[0..|b|] == b;
    var m' := m.(unknown := m.unknown + b);
    assert ReadRecord(schema, b, 0, m) == Success(Parsed(m', |b|));
    assert UnmarshalFrom(schema, b, |b|, m') == Success(m');
  }

  lemma PayloadTypes(wireType: nat, p: Bytes)
    requires IsPayload(wireType, p)
    ensures wireType in {0, 1, 2, 5}
  {
  }

  lemma TagIsRead(b: Bytes, number: nat, wireType: nat)
    requires wireType < 8 && number < 0x1000_0000 && Holds(b, 0, TagBytes(number, wireType))
    ensures SkipOne(b, 0, 0) == SkipPayload(b, |TagBytes(number, wireType)|, wireType, 0)
  {
    hide Read, Encode, SkipPayload;
    ReadEncode(b, 0, 8 * number + wireType);
    assert (8 * number + wireType) % 8 == wireType;
  }

  lemma TagIsSkipped(b: Bytes, i: nat, number: nat, wireType: nat, depth: nat)
    requires wireType == 3 || (wireType == 4 && depth > 0)
    requires number < 0x1000_0000 && Holds(b, i, TagBytes(number, wireType))
    ensures SkipOne(b, i, depth)
         == Success(Parsed(if wireType == 3 then depth + 1 else depth - 1, i + |TagBytes(number, wireType)|))
  {
    hide Read, Encode;
    ReadEncode(b, i, 8 * number + wireType);
    assert (8 * number + wireType) % 8 == wireType;
  }

  /** A group in a group ends with its own end tag. */
  lemma {:induction false} GroupsNest(number: nat, inner: nat)
    requires number < 0x1000_0000 && inner < 0x1000_0000
    ensures var b := TagBytes(number, 3) + TagBytes(inner, 3) + TagBytes(inner, 4) + TagBytes(number, 4);
            Skip(b, 0, 0) == Success(|b|)
  {
    hide SkipOne, Encode;
    var t1, t2, t3, t4 := TagBytes(number, 3), TagBytes(inner, 3), TagBytes(inner, 4), TagBytes(number, 4);
    var b := t1 + t2 + t3 + t4;
    assert Holds(b, 0, t1) && Holds(b, |t1|, t2) && Holds(b, |t1| + |t2|, t3) && Holds(b, |t1| + |t2| + |t3|, t4);
    TagIsSkipped(b, 0, number, 3, 0);
    TagIsSkipped(b, |t1|, inner, 3, 1);
    TagIsSkipped(b, |t1| + |t2|, inner, 4, 2);
    TagIsSkipped(b, |t1| + |t2| + |t3|, number, 4, 1);
    assert |t1| + |t2| + |t3| + |t4| == |b|;
    assert Skip(b, |t1| + |t2| + |t3|, 1) == Success(|b|);
    assert Skip(b, |t1| + |t2|, 2) == Success(|b|);
    assert Skip(b, |t1|, 1) == Success(|b|);
  }
}

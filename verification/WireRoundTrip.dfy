/** Marshalling and unmarshalling undo each other, for every well-formed table. */
module WireRoundTrip {
  import opened Wrappers
  import opened Varint
  import opened Wire
  import opened WireLaws

  // ---------------------------------------------------------------- what decoding should do

  /** The later scalar wins unless it is zero and hence not on the wire; repeated fields append. */
  function MergeValue(a: Value, b: Value): Value
    requires a.IntValue? <==> b.IntValue?
    requires a.BoolValue? <==> b.BoolValue?
    requires a.StringValue? <==> b.StringValue?
    requires a.StringsValue? <==> b.StringsValue?
  {
    match b
    case IntValue(i) => if i == 0 then a else b
    case BoolValue(on) => if on then b else a
    case StringValue(s) => if s == [] then a else b
    case StringsValue(ss) => StringsValue(a.ss + ss)
    case PackedValue(ints) => PackedValue(a.ints + ints)
  }

  /** `m` merged into `into`, from field `k` on. */
  function MergeFields(schema: Schema, into: Message, m: Message, k: nat): (r: Message)
    requires Typed(schema, into) && Typed(schema, m) && k <= |schema|
    ensures Typed(schema, r)
    decreases |schema| - k
  {
    if k == |schema| then into
    else
      var v := MergeValue(into.fields[k], m.fields[k]);
      MergeFields(schema, into.(fields := into.fields[k := v]), m, k + 1)
  }

  function Merge(schema: Schema, into: Message, m: Message): (r: Message)
    requires Typed(schema, into) && Typed(schema, m)
    ensures Typed(schema, r)
  {
    var merged := MergeFields(schema, into, m, 0);
    merged.(unknown := into.unknown + m.unknown)
  }

  lemma {:induction false} MergeFieldsPointwise(schema: Schema, into: Message, m: Message, k: nat)
    requires Typed(schema, into) && Typed(schema, m) && k <= |schema|
    ensures var r := MergeFields(schema, into, m, k);
            && r.unknown == into.unknown
            && forall j :: 0 <= j < |schema| ==>
                 r.fields[j] == if j < k then into.fields[j] else MergeValue(into.fields[j], m.fields[j])
    decreases |schema| - k
  {
    if k == |schema| {
    } else {
      var v := MergeValue(into.fields[k], m.fields[k]);
      MergeFieldsPointwise(schema, into.(fields := into.fields[k := v]), m, k + 1);
    }
  }

  lemma MergeZero(kind: Kind, v: Value)
    requires HasKind(v, kind)
    ensures MergeValue(Zero(kind), v) == v
  {
    match v
    case StringsValue(ss) => assert [] + ss == ss;
    case PackedValue(ints) => assert [] + ints == ints;
    case _ =>
  }

  lemma MergeIntoEmpty(schema: Schema, m: Message)
    requires Typed(schema, m)
    ensures Typed(schema, Empty(schema)) && Merge(schema, Empty(schema), m) == m
  {
    MergeFieldsPointwise(schema, Empty(schema), m, 0);
    var r := MergeFields(schema, Empty(schema), m, 0);
    forall j | 0 <= j < |schema| ensures r.fields[j] == m.fields[j] {
      MergeZero(schema[j].kind, m.fields[j]);
    }
    assert r.fields == m.fields;
  }

  // ---------------------------------------------------------------- one record

  lemma {:induction false} FindHit(schema: Schema, k: nat, j: nat)
    requires WellFormed(schema) && j <= k < |schema|
    ensures Find(schema, schema[k].number, j) == Some(k)
    decreases k - j
  {
    if j == k {
    } else {
      FindHit(schema, k, j + 1);
    }
  }

  lemma ReadTagOfField(f: Field, b: Bytes)
    requires TagMatches(f) && Holds(b, 0, f.tag)
    ensures ReadTag(b, 0) == Success(Parsed(Tag(f.number, WireType(f.kind)), |f.tag|))
  {
    hide Read, Encode;
    var wire := 8 * f.number + WireType(f.kind);
    ReadEncode(b, 0, wire);
    assert wire % 0x1_0000_0000_0000_0000 == wire;
    assert wire / 8 == f.number && ToInt32(f.number) == f.number;
  }

  /** A record of a known field whose payload reads to the end of the input. */
  lemma OneRecord(schema: Schema, k: nat, b: Bytes, m: Message, v: Value)
    requires WellFormed(schema) && Typed(schema, m) && k < |schema|
    requires Holds(b, 0, schema[k].tag)
    requires ReadValue(schema[k].kind, WireType(schema[k].kind), b, |schema[k].tag|, m.fields[k]) ==
             Success(Parsed(v, |b|))
    ensures Unmarshal(schema, b, m) == Success(m.(fields := m.fields[k := v]))
  {
    hide ReadTag, ReadValue, ReadUnknown, Find;
    var f := schema[k];
    assert TagMatches(f);
    ReadTagOfField(f, b);
    FindHit(schema, k, 0);
    var m' := m.(fields := m.fields[k := v]);
    assert ReadRecord(schema, b, 0, m) == Success(Parsed(m', |b|));
    assert UnmarshalFrom(schema, b, |b|, m') == Success(m');
  }

  lemma ReadLengthOf(b: Bytes, i: nat, len: nat)
    requires len < TWO_63 && Holds(b, i, Encode(len)) && i + |Encode(len)| + len <= |b|
    ensures ReadLength(b, i) == Success(Parsed(len, i + |Encode(len)|))
  {
    hide Read;
    ReadEncode(b, i, len);
  }

  lemma {:induction false} ReadPackedEncoded(b: Bytes, i: nat, ints: seq<Int32>, acc: seq<Int32>)
    requires Holds(b, i, EncodeInts(ints))
    ensures var end := i + |EncodeInts(ints)|; ReadPacked(b, i, end, acc) == Success(Parsed(acc + ints, end))
    decreases |ints|
  {
    hide Read;
    if ints == [] {
      assert acc + ints == acc;
    } else {
      var head, tail := Encode(FromInt32(ints[0])), EncodeInts(ints[1..]);
      assert forall x :: 0 <= x < |head| ==> head[x] == EncodeInts(ints)[x];
      assert Holds(b, i, head);
      forall x | 0 <= x < |tail| ensures b[i + |head| + x] == tail[x] {
        assert b[i + (|head| + x)] == EncodeInts(ints)[|head| + x];
      }
      Int32RoundTrip(ints[0]);
      ReadEncode(b, i, FromInt32(ints[0]));
      ReadPackedEncoded(b, i + |head|, ints[1..], acc + [ints[0]]);
      assert acc + [ints[0]] + ints[1..] == acc + ints;
    }
  }

  /** The bytes of a length-delimited record, by position. */
  lemma BytesLayout(tag: Bytes, s: Bytes)
    ensures var b := EncodeBytes(tag, s);
            && Holds(b, 0, tag)
            && Holds(b, |tag|, Encode(|s|))
            && |b| == |tag| + |Encode(|s|)| + |s|
            && b[|tag| + |Encode(|s|)|..] == s
  {
  }

  lemma IntRecord(schema: Schema, k: nat, m: Message, i: Int32)
    requires WellFormed(schema) && Typed(schema, m) && k < |schema| && schema[k].kind == Int32Kind
    ensures Unmarshal(schema, schema[k].tag + Encode(FromInt32(i)), m) ==
            Success(m.(fields := m.fields[k := IntValue(i)]))
  {
    hide Read, Unmarshal;
    var b := schema[k].tag + Encode(FromInt32(i));
    Int32RoundTrip(i);
    assert Holds(b, 0, schema[k].tag) && Holds(b, |schema[k].tag|, Encode(FromInt32(i)));
    ReadEncode(b, |schema[k].tag|, FromInt32(i));
    OneRecord(schema, k, b, m, IntValue(i));
  }

  lemma BoolRecord(schema: Schema, k: nat, m: Message)
    requires WellFormed(schema) && Typed(schema, m) && k < |schema| && schema[k].kind == BoolKind
    ensures Unmarshal(schema, schema[k].tag + [1], m) == Success(m.(fields := m.fields[k := BoolValue(true)]))
  {
    hide Read, Unmarshal;
    var b := schema[k].tag + [1];
    assert Encode(1) == [1];
    assert Holds(b, 0, schema[k].tag) && Holds(b, |schema[k].tag|, Encode(1));
    ReadEncode(b, |schema[k].tag|, 1);
    OneRecord(schema, k, b, m, BoolValue(true));
  }

  lemma StringRecord(schema: Schema, k: nat, m: Message, s: Bytes)
    requires WellFormed(schema) && Typed(schema, m) && k < |schema| && |s| < TWO_63
    requires schema[k].kind == StringKind || schema[k].kind == StringsKind
    ensures var v := if schema[k].kind == StringKind then StringValue(s) else StringsValue(m.fields[k].ss + [s]);
            Unmarshal(schema, EncodeBytes(schema[k].tag, s), m) == Success(m.(fields := m.fields[k := v]))
  {
    hide ReadLength, EncodeBytes, Unmarshal;
    var tag := schema[k].tag;
    var b := EncodeBytes(tag, s);
    BytesLayout(tag, s);
    ReadLengthOf(b, |tag|, |s|);
    assert b[|tag| + |Encode(|s|)|..|b|] == s;
    OneRecord(schema, k, b, m, if schema[k].kind == StringKind then StringValue(s)
              else StringsValue(m.fields[k].ss + [s]));
  }

  lemma {:induction false} PackedRecord(schema: Schema, k: nat, m: Message, ints: seq<Int32>)
    requires WellFormed(schema) && Typed(schema, m) && k < |schema| && schema[k].kind == PackedKind
    requires |EncodeInts(ints)| < TWO_63
    ensures Unmarshal(schema, EncodeBytes(schema[k].tag, EncodeInts(ints)), m)
            == Success(m.(fields := m.fields[k := PackedValue(m.fields[k].ints + ints)]))
  {
    hide ReadLength, EncodeBytes, EncodeInts, ReadPacked, Unmarshal;
    var tag, s := schema[k].tag, EncodeInts(ints);
    var b := EncodeBytes(tag, s);
    var start := |tag| + |Encode(|s|)|;
    BytesLayout(tag, s);
    ReadLengthOf(b, |tag|, |s|);
    forall x | 0 <= x < |s| ensures b[start + x] == s[x] {
      assert b[start..][x] == s[x];
    }
    ReadPackedEncoded(b, start, ints, m.fields[k].ints);
    OneRecord(schema, k, b, m, PackedValue(m.fields[k].ints + ints));
  }

  // ---------------------------------------------------------------- one field

  /** `m` with field `k` merged with `v`. */
  function WithField(schema: Schema, m: Message, k: nat, v: Value): (r: Message)
    requires Typed(schema, m) && k < |schema| && HasKind(v, schema[k].kind)
    ensures Typed(schema, r)
  {
    m.(fields := m.fields[k := MergeValue(m.fields[k], v)])
  }

  lemma SameField(schema: Schema, m: Message, k: nat)
    requires Typed(schema, m) && k < |schema|
    ensures m.(fields := m.fields[k := m.fields[k]]) == m
  {
    assert m.fields[k := m.fields[k]] == m.fields;
  }

  lemma {:induction false} StringsField(schema: Schema, k: nat, m: Message, ss: seq<Bytes>)
    requires WellFormed(schema) && Typed(schema, m) && k < |schema| && schema[k].kind == StringsKind
    requires |EncodeStrings(schema[k].tag, ss)| < TWO_63
    ensures Unmarshal(schema, EncodeStrings(schema[k].tag, ss), m) == Success(WithField(schema, m, k, StringsValue(ss)))
    decreases |ss|
  {
    hide Unmarshal, WellFormed;
    var tag, prior := schema[k].tag, m.fields[k].ss;
    if ss == [] {
      assert prior + ss == prior;
      SameField(schema, m, k);
      assert Unmarshal(schema, [], m) == Success(m) by {
        UnmarshalEmpty(schema, m);
      }
    } else {
      StringRecord(schema, k, m, ss[0]);
      var m' := m.(fields := m.fields[k := StringsValue(prior + [ss[0]])]);
      StringsField(schema, k, m', ss[1..]);
      UnmarshalConcat(schema, EncodeBytes(tag, ss[0]), EncodeStrings(tag, ss[1..]), m);
      assert prior + [ss[0]] + ss[1..] == prior + ss;
      assert WithField(schema, m', k, StringsValue(ss[1..])) == WithField(schema, m, k, StringsValue(ss)) by {
        assert m'.fields[k := StringsValue(prior + ss)] == m.fields[k := StringsValue(prior + ss)];
      }
    }
  }

  lemma UnmarshalEmpty(schema: Schema, m: Message)
    requires Typed(schema, m)
    ensures Unmarshal(schema, [], m) == Success(m)
  {
  }

  /** What is written for one field is read back into that field, and touches no other. */
  lemma FieldRoundTrip(schema: Schema, k: nat, m: Message, v: Value)
    requires WellFormed(schema) && Typed(schema, m) && k < |schema| && HasKind(v, schema[k].kind)
    requires |EncodeField(schema[k], v)| < TWO_63
    ensures Unmarshal(schema, EncodeField(schema[k], v), m) == Success(WithField(schema, m, k, v))
  {
    hide Unmarshal, EncodeBytes;
    UnmarshalEmpty(schema, m);
    SameField(schema, m, k);
    match v
    case IntValue(i) => IntRecord(schema, k, m, i);
    case BoolValue(on) => BoolRecord(schema, k, m);
    case StringValue(s) =>
      BytesLayout(schema[k].tag, s);
      if s != [] { StringRecord(schema, k, m, s); }
    case StringsValue(ss) => StringsField(schema, k, m, ss);
    case PackedValue(ints) =>
      BytesLayout(schema[k].tag, EncodeInts(ints));
      if ints == [] {
        assert m.fields[k].ints + ints == m.fields[k].ints;
      } else {
        PackedRecord(schema, k, m, ints);
      }
  }

  lemma {:induction false} FieldsRoundTrip(schema: Schema, k: nat, into: Message, m: Message)
    requires WellFormed(schema) && Typed(schema, into) && Typed(schema, m) && k <= |schema|
    requires |EncodeFields(schema, m.fields, k)| < TWO_63
    ensures Unmarshal(schema, EncodeFields(schema, m.fields, k), into) == Success(MergeFields(schema, into, m, k))
    decreases |schema| - k
  {
    hide Unmarshal, EncodeField, MergeValue, WellFormed;
    if k == |schema| {
      UnmarshalEmpty(schema, into);
    } else {
      FieldRoundTrip(schema, k, into, m.fields[k]);
      var into' := WithField(schema, into, k, m.fields[k]);
      FieldsRoundTrip(schema, k + 1, into', m);
      UnmarshalConcat(schema, EncodeField(schema[k], m.fields[k]), EncodeFields(schema, m.fields, k + 1), into);
    }
  }

  // ---------------------------------------------------------------- unknown records

  /** From index `i` on, nothing but whole records no case of the switch recognises. */
  predicate OnlyUnknown(schema: Schema, u: Bytes, i: nat)
    requires i <= |u|
    decreases |u| - i
  {
    || i == |u|
    || (match ReadTag(u, i)
        case Failure(_) => false
        case Success(tag) =>
          && Find(schema, tag.value.number, 0) == None
          && (match Skip(u, i, 0)
              case Failure(_) => false
              case Success(next) => OnlyUnknown(schema, u, next)))
  }

  lemma {:induction false} UnknownKept(schema: Schema, u: Bytes, i: nat, m: Message)
    requires i <= |u| && OnlyUnknown(schema, u, i) && Typed(schema, m)
    ensures UnmarshalFrom(schema, u, i, m) == Success(m.(unknown := m.unknown + u[i..]))
    decreases |u| - i
  {
    hide ReadTag, Skip, Find;
    if i < |u| {
      var next := Skip(u, i, 0).value;
      UnknownKept(schema, u, next, m.(unknown := m.unknown + u[i..next]));
      assert m.unknown + u[i..next] + u[next..] == m.unknown + u[i..];
    } else {
      assert m.unknown + u[i..] == m.unknown;
    }
  }

  lemma {:induction false} OnlyUnknownConcat(schema: Schema, u: Bytes, i: nat, w: Bytes)
    requires i <= |u| && OnlyUnknown(schema, u, i) && OnlyUnknown(schema, w, 0)
    ensures OnlyUnknown(schema, u + w, i)
    decreases |u| - i
  {
    hide ReadTag, Skip, Find;
    if i == |u| {
      OnlyUnknownBehind(schema, u, w, 0);
    } else {
      assert Agree(u, u + w, i, |u|, 0);
      ReadTagLocal(u, u + w, i, 0);
      SkipLocal(u, u + w, i, 0, 0);
      OnlyUnknownConcat(schema, u, Skip(u, i, 0).value, w);
    }
  }

  lemma {:induction false} OnlyUnknownBehind(schema: Schema, u: Bytes, w: Bytes, i: nat)
    requires i <= |w| && OnlyUnknown(schema, w, i)
    ensures OnlyUnknown(schema, u + w, |u| + i)
    decreases |w| - i
  {
    hide ReadTag, Skip, Find;
    if i == |w| {
    } else {
      assert Agree(w, u + w, i, |w|, |u|);
      ReadTagLocal(w, u + w, i, |u|);
      SkipLocal(w, u + w, i, 0, |u|);
      OnlyUnknownBehind(schema, u, w, Skip(w, i, 0).value);
    }
  }

  /** The bytes of a skipped record are one unknown record on their own. */
  lemma {:induction false} OneUnknown(schema: Schema, b: Bytes, i: nat)
    requires i < |b| && ReadTag(b, i).Success? && Find(schema, ReadTag(b, i).value.value.number, 0) == None
    requires Skip(b, i, 0).Success?
    ensures OnlyUnknown(schema, b[i..Skip(b, i, 0).value], 0)
  {
    hide ReadTag, Skip, Find;
    var next := Skip(b, i, 0).value;
    var u := b[i..next];
    var back: int := 0 - i;
    assert Agree(b, u, i, next, back);
    SkipLocal(b, u, i, 0, back);
    TagWithinRecord(b, i);
    ReadTagLocal(b, u, i, back);
  }

  lemma TagWithinRecord(b: Bytes, i: nat)
    requires i < |b| && ReadTag(b, i).Success? && Skip(b, i, 0).Success?
    ensures ReadTag(b, i).value.next <= Skip(b, i, 0).value
  {
  }

  /** What decoding collects as unknown would be collected again. */
  lemma {:induction false} DecodedUnknown(schema: Schema, b: Bytes, i: nat, m: Message)
    requires i <= |b| && Typed(schema, m) && UnmarshalFrom(schema, b, i, m).Success?
    requires OnlyUnknown(schema, m.unknown, 0)
    ensures OnlyUnknown(schema, UnmarshalFrom(schema, b, i, m).value.unknown, 0)
    decreases |b| - i
  {
    hide ReadTag, Skip, Find, ReadValue, OnlyUnknown;
    if i == |b| {
    } else {
      var p := ReadRecord(schema, b, i, m).value;
      if Find(schema, ReadTag(b, i).value.value.number, 0) == None {
        OneUnknown(schema, b, i);
        OnlyUnknownConcat(schema, m.unknown, 0, b[i..p.next]);
      }
      DecodedUnknown(schema, b, p.next, p.value);
    }
  }

  // ---------------------------------------------------------------- the theorems

  /**
   Decoding a marshalled message merges it into the message decoded into: the last scalar wins,
   repeated fields append, unknown records are kept in order.
   */
  lemma {:induction false} UnmarshalMarshalMerges(schema: Schema, into: Message, m: Message)
    requires WellFormed(schema) && Typed(schema, into) && Typed(schema, m)
    requires OnlyUnknown(schema, m.unknown, 0)
    requires |Marshal(schema, m)| < TWO_63
    ensures Unmarshal(schema, Marshal(schema, m), into) == Success(Merge(schema, into, m))
  {
    hide WellFormed, OnlyUnknown, EncodeFields;
    var merged := MergeFields(schema, into, m, 0);
    FieldsRoundTrip(schema, 0, into, m);
    MergeFieldsPointwise(schema, into, m, 0);
    UnknownKept(schema, m.unknown, 0, merged);
    assert m.unknown[0..] == m.unknown;
    UnmarshalConcat(schema, EncodeFields(schema, m.fields, 0), m.unknown, into);
  }

  /** Unmarshalling what was marshalled gives the message back. */
  lemma {:induction false} RoundTrip(schema: Schema, m: Message)
    requires WellFormed(schema) && Typed(schema, m) && OnlyUnknown(schema, m.unknown, 0)
    requires |Marshal(schema, m)| < TWO_63
    ensures Typed(schema, Empty(schema))
    ensures Unmarshal(schema, Marshal(schema, m), Empty(schema)) == Success(m)
  {
    hide WellFormed, OnlyUnknown, Merge, Marshal, Unmarshal;
    MergeIntoEmpty(schema, m);
    UnmarshalMarshalMerges(schema, Empty(schema), m);
  }

  /** Whatever was decoded survives being written and decoded again, unknown records included. */
  lemma {:induction false} DecodeEncodeDecode(schema: Schema, b: Bytes)
    requires WellFormed(schema) && Typed(schema, Empty(schema))
    requires var r := Unmarshal(schema, b, Empty(schema)); r.Success? && |Marshal(schema, r.value)| < TWO_63
    ensures var r := Unmarshal(schema, b, Empty(schema));
            Unmarshal(schema, Marshal(schema, r.value), Empty(schema)) == r
  {
    hide WellFormed, UnmarshalFrom, Marshal;
    var m := Unmarshal(schema, b, Empty(schema)).value;
    DecodedUnknown(schema, b, 0, Empty(schema));
    RoundTrip(schema, m);
  }
}

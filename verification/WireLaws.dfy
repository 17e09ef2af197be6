/** What decoding and encoding do to each other, for every table and every message. */
module WireLaws {
  import opened Wrappers
  import opened Varint
  import opened Wire

  // ---------------------------------------------------------------- locality of the readers
  // A reader that succeeds looks at nothing but the bytes it consumes: on another input that
  // agrees on those bytes, at another offset, it does the same.

  lemma ReadLocal(b: Bytes, b': Bytes, i: nat, shift: int)
    requires i <= |b| && Read(b, i).Success? && Agree(b, b', i, Read(b, i).value.next, shift)
    ensures var r := Read(b, i).value; Read(b', i + shift) == Success(Parsed(r.value, r.next + shift))
  {
    ReadFromLocal(b, b', i, 0, shift);
  }

  lemma {:induction false} ReadLengthLocal(b: Bytes, b': Bytes, i: nat, shift: int)
    requires i <= |b| && ReadLength(b, i).Success?
    requires var r := ReadLength(b, i).value; Agree(b, b', i, r.next + r.value, shift)
    ensures var r := ReadLength(b, i).value;
            ReadLength(b', i + shift) == Success(Parsed(r.value, r.next + shift))
  {
    ReadLocal(b, b', i, shift);
  }

  lemma {:induction false} ReadPackedLocal(b: Bytes, b': Bytes, i: nat, end: nat, acc: seq<Int32>, shift: int)
    requires i <= |b| && end + shift >= 0 && ReadPacked(b, i, end, acc).Success?
    requires Agree(b, b', i, ReadPacked(b, i, end, acc).value.next, shift)
    ensures var r := ReadPacked(b, i, end, acc).value;
            ReadPacked(b', i + shift, end + shift, acc) == Success(Parsed(r.value, r.next + shift))
    decreases |b| - i
  {
    if i >= end {
    } else {
      var v := Read(b, i).value;
      ReadLocal(b, b', i, shift);
      ReadPackedLocal(b, b', v.next, end, acc + [ToInt32(v.value)], shift);
    }
  }

  lemma ReadPackedFieldLocal(b: Bytes, b': Bytes, i: nat, prior: seq<Int32>, shift: int)
    requires i <= |b| && ReadPackedField(b, i, prior).Success? && Agree(b, b', i, |b|, shift)
    ensures var r := ReadPackedField(b, i, prior).value;
            ReadPackedField(b', i + shift, prior) == Success(Parsed(r.value, r.next + shift))
  {
    ReadLengthLocal(b, b', i, shift);
    var len := ReadLength(b, i).value;
    ReadPackedLocal(b, b', len.next, len.next + len.value, prior, shift);
  }

  lemma ReadStringLocal(kind: Kind, b: Bytes, b': Bytes, i: nat, prior: Value, shift: int)
    requires i <= |b| && (kind.StringKind? || kind.StringsKind?) && HasKind(prior, kind)
    requires ReadString(kind, b, i, prior).Success? && Agree(b, b', i, |b|, shift)
    ensures var r := ReadString(kind, b, i, prior).value;
            ReadString(kind, b', i + shift, prior) == Success(Parsed(r.value, r.next + shift))
  {
    ReadLengthLocal(b, b', i, shift);
    var len := ReadLength(b, i).value;
    SliceLocal(b, b', len.next, len.next + len.value, shift);
  }

  lemma SliceLocal(b: Bytes, b': Bytes, lo: nat, hi: nat, shift: int)
    requires Agree(b, b', lo, hi, shift)
    ensures b[lo..hi] == b'[lo + shift..hi + shift]
  {
  }

  lemma {:induction false} ReadValueLocal(kind: Kind, wireType: nat, b: Bytes, b': Bytes, i: nat, prior: Value,
                                          shift: int)
    requires i <= |b| && HasKind(prior, kind) && ReadValue(kind, wireType, b, i, prior).Success?
    requires Agree(b, b', i, |b|, shift)
    ensures var r := ReadValue(kind, wireType, b, i, prior).value;
            ReadValue(kind, wireType, b', i + shift, prior) == Success(Parsed(r.value, r.next + shift))
  {
    if wireType == 0 {
      ReadLocal(b, b', i, shift);
    } else if kind == PackedKind {
      ReadPackedFieldLocal(b, b', i, prior.ints, shift);
    } else {
      ReadStringLocal(kind, b, b', i, prior, shift);
    }
  }

  lemma {:induction false} SkipPayloadLocal(b: Bytes, b': Bytes, i: nat, wireType: nat, depth: nat, shift: int)
    requires i <= |b| && SkipPayload(b, i, wireType, depth).Success?
    requires Agree(b, b', i, SkipPayload(b, i, wireType, depth).value.next, shift)
    ensures var r := SkipPayload(b, i, wireType, depth).value;
            SkipPayload(b', i + shift, wireType, depth) == Success(Parsed(r.value, r.next + shift))
  {
    match wireType
    case 0 => ReadLocal(b, b', i, shift);
    case 2 => ReadLengthLocal(b, b', i, shift);
    case _ =>
  }

  lemma {:induction false} SkipOneLocal(b: Bytes, b': Bytes, i: nat, depth: nat, shift: int)
    requires i <= |b| && SkipOne(b, i, depth).Success?
    requires Agree(b, b', i, SkipOne(b, i, depth).value.next, shift)
    ensures var r := SkipOne(b, i, depth).value;
            SkipOne(b', i + shift, depth) == Success(Parsed(r.value, r.next + shift))
  {
    ReadLocal(b, b', i, shift);
    var tag := Read(b, i).value;
    SkipPayloadLocal(b, b', tag.next, tag.value % 8, depth, shift);
  }

  lemma {:induction false} SkipLocal(b: Bytes, b': Bytes, i: nat, depth: nat, shift: int)
    requires i <= |b| && Skip(b, i, depth).Success? && Agree(b, b', i, Skip(b, i, depth).value, shift)
    ensures Skip(b', i + shift, depth) == Success(Skip(b, i, depth).value + shift)
    decreases |b| - i
  {
    hide SkipOne;
    SkipOneLocal(b, b', i, depth, shift);
    var p := SkipOne(b, i, depth).value;
    if p.value == 0 {
    } else {
      SkipLocal(b, b', p.next, p.value, shift);
    }
  }

  lemma ReadTagLocal(b: Bytes, b': Bytes, i: nat, shift: int)
    requires i <= |b| && ReadTag(b, i).Success? && Agree(b, b', i, ReadTag(b, i).value.next, shift)
    ensures var r := ReadTag(b, i).value; ReadTag(b', i + shift) == Success(Parsed(r.value, r.next + shift))
  {
    ReadLocal(b, b', i, shift);
  }

  lemma ReadUnknownLocal(b: Bytes, b': Bytes, i: nat, m: Message, shift: int)
    requires i <= |b| && ReadUnknown(b, i, m).Success? && Agree(b, b', i, |b|, shift)
    ensures var r := ReadUnknown(b, i, m).value;
            ReadUnknown(b', i + shift, m) == Success(Parsed(r.value, r.next + shift))
  {
    hide Skip;
    SkipLocal(b, b', i, 0, shift);
    SliceLocal(b, b', i, Skip(b, i, 0).value, shift);
  }

  lemma ReadKnownLocal(schema: Schema, k: nat, wireType: nat, b: Bytes, b': Bytes, i: nat, m: Message, shift: int)
    requires i <= |b| && k < |schema| && Typed(schema, m) && ReadKnown(schema, k, wireType, b, i, m).Success?
    requires Agree(b, b', i, |b|, shift)
    ensures var r := ReadKnown(schema, k, wireType, b, i, m).value;
            ReadKnown(schema, k, wireType, b', i + shift, m) == Success(Parsed(r.value, r.next + shift))
  {
    ReadValueLocal(schema[k].kind, wireType, b, b', i, m.fields[k], shift);
  }

  lemma ReadRecordLocal(schema: Schema, b: Bytes, b': Bytes, i: nat, m: Message, shift: int)
    requires i <= |b| && Typed(schema, m) && ReadRecord(schema, b, i, m).Success?
    requires Agree(b, b', i, |b|, shift)
    ensures var r := ReadRecord(schema, b, i, m).value;
            ReadRecord(schema, b', i + shift, m) == Success(Parsed(r.value, r.next + shift))
  {
    hide ReadTag, ReadKnown, ReadUnknown, Find, Typed;
    ReadTagLocal(b, b', i, shift);
    var tag := ReadTag(b, i).value;
    match Find(schema, tag.value.number, 0)
    case None => ReadUnknownLocal(b, b', i, m, shift);
    case Some(k) =>
      ReadKnownLocal(schema, k, tag.value.wireType, b, b', tag.next, m, shift);
  }

  // ---------------------------------------------------------------- concatenation

  /** Decoding a tail at another offset, up to where `b` ends. */
  lemma {:induction false} UnmarshalLocal(schema: Schema, b: Bytes, b': Bytes, i: nat, m: Message, shift: int)
    requires i <= |b| && Typed(schema, m) && UnmarshalFrom(schema, b, i, m).Success?
    requires Agree(b, b', i, |b|, shift)
    ensures UnmarshalFrom(schema, b', i + shift, m)
            == UnmarshalFrom(schema, b', |b| + shift, UnmarshalFrom(schema, b, i, m).value)
    decreases |b| - i
  {
    hide ReadRecord, Typed;
    if i == |b| {
    } else {
      ReadRecordLocal(schema, b, b', i, m, shift);
      var p := ReadRecord(schema, b, i, m).value;
      UnmarshalLocal(schema, b, b', p.next, p.value, shift);
    }
  }

  /** Decoding `c` behind `b` is decoding `c`. */
  lemma {:induction false} UnmarshalBehind(schema: Schema, b: Bytes, c: Bytes, m: Message)
    requires Typed(schema, m)
    ensures UnmarshalFrom(schema, b + c, |b|, m).Success? <==> Unmarshal(schema, c, m).Success?
    ensures Unmarshal(schema, c, m).Success? ==> UnmarshalFrom(schema, b + c, |b|, m) == Unmarshal(schema, c, m)
  {
    hide ReadRecord, Typed;
    var all, n := b + c, |b|;
    assert Agree(c, all, 0, |c|, n) && Agree(all, c, n, |all|, -n);
    if Unmarshal(schema, c, m).Success? {
      UnmarshalLocal(schema, c, all, 0, m, n);
    }
    if UnmarshalFrom(schema, all, n, m).Success? {
      UnmarshalLocal(schema, all, c, n, m, -n);
    }
  }

  /**
   Decoding a concatenation is decoding the parts one after the other into the same message, as
   long as the first part is accepted on its own.
   */
  lemma UnmarshalConcat(schema: Schema, b: Bytes, c: Bytes, m: Message)
    requires Typed(schema, m) && Unmarshal(schema, b, m).Success?
    ensures var m' := Unmarshal(schema, b, m).value;
            && (Unmarshal(schema, b + c, m).Success? <==> Unmarshal(schema, c, m').Success?)
            && (Unmarshal(schema, c, m').Success? ==> Unmarshal(schema, b + c, m) == Unmarshal(schema, c, m'))
  {
    hide ReadRecord, UnmarshalFrom, Typed;
    assert UnmarshalFrom(schema, b, 0, m) == Unmarshal(schema, b, m);
    assert Agree(b, b + c, 0, |b|, 0);
    UnmarshalLocal(schema, b, b + c, 0, m, 0);
    UnmarshalBehind(schema, b, c, Unmarshal(schema, b, m).value);
  }
}

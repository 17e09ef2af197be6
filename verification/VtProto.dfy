/**
 The generated methods as they run: the marshaller fills a buffer from its end, the unmarshaller
 walks an index through the input and updates the message in place.
 */
module VtProto {
  import opened Wrappers
  import opened Varint
  import opened Wire

  // ---------------------------------------------------------------- SizeVT

  method SizeOfPacked(ints: seq<Int32>) returns (n: nat)
    ensures n == |EncodeInts(ints)|
  {
    n := 0;
    var k := 0;
    while k < |ints|
      invariant k <= |ints| && n + |EncodeInts(ints[k..])| == |EncodeInts(ints)|
    {
      SizeOfIsLength(FromInt32(ints[k]));
      assert ints[k..][1..] == ints[k + 1..];
      n := n + SizeOf(FromInt32(ints[k]));
      k := k + 1;
    }
  }

  method SizeOfStrings(f: Field, ss: seq<Bytes>) returns (n: nat)
    requires f.tagSize == |f.tag|
    ensures n == |EncodeStrings(f.tag, ss)|
  {
    n := 0;
    var k := 0;
    while k < |ss|
      invariant k <= |ss| && n + |EncodeStrings(f.tag, ss[k..])| == |EncodeStrings(f.tag, ss)|
    {
      SizeOfIsLength(|ss[k]|);
      assert ss[k..][1..] == ss[k + 1..];
      n := n + f.tagSize + |ss[k]| + SizeOf(|ss[k]|);
      k := k + 1;
    }
  }

  method SizeOfField(f: Field, v: Value) returns (n: nat)
    requires f.tagSize == |f.tag|
    ensures n == |EncodeField(f, v)|
  {
    match v {
      case IntValue(i) =>
        SizeOfIsLength(FromInt32(i));
        n := if i != 0 then f.tagSize + SizeOf(FromInt32(i)) else 0;
      case BoolValue(on) =>
        n := if on then f.tagSize + 1 else 0;
      case StringValue(s) =>
        SizeOfIsLength(|s|);
        n := if |s| > 0 then f.tagSize + |s| + SizeOf(|s|) else 0;
      case StringsValue(ss) =>
        n := SizeOfStrings(f, ss);
      case PackedValue(ints) =>
        n := 0;
        if |ints| > 0 {
          var l := SizeOfPacked(ints);
          SizeOfIsLength(l);
          n := f.tagSize + SizeOf(l) + l;
        }
    }
  }

  /** `SizeVT` is the length of what will be written. */
  method SizeVT(schema: Schema, m: Message) returns (n: nat)
    requires WellFormed(schema) && Typed(schema, m)
    ensures n == |Marshal(schema, m)|
  {
    n := 0;
    var k := 0;
    while k < |schema|
      invariant k <= |schema| && n + |EncodeFields(schema, m.fields, k)| == |EncodeFields(schema, m.fields, 0)|
    {
      assert TagMatches(schema[k]);
      var size := SizeOfField(schema[k], m.fields[k]);
      n := n + size;
      k := k + 1;
    }
    n := n + |m.unknown|;
  }

  // ---------------------------------------------------------------- MarshalToSizedBufferVT

  /** `i -= len(s); copy(dAtA[i:], s)`. */
  method PutBytes(data: array<Byte>, end: nat, s: Bytes) returns (i: nat)
    requires |s| <= end <= data.Length
    modifies data
    ensures i == end - |s| && data[i..end] == s
    ensures data[..i] == old(data[..i]) && data[end..] == old(data[end..])
  {
    i := end - |s|;
    forall x | 0 <= x < |s| {
      data[i + x] := s[x];
    }
  }

  method PutLengthDelimited(data: array<Byte>, end: nat, tag: Bytes, s: Bytes) returns (i: nat)
    requires |EncodeBytes(tag, s)| <= end <= data.Length
    modifies data
    ensures i == end - |EncodeBytes(tag, s)| && data[i..end] == EncodeBytes(tag, s)
    ensures data[..i] == old(data[..i]) && data[end..] == old(data[end..])
  {
    hide Encode;
    ghost var was := data[..];
    var start := PutBytes(data, end, s);
    ghost var afterBytes := data[..];
    var middle := EncodeBackward(data, start, |s|);
    ghost var afterLength := data[..];
    i := PutBytes(data, middle, tag);
    StitchThree(was, afterBytes, afterLength, data[..], i, middle, start, end);
    assert tag + (Encode(|s|) + s) == EncodeBytes(tag, s);
  }

  /** Three writes in front of each other, from `end` down to `i`. */
  lemma StitchThree(was: Bytes, first: Bytes, second: Bytes, third: Bytes, i: nat, middle: nat, start: nat, end: nat)
    requires i <= middle <= start <= end <= |was| == |first| == |second| == |third|
    requires first[..start] == was[..start] && first[end..] == was[end..]
    requires second[..middle] == first[..middle] && second[start..] == first[start..]
    requires third[..i] == second[..i] && third[middle..] == second[middle..]
    ensures third[i..end] == third[i..middle] + (second[middle..start] + first[start..end])
    ensures third[..i] == was[..i] && third[end..] == was[end..]
  {
    StitchBehind(first, second, middle, start, end);
    StitchBehind(second, third, i, middle, end);
    assert third[..i] == second[..middle][..i] == first[..start][..i] == was[..start][..i];
  }

  /** The forward loop inside the backward pass: it fills exactly the window reserved for it. */
  method PutPackedWindow(data: array<Byte>, start: nat, ints: seq<Int32>) returns (j: nat)
    requires start + |EncodeInts(ints)| <= data.Length
    modifies data
    ensures j == start + |EncodeInts(ints)| && data[start..j] == EncodeInts(ints)
    ensures data[..start] == old(data[..start]) && data[j..] == old(data[j..])
  {
    hide Encode;
    j := start;
    var k := 0;
    while k < |ints|
      invariant k <= |ints| && start <= j && j + |EncodeInts(ints[k..])| == start + |EncodeInts(ints)|
      invariant data[start..j] + EncodeInts(ints[k..]) == EncodeInts(ints)
      invariant data[..start] == old(data[..start]) && data[j..] == old(data[j..])
    {
      ghost var before := data[..];
      var written := data[start..j];
      assert ints[k..][1..] == ints[k + 1..];
      var j' := EncodeForward(data, j, FromInt32(ints[k]));
      assert data[start..j] == written by {
        assert data[..j][start..] == before[..j][start..];
      }
      assert data[start..j'] == written + Encode(FromInt32(ints[k]));
      assert data[..start] == data[..j][..start];
      assert before[j'..] == before[j..][j' - j..];
      j := j';
      k := k + 1;
    }
  }

  method PutPacked(data: array<Byte>, end: nat, tag: Bytes, ints: seq<Int32>) returns (i: nat)
    requires |EncodeBytes(tag, EncodeInts(ints))| <= end <= data.Length
    modifies data
    ensures i == end - |EncodeBytes(tag, EncodeInts(ints))| && data[i..end] == EncodeBytes(tag, EncodeInts(ints))
    ensures data[..i] == old(data[..i]) && data[end..] == old(data[end..])
  {
    hide Encode, EncodeInts;
    var size := SizeOfPacked(ints);
    var start := end - size;
    ghost var was := data[..];
    var j := PutPackedWindow(data, start, ints);
    ghost var window := data[..];
    var middle := EncodeBackward(data, start, size);
    ghost var afterLength := data[..];
    i := PutBytes(data, middle, tag);
    StitchThree(was, window, afterLength, data[..], i, middle, start, end);
    assert tag + (Encode(size) + EncodeInts(ints)) == EncodeBytes(tag, EncodeInts(ints));
  }

  /** The repeated strings, last element first. */
  method PutStrings(data: array<Byte>, end: nat, tag: Bytes, ss: seq<Bytes>) returns (i: nat)
    requires |EncodeStrings(tag, ss)| <= end <= data.Length
    modifies data
    ensures i == end - |EncodeStrings(tag, ss)| && data[i..end] == EncodeStrings(tag, ss)
    ensures data[..i] == old(data[..i]) && data[end..] == old(data[end..])
  {
    hide EncodeBytes;
    i := end;
    var k := |ss|;
    while k > 0
      invariant 0 <= k <= |ss| && i <= end && end - i == |EncodeStrings(tag, ss[k..])|
      invariant data[i..end] == EncodeStrings(tag, ss[k..])
      invariant data[..i] == old(data[..i]) && data[end..] == old(data[end..])
    {
      k := k - 1;
      assert ss[k..][1..] == ss[k + 1..];
      StringsTailFits(tag, ss, k);
      ghost var before := data[..];
      var i' := PutLengthDelimited(data, i, tag, ss[k]);
      StitchBehind(before, data[..], i', i, end);
      assert data[..i'] == old(data[..i']);
      i := i';
    }
    assert ss[0..] == ss;
  }

  /** A write that ends at `i` leaves what stands behind it. */
  lemma StitchBehind(before: Bytes, after: Bytes, i': nat, i: nat, end: nat)
    requires i' <= i <= end <= |before| == |after| && after[i..] == before[i..]
    ensures after[i'..end] == after[i'..i] + before[i..end]
    ensures after[end..] == before[end..]
  {
    assert after[i..end] == after[i..][..end - i] == before[i..][..end - i] == before[i..end];
    assert after[end..] == after[i..][end - i..] == before[i..][end - i..] == before[end..];
  }

  lemma {:induction false} StringsTailFits(tag: Bytes, ss: seq<Bytes>, k: nat)
    requires k <= |ss|
    ensures |EncodeStrings(tag, ss[k..])| <= |EncodeStrings(tag, ss)|
  {
    hide EncodeBytes;
    if k > 0 {
      StringsTailFits(tag, ss[1..], k - 1);
      assert ss[1..][k - 1..] == ss[k..];
    } else {
      assert ss[0..] == ss;
    }
  }

  /** A number behind its tag. */
  method PutInt(data: array<Byte>, end: nat, tag: Bytes, n: Int32) returns (i: nat)
    requires |tag + Encode(FromInt32(n))| <= end <= data.Length
    modifies data
    ensures i == end - |tag + Encode(FromInt32(n))| && data[i..end] == tag + Encode(FromInt32(n))
    ensures data[..i] == old(data[..i]) && data[end..] == old(data[end..])
  {
    hide Encode;
    var middle := EncodeBackward(data, end, FromInt32(n));
    ghost var before := data[..];
    i := PutBytes(data, middle, tag);
    StitchBehind(before, data[..], i, middle, end);
  }

  /** One block of the marshaller: the field ends at `end`, nothing else is touched. */
  method PutField(data: array<Byte>, end: nat, f: Field, v: Value) returns (i: nat)
    requires |EncodeField(f, v)| <= end <= data.Length
    modifies data
    ensures i == end - |EncodeField(f, v)| && data[i..end] == EncodeField(f, v)
    ensures data[..i] == old(data[..i]) && data[end..] == old(data[end..])
  {
    hide EncodeBytes, EncodeStrings, Encode;
    i := end;
    match v {
      case IntValue(n) =>
        if n != 0 {
          i := PutInt(data, end, f.tag, n);
        }
      case BoolValue(on) =>
        if on {
          var middle := PutBytes(data, end, [1]);
          ghost var before := data[..];
          i := PutBytes(data, middle, f.tag);
          StitchBehind(before, data[..], i, middle, end);
        }
      case StringValue(s) =>
        if |s| > 0 {
          i := PutLengthDelimited(data, end, f.tag, s);
        }
      case StringsValue(ss) =>
        i := PutStrings(data, end, f.tag, ss);
      case PackedValue(ints) =>
        if |ints| > 0 {
          i := PutPacked(data, end, f.tag, ints);
        }
    }
  }

  lemma {:induction false} FieldsTailFits(schema: Schema, fields: seq<Value>, j: nat, k: nat)
    requires |fields| == |schema| && j <= k <= |schema|
    ensures |EncodeFields(schema, fields, k)| <= |EncodeFields(schema, fields, j)|
    decreases k - j
  {
    hide EncodeField;
    if j == k {
    } else {
      FieldsTailFits(schema, fields, j + 1, k);
    }
  }

  /** The blocks of the marshaller, last field first. */
  method PutFields(data: array<Byte>, end: nat, schema: Schema, fields: seq<Value>) returns (i: nat)
    requires |fields| == |schema| && |EncodeFields(schema, fields, 0)| <= end <= data.Length
    modifies data
    ensures i == end - |EncodeFields(schema, fields, 0)| && data[i..end] == EncodeFields(schema, fields, 0)
    ensures data[..i] == old(data[..i]) && data[end..] == old(data[end..])
  {
    hide EncodeField;
    i := end;
    var k := |schema|;
    while k > 0
      invariant 0 <= k <= |schema| && i <= end && end - i == |EncodeFields(schema, fields, k)|
      invariant data[i..end] == EncodeFields(schema, fields, k)
      invariant data[..i] == old(data[..i]) && data[end..] == old(data[end..])
    {
      k := k - 1;
      FieldsTailFits(schema, fields, 0, k);
      ghost var before := data[..];
      var i' := PutField(data, i, schema[k], fields[k]);
      StitchBehind(before, data[..], i', i, end);
      assert data[..i'] == old(data[..i']);
      i := i';
    }
  }

  /**
   The backward marshaller: it never leaves the buffer, stops exactly `SizeVT` bytes before its
   end, has written every byte behind that and none in front of it.
   */
  method MarshalToSizedBufferVT(schema: Schema, m: Message, data: array<Byte>) returns (n: nat)
    requires |m.fields| == |schema| && |Marshal(schema, m)| <= data.Length
    modifies data
    ensures n == |Marshal(schema, m)|
    ensures data[data.Length - n..] == Marshal(schema, m)
    ensures data[..data.Length - n] == old(data[..data.Length - n])
  {
    hide EncodeFields;
    var middle := PutBytes(data, data.Length, m.unknown);
    ghost var before := data[..];
    var i := PutFields(data, middle, schema, m.fields);
    StitchBehind(before, data[..], i, middle, data.Length);
    assert data[..i] == before[..middle][..i];
    n := data.Length - i;
  }

  /** `MarshalVT`. */
  method MarshalVT(schema: Schema, m: Message) returns (data: array<Byte>)
    requires WellFormed(schema) && Typed(schema, m)
    ensures fresh(data) && data[..] == Marshal(schema, m)
  {
    assert |m.fields| == |schema|;
    hide Marshal, WellFormed, Typed;
    var size := SizeVT(schema, m);
    data := new Byte[size](_ => 0);
    var n := MarshalToSizedBufferVT(schema, m, data);
    assert data[data.Length - n..] == data[..];
  }

  // ---------------------------------------------------------------- EqualVT

  /** Lengths first, then element by element. */
  method EqualElements<T(==)>(xs: seq<T>, ys: seq<T>) returns (eq: bool)
    ensures eq <==> xs == ys
  {
    if |xs| != |ys| {
      return false;
    }
    for i := 0 to |xs|
      invariant forall j :: 0 <= j < i ==> xs[j] == ys[j]
    {
      if xs[i] != ys[i] {
        return false;
      }
    }
    return true;
  }

  /** Field by field, then the unknown bytes. */
  method EqualVT(schema: Schema, a: Message, b: Message) returns (eq: bool)
    requires Typed(schema, a) && Typed(schema, b)
    ensures eq <==> a == b
  {
    for k := 0 to |schema|
      invariant forall j :: 0 <= j < k ==> a.fields[j] == b.fields[j]
    {
      match schema[k].kind {
        case StringsKind => eq := EqualElements(a.fields[k].ss, b.fields[k].ss);
        case PackedKind => eq := EqualElements(a.fields[k].ints, b.fields[k].ints);
        case _ => eq := a.fields[k] == b.fields[k];
      }
      if !eq {
        return;
      }
    }
    assert a.fields == b.fields;
    eq := a.unknown == b.unknown;
  }

  // ---------------------------------------------------------------- UnmarshalVT

  method ReadLengthAt(data: Bytes, i: nat) returns (len: nat, next: nat, err: Option<Error>)
    requires i <= |data|
    ensures match ReadLength(data, i)
            case Failure(e) => err == Some(e)
            case Success(l) => err == None && len == l.value && next == l.next
  {
    hide Read;
    len, next, err := ReadVarint(data, i, true);
    if err != None {
      return;
    }
    if len >= TWO_63 {
      return len, next, Some(InvalidLength);
    }
    if next + len > |data| {
      return len, next, Some(UnexpectedEof);
    }
  }

  method ReadPackedAt(data: Bytes, i: nat, prior: seq<Int32>) returns (ints: seq<Int32>, next: nat, err: Option<Error>)
    requires i <= |data|
    ensures match ReadPackedField(data, i, prior)
            case Failure(e) => err == Some(e)
            case Success(p) => err == None && ints == p.value && next == p.next
  {
    hide Read, ReadLength;
    ints := prior;
    var len;
    len, next, err := ReadLengthAt(data, i);
    if err != None {
      return;
    }
    var end := next + len;
    while next < end
      invariant next <= |data| && err == None
      invariant ReadPackedField(data, i, prior) == ReadPacked(data, next, end, ints)
      decreases |data| - next
    {
      var raw;
      raw, next, err := ReadVarint(data, next, false);
      if err != None {
        return;
      }
      ints := ints + [ToInt32(raw)];
    }
  }

  /** One tag of `protohelpers.Skip` and its payload. */
  method SkipOneAt(data: Bytes, i: nat, depth: nat) returns (depth': nat, next: nat, err: Option<Error>)
    requires i <= |data|
    ensures match SkipOne(data, i, depth)
            case Failure(e) => err == Some(e)
            case Success(p) => err == None && depth' == p.value && next == p.next
  {
    hide Read, ReadLength;
    var wire;
    depth' := depth;
    wire, next, err := ReadVarint(data, i, true);
    if err != None {
      return;
    }
    assert wire % 8 == Read(data, i).value.value % 8;
    match wire % 8 {
      case 0 =>
        var value;
        value, next, err := ReadVarint(data, next, true);
      case 1 =>
        if next + 8 > |data| {
          return depth, next, Some(UnexpectedEof);
        }
        next := next + 8;
      case 2 =>
        var len;
        len, next, err := ReadLengthAt(data, next);
        if err == None {
          next := next + len;
        }
      case 3 =>
        depth' := depth + 1;
      case 4 =>
        if depth == 0 {
          return depth, next, Some(EndGroup);
        }
        depth' := depth - 1;
      case 5 =>
        if next + 4 > |data| {
          return depth, next, Some(UnexpectedEof);
        }
        next := next + 4;
      case _ =>
        err := Some(IllegalWireType);
    }
  }

  /** `protohelpers.Skip`. */
  method SkipAt(data: Bytes, i: nat) returns (next: nat, err: Option<Error>)
    requires i <= |data|
    ensures match Skip(data, i, 0)
            case Failure(e) => err == Some(e)
            case Success(n) => err == None && next == n
  {
    assert SkipOne(data, |data|, 0) == Failure(UnexpectedEof);
    assert forall d: nat :: SkipOne(data, |data|, d) == Failure(UnexpectedEof);
    hide SkipOne;
    next, err := i, None;
    var depth := 0;
    while next < |data|
      invariant next <= |data| && err == None && Skip(data, i, 0) == Skip(data, next, depth)
      decreases |data| - next
    {
      depth, next, err := SkipOneAt(data, next, depth);
      if err != None || depth == 0 {
        return;
      }
    }
    err := Some(UnexpectedEof);
  }

  /** The receiver of `UnmarshalVT`: its fields are overwritten or appended to in place. */
  class MessageObject {
    const schema: Schema
    var fields: seq<Value>
    var unknown: Bytes

    constructor (schema: Schema)
      requires WellFormed(schema)
      ensures this.schema == schema && Content() == Empty(schema)
    {
      this.schema := schema;
      fields := Empty(schema).fields;
      unknown := [];
    }

    function Content(): Message
      reads this
    {
      Message(fields, unknown)
    }

    method UnmarshalVT(data: Bytes) returns (err: Option<Error>)
      requires Typed(schema, Content())
      modifies this
      ensures Typed(schema, Content())
      ensures match Unmarshal(schema, data, old(Content()))
              case Failure(e) => err == Some(e)
              case Success(m) => err == None && Content() == m
    {
      var i := 0;
      err := None;
      while i < |data|
        invariant i <= |data| && Typed(schema, Content()) && err == None
        invariant Unmarshal(schema, data, old(Content())) == UnmarshalFrom(schema, data, i, Content())
        decreases |data| - i
      {
        i, err := UnmarshalRecord(data, i);
        if err != None {
          return;
        }
      }
    }

    /** One round of the loop. */
    method UnmarshalRecord(data: Bytes, i: nat) returns (next: nat, err: Option<Error>)
      requires i < |data| && Typed(schema, Content())
      modifies this
      ensures Typed(schema, Content())
      ensures match ReadRecord(schema, data, i, old(Content()))
              case Failure(e) => err == Some(e)
              case Success(p) => err == None && next == p.next && Content() == p.value
    {
      hide Read, ReadValue, Skip, Find;
      var wire;
      wire, next, err := ReadVarint(data, i, true);
      if err != None {
        return;
      }
      var fieldNum := ToInt32(wire / 8);
      if wire % 8 == 4 {
        return next, Some(EndGroup);
      }
      if fieldNum <= 0 {
        return next, Some(IllegalTag);
      }
      match Find(schema, fieldNum, 0) {
        case Some(k) =>
          next, err := UnmarshalField(data, next, k, wire % 8);
        case None =>
          next, err := SkipAt(data, i);
          if err == None {
            unknown := unknown + data[i..next];
          }
      }
    }

    /** The case of the switch for table entry `k`. */
    method UnmarshalField(data: Bytes, i: nat, k: nat, wireType: nat) returns (next: nat, err: Option<Error>)
      requires i <= |data| && k < |schema| && Typed(schema, Content())
      modifies this
      ensures Typed(schema, Content())
      ensures match ReadKnown(schema, k, wireType, data, i, old(Content()))
              case Failure(e) => err == Some(e)
              case Success(p) => err == None && next == p.next && Content() == p.value
    {
      hide Read, ReadLength, ReadPacked;
      var kind, prior := schema[k].kind, fields[k];
      if wireType == 0 && FitsVarint(kind) {
        var raw;
        raw, next, err := ReadVarint(data, i, kind.BoolKind?);
        if err == None {
          fields := fields[k := FromVarint(kind, raw, prior)];
        }
      } else if wireType == 2 && kind.PackedKind? {
        var ints;
        ints, next, err := ReadPackedAt(data, i, prior.ints);
        if err == None {
          fields := fields[k := PackedValue(ints)];
        }
      } else if wireType == 2 && !FitsVarint(kind) {
        var len;
        len, next, err := ReadLengthAt(data, i);
        if err == None {
          var s := data[next..next + len];
          next := next + len;
          fields := fields[k := if kind.StringKind? then StringValue(s) else StringsValue(prior.ss + [s])];
        }
      } else {
        return i, Some(WrongWireType);
      }
    }
  }
}

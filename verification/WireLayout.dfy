/** The bytes that are written, independently of how they are read: varints, fields, and their order. */
module WireLayout {
  import opened Wrappers
  import opened Varint
  import opened Wire
  import opened WireRecords

  // ---------------------------------------------------------------- varints

  function Pow128(k: nat): nat {
    if k == 0 then 1 else 128 * Pow128(k - 1)
  }

  /** The number that groups of seven bits denote, the lowest first. */
  function NumberOf(bytes: Bytes): nat {
    if bytes == [] then 0 else bytes[0] % 128 + 128 * NumberOf(bytes[1..])
  }

  /**
   The groups denote the number, all but the last are marked as continued, and the last is not empty unless
   it is the only one. No other bytes are like that (`VarintIsUnique`).
   */
  ghost predicate IsVarint(bytes: Bytes, v: nat) {
    && bytes != [] && NumberOf(bytes) == v
    && (forall k :: 0 <= k < |bytes| ==> (bytes[k] >= 128 <==> k + 1 < |bytes|))
    && (|bytes| > 1 ==> bytes[|bytes| - 1] != 0)
  }

  lemma {:induction false} EncodeIsVarint(v: nat)
    ensures IsVarint(Encode(v), v)
  {
    if v < 128 {
      assert NumberOf([v][1..]) == 0;
    } else {
      EncodeIsVarint(v / 128);
      var rest := Encode(v / 128);
      assert Encode(v) == [v % 128 + 128] + rest && Encode(v)[1..] == rest;
      assert rest != [0];
    }
  }

  lemma NumberStep(bytes: Bytes)
    ensures NumberOf([]) == 0
    ensures bytes != [] ==> NumberOf(bytes) == bytes[0] % 128 + 128 * NumberOf(bytes[1..])
    ensures bytes != [] ==> NumberOf(bytes) / 128 == NumberOf(bytes[1..]) && NumberOf(bytes) % 128 == bytes[0] % 128
  {
  }

  lemma EncodeStep(v: nat)
    ensures Encode(v) == if v < 128 then [v] else [v % 128 + 128] + Encode(v / 128)
  {
  }

  lemma {:induction false} VarintIsUnique(bytes: Bytes, v: nat)
    requires IsVarint(bytes, v)
    ensures bytes == Encode(v)
  {
    hide NumberOf, Encode;
    var rest := bytes[1..];
    assert bytes == [bytes[0]] + rest;
    NumberStep(bytes);
    EncodeStep(v);
    if |bytes| == 1 {
      assert rest == [];
    } else {
      assert forall k :: 0 <= k < |rest| ==> rest[k] == bytes[k + 1];
      VarintIsUnique(rest, NumberOf(rest));
      PositiveGroups(rest);
    }
  }

  lemma {:induction false} PositiveGroups(bytes: Bytes)
    requires bytes != [] && bytes[|bytes| - 1] % 128 != 0
    ensures NumberOf(bytes) > 0
  {
    if |bytes| > 1 {
      PositiveGroups(bytes[1..]);
    }
  }

  /** `n` bytes in a row from `i` on are marked as continued. */
  predicate Continued(b: Bytes, i: nat, n: nat)
    requires i + n <= |b|
  {
    forall x :: i <= x < i + n ==> b[x] >= 128
  }

  /**
   The groups of at most ten bytes up to the first that is not marked are read, shortest form or not; the
   input may end before that byte, and ten marked bytes overflow.
   */
  lemma {:induction false} ReadExactly(b: Bytes, i: nat)
    requires i <= |b|
    ensures forall n: nat :: n < 10 && i + n < |b| && Continued(b, i, n) && b[i + n] < 128 ==>
              Read(b, i) == Success(Parsed(NumberOf(b[i..i + n + 1]), i + n + 1))
    ensures |b| - i < 10 && Continued(b, i, |b| - i) ==> Read(b, i) == Failure(UnexpectedEof)
    ensures |b| - i >= 10 && Continued(b, i, 10) ==> Read(b, i) == Failure(IntOverflow)
  {
    forall n: nat | n < 10 && i + n < |b| && Continued(b, i, n) && b[i + n] < 128
      ensures Read(b, i) == Success(Parsed(NumberOf(b[i..i + n + 1]), i + n + 1))
    {
      ReadsUpTo(b, i, n, 0);
    }
    if |b| - i < 10 && Continued(b, i, |b| - i) {
      EndsEarly(b, i, 0);
    } else if |b| - i >= 10 && Continued(b, i, 10) {
      Overflows(b, i, 0);
    }
  }

  lemma {:induction false} ReadsUpTo(b: Bytes, i: nat, n: nat, k: nat)
    requires n + k < 10 && i + n < |b| && Continued(b, i, n) && b[i + n] < 128
    ensures ReadFrom(b, i, k) == Success(Parsed(NumberOf(b[i..i + n + 1]), i + n + 1))
    decreases n
  {
    hide NumberOf;
    NumberStep(b[i..i + n + 1]);
    assert b[i..i + n + 1][0] == b[i] && b[i..i + n + 1][1..] == b[i + 1..i + n + 1];
    if n == 0 {
      assert b[i + 1..i + n + 1] == [];
    } else {
      ReadsUpTo(b, i + 1, n - 1, k + 1);
    }
  }

  lemma {:induction false} EndsEarly(b: Bytes, i: nat, k: nat)
    requires i <= |b| && |b| - i + k < 10 && Continued(b, i, |b| - i)
    ensures ReadFrom(b, i, k) == Failure(UnexpectedEof)
    decreases |b| - i
  {
    if i < |b| {
      EndsEarly(b, i + 1, k + 1);
    }
  }

  lemma {:induction false} Overflows(b: Bytes, i: nat, k: nat)
    requires k <= 10 && i + (10 - k) <= |b| && Continued(b, i, 10 - k)
    ensures ReadFrom(b, i, k) == Failure(IntOverflow)
    decreases 10 - k
  {
    if k < 10 {
      Overflows(b, i + 1, k + 1);
    }
  }

  /** An int32 is what its 64 bits are modulo 2^32. */
  lemma Int32Exactly(raw: nat, v: Int32)
    ensures ToInt32(raw) == v <==> (raw - v) % 0x1_0000_0000 == 0
    ensures FromInt32(v) == if v < 0 then v + 0x1_0000_0000_0000_0000 else v
  {
  }

  // ---------------------------------------------------------------- fields

  /** A scalar is written behind its tag, and not at all when it is zero. */
  lemma {:induction false} ScalarsWritten(schema: Schema, k: nat, v: Value)
    requires WellFormed(schema) && k < |schema| && HasKind(v, schema[k].kind)
    ensures EncodeField(schema[k], Zero(schema[k].kind)) == []
    ensures v.IntValue? && v.i != 0 ==>
      EncodeField(schema[k], v) == TagBytes(schema[k].number, 0) + Encode(if v.i < 0 then v.i + TWO_64 else v.i)
    ensures v == BoolValue(true) ==> EncodeField(schema[k], v) == TagBytes(schema[k].number, 0) + [1]
    ensures v.StringValue? && v.s != [] ==>
      EncodeField(schema[k], v) == TagBytes(schema[k].number, 2) + Encode(|v.s|) + v.s
  {
    assert TagMatches(schema[k]);
    hide Encode;
  }

  /** Each element of a repeated field gets a record of its own, empty or not, in order. */
  lemma {:induction false} StringsWritten(schema: Schema, k: nat, ss: seq<Bytes>, s: Bytes)
    requires WellFormed(schema) && k < |schema| && schema[k].kind == StringsKind
    ensures EncodeField(schema[k], StringsValue(ss + [s])) ==
            EncodeField(schema[k], StringsValue(ss)) + (TagBytes(schema[k].number, 2) + Encode(|s|) + s)
  {
    assert TagMatches(schema[k]);
    hide Encode;
    OneMoreString(schema[k].tag, ss, s);
  }

  lemma {:induction false} OneMoreString(tag: Bytes, ss: seq<Bytes>, s: Bytes)
    ensures EncodeStrings(tag, ss + [s]) == EncodeStrings(tag, ss) + EncodeBytes(tag, s)
  {
    hide EncodeBytes;
    if ss == [] {
      assert ([] + [s])[1..] == [] && EncodeStrings(tag, []) == [];
      assert EncodeBytes(tag, s) + [] == [] + EncodeBytes(tag, s);
    } else {
      OneMoreString(tag, ss[1..], s);
      assert (ss + [s])[1..] == ss[1..] + [s];
      assert EncodeBytes(tag, ss[0]) + (EncodeStrings(tag, ss[1..]) + EncodeBytes(tag, s))
          == EncodeBytes(tag, ss[0]) + EncodeStrings(tag, ss[1..]) + EncodeBytes(tag, s);
    }
  }

  /** The packed field is one record, of the varints of its elements in order. */
  lemma {:induction false} PackedWritten(schema: Schema, k: nat, ints: seq<Int32>, i: Int32)
    requires WellFormed(schema) && k < |schema| && schema[k].kind == PackedKind
    ensures ints != [] ==>
      EncodeField(schema[k], PackedValue(ints)) ==
      TagBytes(schema[k].number, 2) + Encode(|EncodeInts(ints)|) + EncodeInts(ints)
    ensures EncodeInts(ints + [i]) == EncodeInts(ints) + Encode(if i < 0 then i + TWO_64 else i)
  {
    assert TagMatches(schema[k]);
    hide Encode;
    OneMoreInt(ints, i);
  }

  lemma {:induction false} OneMoreInt(ints: seq<Int32>, i: Int32)
    ensures EncodeInts([]) == []
    ensures EncodeInts(ints + [i]) == EncodeInts(ints) + Encode(FromInt32(i))
  {
    hide Encode;
    if ints == [] {
      assert ([] + [i])[1..] == [];
      assert Encode(FromInt32(i)) + [] == [] + Encode(FromInt32(i));
    } else {
      OneMoreInt(ints[1..], i);
      assert (ints + [i])[1..] == ints[1..] + [i];
      var first, last := Encode(FromInt32(ints[0])), Encode(FromInt32(i));
      assert first + (EncodeInts(ints[1..]) + last) == first + EncodeInts(ints[1..]) + last;
    }
  }

  // ---------------------------------------------------------------- order

  /** The message with the first `k` fields alone, and what is left of it without them. */
  function FrontOf(schema: Schema, m: Message, k: nat): (front: Message)
    requires |m.fields| == |schema|
    ensures |front.fields| == |schema|
  {
    Message(seq(|schema|, j requires 0 <= j < |schema| => if j < k then m.fields[j] else Zero(schema[j].kind)), [])
  }

  function BackOf(schema: Schema, m: Message, k: nat): (back: Message)
    requires |m.fields| == |schema|
    ensures |back.fields| == |schema|
  {
    Message(seq(|schema|, j requires 0 <= j < |schema| => if j < k then Zero(schema[j].kind) else m.fields[j]),
            m.unknown)
  }

  lemma ZeroIsAbsent(f: Field)
    ensures EncodeField(f, Zero(f.kind)) == []
  {
  }

  lemma {:induction false} SameFromHere(schema: Schema, fields: seq<Value>, fields': seq<Value>, k: nat)
    requires k <= |schema| == |fields| == |fields'| && fields[k..] == fields'[k..]
    ensures EncodeFields(schema, fields, k) == EncodeFields(schema, fields', k)
    decreases |schema| - k
  {
    if k == |schema| {
    } else {
      assert fields[k] == fields[k..][0] && fields'[k] == fields'[k..][0];
      assert fields[k + 1..] == fields[k..][1..] && fields'[k + 1..] == fields'[k..][1..];
      SameFromHere(schema, fields, fields', k + 1);
    }
  }

  lemma {:induction false} ZerosFromHere(schema: Schema, fields: seq<Value>, k: nat)
    requires k <= |schema| == |fields|
    requires forall j :: k <= j < |schema| ==> fields[j] == Zero(schema[j].kind)
    ensures EncodeFields(schema, fields, k) == []
    decreases |schema| - k
  {
    if k == |schema| {
    } else {
      ZeroIsAbsent(schema[k]);
      ZerosFromHere(schema, fields, k + 1);
    }
  }

  lemma {:induction false} SplitFrom(schema: Schema, m: Message, k: nat, i: nat)
    requires |m.fields| == |schema| && i <= |schema|
    ensures EncodeFields(schema, m.fields, i) ==
            EncodeFields(schema, FrontOf(schema, m, k).fields, i) + EncodeFields(schema, BackOf(schema, m, k).fields, i)
    decreases |schema| - i
  {
    var front, back := FrontOf(schema, m, k).fields, BackOf(schema, m, k).fields;
    hide EncodeField, Zero;
    if i >= k {
      assert back[i..] == m.fields[i..];
      SameFromHere(schema, back, m.fields, i);
      ZerosFromHere(schema, front, i);
    } else if i < |schema| {
      SplitFrom(schema, m, k, i + 1);
      ZeroIsAbsent(schema[i]);
      var first, rest, tail := EncodeField(schema[i], m.fields[i]), EncodeFields(schema, front, i + 1),
          EncodeFields(schema, back, i + 1);
      assert first + (rest + tail) == first + rest + tail;
      assert [] + tail == tail;
    }
  }

  /** The fields are written in the order of their numbers, and what is unknown behind them. */
  lemma {:induction false} MarshalSplits(schema: Schema, m: Message, k: nat)
    requires |m.fields| == |schema|
    ensures Marshal(schema, m) ==
            Marshal(schema, FrontOf(schema, m, k)) + Marshal(schema, BackOf(schema, m, k))
  {
    hide EncodeFields, FrontOf, BackOf;
    SplitFrom(schema, m, k, 0);
    Unknowns(schema, m, k);
    Regroup(EncodeFields(schema, FrontOf(schema, m, k).fields, 0), EncodeFields(schema, BackOf(schema, m, k).fields, 0),
            m.unknown);
  }

  lemma Regroup(front: Bytes, back: Bytes, unknown: Bytes)
    ensures front + back + unknown == front + [] + (back + unknown)
  {
  }

  lemma Unknowns(schema: Schema, m: Message, k: nat)
    requires |m.fields| == |schema|
    ensures FrontOf(schema, m, k).unknown == [] && BackOf(schema, m, k).unknown == m.unknown
  {
  }
}

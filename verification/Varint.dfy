/**
 Base 128 varints as the generated code reads and writes them: the arithmetic is on unbounded
 integers and every truncation of the Go code (uint64, int32, int64) is written out.
 */
module Varint {
  import opened Wrappers

  type Byte = x: int | 0 <= x < 256
  type Int32 = x: int | -0x8000_0000 <= x < 0x8000_0000

  const TWO_31: nat := 0x8000_0000
  const TWO_32: nat := 0x1_0000_0000
  const TWO_63: nat := 0x8000_0000_0000_0000
  const TWO_64: nat := 0x1_0000_0000_0000_0000

  /** A varint occupies at most ten bytes: the shift 70 is refused. */
  const MAX_VARINT_BYTES: nat := 10

  datatype Error =
    | IntOverflow
    | UnexpectedEof
    | InvalidLength
    | EndGroup
    | IllegalTag
    | WrongWireType
    | IllegalWireType

  /** What was read, and the index right behind it. */
  datatype Parsed<+T> = Parsed(value: T, next: nat)

  /** Between `lo` and `hi`, `b` reads as `b'` does `shift` places further on. */
  ghost predicate Agree(b: seq<Byte>, b': seq<Byte>, lo: nat, hi: nat, shift: int) {
    && lo <= hi <= |b| && 0 <= lo + shift && hi + shift <= |b'|
    && forall x :: lo <= x < hi ==> b[x] == b'[x + shift]
  }

  /** `e` stands in `b` at index `i`. */
  ghost predicate Holds(b: seq<Byte>, i: nat, e: seq<Byte>) {
    && i + |e| <= |b|
    && forall x :: 0 <= x < |e| ==> b[i + x] == e[x]
  }

  // ---------------------------------------------------------------- integer widths

  /** `int32(x)`: the low 32 bits, read as two's complement. */
  function ToInt32(x: nat): Int32 {
    var low := x % 0x1_0000_0000;
    if low >= TWO_31 then low - TWO_32 else low
  }

  /** `uint64(v)` of an int32: sign extension. */
  function FromInt32(v: Int32): nat {
    if v < 0 then v + TWO_64 else v
  }

  lemma Int32RoundTrip(v: Int32)
    ensures ToInt32(FromInt32(v)) == v
    ensures FromInt32(v) < TWO_64
  {
    if v < 0 {
      assert v + TWO_64 == (v + TWO_32) + TWO_32 * (TWO_32 - 1);
      assert (v + TWO_64) % TWO_32 == v + TWO_32;
    }
  }

  // ---------------------------------------------------------------- writing

  /** Little-endian groups of seven bits, all but the last with the continuation bit. */
  function Encode(v: nat): (bytes: seq<Byte>)
    ensures |bytes| > 0
  {
    if v < 128 then [v] else [v % 128 + 128] + Encode(v / 128)
  }

  /** `bits.Len64`. */
  function BitLen(x: nat): nat {
    if x == 0 then 0 else 1 + BitLen(x / 2)
  }

  /** `protohelpers.SizeOfVarint`: (bits.Len64(x | 1) + 6) / 7. */
  function SizeOf(x: nat): nat {
    (BitLen(if x % 2 == 0 then x + 1 else x) + 6) / 7
  }

  lemma {:induction false} BitLenShift7(x: nat)
    requires x >= 128
    ensures BitLen(x) == 7 + BitLen(x / 128)
  {
    var a, b, c := x / 2, x / 4, x / 8;
    var d, e, f := x / 16, x / 32, x / 64;
    assert b == a / 2 && c == b / 2 && d == c / 2 && e == d / 2 && f == e / 2 && x / 128 == f / 2;
    assert BitLen(x) == 2 + BitLen(b);
    assert BitLen(b) == 2 + BitLen(d);
    assert BitLen(d) == 2 + BitLen(f);
  }

  lemma BitLenSmall(x: nat)
    requires 1 <= x < 128
    ensures 1 <= BitLen(x) <= 7
  {
    BitLenAtMost(x, 7);
  }

  lemma {:induction false} BitLenAtMost(x: nat, k: nat)
    requires x < Pow2(k)
    ensures BitLen(x) <= k
  {
    if x == 0 {
    } else {
      assert k > 0 && x / 2 < Pow2(k - 1);
      BitLenAtMost(x / 2, k - 1);
    }
  }

  /** The size the code reserves is the size it writes. */
  lemma {:induction false} SizeOfIsLength(v: nat)
    ensures SizeOf(v) == |Encode(v)|
  {
    var odd := if v % 2 == 0 then v + 1 else v;
    if v < 128 {
      BitLenSmall(odd);
    } else {
      SizeOfIsLength(v / 128);
      BitLenShift7(odd);
      var q := v / 128;
      assert odd / 128 == q;
      var oddQ := if q % 2 == 0 then q + 1 else q;
      assert oddQ / 2 == q / 2;
      assert BitLen(oddQ) == BitLen(q);
    }
  }

  // ---------------------------------------------------------------- reading

  /**
   The shift loop from its k-th round on. The value is not truncated here: the caller keeps as
   many low bits as its accumulator is wide.
   */
  function ReadFrom(b: seq<Byte>, i: nat, k: nat): (r: Result<Parsed<nat>, Error>)
    requires i <= |b| && k <= MAX_VARINT_BYTES
    ensures r.Success? ==> i < r.value.next <= |b| && r.value.next <= i + MAX_VARINT_BYTES - k
    decreases MAX_VARINT_BYTES - k
  {
    if k == MAX_VARINT_BYTES then Failure(IntOverflow)
    else if i == |b| then Failure(UnexpectedEof)
    else if b[i] < 128 then Success(Parsed(b[i], i + 1))
    else
      match ReadFrom(b, i + 1, k + 1)
      case Failure(e) => Failure(e)
      case Success(rest) => Success(Parsed(b[i] - 128 + 128 * rest.value, rest.next))
  }

  function Read(b: seq<Byte>, i: nat): (r: Result<Parsed<nat>, Error>)
    requires i <= |b|
    ensures r.Success? ==> i < r.value.next <= |b|
  {
    ReadFrom(b, i, 0)
  }

  /** Only the bytes of a varint decide how it is read. */
  lemma {:induction false} ReadFromLocal(b: seq<Byte>, b': seq<Byte>, i: nat, k: nat, shift: int)
    requires i <= |b| && k <= MAX_VARINT_BYTES && ReadFrom(b, i, k).Success?
    requires Agree(b, b', i, ReadFrom(b, i, k).value.next, shift)
    ensures var r := ReadFrom(b, i, k).value; ReadFrom(b', i + shift, k) == Success(Parsed(r.value, r.next + shift))
    decreases MAX_VARINT_BYTES - k
  {
    if b[i] < 128 {
    } else {
      ReadFromLocal(b, b', i + 1, k + 1, shift);
    }
  }

  /** 128 to the power of the rounds still allowed. */
  function Cap(k: nat): (c: nat)
    requires k <= MAX_VARINT_BYTES
    ensures c > 0
    decreases MAX_VARINT_BYTES - k
  {
    if k == MAX_VARINT_BYTES then 1 else 128 * Cap(k + 1)
  }

  lemma CapIsWideEnough()
    ensures TWO_64 <= Cap(0)
  {
    assert Cap(8) == 128 * 128;
    assert Cap(6) == 128 * 128 * Cap(8);
    assert Cap(4) == 128 * 128 * Cap(6);
    assert Cap(2) == 128 * 128 * Cap(4);
  }

  lemma {:induction false} ReadFromEncode(b: seq<Byte>, i: nat, v: nat, k: nat)
    requires k < MAX_VARINT_BYTES && v < Cap(k)
    requires Holds(b, i, Encode(v))
    ensures ReadFrom(b, i, k) == Success(Parsed(v, i + |Encode(v)|))
    decreases MAX_VARINT_BYTES - k
  {
    assert b[i + 0] == Encode(v)[0];
    if v < 128 {
    } else {
      forall x | 0 <= x < |Encode(v / 128)|
        ensures b[i + 1 + x] == Encode(v / 128)[x]
      {
        assert b[i + (x + 1)] == Encode(v)[x + 1];
      }
      ReadFromEncode(b, i + 1, v / 128, k + 1);
    }
  }

  /** Reading undoes writing, for every 64-bit value. */
  lemma ReadEncode(b: seq<Byte>, i: nat, v: nat)
    requires v < TWO_64 && Holds(b, i, Encode(v))
    ensures Read(b, i) == Success(Parsed(v, i + |Encode(v)|))
  {
    CapIsWideEnough();
    ReadFromEncode(b, i, v, 0);
  }

  /** A negative int32 takes all ten bytes. */
  lemma NegativeTakesTenBytes(v: Int32)
    requires v < 0
    ensures |Encode(FromInt32(v))| == MAX_VARINT_BYTES
  {
    Pow2Values();
    EncodeLength(FromInt32(v), 9);
  }

  lemma {:induction false} EncodeLength(v: nat, k: nat)
    requires Pow2(7 * k) <= v < 128 * Pow2(7 * k)
    ensures |Encode(v)| == k + 1
  {
    if k == 0 {
    } else {
      Pow2Add7(7 * (k - 1));
      EncodeLength(v / 128, k - 1);
    }
  }

  // ---------------------------------------------------------------- the loops of the code

  function Pow2(k: nat): (p: nat)
    ensures p > 0
  {
    if k == 0 then 1 else 2 * Pow2(k - 1)
  }

  lemma Pow2Add7(k: nat)
    ensures Pow2(k + 7) == 128 * Pow2(k)
  {
    assert Pow2(k + 7) == 2 * Pow2(k + 6) == 4 * Pow2(k + 5);
    assert Pow2(k + 5) == 2 * Pow2(k + 4) == 4 * Pow2(k + 3);
    assert Pow2(k + 3) == 2 * Pow2(k + 2) == 4 * Pow2(k + 1);
  }

  lemma Pow2Values()
    ensures Pow2(32) == TWO_32 && Pow2(64) == TWO_64 && 2 * Pow2(63) == TWO_64
  {
    Pow2Add7(0); Pow2Add7(7); Pow2Add7(14); Pow2Add7(21);
    assert Pow2(32) == 2 * Pow2(31) == 4 * Pow2(30) == 8 * Pow2(29) == 16 * Pow2(28);
    Pow2Split(32, 32);
  }

  lemma {:induction false} Pow2Split(a: nat, b: nat)
    ensures Pow2(a + b) == Pow2(a) * Pow2(b)
  {
    if a == 0 {
    } else {
      Pow2Split(a - 1, b);
      assert Pow2(a) * Pow2(b) == 2 * (Pow2(a - 1) * Pow2(b));
    }
  }

  /** `x | y` on non-negative integers. */
  function Or(x: nat, y: nat): nat {
    if x == 0 then y
    else if y == 0 then x
    else (if x % 2 == 1 || y % 2 == 1 then 1 else 0) + 2 * Or(x / 2, y / 2)
  }

  /** `x << s` without loss. */
  function Place(x: nat, s: nat): nat {
    if s == 0 then x else 2 * Place(x, s - 1)
  }

  /** `x << s` in a `width`-bit type: what is shifted out is lost, so a shift by `width` gives 0. */
  function ShiftLeft(x: nat, s: nat, width: nat): nat {
    Place(x, s) % Pow2(width)
  }

  lemma {:induction false} PlaceIsProduct(x: nat, s: nat)
    ensures Place(x, s) == x * Pow2(s)
  {
    if s == 0 {
    } else {
      PlaceIsProduct(x, s - 1);
      MulRegroup(x, 2, Pow2(s - 1));
    }
  }

  /** Splitting a value at its seven low bits commutes with the shift. */
  lemma {:induction false} PlaceSplit(digit: nat, v: nat, s: nat)
    ensures Place(digit + 128 * v, s) == Place(digit, s) + Place(v, s + 7)
    ensures digit < 128 ==> Place(digit, s) + Pow2(s) <= Pow2(s + 7)
  {
    if s == 0 {
      PlaceIsProduct(v, 7);
      Pow2Add7(0);
    } else {
      PlaceSplit(digit, v, s - 1);
    }
  }

  /** Or of a low and a high part is their sum. */
  lemma {:induction false} OrOfDisjoint(low: nat, high: nat, s: nat)
    requires low < Pow2(s)
    ensures Or(low, Place(high, s)) == low + Place(high, s)
  {
    if s == 0 || low == 0 {
    } else {
      OrOfDisjoint(low / 2, high, s - 1);
    }
  }

  lemma MulMonotone(a: nat, b: nat, m: nat)
    requires a <= b
    ensures a * m <= b * m
  {
    assert b * m == a * m + (b - a) * m;
  }

  lemma {:induction false} QuotientUnique(q: nat, r: nat, q': nat, r': nat, m: nat)
    requires r < m && r' < m && q * m + r == q' * m + r'
    ensures q <= q'
  {
    if q' < q {
      Distribute(q', 1, m);
      MulMonotone(q' + 1, q, m);
    }
  }

  lemma {:induction false} DivModUnique(x: nat, q: nat, r: nat, m: nat)
    requires r < m && x == q * m + r
    ensures x % m == r
  {
    QuotientUnique(q, r, x / m, x % m, m);
    QuotientUnique(x / m, x % m, q, r, m);
  }

  lemma {:induction false} ModMultiple(x: nat, k: nat, m: nat)
    requires m > 0
    ensures (x + k * m) % m == x % m
  {
    var q := x / m;
    assert x == q * m + x % m;
    assert x + k * m == (q + k) * m + x % m;
    DivModUnique(x + k * m, q + k, x % m, m);
  }

  lemma MulRegroup(a: nat, b: nat, c: nat)
    ensures a * (b * c) == (a * b) * c == (a * c) * b
  {
  }

  /** One round of the shift loop keeps the low `width` bits of the value read so far. */
  lemma {:induction false} OrRound(low: nat, digit: nat, s: nat, width: nat)
    requires low < Pow2(s)
    ensures Or(low % Pow2(width), ShiftLeft(digit, s, width)) == (low + Place(digit, s)) % Pow2(width)
  {
    if s >= width {
      OrRoundBeyond(low, digit, s, width);
    } else {
      OrRoundWithin(low, digit, s, width);
    }
  }

  lemma {:induction false} OrRoundBeyond(low: nat, digit: nat, s: nat, width: nat)
    requires s >= width
    ensures Or(low % Pow2(width), ShiftLeft(digit, s, width)) == (low + Place(digit, s)) % Pow2(width)
  {
    var m, q := Pow2(width), Pow2(s - width);
    PlaceIsProduct(digit, s);
    Pow2Split(width, s - width);
    MulRegroup(digit, m, q);
    ModMultiple(0, digit * q, m);
    ModMultiple(low, digit * q, m);
  }

  /** The part of `digit * 2^s` that survives in `width` bits is a multiple of `2^s`. */
  lemma {:induction false} ShiftKeeps(digit: nat, s: nat, width: nat) returns (high: nat, over: nat)
    requires s < width
    ensures Place(digit, s) == over * Pow2(width) + Place(high, s)
    ensures Place(high, s) + Pow2(s) <= Pow2(width)
  {
    Pow2Split(s, width - s);
    high, over := SplitProduct(digit, Pow2(s), Pow2(width - s));
    PlaceIsProduct(digit, s);
    PlaceIsProduct(high, s);
  }

  lemma SplitProduct(x: nat, p: nat, q: nat) returns (high: nat, over: nat)
    requires q > 0
    ensures x * p == over * (p * q) + high * p
    ensures high * p + p <= p * q
  {
    high, over := x % q, x / q;
    assert x == over * q + high;
    Distribute(over * q, high, p);
    MulRegroup(over, p, q);
    MulMonotone(high + 1, q, p);
    Distribute(high, 1, p);
  }

  lemma {:induction false} OrRoundWithin(low: nat, digit: nat, s: nat, width: nat)
    requires low < Pow2(s) && s < width
    ensures Or(low % Pow2(width), ShiftLeft(digit, s, width)) == (low + Place(digit, s)) % Pow2(width)
  {
    var m := Pow2(width);
    var high, over := ShiftKeeps(digit, s, width);
    var part := Place(high, s);
    DivModUnique(Place(digit, s), over, part, m);
    DivModUnique(low + Place(digit, s), over, low + part, m);
    DivModUnique(low, 0, low, m);
    OrOfDisjoint(low, high, s);
  }

  /** What the rounds before have put together, in front of what the rest reads. */
  function Assembled(low: nat, s: nat, rest: Result<Parsed<nat>, Error>): Result<Parsed<nat>, Error> {
    match rest
    case Failure(e) => Failure(e)
    case Success(v) => Success(Parsed(low + Place(v.value, s), v.next))
  }

  /** `uint64(x)` for a wide accumulator, `uint32(x)` for a narrow one. */
  function Truncate(x: nat, wide: bool): nat {
    if wide then x % 0x1_0000_0000_0000_0000 else x % 0x1_0000_0000
  }

  function TruncateResult(r: Result<Parsed<nat>, Error>, wide: bool): Result<Parsed<nat>, Error> {
    match r
    case Failure(e) => Failure(e)
    case Success(v) => Success(Parsed(Truncate(v.value, wide), v.next))
  }

  /** A round with the continuation bit set moves seven bits from the rest into `low`. */
  lemma InnerRound(b: seq<Byte>, i: nat, low: nat, s: nat, k: nat)
    requires i < |b| && k < MAX_VARINT_BYTES && b[i] >= 128 && s == 7 * k && low < Pow2(s)
    ensures low + Place(b[i] % 128, s) < Pow2(7 * (k + 1))
    ensures Assembled(low, s, ReadFrom(b, i, k))
            == Assembled(low + Place(b[i] % 128, s), 7 * (k + 1), ReadFrom(b, i + 1, k + 1))
  {
    var digit := b[i] - 128;
    assert b[i] % 128 == digit;
    match ReadFrom(b, i + 1, k + 1)
    case Failure(_) => PlaceSplit(digit, 0, s);
    case Success(v) => PlaceSplit(digit, v.value, s);
  }

  /** The shift loop from its k-th round on, with the bits in `value` collected before. */
  function Rounds(b: seq<Byte>, i: nat, value: nat, k: nat, wide: bool): Result<Parsed<nat>, Error>
    requires i <= |b| && k <= MAX_VARINT_BYTES
    decreases MAX_VARINT_BYTES - k
  {
    if 7 * k >= 64 then Failure(IntOverflow)
    else if i == |b| then Failure(UnexpectedEof)
    else
      var value' := Or(value, Truncate(Place(b[i] % 128, 7 * k), wide));
      if b[i] < 128 then Success(Parsed(value', i + 1)) else Rounds(b, i + 1, value', k + 1, wide)
  }

  lemma OrRoundTruncated(low: nat, digit: nat, s: nat, wide: bool)
    requires low < Pow2(s)
    ensures Or(Truncate(low, wide), Truncate(Place(digit, s), wide)) == Truncate(low + Place(digit, s), wide)
  {
    Pow2Values();
    OrRound(low, digit, s, if wide then 64 else 32);
  }

  lemma {:induction false} RoundsStep(b: seq<Byte>, i: nat, low: nat, k: nat, wide: bool, longer: nat)
    requires i < |b| && k < MAX_VARINT_BYTES && low < Pow2(7 * k)
    requires longer == low + Place(b[i] % 128, 7 * k)
    ensures b[i] < 128 ==> Rounds(b, i, Truncate(low, wide), k, wide) == Success(Parsed(Truncate(longer, wide), i + 1))
    ensures b[i] >= 128 ==>
              Rounds(b, i, Truncate(low, wide), k, wide) == Rounds(b, i + 1, Truncate(longer, wide), k + 1, wide)
  {
    OrRoundTruncated(low, b[i] % 128, 7 * k, wide);
  }

  lemma NoRounds(b: seq<Byte>, i: nat, value: nat, low: nat, s: nat, k: nat, wide: bool)
    requires i <= |b| && k <= MAX_VARINT_BYTES && (k == MAX_VARINT_BYTES || i >= |b|)
    ensures Rounds(b, i, value, k, wide) == TruncateResult(Assembled(low, s, ReadFrom(b, i, k)), wide)
  {
    hide Place, Truncate, Or;
  }

  lemma LastRound(b: seq<Byte>, i: nat, low: nat, s: nat, k: nat)
    requires i < |b| && k < MAX_VARINT_BYTES && b[i] < 128
    ensures Assembled(low, s, ReadFrom(b, i, k)) == Success(Parsed(low + Place(b[i] % 128, s), i + 1))
  {
    hide Place;
  }

  /** Or-ing truncated digits gives the truncated value. */
  lemma {:induction false} RoundsRead(b: seq<Byte>, i: nat, low: nat, k: nat, wide: bool)
    requires i <= |b| && k <= MAX_VARINT_BYTES && low < Pow2(7 * k)
    ensures Rounds(b, i, Truncate(low, wide), k, wide)
            == TruncateResult(Assembled(low, 7 * k, ReadFrom(b, i, k)), wide)
    decreases MAX_VARINT_BYTES - k
  {
    hide Place, Truncate, Rounds, Assembled, ReadFrom, Pow2;
    if k == MAX_VARINT_BYTES || i >= |b| {
      NoRounds(b, i, Truncate(low, wide), low, 7 * k, k, wide);
    } else {
      var longer := low + Place(b[i] % 128, 7 * k);
      RoundsStep(b, i, low, k, wide, longer);
      if b[i] < 128 {
        LastRound(b, i, low, 7 * k, k);
      } else {
        InnerRound(b, i, low, 7 * k, k);
        RoundsRead(b, i + 1, longer, k + 1, wide);
      }
    }
  }

  /**
   The loop that is repeated for every varint of the generated code, with an accumulator of 64
   bits (tags, lengths, bools) or 32 bits (int32 fields).
   */
  method ReadVarint(data: seq<Byte>, start: nat, wide: bool) returns (value: nat, next: nat, err: Option<Error>)
    requires start <= |data|
    ensures match Read(data, start)
            case Failure(e) => err == Some(e)
            case Success(v) => err == None && value == Truncate(v.value, wide) && next == v.next
  {
    RoundsRead(data, start, 0, 0, wide);
    value, next, err := 0, start, None;
    var shift := 0;
    ghost var k := 0;
    while true
      invariant 0 <= k <= MAX_VARINT_BYTES && shift == 7 * k && next <= |data|
      invariant Rounds(data, start, 0, 0, wide) == Rounds(data, next, value, k, wide)
      decreases MAX_VARINT_BYTES - k
    {
      if shift >= 64 {
        return value, next, Some(IntOverflow);
      }
      if next >= |data| {
        return value, next, Some(UnexpectedEof);
      }
      var b := data[next];
      next := next + 1;
      value := Or(value, Truncate(Place(b % 128, shift), wide));
      if b < 128 {
        return;
      }
      shift := shift + 7;
      k := k + 1;
    }
  }

  lemma Distribute(a: nat, b: nat, c: nat)
    ensures (a + b) * c == a * c + b * c
  {
  }

  /** `protohelpers.EncodeVarint`: the varint of `v` ends where `offset` points. */
  method EncodeBackward(data: array<Byte>, offset: nat, v: nat) returns (base: nat)
    requires |Encode(v)| <= offset <= data.Length
    modifies data
    ensures base == offset - |Encode(v)|
    ensures data[base..offset] == Encode(v)
    ensures data[..base] == old(data[..base]) && data[offset..] == old(data[offset..])
  {
    SizeOfIsLength(v);
    base := offset - SizeOf(v);
    var end := EncodeForward(data, base, v);
  }

  /** The forward loop both `EncodeVarint` and the packed int32 window run. */
  method EncodeForward(data: array<Byte>, start: nat, v: nat) returns (end: nat)
    requires start + |Encode(v)| <= data.Length
    modifies data
    ensures end == start + |Encode(v)|
    ensures data[start..end] == Encode(v)
    ensures data[..start] == old(data[..start]) && data[end..] == old(data[end..])
  {
    var rest := v;
    end := start;
    while rest >= 128
      invariant start <= end && end + |Encode(rest)| == start + |Encode(v)|
      invariant data[start..end] + Encode(rest) == Encode(v)
      invariant data[..start] == old(data[..start])
      invariant data[end..] == old(data[end..])
    {
      data[end] := rest % 128 + 128;
      assert data[start..end + 1] == data[start..end] + [rest % 128 + 128];
      rest := rest / 128;
      end := end + 1;
      assert data[end..] == old(data[end - 1..])[1..];
    }
    data[end] := rest;
    assert data[start..end + 1] == data[start..end] + [rest];
    end := end + 1;
    assert data[end..] == old(data[end - 1..])[1..];
  }
}

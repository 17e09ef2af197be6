/**
 The generated wire codec of `api/specs/specs_vtproto.pb.go`, driven by a field table instead of
 one unrolled block per field. Strings are byte strings: the generated code checks no UTF-8.
 */
module Wire {
  import opened Wrappers
  import opened Varint

  type Bytes = seq<Byte>

  datatype Kind = Int32Kind | BoolKind | StringKind | StringsKind | PackedKind

  /**
   One case of the generated switch: its number, its kind, the tag bytes the writer stores and the
   tag size the size function adds. The last two are literals of the generated code.
   */
  datatype Field = Field(number: nat, kind: Kind, tag: Bytes, tagSize: nat)

  type Schema = seq<Field>

  datatype Value =
    | IntValue(i: Int32)
    | BoolValue(b: bool)
    | StringValue(s: Bytes)
    | StringsValue(ss: seq<Bytes>)
    | PackedValue(ints: seq<Int32>)

  /** The fields in table order, and the records no case of the switch recognised. */
  datatype Message = Message(fields: seq<Value>, unknown: Bytes)

  function WireType(kind: Kind): nat {
    match kind
    case Int32Kind | BoolKind => 0
    case StringKind | StringsKind | PackedKind => 2
  }

  /** The tag bytes agree with number and kind, and the numbers ascend. */
  ghost predicate WellFormed(schema: Schema) {
    && (forall k :: 0 <= k < |schema| ==> TagMatches(schema[k]))
    && (forall j, k :: 0 <= j < k < |schema| ==> schema[j].number < schema[k].number)
  }

  ghost predicate TagMatches(f: Field) {
    && 1 <= f.number < 0x1000_0000
    && f.tag == Encode(8 * f.number + WireType(f.kind))
    && f.tagSize == |f.tag|
  }

  predicate HasKind(v: Value, kind: Kind) {
    match kind
    case Int32Kind => v.IntValue?
    case BoolKind => v.BoolValue?
    case StringKind => v.StringValue?
    case StringsKind => v.StringsValue?
    case PackedKind => v.PackedValue?
  }

  ghost predicate Typed(schema: Schema, m: Message) {
    && |m.fields| == |schema|
    && forall k :: 0 <= k < |schema| ==> HasKind(m.fields[k], schema[k].kind)
  }

  function Zero(kind: Kind): Value {
    match kind
    case Int32Kind => IntValue(0)
    case BoolKind => BoolValue(false)
    case StringKind => StringValue([])
    case StringsKind => StringsValue([])
    case PackedKind => PackedValue([])
  }

  function Empty(schema: Schema): Message {
    Message(seq(|schema|, k requires 0 <= k < |schema| => Zero(schema[k].kind)), [])
  }

  // ---------------------------------------------------------------- writing

  function EncodeInts(ints: seq<Int32>): Bytes {
    if ints == [] then [] else Encode(FromInt32(ints[0])) + EncodeInts(ints[1..])
  }

  function EncodeBytes(tag: Bytes, s: Bytes): Bytes {
    tag + Encode(|s|) + s
  }

  /** Repeated strings keep their empty elements. */
  function EncodeStrings(tag: Bytes, ss: seq<Bytes>): Bytes {
    if ss == [] then [] else EncodeBytes(tag, ss[0]) + EncodeStrings(tag, ss[1..])
  }

  /** Zero values are not written. */
  function EncodeField(f: Field, v: Value): Bytes {
    match v
    case IntValue(i) => if i == 0 then [] else f.tag + Encode(FromInt32(i))
    case BoolValue(b) => if b then f.tag + [1] else []
    case StringValue(s) => if s == [] then [] else EncodeBytes(f.tag, s)
    case StringsValue(ss) => EncodeStrings(f.tag, ss)
    case PackedValue(ints) => if ints == [] then [] else EncodeBytes(f.tag, EncodeInts(ints))
  }

  function EncodeFields(schema: Schema, fields: seq<Value>, k: nat): Bytes
    requires k <= |schema| == |fields|
    decreases |schema| - k
  {
    if k == |schema| then [] else EncodeField(schema[k], fields[k]) + EncodeFields(schema, fields, k + 1)
  }

  /** What `MarshalVT` returns. */
  function Marshal(schema: Schema, m: Message): Bytes
    requires |m.fields| == |schema|
  {
    EncodeFields(schema, m.fields, 0) + m.unknown
  }

  // ---------------------------------------------------------------- reading

  /** A length prefix and the window it announces. */
  function ReadLength(b: Bytes, i: nat): (r: Result<Parsed<nat>, Error>)
    requires i <= |b|
    ensures r.Success? ==> i < r.value.next && r.value.next + r.value.value <= |b|
  {
    match Read(b, i)
    case Failure(e) => Failure(e)
    case Success(v) =>
      var len := v.value % 0x1_0000_0000_0000_0000;
      if len >= 0x8000_0000_0000_0000 then Failure(InvalidLength)
      else if v.next + len > |b| then Failure(UnexpectedEof)
      else Success(Parsed(len, v.next))
  }

  /**
   The packed loop: it stops at the announced end, but the varint that crosses that end is read
   to its own end.
   */
  function ReadPacked(b: Bytes, i: nat, end: nat, acc: seq<Int32>): (r: Result<Parsed<seq<Int32>>, Error>)
    requires i <= |b|
    ensures r.Success? ==> i <= r.value.next <= |b|
    decreases |b| - i
  {
    if i >= end then Success(Parsed(acc, i))
    else
      match Read(b, i)
      case Failure(e) => Failure(e)
      case Success(v) => ReadPacked(b, v.next, end, acc + [ToInt32(v.value)])
  }

  /** The kinds that accept wire type 0. */
  predicate FitsVarint(kind: Kind) {
    kind.Int32Kind? || kind.BoolKind? || kind.PackedKind?
  }

  /** A scalar replaces what was there; a lone repeated int32 is appended. */
  function FromVarint(kind: Kind, raw: nat, prior: Value): (v: Value)
    requires FitsVarint(kind) && HasKind(prior, kind)
    ensures HasKind(v, kind)
  {
    if kind.Int32Kind? then IntValue(ToInt32(raw))
    else if kind.BoolKind? then BoolValue(raw % 0x1_0000_0000_0000_0000 != 0)
    else PackedValue(prior.ints + [ToInt32(raw)])
  }

  /** A length-delimited string, replacing or appended. */
  function ReadString(kind: Kind, b: Bytes, i: nat, prior: Value): (r: Result<Parsed<Value>, Error>)
    requires i <= |b| && (kind.StringKind? || kind.StringsKind?) && HasKind(prior, kind)
    ensures r.Success? ==> i < r.value.next <= |b| && HasKind(r.value.value, kind)
  {
    match ReadLength(b, i)
    case Failure(e) => Failure(e)
    case Success(len) =>
      var end := len.next + len.value;
      var s := b[len.next..end];
      Success(Parsed(if kind.StringKind? then StringValue(s) else StringsValue(prior.ss + [s]), end))
  }

  function ReadPackedField(b: Bytes, i: nat, prior: seq<Int32>): (r: Result<Parsed<seq<Int32>>, Error>)
    requires i <= |b|
    ensures r.Success? ==> i < r.value.next <= |b|
  {
    match ReadLength(b, i)
    case Failure(e) => Failure(e)
    case Success(len) => ReadPacked(b, len.next, len.next + len.value, prior)
  }

  /** The body of one case of the switch, from behind the tag. `prior` is the field so far. */
  function ReadValue(kind: Kind, wireType: nat, b: Bytes, i: nat, prior: Value): (r: Result<Parsed<Value>, Error>)
    requires i <= |b| && HasKind(prior, kind)
    ensures r.Success? ==> i < r.value.next <= |b| && HasKind(r.value.value, kind)
  {
    if wireType == 0 && FitsVarint(kind) then
      match Read(b, i)
      case Failure(e) => Failure(e)
      case Success(v) => Success(Parsed(FromVarint(kind, v.value, prior), v.next))
    else if wireType == 2 && kind.PackedKind? then
      match ReadPackedField(b, i, prior.ints)
      case Failure(e) => Failure(e)
      case Success(p) => Success(Parsed(PackedValue(p.value), p.next))
    else if wireType == 2 && !FitsVarint(kind) then ReadString(kind, b, i, prior)
    else Failure(WrongWireType)
  }

  /** Skips what a tag of the given wire type announces; the value is the group depth after it. */
  function SkipPayload(b: Bytes, i: nat, wireType: nat, depth: nat): (r: Result<Parsed<nat>, Error>)
    requires i <= |b|
    ensures r.Success? ==> i <= r.value.next <= |b|
  {
    match wireType
    case 0 => (match Read(b, i)
               case Failure(e) => Failure(e)
               case Success(v) => Success(Parsed(depth, v.next)))
    case 1 => if i + 8 > |b| then Failure(UnexpectedEof) else Success(Parsed(depth, i + 8))
    case 2 => (match ReadLength(b, i)
               case Failure(e) => Failure(e)
               case Success(len) => Success(Parsed(depth, len.next + len.value)))
    case 3 => Success(Parsed(depth + 1, i))
    case 4 => if depth == 0 then Failure(EndGroup) else Success(Parsed(depth - 1, i))
    case 5 => if i + 4 > |b| then Failure(UnexpectedEof) else Success(Parsed(depth, i + 4))
    case _ => Failure(IllegalWireType)
  }

  /** One tag and its payload; the value is the group depth after it. */
  function SkipOne(b: Bytes, i: nat, depth: nat): (r: Result<Parsed<nat>, Error>)
    requires i <= |b|
    ensures r.Success? ==> i < r.value.next <= |b|
  {
    match Read(b, i)
    case Failure(e) => Failure(e)
    case Success(tag) => SkipPayload(b, tag.next, tag.value % 8, depth)
  }

  /**
   `protohelpers.Skip`: the index behind the record at `i`, groups included. A record that runs
   past the end is refused here; the code refuses it at the call.
   */
  function Skip(b: Bytes, i: nat, depth: nat): (r: Result<nat, Error>)
    requires i <= |b|
    ensures r.Success? ==> i < r.value <= |b|
    decreases |b| - i
  {
    match SkipOne(b, i, depth)
    case Failure(e) => Failure(e)
    case Success(p) => if p.value == 0 then Success(p.next) else Skip(b, p.next, p.value)
  }

  /** The case of the switch for a field number, from table entry `k` on. */
  function Find(schema: Schema, number: int, k: nat): (r: Option<nat>)
    requires k <= |schema|
    ensures r.Some? ==> k <= r.value < |schema| && schema[r.value].number == number
    decreases |schema| - k
  {
    if k == |schema| then None
    else if schema[k].number == number then Some(k)
    else Find(schema, number, k + 1)
  }

  datatype Tag = Tag(number: int, wireType: nat)

  /** The checks in front of the switch: the number is the tag truncated to an int32. */
  function ReadTag(b: Bytes, i: nat): (r: Result<Parsed<Tag>, Error>)
    requires i <= |b|
    ensures r.Success? ==> i < r.value.next <= |b|
  {
    match Read(b, i)
    case Failure(e) => Failure(e)
    case Success(v) =>
      var wire := v.value % 0x1_0000_0000_0000_0000;
      var number := ToInt32(wire / 8);
      if wire % 8 == 4 then Failure(EndGroup)
      else if number <= 0 then Failure(IllegalTag)
      else Success(Parsed(Tag(number, wire % 8), v.next))
  }

  /** The default case: the record is kept as it stands. */
  function ReadUnknown(b: Bytes, i: nat, m: Message): (r: Result<Parsed<Message>, Error>)
    requires i <= |b|
    ensures r.Success? ==> i < r.value.next <= |b| && r.value.value.fields == m.fields
  {
    match Skip(b, i, 0)
    case Failure(e) => Failure(e)
    case Success(next) => Success(Parsed(m.(unknown := m.unknown + b[i..next]), next))
  }

  function ReadKnown(schema: Schema, k: nat, wireType: nat, b: Bytes, i: nat,
                     m: Message): (r: Result<Parsed<Message>, Error>)
    requires i <= |b| && k < |schema| && Typed(schema, m)
    ensures r.Success? ==> i < r.value.next <= |b| && Typed(schema, r.value.value)
  {
    match ReadValue(schema[k].kind, wireType, b, i, m.fields[k])
    case Failure(e) => Failure(e)
    case Success(v) => Success(Parsed(m.(fields := m.fields[k := v.value]), v.next))
  }

  /** One round of the decoding loop. */
  function ReadRecord(schema: Schema, b: Bytes, i: nat, m: Message): (r: Result<Parsed<Message>, Error>)
    requires i <= |b| && Typed(schema, m)
    ensures r.Success? ==> i < r.value.next <= |b| && Typed(schema, r.value.value)
  {
    match ReadTag(b, i)
    case Failure(e) => Failure(e)
    case Success(tag) =>
      match Find(schema, tag.value.number, 0)
      case None => ReadUnknown(b, i, m)
      case Some(k) => ReadKnown(schema, k, tag.value.wireType, b, tag.next, m)
  }

  /** `UnmarshalVT` from index `i` on, into a message that need not be empty. */
  function UnmarshalFrom(schema: Schema, b: Bytes, i: nat, m: Message): (r: Result<Message, Error>)
    requires i <= |b| && Typed(schema, m)
    ensures r.Success? ==> Typed(schema, r.value)
    decreases |b| - i
  {
    if i == |b| then Success(m)
    else
      match ReadRecord(schema, b, i, m)
      case Failure(e) => Failure(e)
      case Success(p) => UnmarshalFrom(schema, b, p.next, p.value)
  }

  function Unmarshal(schema: Schema, b: Bytes, m: Message): (r: Result<Message, Error>)
    requires Typed(schema, m)
    ensures r.Success? ==> Typed(schema, r.value)
  {
    UnmarshalFrom(schema, b, 0, m)
  }
}

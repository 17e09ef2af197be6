/**
 The two messages as the records they are declared as in `api/specs/specs.proto`, and what the table of
 fields makes of them: every record is a message of the right kinds, every such message is a record, and
 a record of field number n on the wire goes into the field that the declaration gives that number.
 */
module SpecRecords {
  import opened Wrappers
  import opened Varint
  import opened Wire
  import opened WireRoundTrip
  import opened WireRecords
  import opened Specs

  datatype MachineSpec = MachineSpec(
    vmId: Int32,
    vmName: Bytes,
    templateName: Bytes,
    templateId: Int32,
    imageName: Bytes,
    datastore: Bytes,
    networkNames: seq<Bytes>,
    schematicId: Bytes,
    talosVersion: Bytes,
    flavor: Bytes,
    phase: Bytes,
    lastError: Bytes,
    imageId: Int32,
    imageSource: Bytes,
    imageChecksum: Bytes,
    lastSuccessfulPhaseAt: Bytes,
    lastRetryClassification: Bytes,
    clusterName: Bytes,
    clusterPrefix: Bytes,
    nodeRole: Bytes,
    sequenceNumber: Int32,
    reservationId: Bytes,
    datastoreId: Int32,
    networkIds: seq<Int32>,
    resolvedHypervisor: Bytes,
    resolvedHostId: Int32,
    resolvedHostName: Bytes,
    resolvedClusterId: Int32,
    resolvedClusterName: Bytes,
    placementReason: Bytes,
    placementScoreSummary: Bytes,
    preflightStatus: Bytes,
    preflightErrors: seq<Bytes>,
    preflightWarnings: seq<Bytes>,
    imageAction: Bytes,
    imageCacheHit: bool,
    imageChecksumVerified: bool,
    bootstrapProfile: Bytes,
    driftStatus: Bytes,
    driftDetails: seq<Bytes>,
    resolvedStorageProfile: Bytes,
    resolvedHostTags: seq<Bytes>,
    resolvedDatastoreCapabilities: seq<Bytes>,
    diagnosticFingerprint: Bytes,
    unknownFields: Bytes)

  datatype NameReservationSpec = NameReservationSpec(
    clusterName: Bytes,
    clusterPrefix: Bytes,
    role: Bytes,
    ordinal: Int32,
    vmName: Bytes,
    machineRequestId: Bytes,
    machineUuid: Bytes,
    stateResourceId: Bytes,
    createdAt: Bytes,
    unknownFields: Bytes)

  // ---------------------------------------------------------------- values

  function IntOf(v: Value): Int32 {
    if v.IntValue? then v.i else 0
  }

  function BoolOf(v: Value): bool {
    v.BoolValue? && v.b
  }

  function StringOf(v: Value): Bytes {
    if v.StringValue? then v.s else []
  }

  function StringsOf(v: Value): seq<Bytes> {
    if v.StringsValue? then v.ss else []
  }

  function IntsOf(v: Value): seq<Int32> {
    if v.PackedValue? then v.ints else []
  }

  // ---------------------------------------------------------------- the machine message

  function Machine1To11(r: MachineSpec): seq<Value> {
    [IntValue(r.vmId), StringValue(r.vmName), StringValue(r.templateName), IntValue(r.templateId),
     StringValue(r.imageName), StringValue(r.datastore), StringsValue(r.networkNames),
     StringValue(r.schematicId), StringValue(r.talosVersion), StringValue(r.flavor), StringValue(r.phase)]
  }

  function Machine12To22(r: MachineSpec): seq<Value> {
    [StringValue(r.lastError), IntValue(r.imageId), StringValue(r.imageSource), StringValue(r.imageChecksum),
     StringValue(r.lastSuccessfulPhaseAt), StringValue(r.lastRetryClassification), StringValue(r.clusterName),
     StringValue(r.clusterPrefix), StringValue(r.nodeRole), IntValue(r.sequenceNumber),
     StringValue(r.reservationId)]
  }

  function Machine23To33(r: MachineSpec): seq<Value> {
    [IntValue(r.datastoreId), PackedValue(r.networkIds), StringValue(r.resolvedHypervisor),
     IntValue(r.resolvedHostId), StringValue(r.resolvedHostName), IntValue(r.resolvedClusterId),
     StringValue(r.resolvedClusterName), StringValue(r.placementReason), StringValue(r.placementScoreSummary),
     StringValue(r.preflightStatus), StringsValue(r.preflightErrors)]
  }

  function Machine34To44(r: MachineSpec): seq<Value> {
    [StringsValue(r.preflightWarnings), StringValue(r.imageAction), BoolValue(r.imageCacheHit),
     BoolValue(r.imageChecksumVerified), StringValue(r.bootstrapProfile), StringValue(r.driftStatus),
     StringsValue(r.driftDetails), StringValue(r.resolvedStorageProfile), StringsValue(r.resolvedHostTags),
     StringsValue(r.resolvedDatastoreCapabilities), StringValue(r.diagnosticFingerprint)]
  }

  function ToMessage(r: MachineSpec): (m: Message)
    ensures |m.fields| == |MACHINE_SPEC| == 44
  {
    Message(Machine1To11(r) + Machine12To22(r) + Machine23To33(r) + Machine34To44(r), r.unknownFields)
  }

  function OfMessage(m: Message): MachineSpec
    requires |m.fields| == 44
  {
    MachineSpec(IntOf(m.fields[0]), StringOf(m.fields[1]), StringOf(m.fields[2]), IntOf(m.fields[3]),
                StringOf(m.fields[4]), StringOf(m.fields[5]), StringsOf(m.fields[6]), StringOf(m.fields[7]),
                StringOf(m.fields[8]), StringOf(m.fields[9]), StringOf(m.fields[10]), StringOf(m.fields[11]),
                IntOf(m.fields[12]), StringOf(m.fields[13]), StringOf(m.fields[14]), StringOf(m.fields[15]),
                StringOf(m.fields[16]), StringOf(m.fields[17]), StringOf(m.fields[18]), StringOf(m.fields[19]),
                IntOf(m.fields[20]), StringOf(m.fields[21]), IntOf(m.fields[22]), IntsOf(m.fields[23]),
                StringOf(m.fields[24]), IntOf(m.fields[25]), StringOf(m.fields[26]), IntOf(m.fields[27]),
                StringOf(m.fields[28]), StringOf(m.fields[29]), StringOf(m.fields[30]), StringOf(m.fields[31]),
                StringsOf(m.fields[32]), StringsOf(m.fields[33]), StringOf(m.fields[34]), BoolOf(m.fields[35]),
                BoolOf(m.fields[36]), StringOf(m.fields[37]), StringOf(m.fields[38]), StringsOf(m.fields[39]),
                StringOf(m.fields[40]), StringsOf(m.fields[41]), StringsOf(m.fields[42]),
                StringOf(m.fields[43]), m.unknown)
  }

  /** The field that the declaration gives number `n`. */
  function Numbered(r: MachineSpec, n: nat): Value {
    if n <= 22 then Numbered1To22(r, n) else Numbered23To44(r, n)
  }

  function Numbered1To22(r: MachineSpec, n: nat): Value {
    match n
    case 1 => IntValue(r.vmId)
    case 2 => StringValue(r.vmName)
    case 3 => StringValue(r.templateName)
    case 4 => IntValue(r.templateId)
    case 5 => StringValue(r.imageName)
    case 6 => StringValue(r.datastore)
    case 7 => StringsValue(r.networkNames)
    case 8 => StringValue(r.schematicId)
    case 9 => StringValue(r.talosVersion)
    case 10 => StringValue(r.flavor)
    case 11 => StringValue(r.phase)
    case 12 => StringValue(r.lastError)
    case 13 => IntValue(r.imageId)
    case 14 => StringValue(r.imageSource)
    case 15 => StringValue(r.imageChecksum)
    case 16 => StringValue(r.lastSuccessfulPhaseAt)
    case 17 => StringValue(r.lastRetryClassification)
    case 18 => StringValue(r.clusterName)
    case 19 => StringValue(r.clusterPrefix)
    case 20 => StringValue(r.nodeRole)
    case 21 => IntValue(r.sequenceNumber)
    case 22 => StringValue(r.reservationId)
    case _ => IntValue(0)
  }

  function Numbered23To44(r: MachineSpec, n: nat): Value {
    match n
    case 23 => IntValue(r.datastoreId)
    case 24 => PackedValue(r.networkIds)
    case 25 => StringValue(r.resolvedHypervisor)
    case 26 => IntValue(r.resolvedHostId)
    case 27 => StringValue(r.resolvedHostName)
    case 28 => IntValue(r.resolvedClusterId)
    case 29 => StringValue(r.resolvedClusterName)
    case 30 => StringValue(r.placementReason)
    case 31 => StringValue(r.placementScoreSummary)
    case 32 => StringValue(r.preflightStatus)
    case 33 => StringsValue(r.preflightErrors)
    case 34 => StringsValue(r.preflightWarnings)
    case 35 => StringValue(r.imageAction)
    case 36 => BoolValue(r.imageCacheHit)
    case 37 => BoolValue(r.imageChecksumVerified)
    case 38 => StringValue(r.bootstrapProfile)
    case 39 => StringValue(r.driftStatus)
    case 40 => StringsValue(r.driftDetails)
    case 41 => StringValue(r.resolvedStorageProfile)
    case 42 => StringsValue(r.resolvedHostTags)
    case 43 => StringsValue(r.resolvedDatastoreCapabilities)
    case 44 => StringValue(r.diagnosticFingerprint)
    case _ => IntValue(0)
  }

  // ---------------------------------------------------------------- the kinds of the fields

  lemma Parts1(r: MachineSpec)
    ensures |Machine1To11(r)| == |MACHINE_1_TO_11| == 11
    ensures forall k :: 0 <= k < 11 ==> HasKind(Machine1To11(r)[k], MACHINE_1_TO_11[k].kind)
  {
  }

  lemma Parts2(r: MachineSpec)
    ensures |Machine12To22(r)| == |MACHINE_12_TO_22| == 11
    ensures forall k :: 0 <= k < 11 ==> HasKind(Machine12To22(r)[k], MACHINE_12_TO_22[k].kind)
  {
  }

  lemma Parts3(r: MachineSpec)
    ensures |Machine23To33(r)| == |MACHINE_23_TO_33| == 11
    ensures forall k :: 0 <= k < 11 ==> HasKind(Machine23To33(r)[k], MACHINE_23_TO_33[k].kind)
  {
  }

  lemma Parts4(r: MachineSpec)
    ensures |Machine34To44(r)| == |MACHINE_34_TO_44| == 11
    ensures forall k :: 0 <= k < 11 ==> HasKind(Machine34To44(r)[k], MACHINE_34_TO_44[k].kind)
  {
  }

  /** Every machine record has the kinds the table gives its fields. */
  lemma {:induction false} RecordIsTyped(r: MachineSpec)
    ensures Typed(MACHINE_SPEC, ToMessage(r))
  {
    hide Machine1To11, Machine12To22, Machine23To33, Machine34To44, HasKind;
    Parts1(r);
    Parts2(r);
    Parts3(r);
    Parts4(r);
    hide MACHINE_1_TO_11, MACHINE_12_TO_22, MACHINE_23_TO_33, MACHINE_34_TO_44;
  }

  /** The field `k` of a part of the table is field `k` behind the parts in front of it. */
  lemma FieldsAt(m: Message, k: nat)
    requires Typed(MACHINE_SPEC, m) && k < 44
    ensures |m.fields| == 44
    ensures k < 11 ==> HasKind(m.fields[k], MACHINE_1_TO_11[k].kind)
    ensures 11 <= k < 22 ==> HasKind(m.fields[k], MACHINE_12_TO_22[k - 11].kind)
    ensures 22 <= k < 33 ==> HasKind(m.fields[k], MACHINE_23_TO_33[k - 22].kind)
    ensures 33 <= k ==> HasKind(m.fields[k], MACHINE_34_TO_44[k - 33].kind)
  {
    hide HasKind;
    assert |MACHINE_1_TO_11| == |MACHINE_12_TO_22| == |MACHINE_23_TO_33| == |MACHINE_34_TO_44| == 11;
    hide MACHINE_1_TO_11, MACHINE_12_TO_22, MACHINE_23_TO_33, MACHINE_34_TO_44;
    assert HasKind(m.fields[k], MACHINE_SPEC[k].kind);
  }

  /** Records and typed messages are the same thing. */
  lemma {:induction false} RecordOfItsMessage(r: MachineSpec)
    ensures |ToMessage(r).fields| == 44 && OfMessage(ToMessage(r)) == r
  {
  }

  /** The table has the fields in the order of their numbers. */
  lemma Numbered1(r: MachineSpec, n: nat)
    requires 1 <= n <= 11
    ensures |Machine1To11(r)| == 11 && Machine1To11(r)[n - 1] == Numbered(r, n)
  {
  }

  lemma Numbered2(r: MachineSpec, n: nat)
    requires 12 <= n <= 22
    ensures |Machine12To22(r)| == 11 && Machine12To22(r)[n - 12] == Numbered(r, n)
  {
  }

  lemma Numbered3(r: MachineSpec, n: nat)
    requires 23 <= n <= 33
    ensures |Machine23To33(r)| == 11 && Machine23To33(r)[n - 23] == Numbered(r, n)
  {
  }

  lemma Numbered4(r: MachineSpec, n: nat)
    requires 34 <= n <= 44
    ensures |Machine34To44(r)| == 11 && Machine34To44(r)[n - 34] == Numbered(r, n)
  {
  }

  lemma {:induction false} NumberedIsField(r: MachineSpec, n: nat)
    requires 1 <= n <= 44
    ensures |ToMessage(r).fields| == 44 && ToMessage(r).fields[n - 1] == Numbered(r, n)
  {
    hide Numbered, Machine1To11, Machine12To22, Machine23To33, Machine34To44;
    Parts1(r);
    Parts2(r);
    Parts3(r);
    Parts4(r);
    if n <= 11 { Numbered1(r, n); } else if n <= 22 { Numbered2(r, n); }
    else if n <= 33 { Numbered3(r, n); } else { Numbered4(r, n); }
  }

  lemma {:induction false} NumberedOf1(m: Message, n: nat)
    requires |m.fields| == 44 && 1 <= n <= 11 && HasKind(m.fields[n - 1], MACHINE_1_TO_11[n - 1].kind)
    ensures Numbered(OfMessage(m), n) == m.fields[n - 1]
  {
  }

  lemma {:induction false} NumberedOf2(m: Message, n: nat)
    requires |m.fields| == 44 && 12 <= n <= 22 && HasKind(m.fields[n - 1], MACHINE_12_TO_22[n - 12].kind)
    ensures Numbered(OfMessage(m), n) == m.fields[n - 1]
  {
  }

  lemma {:induction false} NumberedOf3(m: Message, n: nat)
    requires |m.fields| == 44 && 23 <= n <= 33 && HasKind(m.fields[n - 1], MACHINE_23_TO_33[n - 23].kind)
    ensures Numbered(OfMessage(m), n) == m.fields[n - 1]
  {
  }

  lemma {:induction false} NumberedOf4(m: Message, n: nat)
    requires |m.fields| == 44 && 34 <= n <= 44 && HasKind(m.fields[n - 1], MACHINE_34_TO_44[n - 34].kind)
    ensures Numbered(OfMessage(m), n) == m.fields[n - 1]
  {
  }

  lemma {:induction false} NumberedOf(m: Message, n: nat)
    requires Typed(MACHINE_SPEC, m) && 1 <= n <= 44
    ensures |m.fields| == 44 && Numbered(OfMessage(m), n) == m.fields[n - 1]
  {
    FieldsAt(m, n - 1);
    hide Typed, HasKind, Numbered, OfMessage;
    if n <= 11 { NumberedOf1(m, n); } else if n <= 22 { NumberedOf2(m, n); }
    else if n <= 33 { NumberedOf3(m, n); } else { NumberedOf4(m, n); }
  }

  lemma UnknownOf(m: Message)
    requires |m.fields| == 44
    ensures OfMessage(m).unknownFields == m.unknown
  {
  }

  lemma UnknownTo(r: MachineSpec)
    ensures ToMessage(r).unknown == r.unknownFields
  {
    hide Machine1To11, Machine12To22, Machine23To33, Machine34To44;
  }

  lemma {:induction false} MessageOfItsRecord(m: Message)
    requires Typed(MACHINE_SPEC, m)
    ensures |m.fields| == 44 && ToMessage(OfMessage(m)) == m
  {
    hide Typed, OfMessage, Numbered, ToMessage;
    NumberedOf(m, 1);
    UnknownOf(m);
    UnknownTo(OfMessage(m));
    var m' := ToMessage(OfMessage(m));
    NumberedIsField(OfMessage(m), 1);
    forall k: nat | k < 44 ensures m'.fields[k] == m.fields[k] {
      NumberedOf(m, k + 1);
      NumberedIsField(OfMessage(m), k + 1);
    }
    assert m'.fields == m.fields;
  }

  // ---------------------------------------------------------------- the machine message on the wire

  /** The kind that the declared type of field `n` comes to. */
  function DeclaredKind(n: nat): Kind {
    match n
    case 1 => Int32Kind
    case 4 => Int32Kind
    case 7 => StringsKind
    case 13 => Int32Kind
    case 21 => Int32Kind
    case 23 => Int32Kind
    case 24 => PackedKind
    case 26 => Int32Kind
    case 28 => Int32Kind
    case 33 => StringsKind
    case 34 => StringsKind
    case 36 => BoolKind
    case 37 => BoolKind
    case 40 => StringsKind
    case 42 => StringsKind
    case 43 => StringsKind
    case _ => StringKind
  }

  lemma {:induction false} KindOfRow(n: nat)
    requires 1 <= n <= 44
    ensures |MACHINE_SPEC| == 44 && MACHINE_SPEC[n - 1].kind == DeclaredKind(n) && MACHINE_SPEC[n - 1].number == n
  {
    assert |MACHINE_1_TO_11| == |MACHINE_12_TO_22| == |MACHINE_23_TO_33| == |MACHINE_34_TO_44| == 11;
    if n <= 11 { Rows1(n); } else if n <= 22 { Rows2(n); } else if n <= 33 { Rows3(n); } else { Rows4(n); }
    hide MACHINE_1_TO_11, MACHINE_12_TO_22, MACHINE_23_TO_33, MACHINE_34_TO_44, DeclaredKind;
  }

  lemma Rows1(n: nat)
    requires 1 <= n <= 11
    ensures MACHINE_1_TO_11[n - 1].kind == DeclaredKind(n) && MACHINE_1_TO_11[n - 1].number == n
  {
  }

  lemma Rows2(n: nat)
    requires 12 <= n <= 22
    ensures MACHINE_12_TO_22[n - 12].kind == DeclaredKind(n) && MACHINE_12_TO_22[n - 12].number == n
  {
  }

  lemma Rows3(n: nat)
    requires 23 <= n <= 33
    ensures MACHINE_23_TO_33[n - 23].kind == DeclaredKind(n) && MACHINE_23_TO_33[n - 23].number == n
  {
  }

  lemma Rows4(n: nat)
    requires 34 <= n <= 44
    ensures MACHINE_34_TO_44[n - 34].kind == DeclaredKind(n) && MACHINE_34_TO_44[n - 34].number == n
  {
  }

  /** `m` with a new value for field `n`, as a record: that field has it and all others are as they were. */
  ghost predicate Sets(m: Message, n: nat, v: Value, m': Message) {
    && |m.fields| == |m'.fields| == 44
    && Numbered(OfMessage(m'), n) == v && OfMessage(m').unknownFields == OfMessage(m).unknownFields
    && forall j :: 1 <= j <= 44 && j != n ==> Numbered(OfMessage(m'), j) == Numbered(OfMessage(m), j)
  }

  lemma TypedWith(schema: Schema, m: Message, k: nat, v: Value)
    requires Typed(schema, m) && k < |schema| && HasKind(v, schema[k].kind)
    ensures |m.fields| == |schema| && Typed(schema, m.(fields := m.fields[k := v]))
  {
    hide HasKind;
  }

  lemma {:induction false} SetsField(m: Message, n: nat, v: Value)
    requires Typed(MACHINE_SPEC, m) && 1 <= n <= 44 && HasKind(v, MACHINE_SPEC[n - 1].kind)
    ensures Sets(m, n, v, m.(fields := m.fields[n - 1 := v]))
  {
    TypedWith(MACHINE_SPEC, m, n - 1, v);
    NumberedOf(m, 1);
    hide MACHINE_SPEC, HasKind, Numbered, OfMessage, Typed;
    var m' := m.(fields := m.fields[n - 1 := v]);
    UnknownOf(m);
    UnknownOf(m');
    forall j: nat | 1 <= j <= 44 ensures Numbered(OfMessage(m'), j) == if j == n then v else Numbered(OfMessage(m), j) {
      NumberedOf(m, j);
      NumberedOf(m', j);
    }
  }

  lemma {:induction false} NetworkIdsOf(m: Message)
    requires Typed(MACHINE_SPEC, m)
    ensures |m.fields| == 44 && m.fields[23] == PackedValue(OfMessage(m).networkIds)
  {
    FieldsAt(m, 23);
    hide Typed;
  }

  lemma VarintKinds(n: nat)
    requires n in {1, 4, 13, 21, 23, 24, 26, 28, 36, 37}
    ensures 1 <= n <= 44 && |MACHINE_SPEC| == 44 && MACHINE_SPEC[n - 1].number == n
    ensures MACHINE_SPEC[n - 1].kind
         == if n == 36 || n == 37 then BoolKind else if n == 24 then PackedKind else Int32Kind
  {
    KindOfRow(n);
    hide MACHINE_SPEC;
  }

  /** A varint record of field `n` sets the int32 or the bool of that number, or appends to `networkIds`. */
  lemma {:induction false} MachineVarint(m: Message, n: nat, raw: nat)
    requires Typed(MACHINE_SPEC, m) && raw < 0x1_0000_0000_0000_0000
    requires n in {1, 4, 13, 21, 23, 24, 26, 28, 36, 37}
    ensures var r := Unmarshal(MACHINE_SPEC, TagBytes(n, 0) + Encode(raw), m);
            && r.Success? && |m.fields| == 44
            && Sets(m, n, if n == 36 || n == 37 then BoolValue(raw != 0)
                          else if n == 24 then PackedValue(OfMessage(m).networkIds + [ToInt32(raw)])
                          else IntValue(ToInt32(raw)), r.value)
  {
    hide Unmarshal, WellFormed, Sets, MACHINE_SPEC, Encode, TagBytes, Typed, OfMessage, ToInt32;
    VarintKinds(n);
    NetworkIdsOf(m);
    MachineSpecWellFormed();
    VarintRecord(MACHINE_SPEC, n - 1, m, raw);
    var v := if n == 36 || n == 37 then BoolValue(raw != 0)
             else if n == 24 then PackedValue(OfMessage(m).networkIds + [ToInt32(raw)])
             else IntValue(ToInt32(raw));
    SetsField(m, n, v);
  }

  lemma StringKinds(n: nat)
    requires 1 <= n <= 44 && n !in {1, 4, 13, 21, 23, 24, 26, 28, 36, 37}
    ensures |MACHINE_SPEC| == 44 && MACHINE_SPEC[n - 1].number == n
    ensures MACHINE_SPEC[n - 1].kind == if n in {7, 33, 34, 40, 42, 43} then StringsKind else StringKind
  {
    KindOfRow(n);
    hide MACHINE_SPEC;
  }

  /** A string record of field `n` sets the string of that number, or appends to the repeated one. */
  lemma {:induction false} MachineString(m: Message, n: nat, s: Bytes)
    requires Typed(MACHINE_SPEC, m) && |s| < TWO_63
    requires 1 <= n <= 44 && n !in {1, 4, 13, 21, 23, 24, 26, 28, 36, 37}
    ensures var r := Unmarshal(MACHINE_SPEC, EncodeBytes(TagBytes(n, 2), s), m);
            && r.Success? && |m.fields| == 44
            && Sets(m, n, if n in {7, 33, 34, 40, 42, 43} then StringsValue(StringsOf(Numbered(OfMessage(m), n)) + [s])
                          else StringValue(s), r.value)
  {
    hide Unmarshal, WellFormed, Sets, MACHINE_SPEC, EncodeBytes, TagBytes, OfMessage, Numbered;
    StringKinds(n);
    NumberedOf(m, n);
    MachineSpecWellFormed();
    LengthRecord(MACHINE_SPEC, n - 1, m, s);
    var v := if n in {7, 33, 34, 40, 42, 43} then StringsValue(StringsOf(Numbered(OfMessage(m), n)) + [s])
             else StringValue(s);
    SetsField(m, n, v);
  }

  /** A packed record appends to `networkIds`. */
  lemma {:induction false} MachinePacked(m: Message, ints: seq<Int32>)
    requires Typed(MACHINE_SPEC, m) && |EncodeInts(ints)| < TWO_63
    ensures var r := Unmarshal(MACHINE_SPEC, EncodeBytes(TagBytes(24, 2), EncodeInts(ints)), m);
            && r.Success? && |m.fields| == 44
            && Sets(m, 24, PackedValue(OfMessage(m).networkIds + ints), r.value)
  {
    hide Unmarshal, WellFormed, Sets, MACHINE_SPEC, EncodeBytes, EncodeInts, TagBytes, OfMessage, Typed;
    VarintKinds(24);
    NetworkIdsOf(m);
    MachineSpecWellFormed();
    PackedRun(MACHINE_SPEC, 23, m, ints);
    SetsField(m, 24, PackedValue(OfMessage(m).networkIds + ints));
  }

  lemma EmptyIsTyped(schema: Schema)
    ensures Typed(schema, Empty(schema))
  {
  }

  /** What is stored for a machine. */
  function MachineBytes(r: MachineSpec): Bytes {
    assert |ToMessage(r).fields| == |MACHINE_SPEC|;
    Marshal(MACHINE_SPEC, ToMessage(r))
  }

  /** The machine that stored bytes are read as, into a fresh message. */
  function ReadMachine(b: Bytes): Result<MachineSpec, Error> {
    hide Unmarshal, Empty, OfMessage;
    EmptyIsTyped(MACHINE_SPEC);
    match Unmarshal(MACHINE_SPEC, b, Empty(MACHINE_SPEC))
    case Failure(e) => Failure(e)
    case Success(m) => Success(OfMessage(m))
  }

  /** Every machine record survives being stored, with the unknown fields it was read with. */
  lemma {:induction false} MachineRecordRoundTrip(r: MachineSpec)
    requires OnlyUnknown(MACHINE_SPEC, r.unknownFields, 0) && |MachineBytes(r)| < TWO_63
    ensures ReadMachine(MachineBytes(r)) == Success(r)
  {
    RecordIsTyped(r);
    RecordOfItsMessage(r);
    UnknownTo(r);
    hide Unmarshal, Marshal, WellFormed, MACHINE_SPEC, Typed, OnlyUnknown, ToMessage, OfMessage, Empty;
    MachineSpecWellFormed();
    RoundTrip(MACHINE_SPEC, ToMessage(r));
  }

  // ---------------------------------------------------------------- the reservation message

  function ToReservationMessage(r: NameReservationSpec): (m: Message)
    ensures |m.fields| == |NAME_RESERVATION_SPEC| == 9
  {
    Message([StringValue(r.clusterName), StringValue(r.clusterPrefix), StringValue(r.role), IntValue(r.ordinal),
             StringValue(r.vmName), StringValue(r.machineRequestId), StringValue(r.machineUuid),
             StringValue(r.stateResourceId), StringValue(r.createdAt)],
            r.unknownFields)
  }

  function OfReservationMessage(m: Message): NameReservationSpec
    requires |m.fields| == 9
  {
    NameReservationSpec(StringOf(m.fields[0]), StringOf(m.fields[1]), StringOf(m.fields[2]), IntOf(m.fields[3]),
                        StringOf(m.fields[4]), StringOf(m.fields[5]), StringOf(m.fields[6]),
                        StringOf(m.fields[7]), StringOf(m.fields[8]), m.unknown)
  }

  /** The field that the declaration gives number `n`. */
  function NumberedInReservation(r: NameReservationSpec, n: nat): Value {
    match n
    case 1 => StringValue(r.clusterName)
    case 2 => StringValue(r.clusterPrefix)
    case 3 => StringValue(r.role)
    case 4 => IntValue(r.ordinal)
    case 5 => StringValue(r.vmName)
    case 6 => StringValue(r.machineRequestId)
    case 7 => StringValue(r.machineUuid)
    case 8 => StringValue(r.stateResourceId)
    case 9 => StringValue(r.createdAt)
    case _ => IntValue(0)
  }

  /** Reservation records and typed messages are the same thing. */
  lemma {:induction false} ReservationIsTyped(r: NameReservationSpec)
    ensures Typed(NAME_RESERVATION_SPEC, ToReservationMessage(r))
    ensures OfReservationMessage(ToReservationMessage(r)) == r
  {
  }

  lemma {:induction false} ReservationField(m: Message, n: nat)
    requires Typed(NAME_RESERVATION_SPEC, m) && 1 <= n <= 9
    ensures |m.fields| == 9 && NumberedInReservation(OfReservationMessage(m), n) == m.fields[n - 1]
    ensures NAME_RESERVATION_SPEC[n - 1].number == n
    ensures NAME_RESERVATION_SPEC[n - 1].kind == if n == 4 then Int32Kind else StringKind
  {
    assert HasKind(m.fields[n - 1], NAME_RESERVATION_SPEC[n - 1].kind);
  }

  /** `m` with a new value for field `n`, as a record: that field has it and all others are as they were. */
  ghost predicate SetsInReservation(m: Message, n: nat, v: Value, m': Message) {
    && |m.fields| == |m'.fields| == 9
    && NumberedInReservation(OfReservationMessage(m'), n) == v
    && OfReservationMessage(m').unknownFields == OfReservationMessage(m).unknownFields
    && forall j :: 1 <= j <= 9 && j != n ==>
         NumberedInReservation(OfReservationMessage(m'), j) == NumberedInReservation(OfReservationMessage(m), j)
  }

  lemma UnknownOfReservation(m: Message)
    requires |m.fields| == 9
    ensures OfReservationMessage(m).unknownFields == m.unknown
  {
  }

  lemma {:induction false} SetsReservationField(m: Message, n: nat, v: Value)
    requires Typed(NAME_RESERVATION_SPEC, m) && 1 <= n <= 9 && HasKind(v, NAME_RESERVATION_SPEC[n - 1].kind)
    ensures |m.fields| == 9 && SetsInReservation(m, n, v, m.(fields := m.fields[n - 1 := v]))
  {
    var m' := m.(fields := m.fields[n - 1 := v]);
    TypedWith(NAME_RESERVATION_SPEC, m, n - 1, v);
    ReservationField(m, 1);
    UnknownOfReservation(m);
    UnknownOfReservation(m');
    hide NumberedInReservation, OfReservationMessage, Typed, NAME_RESERVATION_SPEC;
    forall j: nat | 1 <= j <= 9
      ensures NumberedInReservation(OfReservationMessage(m'), j)
           == if j == n then v else NumberedInReservation(OfReservationMessage(m), j)
    {
      ReservationField(m, j);
      ReservationField(m', j);
    }
  }

  /** A record of field `n` sets the field of that number: the ordinal from a varint, all others from strings. */
  lemma {:induction false} ReservationRecord(m: Message, n: nat, s: Bytes, raw: nat)
    requires Typed(NAME_RESERVATION_SPEC, m) && 1 <= n <= 9 && |s| < TWO_63 && raw < 0x1_0000_0000_0000_0000
    ensures var b := if n == 4 then TagBytes(n, 0) + Encode(raw) else EncodeBytes(TagBytes(n, 2), s);
            var r := Unmarshal(NAME_RESERVATION_SPEC, b, m);
            && r.Success? && |m.fields| == 9
            && SetsInReservation(m, n, if n == 4 then IntValue(ToInt32(raw)) else StringValue(s), r.value)
  {
    hide Unmarshal, WellFormed, SetsInReservation, EncodeBytes, Encode, TagBytes, OfReservationMessage, ToInt32;
    ReservationField(m, n);
    NameReservationSpecWellFormed();
    assert |NAME_RESERVATION_SPEC| == 9;
    hide NAME_RESERVATION_SPEC;
    if n == 4 {
      VarintRecord(NAME_RESERVATION_SPEC, n - 1, m, raw);
      SetsReservationField(m, n, IntValue(ToInt32(raw)));
    } else {
      LengthRecord(NAME_RESERVATION_SPEC, n - 1, m, s);
      SetsReservationField(m, n, StringValue(s));
    }
  }

  /** What is stored for a reservation. */
  function ReservationBytes(r: NameReservationSpec): Bytes {
    Marshal(NAME_RESERVATION_SPEC, ToReservationMessage(r))
  }

  /** The reservation that stored bytes are read as, into a fresh message. */
  function ReadReservation(b: Bytes): Result<NameReservationSpec, Error> {
    hide Unmarshal, Empty, OfReservationMessage;
    EmptyIsTyped(NAME_RESERVATION_SPEC);
    match Unmarshal(NAME_RESERVATION_SPEC, b, Empty(NAME_RESERVATION_SPEC))
    case Failure(e) => Failure(e)
    case Success(m) => Success(OfReservationMessage(m))
  }

  /** Every reservation record survives being stored, with the unknown fields it was read with. */
  lemma {:induction false} ReservationRoundTrip(r: NameReservationSpec)
    requires OnlyUnknown(NAME_RESERVATION_SPEC, r.unknownFields, 0) && |ReservationBytes(r)| < TWO_63
    ensures ReadReservation(ReservationBytes(r)) == Success(r)
  {
    ReservationIsTyped(r);
    assert ToReservationMessage(r).unknown == r.unknownFields;
    hide Unmarshal, Marshal, WellFormed, Typed, OnlyUnknown, ToReservationMessage, OfReservationMessage, Empty;
    NameReservationSpecWellFormed();
    RoundTrip(NAME_RESERVATION_SPEC, ToReservationMessage(r));
  }
}

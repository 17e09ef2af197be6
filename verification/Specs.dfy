/**
 The two messages of `api/specs/specs.proto`. Each row holds the case label of the decoder, the
 kind, the tag literals of the marshaller in memory order and the literal the size function adds
 for the tag.
 */
module Specs {
  import opened Wrappers
  import opened Varint
  import opened Wire
  import opened WireRoundTrip

  const MACHINE_1_TO_11: Schema := [
    Field(1, Int32Kind, [0x08], 1),  // VmId
    Field(2, StringKind, [0x12], 1),  // VmName
    Field(3, StringKind, [0x1a], 1),  // TemplateName
    Field(4, Int32Kind, [0x20], 1),  // TemplateId
    Field(5, StringKind, [0x2a], 1),  // ImageName
    Field(6, StringKind, [0x32], 1),  // Datastore
    Field(7, StringsKind, [0x3a], 1),  // NetworkNames
    Field(8, StringKind, [0x42], 1),  // SchematicId
    Field(9, StringKind, [0x4a], 1),  // TalosVersion
    Field(10, StringKind, [0x52], 1),  // Flavor
    Field(11, StringKind, [0x5a], 1)  // Phase
  ]

  const MACHINE_12_TO_22: Schema := [
    Field(12, StringKind, [0x62], 1),  // LastError
    Field(13, Int32Kind, [0x68], 1),  // ImageId
    Field(14, StringKind, [0x72], 1),  // ImageSource
    Field(15, StringKind, [0x7a], 1),  // ImageChecksum
    Field(16, StringKind, [0x82, 0x01], 2),  // LastSuccessfulPhaseAt
    Field(17, StringKind, [0x8a, 0x01], 2),  // LastRetryClassification
    Field(18, StringKind, [0x92, 0x01], 2),  // ClusterName
    Field(19, StringKind, [0x9a, 0x01], 2),  // ClusterPrefix
    Field(20, StringKind, [0xa2, 0x01], 2),  // NodeRole
    Field(21, Int32Kind, [0xa8, 0x01], 2),  // SequenceNumber
    Field(22, StringKind, [0xb2, 0x01], 2)  // ReservationId
  ]

  const MACHINE_23_TO_33: Schema := [
    Field(23, Int32Kind, [0xb8, 0x01], 2),  // DatastoreId
    Field(24, PackedKind, [0xc2, 0x01], 2),  // NetworkIds
    Field(25, StringKind, [0xca, 0x01], 2),  // ResolvedHypervisor
    Field(26, Int32Kind, [0xd0, 0x01], 2),  // ResolvedHostId
    Field(27, StringKind, [0xda, 0x01], 2),  // ResolvedHostName
    Field(28, Int32Kind, [0xe0, 0x01], 2),  // ResolvedClusterId
    Field(29, StringKind, [0xea, 0x01], 2),  // ResolvedClusterName
    Field(30, StringKind, [0xf2, 0x01], 2),  // PlacementReason
    Field(31, StringKind, [0xfa, 0x01], 2),  // PlacementScoreSummary
    Field(32, StringKind, [0x82, 0x02], 2),  // PreflightStatus
    Field(33, StringsKind, [0x8a, 0x02], 2)  // PreflightErrors
  ]

  const MACHINE_34_TO_44: Schema := [
    Field(34, StringsKind, [0x92, 0x02], 2),  // PreflightWarnings
    Field(35, StringKind, [0x9a, 0x02], 2),  // ImageAction
    Field(36, BoolKind, [0xa0, 0x02], 2),  // ImageCacheHit
    Field(37, BoolKind, [0xa8, 0x02], 2),  // ImageChecksumVerified
    Field(38, StringKind, [0xb2, 0x02], 2),  // BootstrapProfile
    Field(39, StringKind, [0xba, 0x02], 2),  // DriftStatus
    Field(40, StringsKind, [0xc2, 0x02], 2),  // DriftDetails
    Field(41, StringKind, [0xca, 0x02], 2),  // ResolvedStorageProfile
    Field(42, StringsKind, [0xd2, 0x02], 2),  // ResolvedHostTags
    Field(43, StringsKind, [0xda, 0x02], 2),  // ResolvedDatastoreCapabilities
    Field(44, StringKind, [0xe2, 0x02], 2)  // DiagnosticFingerprint
  ]

  const MACHINE_SPEC: Schema := MACHINE_1_TO_11 + MACHINE_12_TO_22 + MACHINE_23_TO_33 + MACHINE_34_TO_44

  const NAME_RESERVATION_SPEC: Schema := [
    Field(1, StringKind, [0x0a], 1),  // ClusterName
    Field(2, StringKind, [0x12], 1),  // ClusterPrefix
    Field(3, StringKind, [0x1a], 1),  // Role
    Field(4, Int32Kind, [0x20], 1),  // Ordinal
    Field(5, StringKind, [0x2a], 1),  // VmName
    Field(6, StringKind, [0x32], 1),  // MachineRequestId
    Field(7, StringKind, [0x3a], 1),  // MachineUuid
    Field(8, StringKind, [0x42], 1),  // StateResourceId
    Field(9, StringKind, [0x4a], 1)  // CreatedAt
  ]

  /** The varint of a tag below 2^14, written out. */
  function ShortTag(wire: nat): Bytes
    requires wire < 128 * 128
  {
    if wire < 128 then [wire] else [wire % 128 + 128, wire / 128]
  }

  lemma ShortTagIsVarint(wire: nat)
    requires wire < 128 * 128
    ensures ShortTag(wire) == Encode(wire)
  {
    if wire >= 128 {
      assert Encode(wire / 128) == [wire / 128];
    }
  }

  /** A row agrees with its number, which is its position. */
  predicate Row(f: Field, number: nat) {
    && f.number == number < 1024
    && f.tag == ShortTag(8 * number + WireType(f.kind))
    && f.tagSize == |f.tag|
  }

  /** The first `k` rows, one by one. */
  predicate RowsUpTo(part: Schema, before: nat, k: nat)
    requires k <= |part|
  {
    k == 0 || (Row(part[k - 1], before + k) && RowsUpTo(part, before, k - 1))
  }

  lemma {:induction false} RowsByPosition(part: Schema, before: nat, k: nat)
    requires k <= |part| && RowsUpTo(part, before, k)
    ensures forall j :: 0 <= j < k ==> Row(part[j], before + j + 1)
  {
    hide Row;
    if k == 0 {
    } else {
      RowsByPosition(part, before, k - 1);
    }
  }

  ghost predicate Rows(part: Schema, before: nat) {
    forall k :: 0 <= k < |part| ==> Row(part[k], before + k + 1)
  }

  lemma Machine1To11Rows()
    ensures Rows(MACHINE_1_TO_11, 0)
  {
    assert RowsUpTo(MACHINE_1_TO_11, 0, 11);
    RowsByPosition(MACHINE_1_TO_11, 0, 11);
  }

  lemma Machine12To22Rows()
    ensures Rows(MACHINE_12_TO_22, 11)
  {
    assert RowsUpTo(MACHINE_12_TO_22, 11, 11);
    RowsByPosition(MACHINE_12_TO_22, 11, 11);
  }

  lemma {:induction false} Machine23To33Rows()
    ensures Rows(MACHINE_23_TO_33, 22)
  {
    assert RowsUpTo(MACHINE_23_TO_33, 22, 11);
    RowsByPosition(MACHINE_23_TO_33, 22, 11);
  }

  lemma {:induction false} Machine34To44Rows()
    ensures Rows(MACHINE_34_TO_44, 33)
  {
    assert RowsUpTo(MACHINE_34_TO_44, 33, 11);
    RowsByPosition(MACHINE_34_TO_44, 33, 11);
  }

  lemma RowsAreWellFormed(schema: Schema)
    requires Rows(schema, 0)
    ensures WellFormed(schema)
  {
    hide Encode, ShortTag;
    forall k | 0 <= k < |schema| ensures TagMatches(schema[k]) {
      ShortTagIsVarint(8 * (k + 1) + WireType(schema[k].kind));
    }
  }

  /** Every hard-coded tag of the machine message is the varint of its number and wire type. */
  lemma {:induction false} MachineSpecWellFormed()
    ensures WellFormed(MACHINE_SPEC) && |MACHINE_SPEC| == 44
  {
    hide Row, WellFormed;
    Machine1To11Rows();
    Machine12To22Rows();
    Machine23To33Rows();
    Machine34To44Rows();
    forall k | 0 <= k < |MACHINE_SPEC| ensures Row(MACHINE_SPEC[k], k + 1) {
      if k < 11 {
        assert MACHINE_SPEC[k] == MACHINE_1_TO_11[k];
      } else if k < 22 {
        assert MACHINE_SPEC[k] == MACHINE_12_TO_22[k - 11];
      } else if k < 33 {
        assert MACHINE_SPEC[k] == MACHINE_23_TO_33[k - 22];
      } else {
        assert MACHINE_SPEC[k] == MACHINE_34_TO_44[k - 33];
      }
    }
    RowsAreWellFormed(MACHINE_SPEC);
  }

  lemma NameReservationSpecWellFormed()
    ensures WellFormed(NAME_RESERVATION_SPEC) && |NAME_RESERVATION_SPEC| == 9
  {
    assert RowsUpTo(NAME_RESERVATION_SPEC, 0, 9);
    RowsByPosition(NAME_RESERVATION_SPEC, 0, 9);
    RowsAreWellFormed(NAME_RESERVATION_SPEC);
  }

  /** The machine state survives being stored: all 44 fields, whatever they hold. */
  lemma MachineSpecRoundTrip(m: Message)
    requires Typed(MACHINE_SPEC, m) && m.unknown == [] && |Marshal(MACHINE_SPEC, m)| < TWO_63
    ensures Typed(MACHINE_SPEC, Empty(MACHINE_SPEC))
    ensures Unmarshal(MACHINE_SPEC, Marshal(MACHINE_SPEC, m), Empty(MACHINE_SPEC)) == Success(m)
  {
    hide WellFormed, Marshal, Unmarshal, Empty;
    MachineSpecWellFormed();
    RoundTrip(MACHINE_SPEC, m);
  }

  lemma {:induction false} NameReservationSpecRoundTrip(m: Message)
    requires Typed(NAME_RESERVATION_SPEC, m) && m.unknown == [] && |Marshal(NAME_RESERVATION_SPEC, m)| < TWO_63
    ensures Typed(NAME_RESERVATION_SPEC, Empty(NAME_RESERVATION_SPEC))
    ensures Unmarshal(NAME_RESERVATION_SPEC, Marshal(NAME_RESERVATION_SPEC, m), Empty(NAME_RESERVATION_SPEC)) ==
            Success(m)
  {
    hide WellFormed, Marshal, Unmarshal, Empty;
    NameReservationSpecWellFormed();
    RoundTrip(NAME_RESERVATION_SPEC, m);
  }
}

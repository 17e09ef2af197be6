/** Names of machines and of their reservations (`internal/pkg/provider/naming.go`). */
module Naming {
  import opened Wrappers
  import opened Text

  const ROLE_CONTROL_PLANE := "cp"
  const ROLE_WORKER := "w"

  // ---------------------------------------------------------------- decimal numbers

  predicate IsDigit(c: char) {
    '0' <= c <= '9'
  }

  function Digit(d: nat): char
    requires d < 10
  {
    "0123456789"[d]
  }

  /** `%d` of a non-negative number. */
  function Decimal(n: nat): (s: string)
    ensures |s| > 0
  {
    if n < 10 then [Digit(n)] else Decimal(n / 10) + [Digit(n % 10)]
  }

  /** `%02d`. */
  function Pad2(n: nat): (s: string)
    ensures |s| > 0
  {
    if n < 10 then "0" + Decimal(n) else Decimal(n)
  }

  predicate AllDigits(s: string) {
    forall k :: 0 <= k < |s| ==> IsDigit(s[k])
  }

  function DigitValue(c: char): nat
    requires IsDigit(c)
  {
    c as int - '0' as int
  }

  /** The number a digit string denotes. */
  function NumberOf(s: string): nat
    requires AllDigits(s)
  {
    if s == "" then 0 else 10 * NumberOf(s[..|s| - 1]) + DigitValue(s[|s| - 1])
  }

  lemma {:induction false} DecimalDenotes(n: nat)
    ensures AllDigits(Decimal(n)) && NumberOf(Decimal(n)) == n
  {
    if n >= 10 {
      DecimalDenotes(n / 10);
      assert Decimal(n)[..|Decimal(n)| - 1] == Decimal(n / 10);
    } else {
      assert Decimal(n)[..0] == "";
    }
  }

  lemma Pad2Denotes(n: nat)
    ensures AllDigits(Pad2(n)) && NumberOf(Pad2(n)) == n
  {
    DecimalDenotes(n);
    if n < 10 {
      assert Pad2(n)[..1] == "0" && "0"[..0] == "";
    }
  }

  lemma {:induction false} DecimalLength(n: nat, k: nat)
    requires 0 < k && n < Pow10(k)
    ensures |Decimal(n)| <= k
  {
    if n < 10 {
    } else {
      assert k > 1;
      DecimalLength(n / 10, k - 1);
    }
  }

  function Pow10(k: nat): nat {
    if k == 0 then 1 else 10 * Pow10(k - 1)
  }

  // ---------------------------------------------------------------- sequence names

  predicate IsRole(role: string) {
    role == ROLE_CONTROL_PLANE || role == ROLE_WORKER
  }

  /** `%s%s%02d` */
  function SequenceVMName(clusterPrefix: string, role: string, ordinal: nat): string {
    clusterPrefix + role + Pad2(ordinal)
  }

  /** `name-reservation/%s/%s/%d` */
  function ReservationResourceID(clusterPrefix: string, role: string, ordinal: nat): string {
    "name-reservation/" + clusterPrefix + "/" + role + "/" + Decimal(ordinal)
  }

  /** The trailing digits of a string can be told from what stands in front of them. */
  lemma TrailingDigits(a: string, d: string, b: string, e: string)
    requires a != "" && !IsDigit(a[|a| - 1]) && AllDigits(d)
    requires b != "" && !IsDigit(b[|b| - 1]) && AllDigits(e)
    requires a + d == b + e
    ensures a == b && d == e
  {
    var s := a + d;
    assert s[|a| - 1] == a[|a| - 1];
    assert (b + e)[|b| - 1] == b[|b| - 1];
    forall k | |a| <= k < |s| ensures IsDigit(s[k]) {
      assert s[k] == d[k - |a|];
    }
    forall k | |b| <= k < |s| ensures IsDigit(s[k]) {
      assert (b + e)[k] == e[k - |b|];
    }
    assert |a| == |b|;
    assert a == s[..|a|] == b && d == s[|a|..] == e;
  }

  /** A role can be told from the prefix in front of it, whatever the prefix. */
  lemma TrailingRole(p: string, r: string, q: string, t: string)
    requires IsRole(r) && IsRole(t) && p + r == q + t
    ensures p == q && r == t
  {
    var s := p + r;
    assert s[|s| - 1] == r[|r| - 1] == t[|t| - 1];
    assert r == t;
    assert p == s[..|s| - |r|] == q;
  }

  /** Distinct clusters, roles and ordinals get distinct VM names. */
  lemma SequenceVMNameInjective(p: string, r: string, n: nat, q: string, t: string, k: nat)
    requires IsRole(r) && IsRole(t)
    requires SequenceVMName(p, r, n) == SequenceVMName(q, t, k)
    ensures p == q && r == t && n == k
  {
    Pad2Denotes(n);
    Pad2Denotes(k);
    TrailingDigits(p + r, Pad2(n), q + t, Pad2(k));
    TrailingRole(p, r, q, t);
  }

  /** The same triples get distinct reservations. */
  lemma ReservationResourceIDInjective(p: string, r: string, n: nat, q: string, t: string, k: nat)
    requires IsRole(r) && IsRole(t)
    requires ReservationResourceID(p, r, n) == ReservationResourceID(q, t, k)
    ensures p == q && r == t && n == k
  {
    DecimalDenotes(n);
    DecimalDenotes(k);
    var head := "name-reservation/";
    var a, b := head + p + "/" + r + "/", head + q + "/" + t + "/";
    TrailingDigits(a, Decimal(n), b, Decimal(k));
    assert a[..|a| - 1] == head + p + "/" + r && b[..|b| - 1] == head + q + "/" + t;
    TrailingRole(head + p + "/", r, head + q + "/", t);
    assert p == (head + p + "/")[|head|..|head| + |p|];
    assert q == (head + q + "/")[|head|..|head| + |q|];
  }

  /** A name and a reservation denote the same triple. */
  lemma SameNameSameReservation(p: string, r: string, n: nat, q: string, t: string, k: nat)
    requires IsRole(r) && IsRole(t)
    ensures SequenceVMName(p, r, n) == SequenceVMName(q, t, k)
            <==> ReservationResourceID(p, r, n) == ReservationResourceID(q, t, k)
  {
    if SequenceVMName(p, r, n) == SequenceVMName(q, t, k) {
      SequenceVMNameInjective(p, r, n, q, t, k);
    }
    if ReservationResourceID(p, r, n) == ReservationResourceID(q, t, k) {
      ReservationResourceIDInjective(p, r, n, q, t, k);
    }
  }

  /** A cluster prefix of at most 57 octets and an ordinal of at most four digits fit a host label. */
  lemma SequenceVMNameFits(clusterPrefix: string, role: string, ordinal: nat)
    requires |clusterPrefix| <= 57 && IsRole(role) && ordinal <= 9999
    ensures |SequenceVMName(clusterPrefix, role, ordinal)| <= 63
  {
    assert Pow10(4) == 10000;
    DecimalLength(ordinal, 4);
  }

  // ---------------------------------------------------------------- lower case

  predicate IsLowerAlnum(c: char) {
    'a' <= c <= 'z' || IsDigit(c)
  }

  // ---------------------------------------------------------------- cluster prefixes

  /** The letters and digits of a name, in lower case and in order. */
  function LowerAlnum(s: string): (r: string)
    ensures |r| <= |s| && forall k :: 0 <= k < |r| ==> IsLowerAlnum(r[k])
  {
    if s == "" then ""
    else if IsLowerAlnum(ToLower(s[0])) then [ToLower(s[0])] + LowerAlnum(s[1..])
    else LowerAlnum(s[1..])
  }

  datatype PrefixError = EmptyPrefix | PrefixTooLong

  function NormalizedPrefix(clusterName: string): (r: Result<string, PrefixError>)
    ensures r.Success? ==> 0 < |r.value| <= 57 && forall k :: 0 <= k < |r.value| ==> IsLowerAlnum(r.value[k])
  {
    var prefix := LowerAlnum(clusterName);
    if prefix == "" then Failure(EmptyPrefix)
    else if |prefix| > 57 then Failure(PrefixTooLong)
    else Success(prefix)
  }

  method NormalizeClusterPrefix(clusterName: string) returns (r: Result<string, PrefixError>)
    ensures r == NormalizedPrefix(clusterName)
  {
    var builder := "";
    var i := 0;
    while i < |clusterName|
      invariant i <= |clusterName| && builder + LowerAlnum(clusterName[i..]) == LowerAlnum(clusterName)
    {
      assert clusterName[i..][1..] == clusterName[i + 1..];
      var c := ToLower(clusterName[i]);
      if IsLowerAlnum(c) {
        builder := builder + [c];
      }
      i := i + 1;
    }
    assert clusterName[i..] == "" && builder + "" == builder;
    if builder == "" {
      return Failure(EmptyPrefix);
    }
    if |builder| > 57 {
      return Failure(PrefixTooLong);
    }
    return Success(builder);
  }

  lemma {:induction false} LowerAlnumFixed(s: string)
    requires forall k :: 0 <= k < |s| ==> IsLowerAlnum(s[k])
    ensures LowerAlnum(s) == s
  {
    if s == "" {
    } else {
      LowerAlnumFixed(s[1..]);
    }
  }

  /** A normalized prefix is its own normal form, so a cluster of that name shares it. */
  lemma NormalizedPrefixFixed(clusterName: string)
    requires NormalizedPrefix(clusterName).Success?
    ensures NormalizedPrefix(NormalizedPrefix(clusterName).value) == NormalizedPrefix(clusterName)
  {
    LowerAlnumFixed(NormalizedPrefix(clusterName).value);
  }

  // ---------------------------------------------------------------- canonical names

  /** Letters, digits and single dashes. */
  ghost predicate IsDashed(s: string) {
    && (forall k :: 0 <= k < |s| ==> IsLowerAlnum(s[k]) || s[k] == '-')
    && (forall k :: 0 <= k < |s| - 1 ==> s[k] != '-' || s[k + 1] != '-')
  }

  /** A host name label of section 2.1 of RFC 1123, with single interior dashes. */
  ghost predicate IsLabel(s: string) {
    && 1 <= |s| <= 63
    && IsDashed(s)
    && s[0] != '-' && s[|s| - 1] != '-'
  }

  /** The loop over the characters, with the state of `lastDash`. */
  function Collapse(s: string, lastDash: bool): string {
    if s == "" then ""
    else if IsLowerAlnum(ToLower(s[0])) then [ToLower(s[0])] + Collapse(s[1..], false)
    else if lastDash then Collapse(s[1..], true)
    else "-" + Collapse(s[1..], true)
  }

  function TrimLeft(s: string): string {
    if s != "" && s[0] == '-' then TrimLeft(s[1..]) else s
  }

  function TrimRight(s: string): (r: string)
    ensures r <= s
  {
    if s != "" && s[|s| - 1] == '-' then TrimRight(s[..|s| - 1]) else s
  }

  function Canonical(requestID: string, hash: string -> string): string {
    var trimmed := TrimRight(TrimLeft(Collapse(requestID, false)));
    var name := if trimmed == "" then "opennebula-node" else trimmed;
    if |name| <= 63 then name else TrimRight(name[..54]) + "-" + hash(requestID)
  }

  lemma CollapseNothing()
    ensures Collapse("", false) == Collapse("", true) == ""
  {
  }

  lemma CollapseStep(s: string, i: nat, lastDash: bool)
    requires i < |s|
    ensures Collapse(s[i..], lastDash) ==
      if IsLowerAlnum(ToLower(s[i])) then [ToLower(s[i])] + Collapse(s[i + 1..], false)
      else if lastDash then Collapse(s[i + 1..], true)
      else "-" + Collapse(s[i + 1..], true)
  {
    assert s[i..][1..] == s[i + 1..];
  }

  /** `hash` stands for the hexadecimal form of the first four bytes of the SHA-256 sum. */
  method CanonicalVMName(requestID: string, hash: string -> string) returns (r: string)
    ensures r == Canonical(requestID, hash)
  {
    hide TrimLeft, TrimRight, Collapse, IsLowerAlnum, ToLower;
    assert Collapse("", false) == Collapse("", true) == "" by { CollapseNothing(); }
    var builder := "";
    var lastDash := false;
    var i := 0;
    while i < |requestID|
      invariant i <= |requestID| && builder + Collapse(requestID[i..], lastDash) == Collapse(requestID, false)
    {
      CollapseStep(requestID, i, lastDash);
      var c := ToLower(requestID[i]);
      if IsLowerAlnum(c) {
        builder := builder + [c];
        lastDash := false;
      } else if !lastDash {
        builder := builder + "-";
        lastDash := true;
      }
      i := i + 1;
    }
    assert requestID[i..] == "" && builder + "" == builder;
    var name := TrimRight(TrimLeft(builder));
    if name == "" {
      name := "opennebula-node";
    }
    if |name| <= 63 {
      return name;
    }
    return TrimRight(name[..54]) + "-" + hash(requestID);
  }

  lemma {:induction false} CollapseIsDashed(s: string, lastDash: bool)
    ensures var r := Collapse(s, lastDash); IsDashed(r) && (lastDash && r != "" ==> r[0] != '-')
  {
    if s == "" {
    } else {
      CollapseIsDashed(s[1..], false);
      CollapseIsDashed(s[1..], true);
    }
  }

  lemma {:induction false} TrimLeftIsDashed(s: string)
    requires IsDashed(s)
    ensures var r := TrimLeft(s); IsDashed(r) && (r != "" ==> r[0] != '-')
  {
    if s == "" || s[0] != '-' {
    } else {
      TrimLeftIsDashed(s[1..]);
    }
  }

  lemma {:induction false} TrimRightIsDashed(s: string)
    requires IsDashed(s)
    ensures var r := TrimRight(s); IsDashed(r) && (r != "" ==> r[|r| - 1] != '-')
    ensures s != "" && s[0] != '-' ==> TrimRight(s) != ""
  {
    if s == "" || s[|s| - 1] != '-' {
    } else {
      TrimRightIsDashed(s[..|s| - 1]);
    }
  }

  /** Every request id becomes a label. */
  lemma CanonicalIsLabel(requestID: string, hash: string -> string)
    requires |hash(requestID)| == 8 && forall k :: 0 <= k < 8 ==> IsLowerAlnum(hash(requestID)[k])
    ensures IsLabel(Canonical(requestID, hash))
  {
    var collapsed := Collapse(requestID, false);
    CollapseIsDashed(requestID, false);
    TrimLeftIsDashed(collapsed);
    TrimRightIsDashed(TrimLeft(collapsed));
    var trimmed := TrimRight(TrimLeft(collapsed));
    if |trimmed| > 63 {
      TrimRightIsDashed(trimmed[..54]);
      var head := TrimRight(trimmed[..54]);
      assert IsDashed(head + "-" + hash(requestID));
    }
  }

  lemma {:induction false} CollapseFixed(s: string, lastDash: bool)
    requires IsDashed(s) && (lastDash && s != "" ==> s[0] != '-')
    ensures Collapse(s, lastDash) == s
  {
    if s == "" {
    } else {
      CollapseFixed(s[1..], s[0] == '-');
    }
  }

  /** A label is its own canonical name, so canonicalising twice changes nothing. */
  lemma CanonicalFixed(name: string, hash: string -> string)
    requires IsLabel(name)
    ensures Canonical(name, hash) == name
  {
    CollapseFixed(name, false);
  }

  lemma CanonicalIdempotent(requestID: string, hash: string -> string)
    requires |hash(requestID)| == 8 && forall k :: 0 <= k < 8 ==> IsLowerAlnum(hash(requestID)[k])
    ensures Canonical(Canonical(requestID, hash), hash) == Canonical(requestID, hash)
  {
    CanonicalIsLabel(requestID, hash);
    CanonicalFixed(Canonical(requestID, hash), hash);
  }

  // ---------------------------------------------------------------- machine request sets

  datatype SetError = EmptyClusterName | UnsupportedNaming

  const CONTROL_PLANE_SUFFIX := "-control-planes"
  const WORKER_MARKER := "-workers-"
  const WORKER_PREFIX := "-worker"

  function Inferred(clusterName: string, role: string): Result<(string, string), SetError> {
    if clusterName == "" then Failure(EmptyClusterName) else Success((clusterName, role))
  }

  /** `ClusterRoleFromMachineRequestSet`. */
  function ClusterRoleFromMachineRequestSet(id: string): Result<(string, string), SetError> {
    if HasSuffix(id, CONTROL_PLANE_SUFFIX) then Inferred(id[..|id| - |CONTROL_PLANE_SUFFIX|], ROLE_CONTROL_PLANE)
    else if Contains(id, WORKER_MARKER) then Inferred(Preceding(id, WORKER_MARKER), ROLE_WORKER)
    else if Contains(id, WORKER_PREFIX) then Inferred(Preceding(id, WORKER_PREFIX), ROLE_WORKER)
    else Failure(UnsupportedNaming)
  }

  lemma ControlPlaneSetInferred(cluster: string)
    requires cluster != ""
    ensures ClusterRoleFromMachineRequestSet(cluster + CONTROL_PLANE_SUFFIX) == Success((cluster, ROLE_CONTROL_PLANE))
  {
    var id := cluster + CONTROL_PLANE_SUFFIX;
    assert id[|cluster|..] == CONTROL_PLANE_SUFFIX && id[..|cluster|] == cluster;
  }

  /** The marker cannot begin inside a cluster name that does not hold "-worker". */
  lemma MarkerStartsBehind(cluster: string, rest: string, i: nat)
    requires !Contains(cluster, WORKER_PREFIX) && i < |cluster|
    requires rest != "" && rest[0] == '-'
    ensures !OccursAt(cluster + rest, WORKER_PREFIX, i)
  {
    var id := cluster + rest;
    if i + |WORKER_PREFIX| <= |cluster| {
      assert !OccursAt(cluster, WORKER_PREFIX, i);
      assert id[i..i + |WORKER_PREFIX|] == cluster[i..i + |WORKER_PREFIX|];
    } else if i + |WORKER_PREFIX| <= |id| {
      assert id[i..i + |WORKER_PREFIX|][|cluster| - i] == id[|cluster|] == '-';
    }
  }

  lemma WorkerSetInferred(cluster: string, pool: string)
    requires cluster != "" && !Contains(cluster, WORKER_PREFIX)
    requires !HasSuffix(cluster + WORKER_MARKER + pool, CONTROL_PLANE_SUFFIX)
    ensures ClusterRoleFromMachineRequestSet(cluster + WORKER_MARKER + pool) == Success((cluster, ROLE_WORKER))
  {
    var id := cluster + WORKER_MARKER + pool;
    assert id == cluster + (WORKER_MARKER + pool);
    assert id[|cluster|..|cluster| + |WORKER_MARKER|] == WORKER_MARKER;
    assert OccursAt(id, WORKER_MARKER, |cluster|);
    forall i | 0 <= i < |cluster| ensures !OccursAt(id, WORKER_MARKER, i) {
      MarkerStartsBehind(cluster, WORKER_MARKER + pool, i);
      if i + |WORKER_MARKER| <= |id| {
        assert id[i..i + |WORKER_PREFIX|] == id[i..i + |WORKER_MARKER|][..|WORKER_PREFIX|];
      }
    }
  }
}

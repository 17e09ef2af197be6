/** Names and prefixes letter by letter: what is kept, what is dropped, and where dashes come in. */
module NamingLaws {
  import opened Wrappers
  import opened Text
  import opened TextLaws
  import opened Naming

  // ---------------------------------------------------------------- characters

  const DIGITS := "0123456789"

  /** A character that names keep, in its lower case: an ASCII letter or digit, or one of two that become one. */
  predicate IsKept(c: char) {
    c in CAPITALS || c in SMALL || c in DIGITS || c == '\U{212A}' || c == '\U{130}'
  }

  lemma {:induction false} KeptExactly(c: char)
    ensures IsLowerAlnum(ToLower(c)) <==> IsKept(c)
    ensures IsLowerAlnum(c) <==> c in SMALL || c in DIGITS
    ensures c in SMALL || c in DIGITS ==> ToLower(c) == c
  {
    LettersAreListed(c);
    DigitsAreListed(c);
    hide CAPITALS, SMALL, DIGITS;
  }

  lemma DigitsAreListed(c: char)
    ensures '0' <= c <= '9' <==> c in DIGITS
  {
  }

  // ---------------------------------------------------------------- prefixes

  function KeptOf(c: char): string {
    if IsLowerAlnum(ToLower(c)) then [ToLower(c)] else ""
  }

  lemma PrefixStep(s: string)
    ensures LowerAlnum("") == ""
    ensures s != "" ==> LowerAlnum(s) == KeptOf(s[0]) + LowerAlnum(s[1..])
  {
  }

  lemma Regroup(x: string, y: string, z: string)
    ensures x + (y + z) == x + y + z
  {
  }

  /** The prefix of a name is put together from the prefixes of its parts. */
  lemma {:induction false} PrefixOfParts(a: string, b: string)
    ensures LowerAlnum(a + b) == LowerAlnum(a) + LowerAlnum(b)
  {
    hide LowerAlnum, KeptOf, IsLowerAlnum;
    PrefixStep(a);
    if a == "" {
      assert a + b == b;
    } else {
      PrefixStep(a + b);
      PrefixOfParts(a[1..], b);
      assert (a + b)[1..] == a[1..] + b;
      Regroup(KeptOf(a[0]), LowerAlnum(a[1..]), LowerAlnum(b));
    }
  }

  /** Of a single character it keeps a letter in lower case or a digit, and nothing else. */
  lemma {:induction false} PrefixOfOne(c: char)
    ensures LowerAlnum([c]) == if IsKept(c) then [ToLower(c)] else ""
    ensures forall k: nat :: k < 26 ==> LowerAlnum([CAPITALS[k]]) == LowerAlnum([SMALL[k]]) == [SMALL[k]]
    ensures c in DIGITS ==> LowerAlnum([c]) == [c]
  {
    KeptOne(c);
    KeptExactly(c);
    LettersHaveCases(0);
    forall k: nat | k < 26 ensures LowerAlnum([CAPITALS[k]]) == LowerAlnum([SMALL[k]]) == [SMALL[k]] {
      hide LowerAlnum, ToLower, IsLowerAlnum, CAPITALS, SMALL, DIGITS;
      KeptOne(CAPITALS[k]);
      KeptOne(SMALL[k]);
      LettersHaveCases(k);
      KeptExactly(CAPITALS[k]);
      KeptExactly(SMALL[k]);
    }
  }

  lemma KeptOne(c: char)
    ensures LowerAlnum([c]) == if IsLowerAlnum(ToLower(c)) then [ToLower(c)] else ""
  {
    assert LowerAlnum([c][1..]) == "";
  }

  lemma {:induction false} NothingKept(s: string)
    ensures LowerAlnum(s) == "" <==> forall k :: 0 <= k < |s| ==> !IsKept(s[k])
  {
    hide IsLowerAlnum, ToLower, IsKept;
    if s == "" {
    } else {
      KeptExactly(s[0]);
      NothingKept(s[1..]);
      assert forall k :: 0 < k < |s| ==> s[k] == s[1..][k - 1];
    }
  }

  /** A cluster is refused when no character of its name is kept, or more than 57 are. */
  lemma {:induction false} PrefixExactly(clusterName: string)
    ensures var r := NormalizedPrefix(clusterName);
            && (r == Failure(EmptyPrefix) <==> forall k :: 0 <= k < |clusterName| ==> !IsKept(clusterName[k]))
            && (r == Failure(PrefixTooLong) <==> |LowerAlnum(clusterName)| > 57)
            && (r.Success? ==> r.value == LowerAlnum(clusterName))
  {
    NothingKept(clusterName);
    hide LowerAlnum;
  }

  // ---------------------------------------------------------------- numbers in names

  /** Ordinals stand in names with at least two digits, and without more zeros than that takes. */
  lemma {:induction false} OrdinalDigits(n: nat)
    ensures AllDigits(Pad2(n)) && NumberOf(Pad2(n)) == n
    ensures n < 100 ==> |Pad2(n)| == 2
    ensures n >= 10 ==> Pad2(n)[0] != '0'
    ensures |Decimal(n)| > 1 ==> Decimal(n)[0] != '0'
  {
    Pad2Denotes(n);
    NoLeadingZero(n);
    if 10 <= n < 100 {
      assert |Decimal(n / 10)| == 1;
    }
  }

  lemma {:induction false} NoLeadingZero(n: nat)
    ensures n > 0 ==> Decimal(n)[0] != '0'
    ensures n < 10 ==> |Decimal(n)| == 1
  {
    if n < 10 {
    } else {
      NoLeadingZero(n / 10);
      assert Decimal(n)[0] == Decimal(n / 10)[0];
    }
  }

  /** The first control plane of "prod" and its second worker. */
  lemma NamesOfProd()
    ensures SequenceVMName("prod", ROLE_CONTROL_PLANE, 1) == "prodcp01"
    ensures SequenceVMName("prod", ROLE_WORKER, 2) == "prodw02"
    ensures ReservationResourceID("prod", ROLE_WORKER, 12) == "name-reservation/prod/w/12"
  {
    assert Decimal(1) == "1" && Decimal(2) == "2" && Decimal(12) == "12";
  }

  // ---------------------------------------------------------------- dashes

  lemma KeptStep(c: char, s: string, lastDash: bool)
    requires IsKept(c)
    ensures Collapse([c] + s, lastDash) == [ToLower(c)] + Collapse(s, false)
  {
    KeptExactly(c);
    assert ([c] + s)[1..] == s;
  }

  lemma DropStep(c: char, s: string, lastDash: bool)
    requires !IsKept(c)
    ensures Collapse([c] + s, lastDash) == (if lastDash then "" else "-") + Collapse(s, true)
  {
    KeptExactly(c);
    assert ([c] + s)[1..] == s;
  }

  /** What stands behind a kept character is collapsed by itself. */
  lemma {:induction false} CollapseSplits(a: string, c: char, b: string, lastDash: bool)
    requires IsKept(c)
    ensures Collapse(a + ([c] + b), lastDash) == Collapse(a, lastDash) + ([ToLower(c)] + Collapse(b, false))
  {
    hide Collapse, ToLower, IsKept;
    if a == "" {
      CollapseNothing();
      KeptStep(c, b, lastDash);
      assert a + ([c] + b) == [c] + b;
    } else {
      var tail := a[1..] + ([c] + b);
      assert a == [a[0]] + a[1..] && a + ([c] + b) == [a[0]] + tail;
      var rest := [ToLower(c)] + Collapse(b, false);
      if IsKept(a[0]) {
        CollapseSplits(a[1..], c, b, false);
        KeptStep(a[0], a[1..], lastDash);
        KeptStep(a[0], tail, lastDash);
        Regroup([ToLower(a[0])], Collapse(a[1..], false), rest);
      } else {
        CollapseSplits(a[1..], c, b, true);
        DropStep(a[0], a[1..], lastDash);
        DropStep(a[0], tail, lastDash);
        Regroup(if lastDash then "" else "-", Collapse(a[1..], true), rest);
      }
    }
  }

  /** A run of characters that are not kept becomes one dash, or none behind a dash. */
  lemma {:induction false} RunIsOneDash(s: string, lastDash: bool)
    requires s != "" && forall k :: 0 <= k < |s| ==> !IsKept(s[k])
    ensures Collapse(s, lastDash) == if lastDash then "" else "-"
  {
    KeptExactly(s[0]);
    hide IsLowerAlnum, ToLower, IsKept;
    if s[1..] == "" {
    } else {
      RunIsOneDash(s[1..], true);
    }
  }

  lemma {:induction false} TrimmedLeft(s: string) returns (dashes: string)
    ensures s == dashes + TrimLeft(s) && forall k :: 0 <= k < |dashes| ==> dashes[k] == '-'
    ensures TrimLeft(s) != "" ==> TrimLeft(s)[0] != '-'
  {
    if s != "" && s[0] == '-' {
      dashes := TrimmedLeft(s[1..]);
      dashes := "-" + dashes;
    } else {
      dashes := "";
    }
  }

  lemma {:induction false} TrimmedRight(s: string) returns (dashes: string)
    ensures s == TrimRight(s) + dashes && forall k :: 0 <= k < |dashes| ==> dashes[k] == '-'
    ensures TrimRight(s) != "" ==> TrimRight(s)[|TrimRight(s)| - 1] != '-'
  {
    if s != "" && s[|s| - 1] == '-' {
      dashes := TrimmedRight(s[..|s| - 1]);
      dashes := dashes + "-";
    } else {
      dashes := "";
    }
  }

  /**
   The collapsed id without its dashes at the ends is the name, if there is anything left and it fits; the
   first 54 characters of a longer one, without dashes at the end, are told apart by the hash.
   */
  lemma {:induction false} CanonicalExactly(requestID: string, hash: string -> string)
    returns (front: string, name: string, back: string)
    ensures Collapse(requestID, false) == front + name + back
    ensures (forall k :: 0 <= k < |front| ==> front[k] == '-') && forall k :: 0 <= k < |back| ==> back[k] == '-'
    ensures name != "" ==> name[0] != '-' && name[|name| - 1] != '-'
    ensures name == "" ==> Canonical(requestID, hash) == "opennebula-node"
    ensures 1 <= |name| <= 63 ==> Canonical(requestID, hash) == name
    ensures |name| > 63 ==>
      exists kept :: IsCut(name, kept) && Canonical(requestID, hash) == kept + "-" + hash(requestID)
  {
    hide Collapse, TrimLeft, TrimRight;
    var collapsed := Collapse(requestID, false);
    front := TrimmedLeft(collapsed);
    back := TrimmedRight(TrimLeft(collapsed));
    name := TrimRight(TrimLeft(collapsed));
    Regroup(front, name, back);
    if name != "" {
      assert name[0] == TrimLeft(collapsed)[0];
    }
    if |name| > 63 {
      CutOf(name);
    }
  }

  lemma CutOf(name: string)
    requires |name| >= 54
    ensures IsCut(name, TrimRight(name[..54]))
  {
    var dashes := TrimmedRight(name[..54]);
    hide TrimRight;
    var kept := TrimRight(name[..54]);
    assert name[..54] == kept + dashes;
    assert name[..|kept|] == (kept + dashes)[..|kept|] == kept;
    forall k | |kept| <= k < 54 ensures name[k] == '-' {
      assert name[k] == name[..54][k] == dashes[k - |kept|];
    }
  }

  /** What is left of the first 54 characters without the dashes at their end. */
  ghost predicate IsCut(name: string, kept: string) {
    && |kept| <= 54 <= |name| && name[..|kept|] == kept
    && (kept != "" ==> kept[|kept| - 1] != '-')
    && forall k :: |kept| <= k < 54 ==> name[k] == '-'
  }

  // ---------------------------------------------------------------- machine request sets

  /** What a cluster can be read from: the suffix of control planes, or "-worker" somewhere, marked or not. */
  lemma {:induction false} SetsExactly(id: string)
    ensures var r := ClusterRoleFromMachineRequestSet(id);
            && (r == Failure(UnsupportedNaming) <==> !HasSuffix(id, "-control-planes") && !Contains(id, "-worker"))
            && (r.Success? && HasSuffix(id, "-control-planes") ==>
                  r.value.1 == ROLE_CONTROL_PLANE && id == r.value.0 + "-control-planes")
            && (r.Success? && !HasSuffix(id, "-control-planes") ==>
                  && r.value.1 == ROLE_WORKER
                  && (Contains(id, "-workers-") ==> IsBeforeFirst(id, "-workers-", r.value.0))
                  && (!Contains(id, "-workers-") ==> IsBeforeFirst(id, "-worker", r.value.0)))
            && (r == Failure(EmptyClusterName) <==>
                  if HasSuffix(id, "-control-planes") then id == "-control-planes"
                  else if Contains(id, "-workers-") then OccursAt(id, "-workers-", 0)
                  else OccursAt(id, "-worker", 0))
            && (r.Success? ==> r.value.0 != "")
  {
    MarkerIsPrefix(id);
    if Contains(id, "-workers-") {
      BeforeFirst(id, "-workers-");
    }
    if Contains(id, "-worker") {
      BeforeFirst(id, "-worker");
    }
    if HasSuffix(id, "-control-planes") {
      assert id == id[..|id| - 15] + "-control-planes";
    }
    hide Contains, OccursAt, Preceding, HasSuffix;
  }

  ghost predicate IsBeforeFirst(id: string, sep: string, cluster: string) {
    cluster + sep <= id && forall i: nat :: i < |cluster| ==> !OccursAt(id, sep, i)
  }

  lemma BeforeFirst(id: string, sep: string)
    requires Contains(id, sep)
    ensures IsBeforeFirst(id, sep, Preceding(id, sep))
    ensures Preceding(id, sep) == "" <==> OccursAt(id, sep, 0)
  {
    PrecedingMeans(id, sep);
  }

  lemma MarkerIsPrefix(id: string)
    ensures Contains(id, "-workers-") ==> Contains(id, "-worker")
    ensures OccursAt(id, "-worker", 0) ==> Contains(id, "-worker")
  {
    ContainsMeans(id, "-worker");
    if Contains(id, "-workers-") {
      ContainsMeans(id, "-workers-");
      var i: nat :| OccursAt(id, "-workers-", i);
      assert "-workers-"[..7] == "-worker";
      assert id[i..i + 9][..7] == id[i..i + 7];
      assert OccursAt(id, "-worker", i);
    }
  }
}

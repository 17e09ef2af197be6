/** Dotted IPv4 addresses, as `net.ParseIP` reads and `IP.String` writes them. */
module Ipv4 {
  import opened Wrappers
  import opened Naming

  datatype Address = Address(a: bv8, b: bv8, c: bv8, d: bv8)

  function Masked(ip: Address, mask: Address): Address {
    Address(ip.a & mask.a, ip.b & mask.b, ip.c & mask.c, ip.d & mask.d)
  }

  function ToString(ip: Address): (s: string)
    ensures s != ""
  {
    Decimal(ip.a as nat) + "." + Decimal(ip.b as nat) + "." + Decimal(ip.c as nat) + "." + Decimal(ip.d as nat)
  }

  // ---------------------------------------------------------------- parsing

  /** The fields between the dots. */
  function Fields(s: string): (r: seq<string>)
    ensures |r| > 0
  {
    if s == "" then [""]
    else
      var rest := Fields(s[1..]);
      if s[0] == '.' then [""] + rest else [[s[0]] + rest[0]] + rest[1..]
  }

  /** One to three digits, no leading zero, at most 255. */
  function ParseOctet(s: string): Option<bv8> {
    if s == "" || |s| > 3 || !AllDigits(s) || (|s| > 1 && s[0] == '0') || NumberOf(s) > 255 then None
    else Some(NumberOf(s) as bv8)
  }

  function ParseDotted(s: string): Option<Address> {
    var fields := Fields(s);
    if |fields| != 4 then None
    else
      match (ParseOctet(fields[0]), ParseOctet(fields[1]), ParseOctet(fields[2]), ParseOctet(fields[3]))
      case (Some(a), Some(b), Some(c), Some(d)) => Some(Address(a, b, c, d))
      case _ => None
  }

  // ---------------------------------------------------------------- round trip

  lemma {:induction false} FieldsOfPlain(s: string)
    requires '.' !in s
    ensures Fields(s) == [s]
  {
    if s == "" {
    } else {
      FieldsOfPlain(s[1..]);
      assert [s[0]] + s[1..] == s;
    }
  }

  lemma {:induction false} FieldsOfJoined(s: string, rest: string)
    requires '.' !in s
    ensures Fields(s + "." + rest) == [s] + Fields(rest)
  {
    var all := s + "." + rest;
    if s == "" {
      assert all[0] == '.' && all[1..] == rest;
    } else {
      assert all[0] == s[0] && all[1..] == s[1..] + "." + rest;
      FieldsOfJoined(s[1..], rest);
      assert [s[0]] + s[1..] == s;
    }
  }

  lemma {:induction false} DecimalIsPlain(n: nat)
    ensures n > 0 ==> Decimal(n)[0] != '0'
    ensures '.' !in Decimal(n)
  {
    if n < 10 {
    } else {
      DecimalIsPlain(n / 10);
      assert Decimal(n)[0] == Decimal(n / 10)[0];
    }
  }

  lemma OctetReads(o: bv8)
    ensures ParseOctet(Decimal(o as nat)) == Some(o) && '.' !in Decimal(o as nat)
  {
    var n := o as nat;
    assert n < 256;
    DecimalIsPlain(n);
    DecimalDenotes(n);
    DecimalLength(n, 3);
    if n < 10 {
      DecimalLength(n, 1);
    }
  }

  lemma {:induction false} FieldsOfFour(a: string, b: string, c: string, d: string)
    requires '.' !in a && '.' !in b && '.' !in c && '.' !in d
    ensures Fields(a + "." + b + "." + c + "." + d) == [a, b, c, d]
  {
    var cd := c + "." + d;
    var bcd := b + "." + cd;
    assert a + "." + b + "." + c + "." + d == a + "." + bcd;
    FieldsOfJoined(a, bcd);
    FieldsOfJoined(b, cd);
    FieldsOfJoined(c, d);
    FieldsOfPlain(d);
  }

  /** An address reads back from what it is written as. */
  lemma ParseToString(ip: Address)
    ensures ParseDotted(ToString(ip)) == Some(ip)
  {
    hide ParseOctet, Decimal, Fields;
    OctetReads(ip.a);
    OctetReads(ip.b);
    OctetReads(ip.c);
    OctetReads(ip.d);
    FieldsOfFour(Decimal(ip.a as nat), Decimal(ip.b as nat), Decimal(ip.c as nat), Decimal(ip.d as nat));
  }

  // ---------------------------------------------------------------- no other spelling

  lemma {:induction false} NumberIsPositive(s: string)
    requires AllDigits(s) && s != "" && s[0] != '0'
    ensures NumberOf(s) > 0
  {
    if |s| > 1 {
      NumberIsPositive(s[..|s| - 1]);
    } else {
      assert s[..0] == "";
    }
  }

  lemma DigitOfValue(c: char)
    requires IsDigit(c)
    ensures DigitValue(c) < 10 && Digit(DigitValue(c)) == c
  {
  }

  /** Digits without a leading zero are the decimal form of the number they denote. */
  lemma {:induction false} DigitsAreDecimal(s: string)
    requires AllDigits(s) && s != "" && (|s| > 1 ==> s[0] != '0')
    ensures s == Decimal(NumberOf(s))
  {
    hide Digit, DigitValue;
    var front, last := s[..|s| - 1], s[|s| - 1];
    assert s == front + [last];
    DigitOfValue(last);
    assert NumberOf(s) == 10 * NumberOf(front) + DigitValue(last);
    if |s| > 1 {
      NumberIsPositive(front);
      DigitsAreDecimal(front);
      DecimalStep(NumberOf(front), DigitValue(last));
    } else {
      assert front == "" && NumberOf(front) == 0;
    }
  }

  lemma DecimalStep(n: nat, d: nat)
    requires n > 0 && d < 10
    ensures Decimal(10 * n + d) == Decimal(n) + [Digit(d)]
  {
  }

  lemma OctetExactly(s: string, o: bv8)
    ensures ParseOctet(s) == Some(o) <==> s == Decimal(o as nat)
  {
    OctetReads(o);
    if ParseOctet(s) == Some(o) {
      OctetIsDecimal(s);
    }
    hide Decimal, ParseOctet;
  }

  lemma OctetIsDecimal(s: string)
    requires ParseOctet(s).Some?
    ensures s == Decimal(ParseOctet(s).value as nat)
  {
    hide Decimal, NumberOf, AllDigits;
    DigitsAreDecimal(s);
    ByteStays(NumberOf(s));
  }

  lemma OneUp(o: bv8)
    requires o != 255
    ensures (o + 1) as nat == o as nat + 1
  {
  }

  lemma {:induction false} ByteOf(n: nat) returns (o: bv8)
    requires n < 256
    ensures o as nat == n
  {
    if n == 0 {
      o := 0;
    } else {
      var below := ByteOf(n - 1);
      OneUp(below);
      o := below + 1;
    }
  }

  lemma ByteBack(o: bv8)
    ensures o as nat as bv8 == o
  {
  }

  lemma ByteStays(n: nat)
    requires n < 256
    ensures n as bv8 as nat == n
  {
    var o := ByteOf(n);
    ByteBack(o);
  }

  function Joined(fields: seq<string>): string
    requires |fields| > 0
  {
    if |fields| == 1 then fields[0] else fields[0] + "." + Joined(fields[1..])
  }

  lemma {:induction false} JoinedFields(s: string)
    ensures Joined(Fields(s)) == s
  {
    if s == "" {
    } else {
      JoinedFields(s[1..]);
      var rest := Fields(s[1..]);
      if s[0] == '.' {
        assert ([""] + rest)[1..] == rest;
      } else {
        assert ([[s[0]] + rest[0]] + rest[1..])[1..] == rest[1..];
      }
    }
  }

  lemma JoinedFour(fields: seq<string>)
    requires |fields| == 4
    ensures Joined(fields) == fields[0] + "." + fields[1] + "." + fields[2] + "." + fields[3]
  {
    var last := fields[3..];
    assert Joined(last) == fields[3];
    assert fields[2..][1..] == last && fields[1..][1..] == fields[2..];
    assert Joined(fields[2..]) == fields[2] + "." + fields[3];
    assert Joined(fields[1..]) == fields[1] + "." + (fields[2] + "." + fields[3]);
  }

  /** A string reads as an address exactly when it is what the address is written as. */
  lemma ParseExactly(s: string, ip: Address)
    ensures ParseDotted(s) == Some(ip) <==> s == ToString(ip)
  {
    ParseToString(ip);
    if ParseDotted(s) == Some(ip) {
      hide ParseOctet, Decimal, Fields;
      var fields := Fields(s);
      OctetExactly(fields[0], ip.a);
      OctetExactly(fields[1], ip.b);
      OctetExactly(fields[2], ip.c);
      OctetExactly(fields[3], ip.d);
      JoinedFields(s);
      JoinedFour(fields);
    }
  }

  // ---------------------------------------------------------------- masks

  predicate IsBit(bit: bv8) {
    bit in {1, 2, 4, 8, 16, 32, 64, 128}
  }

  predicate HasBit(octet: bv8, bit: bv8) {
    octet & bit != 0
  }

  /** `result` has just the bits that both have. */
  ghost predicate KeepsCommonBits(octet: bv8, mask: bv8, result: bv8) {
    forall bit: bv8 :: IsBit(bit) ==> (HasBit(result, bit) <==> HasBit(octet, bit) && HasBit(mask, bit))
  }

  /** Under the mask an octet keeps the bits the mask has, and no others. */
  lemma {:induction false} MaskedBits(ip: Address, mask: Address)
    ensures var m := Masked(ip, mask);
            && KeepsCommonBits(ip.a, mask.a, m.a) && KeepsCommonBits(ip.b, mask.b, m.b)
            && KeepsCommonBits(ip.c, mask.c, m.c) && KeepsCommonBits(ip.d, mask.d, m.d)
  {
    hide KeepsCommonBits;
    AndKeeps(ip.a, mask.a);
    AndKeeps(ip.b, mask.b);
    AndKeeps(ip.c, mask.c);
    AndKeeps(ip.d, mask.d);
  }

  lemma AndKeeps(o: bv8, m: bv8)
    ensures KeepsCommonBits(o, m, o & m)
  {
    hide HasBit, IsBit;
    forall bit: bv8 | IsBit(bit) ensures HasBit(o & m, bit) <==> HasBit(o, bit) && HasBit(m, bit) {
      AndBit(o, m, bit);
    }
  }

  lemma AndBit(o: bv8, m: bv8, bit: bv8)
    requires IsBit(bit)
    ensures HasBit(o & m, bit) <==> HasBit(o, bit) && HasBit(m, bit)
  {
  }
}

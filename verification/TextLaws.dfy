/** What the functions of `Text` come to, letter by letter and for whole strings. */
module TextLaws {
  import opened Wrappers
  import opened Text

  const CAPITALS := "ABCDEFGHIJKLMNOPQRSTUVWXYZ"
  const SMALL := "abcdefghijklmnopqrstuvwxyz"

  // ---------------------------------------------------------------- letters

  lemma CapitalAt(k: nat)
    requires k < 26
    ensures |CAPITALS| == 26 && CAPITALS[k] == 'A' + (k as char)
  {
  }

  lemma SmallAt(k: nat)
    requires k < 26
    ensures |SMALL| == 26 && SMALL[k] == 'a' + (k as char)
  {
  }

  /** The k-th letter of the alphabet in its two cases. */
  lemma {:induction false} LettersHaveCases(k: nat)
    requires k < 26
    ensures |CAPITALS| == |SMALL| == 26
    ensures ToUpper(SMALL[k]) == ToUpper(CAPITALS[k]) == CAPITALS[k]
    ensures ToLower(SMALL[k]) == ToLower(CAPITALS[k]) == SMALL[k]
    ensures Fold(SMALL[k]) == Fold(CAPITALS[k]) == SMALL[k]
  {
    hide CAPITALS, SMALL;
    CapitalAt(k);
    SmallAt(k);
  }

  lemma {:induction false} LettersAreListed(c: char)
    ensures 'A' <= c <= 'Z' <==> c in CAPITALS
    ensures 'a' <= c <= 'z' <==> c in SMALL
  {
    hide CAPITALS, SMALL;
    CapitalAt(0);
    SmallAt(0);
    forall k: nat | k < 26 ensures CAPITALS[k] == 'A' + (k as char) && SMALL[k] == 'a' + (k as char) {
      CapitalAt(k);
      SmallAt(k);
    }
    if 'A' <= c <= 'Z' {
      assert CAPITALS[(c - 'A') as int] == c;
    }
    if 'a' <= c <= 'z' {
      assert SMALL[(c - 'a') as int] == c;
    }
  }

  /** No other ASCII character has a case. */
  lemma OthersHaveNoCase(c: char)
    requires c < '\U{80}' && c !in CAPITALS && c !in SMALL
    ensures ToUpper(c) == c && ToLower(c) == c && Fold(c) == c
  {
    LettersAreListed(c);
  }

  /** Four characters outside ASCII have an ASCII letter for a case: Kelvin sign, dotted I, dotless i, long s. */
  lemma ForeignCases(c: char)
    requires c >= '\U{80}'
    ensures ToLower(c) < '\U{80}' <==> c == '\U{212A}' || c == '\U{130}'
    ensures ToUpper(c) < '\U{80}' <==> c == '\U{131}' || c == '\U{17F}'
    ensures Fold(c) < '\U{80}' <==> c == '\U{212A}' || c == '\U{17F}'
    ensures ToLower('\U{212A}') == Fold('\U{212A}') == 'k' && ToLower('\U{130}') == 'i'
    ensures ToUpper('\U{131}') == 'I' && ToUpper('\U{17F}') == 'S' && Fold('\U{17F}') == 's'
  {
  }

  lemma {:induction false} UpperAt(s: string)
    ensures |Upper(s)| == |s| && forall k :: 0 <= k < |s| ==> Upper(s)[k] == ToUpper(s[k])
  {
    if s == "" {
    } else {
      UpperAt(s[1..]);
    }
  }

  lemma {:induction false} LowerAt(s: string)
    ensures |Lower(s)| == |s| && forall k :: 0 <= k < |s| ==> Lower(s)[k] == ToLower(s[k])
  {
    if s == "" {
    } else {
      LowerAt(s[1..]);
    }
  }

  /** The name in whatever case. */
  predicate SpelledAs(s: string, name: string) {
    |s| == |name| && forall k :: 0 <= k < |s| ==> ToUpper(s[k]) == name[k]
  }

  lemma {:induction false} UpperIsSpelled(s: string, name: string)
    ensures Upper(s) == name <==> SpelledAs(s, name)
  {
    UpperAt(s);
  }

  /** Folded equality is equality up to case for letters that no foreign character folds to or uppercases to. */
  lemma {:induction false} UpperIsFolded(s: string, name: string)
    requires forall k :: 0 <= k < |name| ==> name[k] in CAPITALS && name[k] != 'I' && name[k] != 'K'
    ensures Upper(s) == name <==> EqualFold(s, name)
  {
    UpperAt(s);
    if |s| == |name| {
      forall k | 0 <= k < |s| ensures Upper(s)[k] == name[k] <==> Fold(s[k]) == Fold(name[k]) {
        FoldsAsUpper(s[k], name[k]);
      }
    }
  }

  lemma FoldsAsUpper(c: char, capital: char)
    requires capital in CAPITALS && capital != 'I' && capital != 'K'
    ensures ToUpper(c) == capital <==> Fold(c) == Fold(capital)
  {
    LettersAreListed(capital);
    hide CAPITALS, SMALL;
  }

  // ---------------------------------------------------------------- spaces

  /** The white space of ASCII, and how it ends outside. */
  lemma SpacesOfAscii(c: char)
    ensures c < '\U{80}' ==> (IsSpace(c) <==> c in "\t\n\U{0B}\U{0C}\r ")
    ensures c >= '\U{80}' ==> (IsSpace(c) <==>
      || c in "\U{85}\U{A0}\U{1680}\U{2000}\U{2001}\U{2002}\U{2003}\U{2004}\U{2005}\U{2006}\U{2007}\U{2008}"
      || c in "\U{2009}\U{200A}\U{2028}\U{2029}\U{202F}\U{205F}\U{3000}")
  {
  }

  predicate AllSpace(s: string) {
    forall k :: 0 <= k < |s| ==> IsSpace(s[k])
  }

  /** Trimming takes away white space at both ends, as far as it goes, and nothing else. */
  lemma {:induction false} TrimsBothEnds(s: string) returns (front: string, back: string)
    ensures s == front + TrimSpace(s) + back && AllSpace(front) && AllSpace(back)
    ensures var t := TrimSpace(s); t != "" ==> !IsSpace(t[0]) && !IsSpace(t[|t| - 1])
  {
    front := TrimsStart(s);
    back := TrimsEnd(TrimStart(s));
    assert s == front + (TrimSpace(s) + back);
    if TrimSpace(s) != "" {
      assert TrimSpace(s)[0] == TrimStart(s)[0];
    }
  }

  lemma {:induction false} TrimsStart(s: string) returns (front: string)
    ensures s == front + TrimStart(s) && AllSpace(front)
    ensures TrimStart(s) != "" ==> !IsSpace(TrimStart(s)[0])
  {
    if s != "" && IsSpace(s[0]) {
      front := TrimsStart(s[1..]);
      front := [s[0]] + front;
    } else {
      front := "";
    }
  }

  lemma {:induction false} TrimsEnd(s: string) returns (back: string)
    ensures s == TrimEnd(s) + back && AllSpace(back)
    ensures TrimEnd(s) != "" ==> !IsSpace(TrimEnd(s)[|TrimEnd(s)| - 1])
  {
    if s != "" && IsSpace(s[|s| - 1]) {
      back := TrimsEnd(s[..|s| - 1]);
      back := back + [s[|s| - 1]];
    } else {
      back := "";
    }
  }

  // ---------------------------------------------------------------- parts of strings

  lemma ContainsMeans(s: string, sep: string)
    ensures Contains(s, sep) <==> exists i: nat :: OccursAt(s, sep, i)
  {
  }

  /** What precedes a separator ends at its first occurrence. */
  lemma PrecedingMeans(s: string, sep: string)
    requires Contains(s, sep)
    ensures var p := Preceding(s, sep);
            && p + sep <= s
            && forall i: nat :: i < |p| ==> !OccursAt(s, sep, i)
  {
    var i := IndexFrom(s, sep, 0).value;
    assert s[..i] + s[i..i + |sep|] == s[..i + |sep|];
  }

  lemma SuffixMeans(s: string, suffix: string)
    ensures HasSuffix(s, suffix) <==> exists rest :: s == rest + suffix
  {
    if HasSuffix(s, suffix) {
      assert s == s[..|s| - |suffix|] + suffix;
    }
  }
}

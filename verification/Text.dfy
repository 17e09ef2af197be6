/** The parts of Go's `strings` and `unicode` packages the models need. */
module Text {
  import opened Wrappers

  /**
   `unicode.ToLower` as far as it matters here: besides A-Z, only the Kelvin sign and the dotted
   capital I have an ASCII lower case. Other characters never become a letter or digit.
   */
  function ToLower(c: char): char {
    if 'A' <= c <= 'Z' then c - 'A' + 'a'
    else if c == '\U{212A}' then 'k'
    else if c == '\U{0130}' then 'i'
    else c
  }

  /** `unicode.ToUpper`, likewise: the dotless i and the long s have an ASCII upper case. */
  function ToUpper(c: char): char {
    if 'a' <= c <= 'z' then c - 'a' + 'A'
    else if c == '\U{0131}' then 'I'
    else if c == '\U{017F}' then 'S'
    else c
  }

  /** The simple folding behind `strings.EqualFold`, as far as ASCII letters take part in it. */
  function Fold(c: char): char {
    if 'A' <= c <= 'Z' then c - 'A' + 'a'
    else if c == '\U{212A}' then 'k'
    else if c == '\U{017F}' then 's'
    else c
  }

  function Upper(s: string): string {
    if s == "" then "" else [ToUpper(s[0])] + Upper(s[1..])
  }

  function Lower(s: string): string {
    if s == "" then "" else [ToLower(s[0])] + Lower(s[1..])
  }

  predicate EqualFold(a: string, b: string) {
    |a| == |b| && forall k :: 0 <= k < |a| ==> Fold(a[k]) == Fold(b[k])
  }

  /** `unicode.IsSpace`: the characters of the Unicode property White_Space. */
  predicate IsSpace(c: char) {
    || '\U{09}' <= c <= '\U{0D}' || c == ' ' || c == '\U{85}' || c == '\U{A0}' || c == '\U{1680}'
    || '\U{2000}' <= c <= '\U{200A}' || c == '\U{2028}' || c == '\U{2029}' || c == '\U{202F}'
    || c == '\U{205F}' || c == '\U{3000}'
  }

  function TrimStart(s: string): string {
    if s != "" && IsSpace(s[0]) then TrimStart(s[1..]) else s
  }

  function TrimEnd(s: string): string {
    if s != "" && IsSpace(s[|s| - 1]) then TrimEnd(s[..|s| - 1]) else s
  }

  function TrimSpace(s: string): string {
    TrimEnd(TrimStart(s))
  }

  predicate IsBlank(s: string) {
    TrimSpace(s) == ""
  }

  predicate HasSuffix(s: string, suffix: string) {
    |suffix| <= |s| && s[|s| - |suffix|..] == suffix
  }

  predicate OccursAt(s: string, sep: string, i: nat) {
    i + |sep| <= |s| && s[i..i + |sep|] == sep
  }

  /** The first index of `sep` from `i` on. */
  function IndexFrom(s: string, sep: string, i: nat): (r: Option<nat>)
    requires i <= |s|
    ensures r.Some? ==>
      i <= r.value && OccursAt(s, sep, r.value) && forall j :: i <= j < r.value ==> !OccursAt(s, sep, j)
    ensures r.None? ==> forall j :: i <= j <= |s| ==> !OccursAt(s, sep, j)
    decreases |s| - i
  {
    if OccursAt(s, sep, i) then Some(i)
    else if i == |s| then None
    else IndexFrom(s, sep, i + 1)
  }

  predicate Contains(s: string, sep: string) {
    IndexFrom(s, sep, 0).Some?
  }

  /** `strings.Cut`: what stands before the first `sep`. */
  function Preceding(s: string, sep: string): string
    requires Contains(s, sep)
  {
    s[..IndexFrom(s, sep, 0).value]
  }
}

/**
 * The Python `str` operations both bridges are built from, over `seq<char>`:
 * `lower()`, `strip()`, `split()`, `split(sep, 1)`, `replace(old, "")`,
 * `startswith`, `in` / `index`, slicing with clamped bounds, `int()` and
 * `str()` of an integer.
 */
module Text {

  import opened Base

  type String = seq<char>

  /** Python truthiness of an optional string such as `self.game_id`: set and non-empty. */
  predicate Bound(id: Option<String>) {
    id.Some? && id.value != ""
  }

  /** The code points Python's `str.isspace()` accepts, which `split()` and `strip()` remove. */
  predicate IsSpace(c: char) {
    ('\t' <= c <= '\r') || ('\U{1C}' <= c <= ' ') || c == '\U{85}' || c == '\U{A0}'
    || c == '\U{1680}' || ('\U{2000}' <= c <= '\U{200A}') || c == '\U{2028}' || c == '\U{2029}'
    || c == '\U{202F}' || c == '\U{205F}' || c == '\U{3000}'
  }

  predicate NoSpace(w: String) {
    forall i :: 0 <= i < |w| ==> !IsSpace(w[i])
  }

  // ---------------------------------------------------------------------------
  // lower()
  // ---------------------------------------------------------------------------

  /** Case folding of one character (ASCII letters only). */
  function LowerChar(c: char): char {
    if 'A' <= c <= 'Z' then (c as int + 32) as char else c
  }

  /** Python's `s.lower()`, restricted to ASCII letters; it keeps the length. */
  function Lower(s: String): String {
    seq(|s|, i requires 0 <= i < |s| => LowerChar(s[i]))
  }

  lemma LowerKeepsSpaces(c: char)
    ensures IsSpace(LowerChar(c)) == IsSpace(c)
  {
  }

  lemma LowerConcat(a: String, b: String)
    ensures Lower(a + b) == Lower(a) + Lower(b)
  {
    assert forall i :: 0 <= i < |a + b| ==> Lower(a + b)[i] == (Lower(a) + Lower(b))[i];
  }

  // ---------------------------------------------------------------------------
  // strip()
  // ---------------------------------------------------------------------------

  /** The first index at or after `i` where `s` does not hold white space (`|s|` if none). */
  function SkipSpaces(s: String, i: nat): (k: nat)
    requires i <= |s|
    ensures i <= k <= |s|
    ensures forall j :: i <= j < k ==> IsSpace(s[j])
    ensures k < |s| ==> !IsSpace(s[k])
    decreases |s| - i
  {
    if i < |s| && IsSpace(s[i]) then SkipSpaces(s, i + 1) else i
  }

  /** One past the last index below `j` and at or after `lo` where `s` does not hold white space (`lo` if none). */
  function SkipSpacesBack(s: String, lo: nat, j: nat): (k: nat)
    requires lo <= j <= |s|
    ensures lo <= k <= j
    ensures forall m :: k <= m < j ==> IsSpace(s[m])
    ensures k > lo ==> !IsSpace(s[k - 1])
    decreases j
  {
    if j > lo && IsSpace(s[j - 1]) then SkipSpacesBack(s, lo, j - 1) else j
  }

  /** Where the stripped text begins inside `s`. */
  function StripStart(s: String): nat {
    SkipSpaces(s, 0)
  }

  /** Where the stripped text ends inside `s`. */
  function StripEnd(s: String): (k: nat)
    ensures StripStart(s) <= k <= |s|
  {
    SkipSpacesBack(s, StripStart(s), |s|)
  }

  /**
   * Python's `s.strip()`: the one segment of `s` that neither begins nor ends
   * with white space and outside of which `s` holds only white space.
   */
  function Strip(s: String): (r: String)
    ensures r == s[StripStart(s)..StripEnd(s)]
    ensures forall i :: 0 <= i < StripStart(s) ==> IsSpace(s[i])
    ensures forall i :: StripEnd(s) <= i < |s| ==> IsSpace(s[i])
    ensures r != [] ==> !IsSpace(r[0]) && !IsSpace(r[|r| - 1])
  {
    s[StripStart(s)..StripEnd(s)]
  }

  /** A string with no white space at either end is its own `strip()`. */
  lemma StripKeeps(s: String)
    requires s == [] || (!IsSpace(s[0]) && !IsSpace(s[|s| - 1]))
    ensures Strip(s) == s
  {
  }

  lemma StripIdempotent(s: String)
    ensures Strip(Strip(s)) == Strip(s)
  {
    StripKeeps(Strip(s));
  }

  // ---------------------------------------------------------------------------
  // slicing, startswith, in / index
  // ---------------------------------------------------------------------------

  function Min(a: int, b: int): int {
    if a <= b then a else b
  }

  /** Python's `s[a:b]` for non-negative bounds: both are clamped to the length. */
  function Slice(s: String, a: nat, b: nat): (r: String)
    ensures |r| == if a < Min(b, |s|) then Min(b, |s|) - a else 0
    ensures forall i :: 0 <= i < |r| ==> r[i] == s[a + i]
  {
    if a < Min(b, |s|) then s[a..Min(b, |s|)] else []
  }

  /** Python's `s[a:]` for a non-negative start. */
  function From(s: String, a: nat): String {
    Slice(s, a, |s|)
  }

  predicate StartsWith(s: String, p: String) {
    |p| <= |s| && s[..|p|] == p
  }

  predicate OccursAt(s: String, p: String, i: nat) {
    i + |p| <= |s| && s[i..i + |p|] == p
  }

  function FindFrom(s: String, p: String, k: nat): (r: Option<nat>)
    requires k <= |s|
    ensures r.Some? ==> k <= r.value && OccursAt(s, p, r.value)
    ensures r.Some? ==> forall j :: k <= j < r.value ==> !OccursAt(s, p, j)
    ensures r.None? ==> forall j :: k <= j <= |s| ==> !OccursAt(s, p, j)
    decreases |s| - k
  {
    if OccursAt(s, p, k) then Some(k)
    else if k == |s| then None
    else FindFrom(s, p, k + 1)
  }

  /** Python's `s.index(p)` (Some of the first occurrence) and `p in s` (Find(s, p).Some?). */
  function Find(s: String, p: String): (r: Option<nat>)
    ensures r.Some? ==> OccursAt(s, p, r.value) && forall j :: 0 <= j < r.value ==> !OccursAt(s, p, j)
    ensures r.None? ==> forall j :: 0 <= j <= |s| ==> !OccursAt(s, p, j)
  {
    FindFrom(s, p, 0)
  }

  predicate Contains(s: String, p: String) {
    Find(s, p).Some?
  }

  /** The first occurrence is the one Find reports. */
  lemma FindFirst(s: String, p: String, i: nat)
    requires OccursAt(s, p, i)
    requires forall j :: 0 <= j < i ==> !OccursAt(s, p, j)
    ensures Find(s, p) == Some(i)
  {
  }

  // ---------------------------------------------------------------------------
  // split(sep, 1) and replace(old, new)
  // ---------------------------------------------------------------------------

  /**
   * Python's `s.split(sep, 1)`: one part when `sep` does not occur, otherwise the
   * text before the first occurrence and the text after it.
   */
  function SplitOnce(s: String, sep: String): (r: seq<String>)
    requires sep != []
    ensures |r| == 1 || |r| == 2
    ensures |r| == 1 <==> !Contains(s, sep)
    ensures |r| == 1 ==> r[0] == s
    ensures |r| == 2 ==> r[0] + sep + r[1] == s && forall j :: 0 <= j < |r[0]| ==> !OccursAt(s, sep, j)
  {
    match Find(s, sep)
    case None => [s]
    case Some(i) =>
      assert s == s[..i] + sep + s[i + |sep|..];
      [s[..i], s[i + |sep|..]]
  }

  /** Python's `s.replace(pat, rep)`: left-to-right, non-overlapping occurrences. */
  function ReplaceAll(s: String, pat: String, rep: String): String
    requires pat != []
    decreases |s|
  {
    if |s| < |pat| then s
    else if s[..|pat|] == pat then rep + ReplaceAll(s[|pat|..], pat, rep)
    else [s[0]] + ReplaceAll(s[1..], pat, rep)
  }

  /** Replacing a pattern that does not occur changes nothing. */
  lemma {:induction false} ReplaceAbsent(s: String, pat: String, rep: String)
    requires pat != []
    requires !Contains(s, pat)
    ensures ReplaceAll(s, pat, rep) == s
    decreases |s|
  {
    if |s| >= |pat| {
      assert !OccursAt(s, pat, 0);
      assert s[..|pat|] != pat;
      forall j | 0 <= j <= |s[1..]|
        ensures !OccursAt(s[1..], pat, j)
      {
        assert !OccursAt(s, pat, j + 1);
        if j + |pat| <= |s[1..]| {
          assert s[1..][j..j + |pat|] == s[j + 1..j + 1 + |pat|];
        }
      }
      ReplaceAbsent(s[1..], pat, rep);
    }
  }

  // ---------------------------------------------------------------------------
  // split()
  // ---------------------------------------------------------------------------

  /** Length of the run of non-space characters at the front of `s`. */
  function WordLength(s: String): (n: nat)
    ensures n <= |s|
    ensures forall i :: 0 <= i < n ==> !IsSpace(s[i])
    ensures n < |s| ==> IsSpace(s[n])
    decreases |s|
  {
    if s == [] || IsSpace(s[0]) then 0 else 1 + WordLength(s[1..])
  }

  /** Python's `s.split()`: the maximal runs of non-space characters, in order. */
  function Split(s: String): (r: seq<String>)
    ensures forall k :: 0 <= k < |r| ==> r[k] != [] && NoSpace(r[k])
    ensures r == [] <==> NoWord(s)
    decreases |s|
  {
    if s == [] then []
    else if IsSpace(s[0]) then Split(s[1..])
    else
      var n := WordLength(s);
      [s[..n]] + Split(s[n..])
  }

  predicate NoWord(s: String) {
    forall i :: 0 <= i < |s| ==> IsSpace(s[i])
  }

  /** The words joined by single spaces (the inverse of `split()` on such words). */
  function Unwords(ws: seq<String>): String {
    if ws == [] then []
    else if |ws| == 1 then ws[0]
    else ws[0] + " " + Unwords(ws[1..])
  }

  lemma {:induction false} WordLengthOfWord(w: String, rest: String)
    requires NoSpace(w)
    requires rest == [] || IsSpace(rest[0])
    ensures WordLength(w + rest) == |w|
    decreases |w|
  {
    if w != [] {
      assert (w + rest)[1..] == w[1..] + rest;
      WordLengthOfWord(w[1..], rest);
    }
  }

  /** Splitting words joined by single spaces gives the words back. */
  lemma {:induction false} SplitUnwords(ws: seq<String>)
    requires forall k :: 0 <= k < |ws| ==> ws[k] != [] && NoSpace(ws[k])
    ensures Split(Unwords(ws)) == ws
    decreases |ws|
  {
    if |ws| == 1 {
      var w := ws[0];
      WordLengthOfWord(w, []);
      assert w + [] == w && w[|w|..] == [];
    } else if |ws| > 1 {
      var w, u := ws[0], Unwords(ws[1..]);
      var s := w + " " + u;
      WordLengthOfWord(w, " " + u);
      assert s == w + (" " + u);
      assert s[..|w|] == w;
      assert s[|w|..] == " " + u;
      assert (" " + u)[1..] == u;
      SplitUnwords(ws[1..]);
    }
  }

  // ---------------------------------------------------------------------------
  // int() and str()
  // ---------------------------------------------------------------------------

  predicate IsDigit(c: char) {
    '0' <= c <= '9'
  }

  /**
   * The body of a Python integer: decimal digits, with single underscores
   * allowed between two digits.
   */
  predicate IntBody(d: String) {
    |d| > 0 && IsDigit(d[0]) && IsDigit(d[|d| - 1])
    && forall i :: 0 <= i < |d| ==> IsDigit(d[i]) || (d[i] == '_' && i + 1 < |d| && IsDigit(d[i + 1]))
  }

  /** The value of the digits of `d`, read left to right, skipping underscores. */
  function DigitsValue(d: String): nat
    decreases |d|
  {
    if d == [] then 0
    else if IsDigit(d[|d| - 1]) then 10 * DigitsValue(d[..|d| - 1]) + (d[|d| - 1] as int - '0' as int)
    else DigitsValue(d[..|d| - 1])
  }

  /**
   * Python's `int(s)` on a string: surrounding white space, an optional sign and
   * an integer body; None where Python raises ValueError.
   */
  function ParseInt(s: String): (r: Option<int>)
    ensures r.Some? ==> Strip(s) != []
    ensures Strip(s) != [] && !IsDigit(Strip(s)[0]) && Strip(s)[0] != '+' && Strip(s)[0] != '-' ==> r.None?
  {
    ParseSigned(Strip(s))
  }

  /** `int()` of text with no surrounding white space: an optional sign, then an integer body. */
  function ParseSigned(t: String): Option<int> {
    if |t| > 0 && t[0] == '-' then
      if IntBody(t[1..]) then Some(0 - DigitsValue(t[1..]) as int) else None
    else if |t| > 0 && t[0] == '+' then
      if IntBody(t[1..]) then Some(DigitsValue(t[1..])) else None
    else if IntBody(t) then Some(DigitsValue(t))
    else None
  }

  function DigitChar(d: nat): char
    requires d < 10
  {
    ('0' as int + d) as char
  }

  /** Python's `str(n)` for a non-negative integer: its decimal digits. */
  function NatToString(n: nat): String
    decreases n
  {
    if n < 10 then [DigitChar(n)] else NatToString(n / 10) + [DigitChar(n % 10)]
  }

  /** Python's `str(n)`: a minus sign before the digits of a negative number. */
  function IntToString(n: int): String {
    if n < 0 then "-" + NatToString(-n) else NatToString(n)
  }

  lemma {:induction false} NatToStringDigits(n: nat)
    ensures |NatToString(n)| > 0
    ensures forall i :: 0 <= i < |NatToString(n)| ==> IsDigit(NatToString(n)[i])
    ensures DigitsValue(NatToString(n)) == n
    decreases n
  {
    var s := NatToString(n);
    if n >= 10 {
      NatToStringDigits(n / 10);
      assert s[..|s| - 1] == NatToString(n / 10);
    }
  }

  /** An integer body parses to its digits' value. */
  lemma ParseIntOfBody(d: String)
    requires IntBody(d)
    ensures ParseInt(d) == Some(DigitsValue(d))
  {
    StripKeeps(d);
    assert ParseSigned(d) == Some(DigitsValue(d));
  }

  /** A minus sign before an integer body parses to the negated value. */
  lemma ParseIntOfNegative(d: String)
    requires IntBody(d)
    ensures ParseInt("-" + d) == Some(0 - DigitsValue(d) as int)
  {
    var s := "-" + d;
    assert s[1..] == d && s[|s| - 1] == d[|d| - 1];
    StripKeeps(s);
    assert ParseSigned(s) == Some(0 - DigitsValue(d) as int);
  }

  /** `int(str(n)) == n`: the decimal form of every integer parses back to it. */
  lemma ParseIntRoundTrip(n: int)
    ensures ParseInt(IntToString(n)) == Some(n)
  {
    var m: nat := if n < 0 then -n else n;
    NatToStringDigits(m);
    var d := NatToString(m);
    assert IntBody(d);
    if n < 0 {
      ParseIntOfNegative(d);
    } else {
      ParseIntOfBody(d);
    }
  }
}

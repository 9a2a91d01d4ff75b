/**
 * String helpers shared by the Python and Go parts of the model: substring
 * search, ASCII case folding, the two languages' whitespace sets, trimming,
 * UTF-8 byte length and decimal formatting.
 */
module StringUtil {
  import opened Wrappers

  /** `needle` occurs in `hay` starting at index `i`. */
  ghost predicate OccursAt(hay: string, needle: string, i: int) {
    0 <= i && i + |needle| <= |hay| && hay[i..i + |needle|] == needle
  }

  /** `needle in hay` (Python) / `strings.Contains(hay, needle)` (Go). */
  function Contains(hay: string, needle: string): (r: bool)
    ensures r <==> exists i :: OccursAt(hay, needle, i)
    decreases |hay|
  {
    if |hay| < |needle| then false
    else if hay[..|needle|] == needle then
      assert OccursAt(hay, needle, 0);
      true
    else
      OccursShift(hay, needle);
      Contains(hay[1..], needle)
  }

  /** Away from index 0, occurrences in `hay` are those in `hay[1..]`, shifted by one. */
  lemma OccursShift(hay: string, needle: string)
    requires |hay| >= |needle| && hay[..|needle|] != needle
    ensures (exists i :: OccursAt(hay, needle, i)) <==> (exists j :: OccursAt(hay[1..], needle, j))
  {
    if i :| OccursAt(hay, needle, i) {
      assert i != 0;
      assert hay[1..][i - 1..i - 1 + |needle|] == hay[i..i + |needle|];
      assert OccursAt(hay[1..], needle, i - 1);
    }
    if j :| OccursAt(hay[1..], needle, j) {
      assert hay[1..][j..j + |needle|] == hay[j + 1..j + 1 + |needle|];
      assert OccursAt(hay, needle, j + 1);
    }
  }

  /** Some needle of `needles` occurs in `hay`: the loop over a list of
      substrings that returns true at the first one `hay` contains. */
  function ContainsAny(hay: string, needles: seq<string>): (r: bool)
    ensures r <==> exists k :: 0 <= k < |needles| && Contains(hay, needles[k])
  {
    if needles == [] then false
    else Contains(hay, needles[0]) || ContainsAny(hay, needles[1..])
  }

  /** Case folding of one character, restricted to ASCII letters. */
  function LowerChar(c: char): (r: char)
    ensures 'A' <= c <= 'Z' ==> r as int == c as int + 32
    ensures !('A' <= c <= 'Z') ==> r == c
    ensures !('A' <= r <= 'Z')
  {
    if 'A' <= c <= 'Z' then (c as int + 32) as char else c
  }

  /** `s.lower()` / `strings.ToLower(s)`, restricted to ASCII letters. */
  function ToLower(s: string): (r: string)
    ensures |r| == |s|
    ensures forall i :: 0 <= i < |s| ==> r[i] == LowerChar(s[i])
  {
    seq(|s|, i requires 0 <= i < |s| => LowerChar(s[i]))
  }

  /** Whitespace common to Python's `str.isspace`/`\s` and Go's `unicode.IsSpace`. */
  predicate IsUnicodeSpace(c: char) {
    c == ' ' || c == '\t' || c == '\n' || c == '\r' || c == '\U{000B}' || c == '\U{000C}'
    || c == '\U{0085}' || c == '\U{00A0}' || c == '\U{1680}' || ('\U{2000}' <= c <= '\U{200A}')
    || c == '\U{2028}' || c == '\U{2029}' || c == '\U{202F}' || c == '\U{205F}' || c == '\U{3000}'
  }

  /** Python's whitespace: Go's set plus the four information separators 0x1C-0x1F. */
  predicate IsPySpace(c: char) {
    IsUnicodeSpace(c) || ('\U{001C}' <= c <= '\U{001F}')
  }

  /** Go's `unicode.IsSpace`. */
  predicate IsGoSpace(c: char) {
    IsUnicodeSpace(c)
  }

  /** How many leading characters satisfy `space`. */
  function LeadingRun(s: string, space: char -> bool): (n: nat)
    ensures n <= |s|
    ensures forall i :: 0 <= i < n ==> space(s[i])
    ensures n < |s| ==> !space(s[n])
  {
    if s == [] || !space(s[0]) then 0 else 1 + LeadingRun(s[1..], space)
  }

  /** How many trailing characters satisfy `space`. */
  function TrailingRun(s: string, space: char -> bool): (n: nat)
    ensures n <= |s|
    ensures forall i :: |s| - n <= i < |s| ==> space(s[i])
    ensures n < |s| ==> !space(s[|s| - n - 1])
  {
    if s == [] || !space(s[|s| - 1]) then 0 else 1 + TrailingRun(s[..|s| - 1], space)
  }

  /** Drops leading characters satisfying `space`. */
  function TrimLeft(s: string, space: char -> bool): (r: string)
    ensures |r| <= |s| && r == s[|s| - |r|..]
    ensures r != [] ==> !space(r[0])
    ensures forall i :: 0 <= i < |s| - |r| ==> space(s[i])
  {
    s[LeadingRun(s, space)..]
  }

  /** Drops trailing characters satisfying `space`. */
  function TrimRight(s: string, space: char -> bool): (r: string)
    ensures |r| <= |s| && r == s[..|r|]
    ensures r != [] ==> !space(r[|r| - 1])
    ensures forall i :: |r| <= i < |s| ==> space(s[i])
  {
    s[..|s| - TrailingRun(s, space)]
  }

  /** `s.strip()` (Python). */
  function PyStrip(s: string): (r: string)
    ensures r != [] ==> !IsPySpace(r[0]) && !IsPySpace(r[|r| - 1])
  {
    TrimRight(TrimLeft(s, IsPySpace), IsPySpace)
  }

  /** Where trimming `space` from both ends leaves the text. */
  function TrimOffset(w: string, space: char -> bool): nat {
    |w| - |TrimLeft(w, space)|
  }

  /** Only `space` characters lie before the trim offset and after the
      trimmed piece, which sits at that offset. */
  lemma TrimOffsetFacts(w: string, space: char -> bool)
    ensures var r := TrimRight(TrimLeft(w, space), space); var off := TrimOffset(w, space);
      off + |r| <= |w| && r == w[off..off + |r|]
      && (forall i :: 0 <= i < off ==> space(w[i]))
      && (forall i :: off + |r| <= i < |w| ==> space(w[i]))
  {
    var left := TrimLeft(w, space);
    PieceOfPiece(w, left, TrimRight(left, space), TrimOffset(w, space), space);
  }

  /** A prefix `r` of the suffix `left` of `w` sits at `off` in `w`. */
  lemma PieceOfPiece(w: string, left: string, r: string, off: nat, space: char -> bool)
    requires |left| <= |w| && left == w[|w| - |left|..] && off == |w| - |left|
    requires |r| <= |left| && r == left[..|r|]
    requires forall i :: |r| <= i < |left| ==> space(left[i])
    ensures off + |r| <= |w| && r == w[off..off + |r|]
    ensures forall i :: off + |r| <= i < |w| ==> space(w[i])
  {
    assert w[off..off + |r|] == left[..|r|];
    forall i | off + |r| <= i < |w| ensures space(w[i]) {
      assert w[i] == left[i - off];
    }
  }

  lemma WindowPiece(message: string, lo: nat, hi: nat, off: nat, r: string)
    requires lo < hi <= |message|
    requires off + |r| <= hi - lo && r == message[lo..hi][off..off + |r|]
    ensures OccursAt(message, r, lo + off)
  {
    forall k | 0 <= k < |r| ensures r[k] == message[lo + off + k] {
      assert r[k] == message[lo..hi][off + k];
    }
    assert r == message[lo + off..lo + off + |r|];
  }

  lemma WindowCovers(message: string, lo: nat, hi: nat, off: nat, r: string, start: nat, end: nat, space: char -> bool)
    requires lo <= start < end <= hi <= |message|
    requires off + |r| <= hi - lo && r == message[lo..hi][off..off + |r|]
    requires forall i :: 0 <= i < off ==> space(message[lo..hi][i])
    requires forall i :: off + |r| <= i < hi - lo ==> space(message[lo..hi][i])
    requires !space(message[start]) && !space(message[end - 1])
    ensures OccursAt(message, r, lo + off) && lo + off <= start && end <= lo + off + |r|
  {
    WindowPiece(message, lo, hi, off, r);
    assert message[lo..hi][start - lo] == message[start];
    assert message[lo..hi][end - 1 - lo] == message[end - 1];
  }


  /** `strings.TrimSpace(s)` (Go). */
  function GoTrimSpace(s: string): (r: string)
    ensures r != [] ==> !IsGoSpace(r[0]) && !IsGoSpace(r[|r| - 1])
  {
    TrimRight(TrimLeft(s, IsGoSpace), IsGoSpace)
  }

  /** Number of bytes of the UTF-8 encoding of one character. */
  function Utf8Width(c: char): (w: nat)
    ensures 1 <= w <= 4
  {
    if c as int < 0x80 then 1
    else if c as int < 0x800 then 2
    else if c as int < 0x10000 then 3
    else 4
  }

  /** Go's `len(s)`: the length of `s` in UTF-8 bytes. */
  function Utf8Len(s: string): (n: nat)
    ensures |s| <= n <= 4 * |s|
    ensures (forall i :: 0 <= i < |s| ==> s[i] as int < 0x80) ==> n == |s|
  {
    if s == [] then 0 else Utf8Width(s[0]) + Utf8Len(s[1..])
  }

  /** Non-overlapping occurrences of `pat` in `s`, counted left to right (`str.count`). */
  function Count(s: string, pat: string): nat
    requires |pat| > 0
    decreases |s|
  {
    if |s| < |pat| then 0
    else if s[..|pat|] == pat then 1 + Count(s[|pat|..], pat)
    else Count(s[1..], pat)
  }

  /** Decimal digits of a natural number (`%d` / `str(n)`). */
  function NatToString(n: nat): (s: string)
    ensures |s| > 0
    ensures forall i :: 0 <= i < |s| ==> '0' <= s[i] <= '9'
    decreases n
  {
    var d := ['0' + (n % 10) as char];
    if n < 10 then d else NatToString(n / 10) + d
  }

  /** Decimal form of an integer with a leading '-' when negative (Go's `%d`). */
  function IntToString(n: int): (s: string)
    ensures |s| > 0
    ensures (n < 0) <==> s[0] == '-'
  {
    if n < 0 then "-" + NatToString(-n) else NatToString(n)
  }

  /** `sep.join(parts)` (Python) / `strings.Join(parts, sep)` (Go). */
  function Join(sep: string, parts: seq<string>): (r: string)
    ensures parts == [] ==> r == ""
    ensures |parts| == 1 ==> r == parts[0]
  {
    if parts == [] then ""
    else if |parts| == 1 then parts[0]
    else parts[0] + sep + Join(sep, parts[1..])
  }

  /** The text before the first `c`, i.e. `strings.Split(s, string(c))[0]`. */
  function BeforeFirst(s: string, c: char): (r: string)
    ensures |r| <= |s| && r == s[..|r|]
    ensures c !in r
    ensures |r| < |s| ==> s[|r|] == c
  {
    if s == [] || s[0] == c then [] else [s[0]] + BeforeFirst(s[1..], c)
  }

  /** An occurrence of `mid` in `hay` carries every occurrence of `needle` in `mid` along. */
  lemma ContainsTransitive(hay: string, mid: string, needle: string)
    requires Contains(hay, mid) && Contains(mid, needle)
    ensures Contains(hay, needle)
  {
    var i :| OccursAt(hay, mid, i);
    var j :| OccursAt(mid, needle, j);
    forall k | 0 <= k < |needle| ensures hay[i + j + k] == needle[k] {
      assert hay[i..i + |mid|][j + k] == mid[j + k];
      assert mid[j..j + |needle|][k] == needle[k];
    }
    assert OccursAt(hay, needle, i + j);
  }

  predicate IsDigit(c: char) { '0' <= c <= '9' }

  predicate AllDigits(s: string) { forall i :: 0 <= i < |s| ==> IsDigit(s[i]) }

  /** The value of a string of decimal digits, most significant first. */
  function DigitsValue(s: string): nat
    requires AllDigits(s)
  {
    if s == [] then 0 else DigitsValue(s[..|s| - 1]) * 10 + (s[|s| - 1] as int - '0' as int)
  }

  /** `strconv.Atoi(s)` without its 64-bit range check: an optional sign and
      at least one decimal digit, nothing else. */
  function ParseInt(s: string): (r: Option<int>)
    ensures r.Some? ==> s != [] && (IsDigit(s[0]) || s[0] == '-' || s[0] == '+')
    ensures r.Some? && r.value < 0 ==> s[0] == '-'
  {
    if s == [] then None
    else if s[0] == '-' || s[0] == '+' then
      var digits := s[1..];
      if digits != [] && AllDigits(digits) then
        var v: int := DigitsValue(digits);
        Some(if s[0] == '-' then -v else v)
      else None
    else if AllDigits(s) then Some(DigitsValue(s))
    else None
  }

  /** `strconv.Atoi` with the error dropped: 0 when the text does not parse. */
  function AtoiOrZero(s: string): int {
    ParseInt(s).GetOr(0)
  }

  lemma {:induction false} NatToStringValue(n: nat)
    ensures AllDigits(NatToString(n)) && DigitsValue(NatToString(n)) == n
    decreases n
  {
    var s := NatToString(n);
    if n >= 10 {
      NatToStringValue(n / 10);
      var d := ['0' + (n % 10) as char];
      assert s == NatToString(n / 10) + d;
      assert s[..|s| - 1] == NatToString(n / 10);
    }
  }

  /** Parsing undoes decimal formatting. */
  lemma ParseIntRoundTrip(n: int)
    ensures ParseInt(IntToString(n)) == Some(n)
  {
    if n < 0 {
      NatToStringValue(-n);
      var s := IntToString(n);
      assert s[1..] == NatToString(-n);
    } else {
      NatToStringValue(n);
    }
  }
}

/**
 * `RegexDetector._normalize_message`: lower-case the message, undo common
 * obfuscations by plain substring replacement in the order of the
 * replacement table, then turn every whitespace run into one space.
 */
module Normalizer {
  import opened StringUtil

  /** The replacement table in dictionary order: each target with the
      alternatives that are replaced by it, in list order. */
  const Replacements: seq<(string, seq<string>)> := [
    ("@", ["at", "(at)", "[at]", " at ", "_at_"]),
    (".", ["dot", "(dot)", "[dot]", " dot ", "_dot_"]),
    ("0", ["zero", "o", "O"]),
    ("1", ["one", "l", "I"]),
    ("2", ["two", "to"]),
    ("3", ["three", "tree"]),
    ("4", ["four", "for"]),
    ("5", ["five"]),
    ("6", ["six"]),
    ("7", ["seven"]),
    ("8", ["eight"]),
    ("9", ["nine"])
  ]

  /** Python's `s.replace(pat, repl)`: non-overlapping occurrences, left to right. */
  function Replace(s: string, pat: string, repl: string): string
    requires |pat| > 0
    decreases |s|
  {
    if |s| < |pat| then s
    else if s[..|pat|] == pat then repl + Replace(s[|pat|..], pat, repl)
    else [s[0]] + Replace(s[1..], pat, repl)
  }

  /** The inner loop: every alternative of one entry replaced by its target, in order. */
  function ApplyAlternatives(s: string, target: string, alternatives: seq<string>): string
    requires forall a :: a in alternatives ==> |a| > 0
  {
    if alternatives == [] then s
    else
      var last := alternatives[|alternatives| - 1];
      Replace(ApplyAlternatives(s, target, alternatives[..|alternatives| - 1]), last, target)
  }

  ghost predicate WellFormedTable(rules: seq<(string, seq<string>)>) {
    forall k :: 0 <= k < |rules| ==> forall a :: a in rules[k].1 ==> |a| > 0
  }

  /** The outer loop: the entries of the table applied in order. */
  function ApplyTable(s: string, rules: seq<(string, seq<string>)>): string
    requires WellFormedTable(rules)
  {
    if rules == [] then s
    else
      var last := rules[|rules| - 1];
      ApplyAlternatives(ApplyTable(s, rules[..|rules| - 1]), last.0, last.1)
  }

  /** `s` with its leading whitespace removed. */
  function SkipSpaces(s: string): (r: string)
    ensures |r| <= |s| && r == s[|s| - |r|..]
    ensures r != [] ==> !IsPySpace(r[0])
  {
    if s == [] || !IsPySpace(s[0]) then s else SkipSpaces(s[1..])
  }

  ghost predicate NoAdjacentSpaces(s: string) {
    forall i :: 0 <= i < |s| - 1 ==> !(IsPySpace(s[i]) && IsPySpace(s[i + 1]))
  }

  /** `re.sub(r'\s+', ' ', s)`: every maximal whitespace run becomes one space.
      No two whitespace characters end up adjacent and the only whitespace
      left is the plain space. */
  function CollapseWhitespace(s: string): (r: string)
    ensures NoAdjacentSpaces(r)
    ensures forall i :: 0 <= i < |r| && IsPySpace(r[i]) ==> r[i] == ' '
    ensures r != [] ==> s != [] && (IsPySpace(r[0]) <==> IsPySpace(s[0]))
    decreases |s|
  {
    if s == [] then []
    else if IsPySpace(s[0]) then
      var t := CollapseWhitespace(SkipSpaces(s));
      assert t != [] ==> !IsPySpace(t[0]);
      var r := [' '] + t;
      assert forall i :: 1 <= i < |r| ==> r[i] == t[i - 1];
      r
    else
      var t := CollapseWhitespace(s[1..]);
      var r := [s[0]] + t;
      assert forall i :: 1 <= i < |r| ==> r[i] == t[i - 1];
      r
  }

  /** Collapsing keeps every character that is not whitespace. */
  lemma {:induction false} CollapseKeeps(s: string, c: char)
    requires !IsPySpace(c)
    ensures c in CollapseWhitespace(s) <==> c in s
    decreases |s|
  {
    if s == [] {
    } else if IsPySpace(s[0]) {
      var rest := SkipSpaces(s);
      CollapseKeeps(rest, c);
      if c in s {
        var i :| 0 <= i < |s| && s[i] == c;
        if i < |s| - |rest| {
          SkipSpacesPrefix(s, i);
        }
        assert rest[i - (|s| - |rest|)] == c;
      }
    } else {
      CollapseKeeps(s[1..], c);
      assert s == [s[0]] + s[1..];
    }
  }

  /** Every character before the part `SkipSpaces` keeps is whitespace. */
  lemma {:induction false} SkipSpacesPrefix(s: string, i: nat)
    requires i < |s| && i < |s| - |SkipSpaces(s)|
    ensures IsPySpace(s[i])
    decreases |s|
  {
    if s != [] && IsPySpace(s[0]) && i > 0 {
      SkipSpacesPrefix(s[1..], i - 1);
    }
  }

  /** The normalised message that every category pattern is run against. */
  function Normalize(message: string): string {
    CollapseWhitespace(ApplyTable(ToLower(message), Replacements))
  }

  /** The source's loop: lower-case, then reassign `normalized` once per
      (target, alternative) pair of the table, then collapse whitespace. */
  method NormalizeMessage(message: string) returns (normalized: string)
    ensures normalized == Normalize(message)
  {
    var lower := ToLower(message);
    assert WellFormedTable(Replacements);
    normalized := ReplaceAll(lower, Replacements);
    normalized := CollapseWhitespace(normalized);
  }

  /** The two nested loops over the table, for any well-formed table. */
  method ReplaceAll(s: string, rules: seq<(string, seq<string>)>) returns (normalized: string)
    requires WellFormedTable(rules)
    ensures normalized == ApplyTable(s, rules)
  {
    normalized := s;
    for i := 0 to |rules|
      invariant normalized == ApplyTable(s, rules[..i])
    {
      var (original, alternatives) := rules[i];
      ghost var before := normalized;
      for j := 0 to |alternatives|
        invariant normalized == ApplyAlternatives(before, original, alternatives[..j])
      {
        normalized := Replace(normalized, alternatives[j], original);
        assert alternatives[..j + 1][..j] == alternatives[..j];
      }
      assert alternatives[..|alternatives|] == alternatives;
      assert rules[..i + 1][..i] == rules[..i];
    }
    assert rules[..|rules|] == rules;
  }

  // ---------------------------------------------------------------------------
  // What the normaliser guarantees

  lemma {:induction false} ReplaceKeepsAbsent(s: string, pat: string, repl: string, c: char)
    requires |pat| > 0 && c !in s && c !in repl
    ensures c !in Replace(s, pat, repl)
    decreases |s|
  {
    if |s| < |pat| {
    } else if s[..|pat|] == pat {
      ReplaceKeepsAbsent(s[|pat|..], pat, repl, c);
    } else {
      ReplaceKeepsAbsent(s[1..], pat, repl, c);
    }
  }

  lemma {:induction false} ReplaceRemovesChar(s: string, c: char, repl: string)
    requires c !in repl
    ensures c !in Replace(s, [c], repl)
    decreases |s|
  {
    if |s| < 1 {
    } else if s[..1] == [c] {
      ReplaceRemovesChar(s[1..], c, repl);
    } else {
      assert s[0] != c;
      ReplaceRemovesChar(s[1..], c, repl);
    }
  }

  lemma {:induction false} AlternativesKeepAbsent(s: string, target: string, alternatives: seq<string>, c: char)
    requires forall a :: a in alternatives ==> |a| > 0
    requires c !in s && c !in target
    ensures c !in ApplyAlternatives(s, target, alternatives)
    decreases |alternatives|
  {
    if alternatives != [] {
      var init := alternatives[..|alternatives| - 1];
      AlternativesKeepAbsent(s, target, init, c);
      ReplaceKeepsAbsent(ApplyAlternatives(s, target, init), alternatives[|alternatives| - 1], target, c);
    }
  }

  lemma {:induction false} AlternativesRemove(s: string, target: string, alternatives: seq<string>, c: char)
    requires forall a :: a in alternatives ==> |a| > 0
    requires [c] in alternatives && c !in target
    ensures c !in ApplyAlternatives(s, target, alternatives)
    decreases |alternatives|
  {
    var init := alternatives[..|alternatives| - 1];
    var last := alternatives[|alternatives| - 1];
    if last == [c] {
      ReplaceRemovesChar(ApplyAlternatives(s, target, init), c, target);
    } else {
      assert [c] in init;
      AlternativesRemove(s, target, init, c);
      ReplaceKeepsAbsent(ApplyAlternatives(s, target, init), last, target, c);
    }
  }

  /** A character that no target introduces stays absent through the table. */
  lemma {:induction false} TableKeepsAbsent(s: string, rules: seq<(string, seq<string>)>, c: char)
    requires WellFormedTable(rules)
    requires c !in s && forall k :: 0 <= k < |rules| ==> c !in rules[k].0
    ensures c !in ApplyTable(s, rules)
    decreases |rules|
  {
    if rules != [] {
      var init := rules[..|rules| - 1];
      TableKeepsAbsent(s, init, c);
      AlternativesKeepAbsent(ApplyTable(s, init), rules[|rules| - 1].0, rules[|rules| - 1].1, c);
    }
  }

  /** A character that some entry replaces, and that no target introduces, is gone afterwards. */
  lemma {:induction false} TableRemoves(s: string, rules: seq<(string, seq<string>)>, c: char, k: nat)
    requires WellFormedTable(rules)
    requires k < |rules| && [c] in rules[k].1
    requires forall j :: 0 <= j < |rules| ==> c !in rules[j].0
    ensures c !in ApplyTable(s, rules)
    decreases |rules|
  {
    var init := rules[..|rules| - 1];
    var last := rules[|rules| - 1];
    if k == |rules| - 1 {
      AlternativesRemove(ApplyTable(s, init), last.0, last.1, c);
    } else {
      TableRemoves(s, init, c, k);
      AlternativesKeepAbsent(ApplyTable(s, init), last.0, last.1, c);
    }
  }

  /** No alternative of the table is empty. */
  lemma ReplacementsWellFormed()
    ensures WellFormedTable(Replacements)
  {
  }

  /** "o" and "l" are alternatives of the third and fourth entries, and every
      target is a digit, '@' or '.'. */
  lemma ReplacementTargets()
    ensures "o" in Replacements[2].1 && "l" in Replacements[3].1
    ensures forall j :: 0 <= j < |Replacements| ==> forall c :: c in Replacements[j].0 ==> '0' <= c <= '9' || c == '@' || c == '.'
  {
    assert Replacements[2].1[1] == "o" && Replacements[3].1[1] == "l";
  }

  /** What the replacement table guarantees about its output. */
  lemma TableGuarantees(lower: string)
    requires forall c :: 'A' <= c <= 'Z' ==> c !in lower
    ensures 'o' !in ApplyTable(lower, Replacements) && 'l' !in ApplyTable(lower, Replacements)
    ensures forall c :: 'A' <= c <= 'Z' ==> c !in ApplyTable(lower, Replacements)
  {
    ReplacementsWellFormed();
    ReplacementTargets();
    TableRemoves(lower, Replacements, 'o', 2);
    TableRemoves(lower, Replacements, 'l', 3);
    forall c | 'A' <= c <= 'Z' ensures c !in ApplyTable(lower, Replacements) {
      TableKeepsAbsent(lower, Replacements, c);
    }
  }

  /** After normalisation no 'o' and no 'l' survive (both are replaced by digits
      and no target reintroduces them), no upper-case ASCII letter is left, and
      no two whitespace characters are adjacent. */
  lemma NormalizeGuarantees(message: string)
    ensures 'o' !in Normalize(message) && 'l' !in Normalize(message)
    ensures forall c :: 'A' <= c <= 'Z' ==> c !in Normalize(message)
    ensures NoAdjacentSpaces(Normalize(message))
  {
    var lower := ToLower(message);
    var table := ApplyTable(lower, Replacements);
    TableGuarantees(lower);
    CollapseKeeps(table, 'o');
    CollapseKeeps(table, 'l');
    forall c | 'A' <= c <= 'Z' ensures c !in Normalize(message) {
      CollapseKeeps(table, c);
    }
  }
}

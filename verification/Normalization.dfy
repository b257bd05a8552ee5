/** _normalize of eval/vox_eval/metrics.py. */
module Normalization {
  import opened Text

  const PUNCTUATION := "!\"#$%&'()*+,-./:;<=>?@[\\]^_`{|}~"

  const CONTRACTIONS: seq<(string, string)> := [
    ("don't", "do not"), ("can't", "cannot"), ("won't", "will not"), ("i'm", "i am"), ("it's", "it is"),
    ("he's", "he is"), ("she's", "she is"), ("we're", "we are"), ("they're", "they are"), ("i've", "i have"),
    ("you've", "you have"), ("we've", "we have"), ("i'll", "i will"), ("you'll", "you will")]

  /** White space as str.isspace and \s have it. */
  predicate PySpace(c: char) {
    IsSpace(c) || '\U{1c}' <= c <= '\U{1f}'
  }

  predicate IsPunctuation(c: char) { c in PUNCTUATION }

  /** str.replace: leftmost, non-overlapping. */
  function Replace(s: string, from: string, to: string): string
    requires from != ""
    decreases |s|
  {
    if |s| < |from| then s
    else if s[..|from|] == from then to + Replace(s[|from|..], from, to)
    else [s[0]] + Replace(s[1..], from, to)
  }

  /** The rewrites in their order. */
  function Expand(s: string, rules: seq<(string, string)>): string
    requires forall i :: 0 <= i < |rules| ==> rules[i].0 != ""
    decreases |rules|
  {
    if rules == [] then s else Expand(Replace(s, rules[0].0, rules[0].1), rules[1..])
  }

  function DropPunctuation(s: string): string {
    if s == "" then "" else (if IsPunctuation(s[0]) then "" else [s[0]]) + DropPunctuation(s[1..])
  }

  /** re.sub(r"\s+", " ", s): each run of white space becomes one space. */
  function Collapse(s: string): string
    decreases |s|
  {
    if s == "" then ""
    else if PySpace(s[0]) then " " + Collapse(SkipSpace(s[1..]))
    else [s[0]] + Collapse(s[1..])
  }

  function SkipSpace(s: string): (r: string)
    ensures |r| <= |s|
    ensures r != "" ==> !PySpace(r[0])
    ensures forall c :: c in r ==> c in s
  {
    if s != "" && PySpace(s[0]) then SkipSpace(s[1..]) else s
  }

  /** str.lower, as far as normalisation depends on it: its results consist of `fixed` characters, on which it does nothing;
      the small ASCII letters, punctuation and white space are among them. */
  ghost predicate Lowercasing(lower: string -> string, fixed: char -> bool) {
    && (forall s :: AllFixed(lower(s), fixed))
    && (forall s :: AllFixed(s, fixed) ==> lower(s) == s)
    && forall c :: 'a' <= c <= 'z' || PySpace(c) || IsPunctuation(c) ==> fixed(c)
  }

  predicate AllFixed(s: string, fixed: char -> bool) {
    forall c :: c in s ==> fixed(c)
  }

  function Polish(s: string): string {
    Trim(Collapse(DropPunctuation(s)), PySpace)
  }

  function Normalize(text: string, lower: string -> string): string {
    Polish(Expand(lower(text), CONTRACTIONS))
  }

  // ----- Each rewrite keeps lower case and leaves its own results alone

  lemma {:induction false} ReplaceKeepsFixed(s: string, from: string, to: string, fixed: char -> bool)
    requires from != "" && AllFixed(s, fixed) && AllFixed(to, fixed)
    ensures AllFixed(Replace(s, from, to), fixed)
    decreases |s|
  {
    if |s| < |from| {
    } else if s[..|from|] == from {
      ReplaceKeepsFixed(s[|from|..], from, to, fixed);
    } else {
      ReplaceKeepsFixed(s[1..], from, to, fixed);
      assert s[0] in s;
    }
  }

  lemma {:induction false} ReplaceNothing(s: string, from: string, to: string)
    requires '\'' in from && '\'' !in s
    ensures Replace(s, from, to) == s
  {
    if |s| >= |from| {
      var i :| 0 <= i < |from| && from[i] == '\'';
      assert s[i] in s;
      ReplaceNothing(s[1..], from, to);
    }
  }

  predicate GoodRules(rules: seq<(string, string)>, fixed: char -> bool) {
    forall i :: 0 <= i < |rules| ==> '\'' in rules[i].0 && AllFixed(rules[i].1, fixed)
  }

  lemma {:induction false} ExpandKeepsFixed(s: string, rules: seq<(string, string)>, fixed: char -> bool)
    requires AllFixed(s, fixed) && GoodRules(rules, fixed)
    ensures AllFixed(Expand(s, rules), fixed)
    decreases |rules|
  {
    if rules != [] {
      ReplaceKeepsFixed(s, rules[0].0, rules[0].1, fixed);
      ExpandKeepsFixed(Replace(s, rules[0].0, rules[0].1), rules[1..], fixed);
    }
  }

  lemma {:induction false} ExpandNothing(s: string, rules: seq<(string, string)>, fixed: char -> bool)
    requires GoodRules(rules, fixed) && '\'' !in s
    ensures Expand(s, rules) == s
  {
    if rules != [] {
      ReplaceNothing(s, rules[0].0, rules[0].1);
      ExpandNothing(s, rules[1..], fixed);
    }
  }

  predicate IsPlain(s: string) {
    forall c :: c in s ==> c == ' ' || 'a' <= c <= 'z'
  }

  lemma ContractionIsGood(i: nat)
    requires i < |CONTRACTIONS|
    ensures '\'' in CONTRACTIONS[i].0 && IsPlain(CONTRACTIONS[i].1)
  {
  }

  lemma ContractionsAreGood(fixed: char -> bool)
    requires forall c :: 'a' <= c <= 'z' || PySpace(c) || IsPunctuation(c) ==> fixed(c)
    ensures GoodRules(CONTRACTIONS, fixed)
  {
    assert PySpace(' ');
    forall i | 0 <= i < |CONTRACTIONS|
      ensures '\'' in CONTRACTIONS[i].0 && AllFixed(CONTRACTIONS[i].1, fixed)
    {
      ContractionIsGood(i);
    }
  }

  lemma {:induction false} DropPunctuationDrops(s: string)
    ensures forall c :: c in DropPunctuation(s) <==> c in s && !IsPunctuation(c)
    ensures (forall c :: c in s ==> !IsPunctuation(c)) ==> DropPunctuation(s) == s
  {
    if s != "" {
      DropPunctuationDrops(s[1..]);
      assert forall c :: c in s <==> c == s[0] || c in s[1..];
    }
  }

  /** The only white space is single spaces. */
  predicate Spaced(s: string) {
    && (forall c :: c in s && PySpace(c) ==> c == ' ')
    && forall i :: 0 <= i < |s| - 1 && s[i] == ' ' ==> s[i + 1] != ' '
  }

  lemma {:induction false} CollapseSpaces(s: string)
    ensures Spaced(Collapse(s))
    ensures s != "" ==> Collapse(s) != "" && Collapse(s)[0] == if PySpace(s[0]) then ' ' else s[0]
    ensures forall c :: c in Collapse(s) ==> c == ' ' || c in s
    decreases |s|
  {
    if s != "" {
      var rest := if PySpace(s[0]) then SkipSpace(s[1..]) else s[1..];
      CollapseSpaces(rest);
      var r := Collapse(s);
      assert r[1..] == Collapse(rest);
      forall i | 0 <= i < |r| - 1 && r[i] == ' ' ensures r[i + 1] != ' ' {
        if i > 0 {
          assert r[i] == r[1..][i - 1] && r[i + 1] == r[1..][i];
        }
      }
      assert forall c :: c in r <==> c == r[0] || c in r[1..];
    }
  }

  lemma {:induction false} CollapseNothing(s: string)
    requires Spaced(s)
    ensures Collapse(s) == s
  {
    if s != "" {
      assert Spaced(s[1..]) by {
        assert forall i :: 0 <= i < |s| - 1 ==> s[1..][i] == s[i + 1];
      }
      CollapseNothing(s[1..]);
      if PySpace(s[0]) {
        assert s[0] in s;
        if |s| > 1 {
          assert s[1] != ' ' && s[1] in s;
        }
        assert SkipSpace(s[1..]) == s[1..];
      }
    }
  }

  lemma {:induction false} TrimLeftKeepsSpaced(s: string)
    requires Spaced(s)
    ensures Spaced(TrimLeft(s, PySpace))
  {
    if s != "" && PySpace(s[0]) {
      assert forall i :: 0 <= i < |s| - 1 ==> s[1..][i] == s[i + 1];
      TrimLeftKeepsSpaced(s[1..]);
    }
  }

  lemma TrimKeepsSpaced(s: string)
    requires Spaced(s)
    ensures Spaced(Trim(s, PySpace))
  {
    TrimLeftKeepsSpaced(s);
    var left, r := TrimLeft(s, PySpace), Trim(s, PySpace);
    assert r == left[..|r|];
    assert forall i :: 0 <= i < |r| ==> r[i] == left[i] && r[i] in left;
  }

  // ----- Main results

  /** A canonical text: lower case, no punctuation, words separated by single spaces and nothing around them. */
  predicate Canonical(s: string, fixed: char -> bool) {
    AllFixed(s, fixed) && Spaced(s) && Trimmed(s, PySpace) && forall c :: c in s ==> !IsPunctuation(c)
  }

  lemma PolishIsCanonical(s: string, fixed: char -> bool)
    requires AllFixed(s, fixed) && fixed(' ')
    ensures Canonical(Polish(s), fixed)
  {
    var bare := DropPunctuation(s);
    CollapseSpaces(bare);
    TrimKeepsSpaced(Collapse(bare));
    forall c | c in Polish(s) ensures fixed(c) && !IsPunctuation(c) {
      PolishedChar(s, fixed, c);
    }
  }

  lemma PolishedChar(s: string, fixed: char -> bool, c: char)
    requires AllFixed(s, fixed) && fixed(' ') && c in Polish(s)
    ensures fixed(c) && !IsPunctuation(c)
  {
    var bare := DropPunctuation(s);
    assert c in Collapse(bare);
    assert c == ' ' || c in bare by {
      CollapseSpaces(bare);
    }
    assert c in bare ==> c in s && !IsPunctuation(c) by {
      DropPunctuationDrops(s);
    }
    assert PySpace(' ');
    if c == ' ' {
      NoPunctuationIsSpace(c);
    }
  }

  lemma NormalizeIsCanonical(text: string, lower: string -> string, fixed: char -> bool)
    requires Lowercasing(lower, fixed)
    ensures Canonical(Normalize(text, lower), fixed)
  {
    assert PySpace(' ');
    ContractionsAreGood(fixed);
    ExpandKeepsFixed(lower(text), CONTRACTIONS, fixed);
    PolishIsCanonical(Expand(lower(text), CONTRACTIONS), fixed);
  }

  /** Canonical texts are fixed points: no contraction can fire without an apostrophe. */
  lemma CanonicalStays(s: string, lower: string -> string, fixed: char -> bool)
    requires Lowercasing(lower, fixed) && Canonical(s, fixed)
    ensures Normalize(s, lower) == s
  {
    ContractionsAreGood(fixed);
    assert IsPunctuation('\'');
    ExpandNothing(s, CONTRACTIONS, fixed);
    DropPunctuationDrops(s);
    CollapseNothing(s);
    TrimmedStays(s, PySpace);
  }

  /** Normalising twice is normalising once, for every text; so the results are exactly the canonical texts. */
  lemma NormalizeIsIdempotent(text: string, lower: string -> string, fixed: char -> bool)
    requires Lowercasing(lower, fixed)
    ensures Normalize(Normalize(text, lower), lower) == Normalize(text, lower)
    ensures Canonical(text, fixed) <==> Normalize(text, lower) == text
  {
    NormalizeIsCanonical(text, lower, fixed);
    CanonicalStays(Normalize(text, lower), lower, fixed);
    if Canonical(text, fixed) {
      CanonicalStays(text, lower, fixed);
    }
  }

  // ----- Words

  function NonEmpty(parts: seq<string>): seq<string> {
    if parts == [] then [] else (if parts[0] == "" then [] else [parts[0]]) + NonEmpty(parts[1..])
  }

  /** The words of a text as jiwer takes them: what stands between spaces. */
  function Words(s: string): seq<string> {
    NonEmpty(Split(s, ' '))
  }

  lemma {:induction false} PartsAreWords(s: string)
    requires s != "" && Spaced(s) && s[|s| - 1] != ' '
    ensures var parts := Split(s, ' ');
      (forall i :: 1 <= i < |parts| ==> parts[i] != "") && (s[0] != ' ' ==> parts[0] != "")
  {
    if |s| > 1 {
      assert forall i :: 0 <= i < |s| - 1 ==> s[1..][i] == s[i + 1];
      PartsAreWords(s[1..]);
      assert s[0] == ' ' ==> s[1..][0] != ' ';
      var rest, parts := Split(s[1..], ' '), Split(s, ' ');
      if s[0] == ' ' {
        assert parts == [""] + rest;
        assert forall i :: 1 <= i < |parts| ==> parts[i] == rest[i - 1];
      } else {
        assert parts == [[s[0]] + rest[0]] + rest[1..];
        assert forall i :: 1 <= i < |parts| ==> parts[i] == rest[i];
      }
    } else {
      assert Split(s[1..], ' ') == [""];
    }
  }

  lemma {:induction false} NonEmptyKeepsAll(parts: seq<string>)
    requires forall i :: 0 <= i < |parts| ==> parts[i] != ""
    ensures NonEmpty(parts) == parts
  {
    if parts != [] {
      NonEmptyKeepsAll(parts[1..]);
    }
  }

  lemma {:induction false} JoinUndoesSplit(s: string, sep: char)
    ensures Join(Split(s, sep), sep) == s
  {
    if s != "" {
      var rest, parts := Split(s[1..], sep), Split(s, sep);
      JoinUndoesSplit(s[1..], sep);
      if s[0] == sep {
        assert parts[1..] == rest;
      } else {
        assert parts[1..] == rest[1..];
      }
    }
  }

  lemma CanonicalWords(s: string, fixed: char -> bool)
    requires Canonical(s, fixed)
    ensures Join(Words(s), ' ') == s && (s != "" ==> Words(s) != [])
  {
    if s == "" {
      assert Words(s) == [];
    } else {
      assert PySpace(' ');
      PartsAreWords(s);
      NonEmptyKeepsAll(Split(s, ' '));
      JoinUndoesSplit(s, ' ');
    }
  }

  /** A normalised text is its words joined by single spaces. */
  lemma WordsJoinBack(text: string, lower: string -> string, fixed: char -> bool)
    requires Lowercasing(lower, fixed)
    ensures var s := Normalize(text, lower); Join(Words(s), ' ') == s && (s != "" ==> Words(s) != [])
  {
    NormalizeIsCanonical(text, lower, fixed);
    CanonicalWords(Normalize(text, lower), fixed);
  }

  predicate Blank(s: string) { Trim(s, PySpace) == "" }

  lemma {:induction false} TrimLeftFindsText(s: string)
    ensures TrimLeft(s, PySpace) == "" ==> forall c :: c in s ==> PySpace(c)
  {
    if s != "" && PySpace(s[0]) {
      TrimLeftFindsText(s[1..]);
      assert forall c :: c in s ==> c == s[0] || c in s[1..];
    }
  }

  lemma {:induction false} CollapseBlank(s: string)
    requires forall c :: c in s ==> PySpace(c)
    ensures SkipSpace(s) == "" && (Collapse(s) == "" || Collapse(s) == " ")
  {
    if s != "" {
      assert s[0] in s;
      CollapseBlank(s[1..]);
    }
  }

  lemma PunctuationIsVisible(i: nat)
    requires i < |PUNCTUATION|
    ensures '!' <= PUNCTUATION[i] <= '~'
  {
  }

  lemma NoPunctuationIsSpace(c: char)
    requires PySpace(c)
    ensures !IsPunctuation(c)
  {
    if IsPunctuation(c) {
      var i :| 0 <= i < |PUNCTUATION| && PUNCTUATION[i] == c;
      PunctuationIsVisible(i);
    }
  }

  /** What strips to nothing normalises to nothing. */
  lemma BlankNormalizesAway(text: string, lower: string -> string, fixed: char -> bool)
    requires Lowercasing(lower, fixed) && Blank(text)
    ensures Normalize(text, lower) == ""
  {
    var left := TrimLeft(text, PySpace);
    assert left == "" by {
      if left != "" {
        TrimRightKeepsFirst(left, PySpace);
      }
    }
    TrimLeftFindsText(text);
    assert AllFixed(text, fixed);
    forall c | c in text ensures !IsPunctuation(c) {
      NoPunctuationIsSpace(c);
    }
    assert IsPunctuation('\'');
    ContractionsAreGood(fixed);
    ExpandNothing(text, CONTRACTIONS, fixed);
    DropPunctuationDrops(text);
    CollapseBlank(text);
    assert PySpace(' ');
    TrimOneSpace();
  }

  lemma TrimOneSpace()
    ensures Trim(" ", PySpace) == "" && Trim("", PySpace) == ""
  {
    assert PySpace(' ');
    assert " "[1..] == "";
  }

  // ----- Texts of punctuation alone

  predicate AllPunctuation(s: string) {
    forall c :: c in s ==> IsPunctuation(c)
  }

  lemma PunctuationIsNoLetter(i: nat)
    requires i < |PUNCTUATION|
    ensures !('a' <= PUNCTUATION[i] <= 'z')
  {
  }

  lemma RuleStartsWithLetter(i: nat)
    requires i < |CONTRACTIONS|
    ensures 'a' <= CONTRACTIONS[i].0[0] <= 'z'
  {
  }

  predicate LetterRules(rules: seq<(string, string)>) {
    forall i :: 0 <= i < |rules| ==> rules[i].0 != "" && 'a' <= rules[i].0[0] <= 'z'
  }

  lemma NotALetter(s: string)
    requires AllPunctuation(s) && s != ""
    ensures !('a' <= s[0] <= 'z') && AllPunctuation(s[1..])
  {
    assert s[0] in s;
    var i :| 0 <= i < |PUNCTUATION| && PUNCTUATION[i] == s[0];
    PunctuationIsNoLetter(i);
  }

  lemma {:induction false} ReplaceNoLetter(s: string, from: string, to: string)
    requires AllPunctuation(s) && from != "" && 'a' <= from[0] <= 'z'
    ensures Replace(s, from, to) == s
  {
    if |s| >= |from| {
      NotALetter(s);
      assert s[..|from|][0] != from[0];
      ReplaceNoLetter(s[1..], from, to);
    }
  }

  lemma {:induction false} ExpandNoLetter(s: string, rules: seq<(string, string)>)
    requires AllPunctuation(s) && LetterRules(rules)
    ensures Expand(s, rules) == s
  {
    if rules != [] {
      ReplaceNoLetter(s, rules[0].0, rules[0].1);
      ExpandNoLetter(s, rules[1..]);
    }
  }

  lemma {:induction false} AllDropped(s: string)
    requires AllPunctuation(s)
    ensures DropPunctuation(s) == ""
  {
    if s != "" {
      assert s[0] in s;
      AllDropped(s[1..]);
    }
  }

  lemma NothingStarts(s: string)
    requires AllPunctuation(s)
    ensures Expand(s, CONTRACTIONS) == s
  {
    forall i | 0 <= i < |CONTRACTIONS| ensures 'a' <= CONTRACTIONS[i].0[0] <= 'z' {
      RuleStartsWithLetter(i);
    }
    ExpandNoLetter(s, CONTRACTIONS);
  }

  lemma PunctuationShows(s: string)
    requires AllPunctuation(s) && s != ""
    ensures !Blank(s)
  {
    var first, last := s[0], s[|s| - 1];
    assert IsPunctuation(first) && IsPunctuation(last) by {
      assert first in s && last in s;
    }
    assert !PySpace(first) && !PySpace(last) by {
      if PySpace(first) {
        NoPunctuationIsSpace(first);
      }
      if PySpace(last) {
        NoPunctuationIsSpace(last);
      }
    }
    TrimmedStays(s, PySpace);
  }

  lemma PunctuationIsFixed(s: string, lower: string -> string, fixed: char -> bool)
    requires Lowercasing(lower, fixed) && AllPunctuation(s)
    ensures lower(s) == s
  {
    assert AllFixed(s, fixed);
  }

  /** A text of punctuation alone is not blank, but normalises to nothing. */
  lemma PunctuationVanishes(s: string, lower: string -> string, fixed: char -> bool)
    requires Lowercasing(lower, fixed) && AllPunctuation(s) && s != ""
    ensures Normalize(s, lower) == "" && !Blank(s)
  {
    assert Normalize(s, lower) == "" by {
      PunctuationIsFixed(s, lower, fixed);
      NothingStarts(s);
      AllDropped(s);
      TrimOneSpace();
    }
    PunctuationShows(s);
  }

  // ----- Such a lower-casing exists

  function AsciiLowerChar(c: char): char {
    if 'A' <= c <= 'Z' then (c as int + 32) as char else c
  }

  function AsciiLower(s: string): string {
    seq(|s|, i requires 0 <= i < |s| => AsciiLowerChar(s[i]))
  }

  predicate NotCapital(c: char) { !('A' <= c <= 'Z') }

  lemma AsciiLowercases()
    ensures Lowercasing(AsciiLower, NotCapital)
  {
    forall s ensures AllFixed(AsciiLower(s), NotCapital) {
      forall c | c in AsciiLower(s) ensures NotCapital(c) {
        var i :| 0 <= i < |s| && AsciiLower(s)[i] == c;
      }
    }
    forall s | AllFixed(s, NotCapital) ensures AsciiLower(s) == s {
      assert forall i :: 0 <= i < |s| ==> s[i] in s && NotCapital(s[i]);
    }
    forall c | IsPunctuation(c) ensures NotCapital(c) {
      var i :| 0 <= i < |PUNCTUATION| && PUNCTUATION[i] == c;
      PunctuationIsNoCapital(i);
    }
  }

  lemma PunctuationIsNoCapital(i: nat)
    requires i < |PUNCTUATION|
    ensures NotCapital(PUNCTUATION[i])
  {
  }
}

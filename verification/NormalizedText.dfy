/** What _normalize makes of a text: the same words, lower-cased and without punctuation, with contractions written out. */
module NormalizedText {
  import opened Api
  import opened Text
  import opened Normalization
  import opened Contractions

  // ----- Punctuation

  /** The ASCII punctuation, by code. */
  predicate IsAsciiPunctuation(c: char) {
    '!' <= c <= '/' || ':' <= c <= '@' || '[' <= c <= '`' || '{' <= c <= '~'
  }

  function PunctuationAt(i: nat): int {
    if i < 15 then 33 + i else if i < 22 then 58 + (i - 15) else if i < 28 then 91 + (i - 22) else 123 + (i - 28)
  }

  lemma PunctuationTable(i: nat)
    requires i < |PUNCTUATION|
    ensures |PUNCTUATION| == 32 && PUNCTUATION[i] as int == PunctuationAt(i)
  {
  }

  lemma PunctuationIsAscii(c: char)
    ensures IsPunctuation(c) <==> IsAsciiPunctuation(c)
  {
    if IsPunctuation(c) {
      var i :| 0 <= i < |PUNCTUATION| && PUNCTUATION[i] == c;
      PunctuationTable(i);
    }
    if IsAsciiPunctuation(c) {
      var n := c as int;
      var i := if n < 48 then n - 33 else if n < 65 then n - 58 + 15 else if n < 97 then n - 91 + 22 else n - 123 + 28;
      PunctuationTable(0);
      PunctuationTable(i);
      assert PUNCTUATION[i] == c;
    }
  }

  // ----- The characters that one sees

  function Visible(s: string): string {
    if s == "" then "" else (if PySpace(s[0]) then "" else [s[0]]) + Visible(s[1..])
  }

  /** Neither white space nor punctuation. */
  function Letters(s: string): string {
    if s == "" then "" else (if PySpace(s[0]) || IsAsciiPunctuation(s[0]) then "" else [s[0]]) + Letters(s[1..])
  }

  lemma {:induction false} VisibleDrop(s: string)
    ensures Visible(DropPunctuation(s)) == Letters(s)
  {
    if s != "" {
      VisibleDrop(s[1..]);
      PunctuationIsAscii(s[0]);
      var rest := DropPunctuation(s[1..]);
      assert ([s[0]] + rest)[1..] == rest && "" + rest == rest;
    }
  }

  lemma {:induction false} VisibleSkip(s: string)
    ensures Visible(SkipSpace(s)) == Visible(s)
  {
    if s != "" && PySpace(s[0]) {
      VisibleSkip(s[1..]);
    }
  }

  lemma {:induction false} VisibleCollapse(s: string)
    ensures Visible(Collapse(s)) == Visible(s)
    decreases |s|
  {
    if s != "" {
      var rest := if PySpace(s[0]) then SkipSpace(s[1..]) else s[1..];
      VisibleCollapse(rest);
      VisibleSkip(s[1..]);
      assert PySpace(' ');
      assert Collapse(s)[1..] == Collapse(rest);
    }
  }

  lemma {:induction false} VisibleConcat(a: string, b: string)
    ensures Visible(a + b) == Visible(a) + Visible(b)
  {
    if a == "" {
      assert a + b == b;
    } else {
      assert (a + b)[1..] == a[1..] + b;
      VisibleConcat(a[1..], b);
      Regroup(if PySpace(a[0]) then "" else [a[0]], Visible(a[1..]), Visible(b));
    }
  }

  lemma {:induction false} VisibleTrimLeft(s: string)
    ensures Visible(TrimLeft(s, PySpace)) == Visible(s)
  {
    if s != "" && PySpace(s[0]) {
      VisibleTrimLeft(s[1..]);
    }
  }

  lemma {:induction false} VisibleTrimRight(s: string)
    ensures Visible(TrimRight(s, PySpace)) == Visible(s)
  {
    if s != "" && PySpace(s[|s| - 1]) {
      var n := |s| - 1;
      VisibleTrimRight(s[..n]);
      VisibleConcat(s[..n], [s[n]]);
      assert s == s[..n] + [s[n]] && Visible([s[n]]) == "";
    }
  }

  lemma VisiblePolish(s: string)
    ensures Visible(Polish(s)) == Letters(s)
  {
    VisibleDrop(s);
    VisibleCollapse(DropPunctuation(s));
    VisibleTrimLeft(Collapse(DropPunctuation(s)));
    VisibleTrimRight(TrimLeft(Collapse(DropPunctuation(s)), PySpace));
  }

  // ----- The words

  /** Every white space character as a space. */
  function Blanked(s: string): string {
    seq(|s|, i requires 0 <= i < |s| => if PySpace(s[i]) then ' ' else s[i])
  }

  lemma {:induction false} NonEmptyConcat(a: seq<string>, b: seq<string>)
    ensures NonEmpty(a + b) == NonEmpty(a) + NonEmpty(b)
  {
    if a == [] {
      assert a + b == b;
    } else {
      assert (a + b)[1..] == a[1..] + b;
      NonEmptyConcat(a[1..], b);
    }
  }

  lemma SpaceFirst(s: string)
    ensures Words([' '] + s) == Words(s)
  {
    assert ([' '] + s)[1..] == s;
    var parts := Split(s, ' ');
    assert ([""] + parts)[1..] == parts;
  }

  lemma SpaceLast(s: string)
    ensures Words(s + [' ']) == Words(s)
  {
    SplitConcat(s, "", ' ');
    assert s + [' '] + "" == s + [' '];
    NonEmptyConcat(Split(s, ' '), [""]);
    assert NonEmpty([""]) == [];
  }

  /** A character before a text joins its first word, or is one of its own before a space or the end. */
  predicate Opens(s: string) { s == "" || s[0] == ' ' }

  lemma LetterFirst(c: char, s: string)
    requires c != ' '
    ensures !Opens(s) ==> Words(s) != [] && Words([c] + s) == [[c] + Words(s)[0]] + Words(s)[1..]
    ensures Opens(s) ==> Words([c] + s) == [[c]] + Words(s)
  {
    assert ([c] + s)[1..] == s;
    var parts := Split(s, ' ');
    var all := [[c] + parts[0]] + parts[1..];
    assert Split([c] + s, ' ') == all && all[1..] == parts[1..] && all[0] != "";
    FirstPart(s);
    if Opens(s) {
      assert [c] + parts[0] == [c];
      assert NonEmpty(parts) == NonEmpty(parts[1..]);
    }
  }

  lemma FirstPart(s: string)
    ensures Split(s, ' ')[0] == "" <==> Opens(s)
  {
  }

  lemma {:induction false} WordsSkip(s: string)
    ensures Words(Blanked(SkipSpace(s))) == Words(Blanked(s))
  {
    if s != "" && PySpace(s[0]) {
      WordsSkip(s[1..]);
      assert Blanked(s) == [' '] + Blanked(s[1..]);
      SpaceFirst(Blanked(s[1..]));
    }
  }

  lemma {:induction false} WordsCollapse(s: string)
    ensures Words(Collapse(s)) == Words(Blanked(s))
    decreases |s|
  {
    if s == "" {
      assert Blanked(s) == "";
    } else if PySpace(s[0]) {
      var rest := SkipSpace(s[1..]);
      WordsCollapse(rest);
      SpaceFirst(Collapse(rest));
      WordsSkip(s[1..]);
      assert Blanked(s) == [' '] + Blanked(s[1..]);
      SpaceFirst(Blanked(s[1..]));
    } else {
      WordsCollapse(s[1..]);
      assert PySpace(' ');
      assert Blanked(s) == [s[0]] + Blanked(s[1..]);
      OpensAlike(s[1..]);
      LetterFirst(s[0], Collapse(s[1..]));
      LetterFirst(s[0], Blanked(s[1..]));
    }
  }

  lemma OpensAlike(s: string)
    ensures Opens(Collapse(s)) <==> Opens(Blanked(s))
  {
    assert PySpace(' ');
  }

  lemma {:induction false} WordsTrimLeft(s: string)
    requires forall c :: c in s && PySpace(c) ==> c == ' '
    ensures Words(TrimLeft(s, PySpace)) == Words(s)
  {
    if s != "" && PySpace(s[0]) {
      assert s[0] in s && s == [' '] + s[1..];
      SpaceFirst(s[1..]);
      WordsTrimLeft(s[1..]);
    }
  }

  lemma {:induction false} WordsTrimRight(s: string)
    requires forall c :: c in s && PySpace(c) ==> c == ' '
    ensures Words(TrimRight(s, PySpace)) == Words(s)
  {
    if s != "" && PySpace(s[|s| - 1]) {
      var n := |s| - 1;
      assert s[n] in s && s == s[..n] + [' '];
      SpaceLast(s[..n]);
      WordsTrimRight(s[..n]);
    }
  }

  lemma WordsPolish(s: string)
    ensures Words(Polish(s)) == Words(Blanked(DropPunctuation(s)))
  {
    var bare := DropPunctuation(s);
    WordsCollapse(bare);
    CollapseSpaces(bare);
    WordsTrimLeft(Collapse(bare));
    WordsTrimRight(TrimLeft(Collapse(bare), PySpace));
  }

  // ----- Main results

  /** The visible characters of the result are those of the lower-cased text that are no punctuation, in order. */
  lemma LettersAreKept(text: string, lower: string -> string)
    requires NoApostrophe(lower(text))
    ensures Visible(Normalize(text, lower)) == Letters(lower(text))
  {
    NothingToExpand(lower(text));
    VisiblePolish(lower(text));
  }

  /** And its words are what stands between white space in that text once the punctuation is gone. */
  lemma WordsAreKept(text: string, lower: string -> string)
    requires NoApostrophe(lower(text))
    ensures Words(Normalize(text, lower)) == Words(Blanked(DropPunctuation(lower(text))))
  {
    NothingToExpand(lower(text));
    WordsPolish(lower(text));
  }

  lemma NothingToExpand(s: string)
    requires NoApostrophe(s)
    ensures Expand(s, CONTRACTIONS) == s
  {
    assert CONTRACTIONS[0..] == CONTRACTIONS;
    ExpandNone(s, 0);
  }

  /** A word or phrase between two texts. */
  function Said(a: string, w: string, b: string): string {
    a + (" " + w + " ") + b
  }

  predicate Lower(s: string, fixed: char -> bool) {
    AllFixed(s, fixed) && NoApostrophe(s)
  }

  lemma RuleIsFixed(j: nat, fixed: char -> bool)
    requires j < RULES && forall c :: 'a' <= c <= 'z' || PySpace(c) || IsPunctuation(c) ==> fixed(c)
    ensures AllFixed(CONTRACTIONS[j].0, fixed) && AllFixed(CONTRACTIONS[j].1, fixed) && NoApostrophe(CONTRACTIONS[j].1)
  {
    PiecesMakeWord(j);
    PiecesAreWords(j);
    ContractionIsGood(j);
    PunctuationIsAscii('\'');
    assert PySpace(' ');
  }

  lemma Together(x: string, w: string, y: string, fixed: char -> bool)
    requires AllFixed(x, fixed) && AllFixed(w, fixed) && AllFixed(y, fixed)
    ensures AllFixed(x + w + y, fixed)
    ensures NoApostrophe(x) && NoApostrophe(w) && NoApostrophe(y) ==> NoApostrophe(x + w + y)
  {
  }

  lemma ExpandAll(s: string)
    ensures ExpandFrom(s, 0) == Expand(s, CONTRACTIONS)
  {
    assert CONTRACTIONS[0..] == CONTRACTIONS;
  }

  lemma NormalizeIs(text: string, lower: string -> string, s: string)
    requires lower(text) == text && Expand(text, CONTRACTIONS) == s
    ensures Normalize(text, lower) == Polish(s)
  {
  }

  /** The contraction w stands for e. */
  predicate IsRule(w: string, e: string, j: nat) {
    j < RULES && CONTRACTIONS[j] == (w, e)
  }

  lemma RuleExpands(x: string, w: string, e: string, j: nat, y: string)
    requires IsRule(w, e, j) && NoApostrophe(x) && NoApostrophe(y)
    ensures Expand(x + w + y, CONTRACTIONS) == x + e + y
  {
    ContractionExpands(x, j, y);
    ExpandAll(x + w + y);
  }

  lemma LowerStays(s: string, lower: string -> string, fixed: char -> bool)
    requires Lowercasing(lower, fixed) && AllFixed(s, fixed)
    ensures lower(s) == s
  {
  }

  lemma ShortIs(x: string, w: string, e: string, j: nat, y: string, lower: string -> string)
    requires lower(x + w + y) == x + w + y && IsRule(w, e, j) && NoApostrophe(x) && NoApostrophe(y)
    ensures Normalize(x + w + y, lower) == Polish(x + e + y)
  {
    RuleExpands(x, w, e, j, y);
    NormalizeIs(x + w + y, lower, x + e + y);
  }

  lemma LongIs(text: string, lower: string -> string)
    requires lower(text) == text && NoApostrophe(text)
    ensures Normalize(text, lower) == Polish(text)
  {
    NothingToExpand(text);
    NormalizeIs(text, lower, text);
  }

  /** Wherever it stands, a contraction is normalised as if it had been written out. */
  lemma WrittenOut(
    x: string, w: string, e: string, j: nat, y: string, lower: string -> string, fixed: char -> bool)
    requires Lowercasing(lower, fixed) && IsRule(w, e, j) && Lower(x, fixed) && Lower(y, fixed)
    ensures Normalize(x + w + y, lower) == Normalize(x + e + y, lower) == Polish(x + e + y)
  {
    RuleIsFixed(j, fixed);
    ShortIs(x, w, e, j, y, lower) by {
      Together(x, w, y, fixed);
      LowerStays(x + w + y, lower, fixed);
    }
    LongIs(x + e + y, lower) by {
      Together(x, e, y, fixed);
      LowerStays(x + e + y, lower, fixed);
    }
  }

  // ----- Between canonical texts

  lemma SpacedConcat(a: string, b: string)
    requires Spaced(a) && Spaced(b) && (a == "" || b == "" || a[|a| - 1] != ' ' || b[0] != ' ')
    ensures Spaced(a + b)
  {
    var s := a + b;
    forall i | 0 <= i < |s| - 1 && s[i] == ' ' ensures s[i + 1] != ' ' {
    }
  }

  lemma NoSpaceEdge(s: string)
    requires Trimmed(s, PySpace) && s != ""
    ensures s[0] != ' ' && s[|s| - 1] != ' '
  {
    assert PySpace(' ');
  }

  /** Putting canonical pieces beside each other only needs trimming, and that only at an empty end. */
  lemma PolishSaid(a: string, w: string, b: string, fixed: char -> bool)
    requires Canonical(a, fixed) && Canonical(w, fixed) && Canonical(b, fixed) && w != ""
    ensures Polish(Said(a, w, b)) == Trim(Said(a, w, b), PySpace)
    ensures a != "" && b != "" ==> Polish(Said(a, w, b)) == Said(a, w, b)
  {
    var s := Said(a, w, b);
    assert PySpace(' ');
    NoSpaceEdge(w);
    if a != "" {
      NoSpaceEdge(a);
    }
    if b != "" {
      NoSpaceEdge(b);
    }
    SpacedConcat(" ", w);
    SpacedConcat(" " + w, " ");
    SpacedConcat(a, " " + w + " ");
    SpacedConcat(a + (" " + w + " "), b);
    assert forall c :: c in s ==> c in a || c in w || c in b || c == ' ';
    PunctuationIsAscii(' ');
    DropPunctuationDrops(s);
    CollapseNothing(s);
    if a != "" && b != "" {
      assert s[0] == a[0] && s[|s| - 1] == b[|b| - 1];
      TrimmedStays(s, PySpace);
    }
  }

  lemma ExpansionIsCanonical(j: nat, fixed: char -> bool)
    requires j < RULES && forall c :: 'a' <= c <= 'z' || PySpace(c) || IsPunctuation(c) ==> fixed(c)
    ensures CONTRACTIONS[j].1 != "" && Canonical(CONTRACTIONS[j].1, fixed)
  {
    RuleIsFixed(j, fixed);
    ExpansionIsSpaced(j);
    ContractionIsGood(j);
    forall c | c in CONTRACTIONS[j].1 ensures !IsPunctuation(c) {
      PunctuationIsAscii(c);
    }
  }

  /** Where the space is in an expansion; "cannot" has none. */
  function Gap(j: nat): nat {
    if j == 1 then 6 else if j == 2 || j == 8 then 4 else if j == 6 || j == 10 || j == 13 then 3
    else if j == 3 || j == 9 || j == 12 then 1 else 2
  }

  predicate OneGap(e: string, gap: nat) {
    && 0 < |e| && 0 < gap && gap != |e| - 1
    && forall i :: 0 <= i < |e| ==> if i == gap then e[i] == ' ' else 'a' <= e[i] <= 'z'
  }

  lemma ExpansionHasGap(j: nat)
    requires j < RULES
    ensures OneGap(CONTRACTIONS[j].1, Gap(j))
  {
  }

  lemma OneGapIsSpaced(e: string, gap: nat)
    requires OneGap(e, gap)
    ensures Spaced(e) && Trimmed(e, PySpace)
  {
  }

  lemma ExpansionIsSpaced(j: nat)
    requires j < RULES
    ensures var e := CONTRACTIONS[j].1; e != "" && Spaced(e) && Trimmed(e, PySpace)
  {
    ExpansionHasGap(j);
    OneGapIsSpaced(CONTRACTIONS[j].1, Gap(j));
  }

  lemma CanonicalIsLower(a: string, fixed: char -> bool)
    requires Canonical(a, fixed)
    ensures Lower(a, fixed)
  {
    PunctuationIsAscii('\'');
  }

  lemma BesideSpace(a: string, fixed: char -> bool)
    requires Lower(a, fixed) && fixed(' ')
    ensures Lower(a + " ", fixed) && Lower(" " + a, fixed)
  {
  }

  lemma SaidIs(a: string, w: string, b: string)
    ensures Said(a, w, b) == (a + " ") + w + (" " + b)
  {
  }

  lemma SidesAreLower(a: string, b: string, fixed: char -> bool)
    requires Canonical(a, fixed) && Canonical(b, fixed) && fixed(' ')
    ensures Lower(a + " ", fixed) && Lower(" " + b, fixed)
  {
    CanonicalIsLower(a, fixed);
    CanonicalIsLower(b, fixed);
    BesideSpace(a, fixed);
    BesideSpace(b, fixed);
  }

  /** A contraction between two normalised texts is written out; nothing else changes but, at an empty end, a space. */
  lemma SaidNormalizes(
    a: string, w: string, e: string, j: nat, b: string, lower: string -> string, fixed: char -> bool)
    requires Lowercasing(lower, fixed) && IsRule(w, e, j) && Canonical(a, fixed) && Canonical(b, fixed)
    ensures Normalize(Said(a, w, b), lower) == Trim(Said(a, e, b), PySpace)
    ensures a != "" && b != "" ==> Normalize(Said(a, w, b), lower) == Said(a, e, b)
  {
    assert PySpace(' ');
    SidesAreLower(a, b, fixed);
    SaidIs(a, w, b);
    SaidIs(a, e, b);
    WrittenOut(a + " ", w, e, j, " " + b, lower, fixed);
    ExpansionIsCanonical(j, fixed);
    PolishSaid(a, e, b, fixed);
  }

  /** Between a and b, short is normalised to long; at an empty end the space goes. */
  predicate Expands(a: string, short: string, long: string, b: string, lower: string -> string) {
    && Normalize(a + short + b, lower) == Trim(a + long + b, PySpace)
    && (a != "" && b != "" ==> Normalize(a + short + b, lower) == a + long + b)
  }

  /** Contraction j and what it stands for, with a space on either side. */
  predicate Padded(j: nat, short: string, long: string) {
    j < RULES && short == " " + CONTRACTIONS[j].0 + " " && long == " " + CONTRACTIONS[j].1 + " "
  }

  lemma ExpandsHere(
    a: string, j: nat, b: string, short: string, long: string, lower: string -> string, fixed: char -> bool)
    requires Lowercasing(lower, fixed) && Canonical(a, fixed) && Canonical(b, fixed) && Padded(j, short, long)
    ensures Expands(a, short, long, b, lower)
  {
    SaidNormalizes(a, CONTRACTIONS[j].0, CONTRACTIONS[j].1, j, b, lower, fixed);
  }

  lemma NegationsPadded()
    ensures Padded(0, " don't ", " do not ")
    ensures Padded(1, " can't ", " cannot ")
    ensures Padded(2, " won't ", " will not ")
  {
  }

  /** Between any two normalised texts "don't", "can't" and "won't" are written out. */
  lemma NegationsAreWritten(a: string, b: string, lower: string -> string, fixed: char -> bool)
    requires Lowercasing(lower, fixed) && Canonical(a, fixed) && Canonical(b, fixed)
    ensures Expands(a, " don't ", " do not ", b, lower)
    ensures Expands(a, " can't ", " cannot ", b, lower)
    ensures Expands(a, " won't ", " will not ", b, lower)
  {
    NegationsPadded();
    ExpandsHere(a, 0, b, " don't ", " do not ", lower, fixed);
    ExpandsHere(a, 1, b, " can't ", " cannot ", lower, fixed);
    ExpandsHere(a, 2, b, " won't ", " will not ", lower, fixed);
  }

  lemma BeingPadded()
    ensures Padded(3, " i'm ", " i am ")
    ensures Padded(4, " it's ", " it is ")
    ensures Padded(5, " he's ", " he is ")
    ensures Padded(6, " she's ", " she is ")
    ensures Padded(7, " we're ", " we are ")
    ensures Padded(8, " they're ", " they are ")
  {
  }

  /** Between any two normalised texts "am", "is" and "are" are written out. */
  lemma BeingAreWritten(a: string, b: string, lower: string -> string, fixed: char -> bool)
    requires Lowercasing(lower, fixed) && Canonical(a, fixed) && Canonical(b, fixed)
    ensures Expands(a, " i'm ", " i am ", b, lower)
    ensures Expands(a, " it's ", " it is ", b, lower)
    ensures Expands(a, " he's ", " he is ", b, lower)
    ensures Expands(a, " she's ", " she is ", b, lower)
    ensures Expands(a, " we're ", " we are ", b, lower)
    ensures Expands(a, " they're ", " they are ", b, lower)
  {
    BeingPadded();
    ExpandsHere(a, 3, b, " i'm ", " i am ", lower, fixed);
    ExpandsHere(a, 4, b, " it's ", " it is ", lower, fixed);
    ExpandsHere(a, 5, b, " he's ", " he is ", lower, fixed);
    ExpandsHere(a, 6, b, " she's ", " she is ", lower, fixed);
    ExpandsHere(a, 7, b, " we're ", " we are ", lower, fixed);
    ExpandsHere(a, 8, b, " they're ", " they are ", lower, fixed);
  }

  lemma HaveAndWillPadded()
    ensures Padded(9, " i've ", " i have ")
    ensures Padded(10, " you've ", " you have ")
    ensures Padded(11, " we've ", " we have ")
    ensures Padded(12, " i'll ", " i will ")
    ensures Padded(13, " you'll ", " you will ")
  {
  }

  /** Between any two normalised texts "have" and "will" are written out. */
  lemma HaveAndWillAreWritten(a: string, b: string, lower: string -> string, fixed: char -> bool)
    requires Lowercasing(lower, fixed) && Canonical(a, fixed) && Canonical(b, fixed)
    ensures Expands(a, " i've ", " i have ", b, lower)
    ensures Expands(a, " you've ", " you have ", b, lower)
    ensures Expands(a, " we've ", " we have ", b, lower)
    ensures Expands(a, " i'll ", " i will ", b, lower)
    ensures Expands(a, " you'll ", " you will ", b, lower)
  {
    HaveAndWillPadded();
    ExpandsHere(a, 9, b, " i've ", " i have ", lower, fixed);
    ExpandsHere(a, 10, b, " you've ", " you have ", lower, fixed);
    ExpandsHere(a, 11, b, " we've ", " we have ", lower, fixed);
    ExpandsHere(a, 12, b, " i'll ", " i will ", lower, fixed);
    ExpandsHere(a, 13, b, " you'll ", " you will ", lower, fixed);
  }

  // ----- Word by word

  lemma {:induction false} DropConcat(a: string, b: string)
    ensures DropPunctuation(a + b) == DropPunctuation(a) + DropPunctuation(b)
  {
    if a == "" {
      assert a + b == b;
    } else {
      assert (a + b)[1..] == a[1..] + b;
      DropConcat(a[1..], b);
      Regroup(if IsPunctuation(a[0]) then "" else [a[0]], DropPunctuation(a[1..]), DropPunctuation(b));
    }
  }

  lemma WordsConcat(a: string, b: string)
    ensures Words(a + " " + b) == Words(a) + Words(b)
  {
    SplitConcat(a, b, ' ');
    NonEmptyConcat(Split(a, ' '), Split(b, ' '));
  }

  lemma PolishConcat(a: string, b: string)
    ensures Words(Polish(a + " " + b)) == Words(Polish(a)) + Words(Polish(b))
  {
    WordsPolish(a + " " + b);
    WordsPolish(a);
    WordsPolish(b);
    DropConcat(a + " ", b);
    DropConcat(a, " ");
    PunctuationIsAscii(' ');
    var x, y := DropPunctuation(a), DropPunctuation(b);
    assert DropPunctuation(" ") == " ";
    BlankedConcat(x, y);
    WordsConcat(Blanked(x), Blanked(y));
  }

  lemma BlankedConcat(x: string, y: string)
    ensures Blanked(x + " " + y) == Blanked(x) + " " + Blanked(y)
  {
    assert PySpace(' ');
  }

  lemma ExpandConcat(a: string, b: string)
    ensures Expand(a + " " + b, CONTRACTIONS) == Expand(a, CONTRACTIONS) + " " + Expand(b, CONTRACTIONS)
  {
    ExpandAll(a);
    ExpandAll(b);
    ExpandAll(a + " " + b);
    ExpandSplits(a, b, 0);
  }

  lemma NormalizeConcat(a: string, b: string, t: string, lower: string -> string)
    requires lower(a) == a && lower(b) == b && lower(t) == t && t == a + " " + b
    ensures Words(Normalize(t, lower)) == Words(Normalize(a, lower)) + Words(Normalize(b, lower))
  {
    var x, y := Expand(a, CONTRACTIONS), Expand(b, CONTRACTIONS);
    ExpandConcat(a, b);
    PolishConcat(x, y);
    NormalizeIs(a, lower, x);
    NormalizeIs(b, lower, y);
    NormalizeIs(t, lower, x + " " + y);
  }

  /** A lower-case text is normalised word by word, with any number of contractions in it. */
  lemma NormalizedWordByWord(a: string, b: string, lower: string -> string, fixed: char -> bool)
    requires Lowercasing(lower, fixed) && AllFixed(a, fixed) && AllFixed(b, fixed)
    ensures Words(Normalize(a + " " + b, lower)) == Words(Normalize(a, lower)) + Words(Normalize(b, lower))
  {
    NormalizeConcat(a, b, a + " " + b, lower) by {
      assert PySpace(' ');
      Together(a, " ", b, fixed);
      LowerStays(a, lower, fixed);
      LowerStays(b, lower, fixed);
      LowerStays(a + " " + b, lower, fixed);
    }
  }

  lemma SameWordsSameText(p: string, q: string, lower: string -> string, fixed: char -> bool)
    requires Lowercasing(lower, fixed) && Words(Normalize(p, lower)) == Words(Normalize(q, lower))
    ensures Normalize(p, lower) == Normalize(q, lower)
  {
    WordsJoinBack(p, lower, fixed);
    WordsJoinBack(q, lower, fixed);
  }

  /** A contraction and its expansion are the same to the normalisation among any lower-case words. */
  lemma AmongAnyWords(a: string, w: string, e: string, j: nat, b: string, lower: string -> string, fixed: char -> bool)
    requires Lowercasing(lower, fixed) && AllFixed(a, fixed) && AllFixed(b, fixed) && IsRule(w, e, j)
    ensures Normalize(a + " " + w + " " + b, lower) == Normalize(a + " " + e + " " + b, lower)
  {
    RuleIsFixed(j, fixed);
    Alone(w, e, j, lower, fixed);
    Context(a, w, b, lower, fixed);
    Context(a, e, b, lower, fixed);
    SameWordsSameText(a + " " + w + " " + b, a + " " + e + " " + b, lower, fixed);
  }

  lemma Alone(w: string, e: string, j: nat, lower: string -> string, fixed: char -> bool)
    requires Lowercasing(lower, fixed) && IsRule(w, e, j)
    ensures Normalize(w, lower) == Normalize(e, lower)
  {
    var none: string := [];
    NothingAround(none, w);
    NothingAround(none, e);
    assert Lower(none, fixed);
    WrittenOut(none, w, e, j, none, lower, fixed);
  }

  lemma Context(a: string, w: string, b: string, lower: string -> string, fixed: char -> bool)
    requires Lowercasing(lower, fixed) && AllFixed(a, fixed) && AllFixed(w, fixed) && AllFixed(b, fixed)
    ensures Words(Normalize(a + " " + w + " " + b, lower)) ==
            Words(Normalize(a, lower)) + Words(Normalize(w, lower)) + Words(Normalize(b, lower))
  {
    assert PySpace(' ');
    Together(a, " ", w, fixed);
    NormalizedWordByWord(a + " " + w, b, lower, fixed);
    NormalizedWordByWord(a, w, lower, fixed);
  }

  lemma PartsAreFixed(a: string, w: string, b: string, fixed: char -> bool)
    requires AllFixed(a + " " + w + " " + b, fixed)
    ensures AllFixed(a, fixed) && AllFixed(b, fixed)
  {
    var s := a + " " + w + " " + b;
    assert forall c :: c in a || c in b ==> c in s;
  }

  lemma LowerTwice(s: string, t: string, lower: string -> string, fixed: char -> bool)
    requires Lowercasing(lower, fixed) && lower(s) == t
    ensures AllFixed(t, fixed) && lower(t) == t && Normalize(s, lower) == Normalize(t, lower)
  {
  }

  /** Capitals do not matter, and something is left. */
  lemma AmongAnyCase(
    p: string, q: string, a: string, w: string, e: string, j: nat, b: string, lower: string -> string, fixed: char -> bool)
    requires Lowercasing(lower, fixed) && IsRule(w, e, j)
    requires lower(p) == a + " " + w + " " + b && lower(q) == a + " " + e + " " + b
    ensures Normalize(p, lower) == Normalize(q, lower) != ""
  {
    LowerTwice(p, lower(p), lower, fixed);
    LowerTwice(q, lower(q), lower, fixed);
    PartsAreFixed(a, w, b, fixed);
    AmongAnyWords(a, w, e, j, b, lower, fixed);
    SomethingIsLeft(a, w, e, j, b, lower, fixed);
  }

  lemma SomethingIsLeft(
    a: string, w: string, e: string, j: nat, b: string, lower: string -> string, fixed: char -> bool)
    requires Lowercasing(lower, fixed) && IsRule(w, e, j) && AllFixed(a, fixed) && AllFixed(b, fixed)
    ensures Normalize(a + " " + e + " " + b, lower) != ""
  {
    RuleIsFixed(j, fixed);
    Context(a, e, b, lower, fixed);
    ExpansionIsLeft(e, j, w, lower, fixed);
    assert Words("") == [];
  }

  lemma ExpansionIsLeft(e: string, j: nat, w: string, lower: string -> string, fixed: char -> bool)
    requires Lowercasing(lower, fixed) && IsRule(w, e, j)
    ensures Words(Normalize(e, lower)) != []
  {
    ExpansionIsCanonical(j, fixed);
    CanonicalStays(e, lower, fixed);
    CanonicalWords(e, fixed);
  }
}

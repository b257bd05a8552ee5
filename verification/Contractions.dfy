/** What the rewrites of _normalize do: every contraction is expanded, and nothing else of a text is touched. */
module Contractions {
  import opened Api
  import opened Text
  import opened Normalization

  // ----- A text with one apostrophe

  predicate NoApostrophe(s: string) { '\'' !in s }

  predicate EndsWith(s: string, tail: string) {
    |s| >= |tail| && s[|s| - |tail|..] == tail
  }

  predicate StartsWith(s: string, head: string) {
    |s| >= |head| && s[..|head|] == head
  }

  predicate Matches(u: string, v: string, head: string, tail: string) {
    EndsWith(u, head) && StartsWith(v, tail)
  }

  function OneApostrophe(u: string, v: string): string { u + ['\''] + v }

  /** The prefix of a text that holds its only apostrophe can only match at one place. */
  lemma PrefixMatch(u: string, v: string, head: string, tail: string)
    requires NoApostrophe(u) && NoApostrophe(v) && NoApostrophe(head) && NoApostrophe(tail)
    ensures var s, from := OneApostrophe(u, v), OneApostrophe(head, tail);
      |s| >= |from| && s[..|from|] == from <==> u == head && StartsWith(v, tail)
  {
    var s, from := OneApostrophe(u, v), OneApostrophe(head, tail);
    assert s[|u|] == '\'' && from[|head|] == '\'';
    if |s| >= |from| && s[..|from|] == from {
      assert forall i :: 0 <= i < |u| ==> s[i] == u[i] && u[i] in u;
      assert forall i :: 0 <= i < |head| ==> from[i] == head[i] && head[i] in head;
      assert s[..|from|][|head|] == '\'' && |head| >= |u|;
      assert s[..|from|][|u|] == '\'' && |u| >= |head|;
      assert u == s[..|u|] == from[..|u|] == head;
      assert v[..|tail|] == s[..|from|][|u| + 1..] == tail;
    }
  }

  function Replaced(u: string, v: string, head: string, tail: string, to: string): string {
    if Matches(u, v, head, tail) then u[..|u| - |head|] + to + v[|tail|..] else OneApostrophe(u, v)
  }

  lemma ReplaceHere(v: string, head: string, tail: string, to: string)
    requires NoApostrophe(v) && NoApostrophe(head) && NoApostrophe(tail) && StartsWith(v, tail)
    ensures Replace(OneApostrophe(head, v), OneApostrophe(head, tail), to) == Replaced(head, v, head, tail, to)
  {
    var s, from := OneApostrophe(head, v), OneApostrophe(head, tail);
    PrefixMatch(head, v, head, tail);
    assert s[|from|..] == v[|tail|..];
    RestStays(v, tail, from, to);
    assert head[..0] == "" && head[0..] == head;
    assert "" + to + v[|tail|..] == to + v[|tail|..];
  }

  lemma ReplaceNoMore(v: string, head: string, tail: string, to: string)
    requires NoApostrophe(v) && NoApostrophe(head) && NoApostrophe(tail) && !("" == head && StartsWith(v, tail))
    ensures Replace(OneApostrophe("", v), OneApostrophe(head, tail), to) == Replaced("", v, head, tail, to)
  {
    var s, from := OneApostrophe("", v), OneApostrophe(head, tail);
    PrefixMatch("", v, head, tail);
    assert s[1..] == v && s[0] == '\'';
    assert from[|head|] == '\'' && '\'' in from;
    ReplaceNothing(v, from, to);
    assert s == [s[0]] + v;
    NoHead(v, head, tail);
  }

  /** Replacing a pattern with one apostrophe in a text with one apostrophe: where they fit, and nowhere else. */
  lemma {:induction false} ReplaceOnce(u: string, v: string, head: string, tail: string, to: string)
    requires NoApostrophe(u) && NoApostrophe(v) && NoApostrophe(head) && NoApostrophe(tail)
    ensures Replace(OneApostrophe(u, v), OneApostrophe(head, tail), to) == Replaced(u, v, head, tail, to)
  {
    var s, from := OneApostrophe(u, v), OneApostrophe(head, tail);
    if u == head && StartsWith(v, tail) {
      ReplaceHere(v, head, tail, to);
    } else if |s| < |from| {
      TooShort(u, v, head, tail);
    } else if u == "" {
      ReplaceNoMore(v, head, tail, to);
    } else {
      PrefixMatch(u, v, head, tail);
      assert s[1..] == OneApostrophe(u[1..], v) && s[0] == u[0];
      ReplaceOnce(u[1..], v, head, tail, to);
      MatchesLater(u, v, head, tail, to);
    }
  }

  lemma RestStays(v: string, tail: string, from: string, to: string)
    requires NoApostrophe(v) && StartsWith(v, tail) && '\'' in from
    ensures Replace(v[|tail|..], from, to) == v[|tail|..]
  {
    ReplaceNothing(v[|tail|..], from, to);
  }

  lemma TooShort(u: string, v: string, head: string, tail: string)
    requires |OneApostrophe(u, v)| < |OneApostrophe(head, tail)|
    ensures !Matches(u, v, head, tail)
  {
  }

  lemma NoHead(v: string, head: string, tail: string)
    requires !("" == head && StartsWith(v, tail))
    ensures !Matches("", v, head, tail)
  {
    if EndsWith("", head) {
      assert head == "";
    }
  }

  lemma MatchesLater(u: string, v: string, head: string, tail: string, to: string)
    requires u != "" && !(u == head && StartsWith(v, tail))
    ensures Matches(u, v, head, tail) <==> Matches(u[1..], v, head, tail)
    ensures Matches(u, v, head, tail) ==>
              [u[0]] + (u[1..][..|u| - 1 - |head|] + to + v[|tail|..]) == u[..|u| - |head|] + to + v[|tail|..]
    ensures [u[0]] + OneApostrophe(u[1..], v) == OneApostrophe(u, v)
  {
    if EndsWith(u, head) && |head| == |u| {
      assert u[0..] == u;
    }
    if |head| < |u| {
      assert u[|u| - |head|..] == u[1..][|u| - 1 - |head|..];
      assert [u[0]] + u[1..][..|u| - 1 - |head|] == u[..|u| - |head|];
    }
  }

  // ----- The table

  const RULES := |CONTRACTIONS|

  /** The contractions around their apostrophes. */
  const PIECES: seq<(string, string)> := [
    ("don", "t"), ("can", "t"), ("won", "t"), ("i", "m"), ("it", "s"), ("he", "s"), ("she", "s"),
    ("we", "re"), ("they", "re"), ("i", "ve"), ("you", "ve"), ("we", "ve"), ("i", "ll"), ("you", "ll")]

  predicate IsWord(s: string) {
    s != "" && forall i :: 0 <= i < |s| ==> 'a' <= s[i] <= 'z'
  }

  lemma PiecesAreWords(j: nat)
    requires j < RULES
    ensures |PIECES| == RULES == 14 && IsWord(PIECES[j].0) && IsWord(PIECES[j].1)
  {
  }

  lemma PiecesMakeWord(j: nat)
    requires j < RULES
    ensures |PIECES| == RULES && CONTRACTIONS[j].0 == OneApostrophe(PIECES[j].0, PIECES[j].1)
  {
  }

  // ----- At most one rewrite fits a contraction, but for "he's" inside "she's"

  /** The first character after the apostrophe, and the last before it. */
  function Next(j: nat): char {
    if j < 3 then 't' else if j == 3 then 'm' else if j < 7 then 's' else if j < 9 then 'r' else if j < 12 then 'v' else 'l'
  }

  function Last(j: nat): char {
    if j < 3 then 'n' else if j == 4 then 't' else if j == 3 || j == 9 || j == 12 then 'i'
    else if j == 8 then 'y' else if j == 10 || j == 13 then 'u' else 'e'
  }

  lemma Marks(j: nat)
    requires j < RULES
    ensures |PIECES| == RULES && IsWord(PIECES[j].0) && IsWord(PIECES[j].1)
    ensures PIECES[j].1[0] == Next(j) && PIECES[j].0[|PIECES[j].0| - 1] == Last(j)
  {
    PiecesAreWords(j);
  }

  lemma EndsAlike(x: string, w: string, head: string, d: nat)
    requires EndsWith(x + w, head) && d < |head| && d < |w|
    ensures head[|head| - 1 - d] == w[|w| - 1 - d]
  {
    var u := x + w;
    assert u[|u| - |head|..][|head| - 1 - d] == u[|u| - 1 - d];
  }

  lemma EarlierMisses(x: string, y: string, i: nat, j: nat)
    requires i < j < RULES && !(i == 5 && j == 6)
    ensures |PIECES| == RULES && !Matches(x + PIECES[j].0, PIECES[j].1 + y, PIECES[i].0, PIECES[i].1)
  {
    Marks(i);
    Marks(j);
    var u, v := x + PIECES[j].0, PIECES[j].1 + y;
    if Next(i) != Next(j) {
      assert v[0] == Next(j);
    } else if EndsWith(u, PIECES[i].0) {
      EndsAlike(x, PIECES[j].0, PIECES[i].0, 0);
      assert j < 3;
      NotWords();
      EndsAlike(x, PIECES[j].0, PIECES[i].0, 1);
      EndsAlike(x, PIECES[j].0, PIECES[i].0, 2);
    }
  }

  /** don, can and won */
  lemma NotWords()
    ensures |PIECES| == RULES && |PIECES[0].0| == |PIECES[1].0| == |PIECES[2].0| == 3
    ensures PIECES[0].0[0] != PIECES[1].0[0] && PIECES[0].0[0] != PIECES[2].0[0] && PIECES[1].0[0] != PIECES[2].0[0]
  {
  }

  // ----- Running the rewrites

  lemma RulesFrom(k: nat)
    requires k <= RULES
    ensures forall i :: 0 <= i < |CONTRACTIONS[k..]| ==> CONTRACTIONS[k..][i].0 != ""
    ensures k < RULES ==> CONTRACTIONS[k..][0] == CONTRACTIONS[k] && CONTRACTIONS[k..][1..] == CONTRACTIONS[k + 1..]
  {
    forall i | 0 <= i < |CONTRACTIONS[k..]| ensures CONTRACTIONS[k..][i].0 != "" {
      PiecesMakeWord(k + i);
      assert CONTRACTIONS[k..][i] == CONTRACTIONS[k + i];
    }
  }

  function ExpandFrom(s: string, k: nat): string
    requires k <= RULES
  {
    RulesFrom(k);
    Expand(s, CONTRACTIONS[k..])
  }

  lemma ExpandOne(s: string, k: nat)
    requires k < RULES
    ensures CONTRACTIONS[k].0 != "" && ExpandFrom(s, k) == ExpandFrom(Replace(s, CONTRACTIONS[k].0, CONTRACTIONS[k].1), k + 1)
  {
    RulesFrom(k);
    RulesFrom(k + 1);
  }

  lemma {:induction false} ExpandSkips(u: string, v: string, k: nat, j: nat)
    requires k <= j <= RULES == |PIECES| && NoApostrophe(u) && NoApostrophe(v)
    requires forall i :: k <= i < j ==> !Matches(u, v, PIECES[i].0, PIECES[i].1)
    ensures ExpandFrom(OneApostrophe(u, v), k) == ExpandFrom(OneApostrophe(u, v), j)
    decreases j - k
  {
    if k < j {
      ExpandOne(OneApostrophe(u, v), k);
      ReplacePart(u, v, k);
      ExpandSkips(u, v, k + 1, j);
    }
  }

  lemma ReplacePart(u: string, v: string, j: nat)
    requires j < RULES == |PIECES| && NoApostrophe(u) && NoApostrophe(v)
    ensures CONTRACTIONS[j].0 != ""
    ensures Replace(OneApostrophe(u, v), CONTRACTIONS[j].0, CONTRACTIONS[j].1) ==
            if Matches(u, v, PIECES[j].0, PIECES[j].1)
            then u[..|u| - |PIECES[j].0|] + CONTRACTIONS[j].1 + v[|PIECES[j].1|..] else OneApostrophe(u, v)
  {
    PiecesMakeWord(j);
    PiecesAreWords(j);
    ReplaceOnce(u, v, PIECES[j].0, PIECES[j].1, CONTRACTIONS[j].1);
  }

  lemma ExpandHits(u: string, v: string, j: nat)
    requires j < RULES == |PIECES| && NoApostrophe(u) && NoApostrophe(v) && Matches(u, v, PIECES[j].0, PIECES[j].1)
    ensures ExpandFrom(OneApostrophe(u, v), j) == u[..|u| - |PIECES[j].0|] + CONTRACTIONS[j].1 + v[|PIECES[j].1|..]
  {
    var t := u[..|u| - |PIECES[j].0|] + CONTRACTIONS[j].1 + v[|PIECES[j].1|..];
    ExpandOne(OneApostrophe(u, v), j);
    ReplacePart(u, v, j);
    ContractionIsGood(j);
    assert NoApostrophe(t);
    ExpandNone(t, j + 1);
  }

  lemma {:induction false} ExpandNone(s: string, k: nat)
    requires k <= RULES && NoApostrophe(s)
    ensures ExpandFrom(s, k) == s
    decreases RULES - k
  {
    RulesFrom(k);
    if k < RULES {
      ExpandOne(s, k);
      ContractionIsGood(k);
      ReplaceNothing(s, CONTRACTIONS[k].0, CONTRACTIONS[k].1);
      ExpandNone(s, k + 1);
    }
  }

  lemma Around(x: string, head: string, tail: string, y: string)
    requires NoApostrophe(x) && NoApostrophe(head) && NoApostrophe(tail) && NoApostrophe(y)
    ensures var u, v := x + head, tail + y;
      && NoApostrophe(u) && NoApostrophe(v) && Matches(u, v, head, tail)
      && u[..|u| - |head|] == x && v[|tail|..] == y
      && x + OneApostrophe(head, tail) + y == OneApostrophe(u, v)
  {
  }

  lemma WordsHaveNone(j: nat)
    requires j < RULES
    ensures |PIECES| == RULES && NoApostrophe(PIECES[j].0) && NoApostrophe(PIECES[j].1)
  {
    PiecesAreWords(j);
  }

  lemma UsualExpands(x: string, j: nat, y: string, u: string, v: string)
    requires j < RULES == |PIECES| && j != 6 && NoApostrophe(x) && NoApostrophe(y)
    requires u == x + PIECES[j].0 && v == PIECES[j].1 + y
    ensures ExpandFrom(OneApostrophe(u, v), 0) == x + CONTRACTIONS[j].1 + y
  {
    forall i | 0 <= i < j ensures !Matches(u, v, PIECES[i].0, PIECES[i].1) {
      EarlierMisses(x, y, i, j);
    }
    WordsHaveNone(j);
    Around(x, PIECES[j].0, PIECES[j].1, y);
    ExpandSkips(u, v, 0, j);
    ExpandHits(u, v, j);
  }

  lemma HeAndShe()
    ensures |PIECES| == RULES == 14
    ensures PIECES[6].0 == "s" + PIECES[5].0 && PIECES[6].1 == PIECES[5].1 && CONTRACTIONS[6].1 == "s" + CONTRACTIONS[5].1
  {
  }

  /** "she's" is met by the rewrite of "he's", to the same effect. */
  lemma SheExpands(x: string, y: string, u: string, v: string, s: string)
    requires RULES == |PIECES| == 14 && NoApostrophe(x) && NoApostrophe(y) && s == "s"
    requires PIECES[6].0 == s + PIECES[5].0 && PIECES[6].1 == PIECES[5].1 && CONTRACTIONS[6].1 == s + CONTRACTIONS[5].1
    requires u == x + PIECES[6].0 && v == PIECES[6].1 + y
    ensures ExpandFrom(OneApostrophe(u, v), 0) == x + CONTRACTIONS[6].1 + y
  {
    forall i | 0 <= i < 5 ensures !Matches(u, v, PIECES[i].0, PIECES[i].1) {
      EarlierMisses(x, y, i, 6);
    }
    WordsHaveNone(5);
    Regroup(x, s, PIECES[5].0);
    assert NoApostrophe(x + s);
    Around(x + s, PIECES[5].0, PIECES[5].1, y);
    ExpandSkips(u, v, 0, 5);
    ExpandHits(u, v, 5);
    Regroup(x, s, CONTRACTIONS[5].1);
  }

  /** In any text that has no other apostrophe, a contraction is expanded and the rest stays. */
  lemma ContractionExpands(x: string, j: nat, y: string)
    requires j < RULES && NoApostrophe(x) && NoApostrophe(y)
    ensures ExpandFrom(x + CONTRACTIONS[j].0 + y, 0) == x + CONTRACTIONS[j].1 + y
  {
    PiecesMakeWord(j);
    WordsHaveNone(j);
    Around(x, PIECES[j].0, PIECES[j].1, y);
    if j == 6 {
      HeAndShe();
      SheExpands(x, y, x + PIECES[j].0, PIECES[j].1 + y, "s");
    } else {
      UsualExpands(x, j, y, x + PIECES[j].0, PIECES[j].1 + y);
    }
  }

  /** A text whose apostrophe belongs to no contraction is left alone. */
  lemma OthersStay(u: string, v: string)
    requires NoApostrophe(u) && NoApostrophe(v)
    requires |PIECES| == RULES && forall j :: 0 <= j < RULES ==> !Matches(u, v, PIECES[j].0, PIECES[j].1)
    ensures ExpandFrom(OneApostrophe(u, v), 0) == OneApostrophe(u, v)
  {
    ExpandSkips(u, v, 0, RULES);
  }

  // ----- Word by word

  lemma NoMatchAcross(a: string, b: string, from: string)
    requires ' ' !in from && |a| < |from| <= |a + " " + b|
    ensures (a + " " + b)[..|from|] != from
  {
    assert (a + " " + b)[..|from|][|a|] == ' ';
  }

  lemma {:induction false} ShortStays(a: string, b: string, from: string, to: string)
    requires from != "" && ' ' !in from && |a| < |from|
    ensures Replace(a + " " + b, from, to) == a + " " + Replace(b, from, to)
    decreases |a|
  {
    var s := a + " " + b;
    if |s| >= |from| {
      NoMatchAcross(a, b, from);
      if a == "" {
        assert s[1..] == b;
      } else {
        assert s[1..] == a[1..] + " " + b;
        ShortStays(a[1..], b, from, to);
        Regroup4([a[0]], a[1..], " ", Replace(b, from, to));
        assert [a[0]] + a[1..] == a;
      }
    }
  }

  /** A pattern without a space is replaced on either side of a space for itself. */
  lemma {:induction false} ReplaceSplits(a: string, b: string, from: string, to: string)
    requires from != "" && ' ' !in from
    ensures Replace(a + " " + b, from, to) == Replace(a, from, to) + " " + Replace(b, from, to)
    decreases |a|
  {
    var s := a + " " + b;
    if |a| < |from| {
      ShortStays(a, b, from, to);
    } else {
      assert s[..|from|] == a[..|from|];
      var c := if a[..|from|] == from then to else [a[0]];
      var n := if a[..|from|] == from then |from| else 1;
      assert s[n..] == a[n..] + " " + b;
      ReplaceSplits(a[n..], b, from, to);
      Regroup4(c, Replace(a[n..], from, to), " ", Replace(b, from, to));
    }
  }

  lemma Regroup4(a: string, b: string, c: string, d: string)
    ensures a + (b + c + d) == (a + b) + c + d
  {
  }

  /** So each word is expanded for itself, whatever stands beside it. */
  lemma {:induction false} ExpandSplits(a: string, b: string, k: nat)
    requires k <= RULES
    ensures ExpandFrom(a + " " + b, k) == ExpandFrom(a, k) + " " + ExpandFrom(b, k)
    decreases RULES - k
  {
    RulesFrom(k);
    if k < RULES {
      NoSpaces(k);
      ExpandOne(a + " " + b, k);
      ExpandOne(a, k);
      ExpandOne(b, k);
      var from, to := CONTRACTIONS[k].0, CONTRACTIONS[k].1;
      ReplaceSplits(a, b, from, to);
      ExpandSplits(Replace(a, from, to), Replace(b, from, to), k + 1);
    }
  }

  lemma NoSpaces(k: nat)
    requires k < RULES
    ensures ' ' !in CONTRACTIONS[k].0
  {
    PiecesMakeWord(k);
    PiecesAreWords(k);
  }
}

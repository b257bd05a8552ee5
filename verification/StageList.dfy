/** parseStages and contains of internal/gateway/pipeline.go. */
module StageList {
  import opened Text

  const ALL_STAGES := ["stt", "diarize", "summarize"]

  /** What strings.ToLower does to one character, as far as parsing depends on it: lower case stays, and commas neither come
      nor go. */
  ghost predicate LowerCasing(fold: char -> char) {
    && (forall c :: fold(fold(c)) == fold(c) && (fold(c) == ',' <==> c == ','))
    && (forall c :: 'a' <= c <= 'z' ==> fold(c) == c)
  }

  function Lower(s: string, fold: char -> char): string {
    seq(|s|, i requires 0 <= i < |s| => fold(s[i]))
  }

  function Clean(part: string, fold: char -> char): string {
    Trim(Lower(part, fold), IsSpace)
  }

  function CleanAll(parts: seq<string>, fold: char -> char): seq<string> {
    if parts == [] then []
    else
      var last := Clean(parts[|parts| - 1], fold);
      CleanAll(parts[..|parts| - 1], fold) + if last != "" then [last] else []
  }

  function Parsed(param: string, fold: char -> char): seq<string> {
    if param == "" then ALL_STAGES else CleanAll(Split(param, ','), fold)
  }

  lemma OneMorePart(parts: seq<string>, i: nat, fold: char -> char)
    requires i < |parts|
    ensures var p := Clean(parts[i], fold);
      CleanAll(parts[..i + 1], fold) == if p != "" then CleanAll(parts[..i], fold) + [p] else CleanAll(parts[..i], fold)
  {
    assert parts[..i + 1][..i] == parts[..i];
  }

  method ParseStages(param: string, fold: char -> char) returns (stages: seq<string>)
    ensures stages == Parsed(param, fold)
  {
    if param == "" {
      return ALL_STAGES;
    }
    var parts := Split(param, ',');
    stages := [];
    for i := 0 to |parts|
      invariant stages == CleanAll(parts[..i], fold)
    {
      OneMorePart(parts, i, fold);
      var p := Clean(parts[i], fold);
      if p != "" {
        stages := stages + [p];
      }
    }
    assert parts[..|parts|] == parts;
  }

  method Contains(slice: seq<string>, item: string) returns (found: bool)
    ensures found <==> item in slice
  {
    for i := 0 to |slice|
      invariant item !in slice[..i]
    {
      if slice[i] == item {
        return true;
      }
    }
    return false;
  }

  predicate IsClean(part: string, fold: char -> char) {
    part != "" && ',' !in part && Trimmed(part, IsSpace) && Lower(part, fold) == part
  }

  lemma CleanIsClean(part: string, fold: char -> char)
    requires LowerCasing(fold) && ',' !in part && Clean(part, fold) != ""
    ensures IsClean(Clean(part, fold), fold)
  {
    var low, r := Lower(part, fold), Clean(part, fold);
    forall c | c in low ensures fold(c) == c && c != ',' {
      var i :| 0 <= i < |low| && low[i] == c;
      assert c == fold(part[i]) && part[i] in part;
    }
    assert forall j :: 0 <= j < |r| ==> r[j] in r && r[j] in low;
  }

  lemma {:induction false} AllClean(parts: seq<string>, fold: char -> char)
    requires LowerCasing(fold) && forall i :: 0 <= i < |parts| ==> ',' !in parts[i]
    ensures forall p :: p in CleanAll(parts, fold) ==> IsClean(p, fold)
  {
    if parts != [] {
      AllClean(parts[..|parts| - 1], fold);
      if Clean(parts[|parts| - 1], fold) != "" {
        CleanIsClean(parts[|parts| - 1], fold);
      }
    }
  }

  lemma CleanOneStays(part: string, fold: char -> char)
    requires IsClean(part, fold)
    ensures Clean(part, fold) == part != ""
  {
    TrimmedStays(part, IsSpace);
  }

  predicate CleanParts(parts: seq<string>, fold: char -> char) {
    forall p :: p in parts ==> IsClean(p, fold)
  }

  lemma LastIsClean(parts: seq<string>, fold: char -> char)
    requires parts != [] && CleanParts(parts, fold)
    ensures CleanParts(parts[..|parts| - 1], fold)
    ensures Clean(parts[|parts| - 1], fold) == parts[|parts| - 1] != ""
  {
    assert parts[|parts| - 1] in parts;
    CleanOneStays(parts[|parts| - 1], fold);
  }

  lemma {:induction false} CleanStays(parts: seq<string>, fold: char -> char)
    requires CleanParts(parts, fold)
    ensures CleanAll(parts, fold) == parts
  {
    if parts != [] {
      var n := |parts| - 1;
      LastIsClean(parts, fold);
      CleanStays(parts[..n], fold);
      assert CleanAll(parts, fold) == CleanAll(parts[..n], fold) + [parts[n]];
      Rejoined(parts);
    }
  }

  lemma Rejoined(parts: seq<string>)
    requires parts != []
    ensures parts[..|parts| - 1] + [parts[|parts| - 1]] == parts
  {
  }

  lemma CleanListStays(stages: seq<string>, fold: char -> char)
    requires stages != [] && forall p :: p in stages ==> IsClean(p, fold)
    ensures Parsed(Join(stages, ','), fold) == stages
  {
    forall i | 0 <= i < |stages| ensures ',' !in stages[i] {
      assert stages[i] in stages;
    }
    SplitUndoesJoin(stages, ',');
    CleanStays(stages, fold);
    assert stages[0] in stages && stages[0] != "";
  }

  /** Parsing the printed list gives the list back exactly when it is not empty; an empty one prints as the form value that
      means all stages. */
  lemma PrintParseRoundTrip(param: string, fold: char -> char)
    requires LowerCasing(fold)
    ensures var stages := Parsed(param, fold);
      Parsed(Join(stages, ','), fold) == stages <==> stages != []
  {
    var stages := Parsed(param, fold);
    if param != "" && stages != [] {
      AllClean(Split(param, ','), fold);
      CleanListStays(stages, fold);
    } else if param == "" {
      DefaultRoundTrip(fold);
    }
  }

  lemma DefaultRoundTrip(fold: char -> char)
    requires LowerCasing(fold)
    ensures Parsed(Join(ALL_STAGES, ','), fold) == ALL_STAGES
  {
    forall p | p in ALL_STAGES ensures IsClean(p, fold) {
      assert forall i :: 0 <= i < |p| ==> 'a' <= p[i] <= 'z';
    }
    CleanListStays(ALL_STAGES, fold);
  }

  // ----- Which form values name no stage

  predicate FoldsToSpace(c: char, fold: char -> char) {
    IsSpace(fold(c))
  }

  lemma {:induction false} TrimLeftIsBlank(s: string)
    ensures TrimLeft(s, IsSpace) == "" <==> forall c :: c in s ==> IsSpace(c)
  {
    if s != "" && IsSpace(s[0]) {
      TrimLeftIsBlank(s[1..]);
      assert forall c :: c in s <==> c == s[0] || c in s[1..];
    }
  }

  lemma CleanIsBlank(part: string, fold: char -> char)
    ensures Clean(part, fold) == "" <==> forall c :: c in part ==> FoldsToSpace(c, fold)
  {
    var low := Lower(part, fold);
    TrimLeftIsBlank(low);
    if TrimLeft(low, IsSpace) != "" {
      TrimRightKeepsFirst(TrimLeft(low, IsSpace), IsSpace);
    }
    assert forall i :: 0 <= i < |part| ==> low[i] == fold(part[i]) && low[i] in low && part[i] in part;
  }

  lemma {:induction false} NothingLeft(parts: seq<string>, fold: char -> char)
    ensures CleanAll(parts, fold) == [] <==> forall p :: p in parts ==> Clean(p, fold) == ""
  {
    if parts != [] {
      NothingLeft(parts[..|parts| - 1], fold);
      assert forall p :: p in parts <==> p in parts[..|parts| - 1] || p == parts[|parts| - 1];
    }
  }

  predicate AllBlank(parts: seq<string>, blank: char -> bool) {
    forall p :: p in parts ==> IsBlank(p, blank)
  }

  predicate IsBlank(p: string, blank: char -> bool) {
    forall c :: c in p ==> blank(c)
  }

  lemma FirstAndRest(first: string, rest: seq<string>, blank: char -> bool)
    ensures AllBlank([first] + rest, blank) <==> IsBlank(first, blank) && AllBlank(rest, blank)
  {
    assert forall p :: p in [first] + rest <==> p == first || p in rest;
  }

  lemma {:induction false} BlankParts(s: string, sep: char, blank: char -> bool)
    ensures AllBlank(Split(s, sep), blank) <==> forall c :: c in s ==> c == sep || blank(c)
  {
    if s != "" {
      var rest, parts := Split(s[1..], sep), Split(s, sep);
      BlankParts(s[1..], sep, blank);
      assert forall c :: c in s <==> c == s[0] || c in s[1..];
      if s[0] == sep {
        FirstAndRest("", rest, blank);
      } else {
        FirstAndRest([s[0]] + rest[0], rest[1..], blank);
        FirstAndRest(rest[0], rest[1..], blank);
        assert rest == [rest[0]] + rest[1..];
        assert forall c :: c in [s[0]] + rest[0] <==> c == s[0] || c in rest[0];
      }
    }
  }

  /** A form value names no stage if and only if it is not empty and consists of commas and white space. */
  lemma NoStages(param: string, fold: char -> char)
    ensures Parsed(param, fold) == [] <==>
            param != "" && forall c :: c in param ==> c == ',' || FoldsToSpace(c, fold)
  {
    var parts, blank := Split(param, ','), (c: char) => FoldsToSpace(c, fold);
    NothingLeft(parts, fold);
    forall p | p in parts ensures Clean(p, fold) == "" <==> forall c :: c in p ==> blank(c) {
      CleanIsBlank(p, fold);
    }
    BlankParts(param, ',', blank);
  }

  /** So the round trip can be decided from the form value: it fails exactly for commas and white space, "," for one. */
  lemma RoundTripFails(param: string, fold: char -> char)
    requires LowerCasing(fold)
    ensures Parsed(Join(Parsed(param, fold), ','), fold) != Parsed(param, fold) <==>
            param != "" && forall c :: c in param ==> c == ',' || FoldsToSpace(c, fold)
    ensures Parsed(",", fold) == [] && Parsed(Join(Parsed(",", fold), ','), fold) == ALL_STAGES
  {
    PrintParseRoundTrip(param, fold);
    NoStages(param, fold);
    NoStages(",", fold);
  }

  /** Such a map exists: the one for ASCII letters. */
  lemma AsciiLowerCases()
    ensures LowerCasing(c => if 'A' <= c <= 'Z' then (c as int + 32) as char else c)
  {
  }

  // ----- What is parsed, piece by piece

  lemma {:induction false} CleanAllConcat(parts: seq<string>, more: seq<string>, fold: char -> char)
    ensures CleanAll(parts + more, fold) == CleanAll(parts, fold) + CleanAll(more, fold)
  {
    if more == [] {
      assert parts + more == parts;
    } else {
      var n := |more| - 1;
      assert (parts + more)[..|parts + more| - 1] == parts + more[..n];
      CleanAllConcat(parts, more[..n], fold);
    }
  }

  /** A form value is parsed part by part. */
  lemma ParsedPartByPart(p: string, q: string, fold: char -> char)
    requires p != "" && q != ""
    ensures Parsed(p + "," + q, fold) == Parsed(p, fold) + Parsed(q, fold)
  {
    SplitConcat(p, q, ',');
    CleanAllConcat(Split(p, ','), Split(q, ','), fold);
  }

  lemma {:induction false} TrimLeftDrops(blank: string, s: string)
    requires (forall c :: c in blank ==> IsSpace(c)) && (s != "" ==> !IsSpace(s[0]))
    ensures TrimLeft(blank + s, IsSpace) == s
  {
    if blank == "" {
      assert blank + s == s;
    } else {
      assert blank[0] in blank && (blank + s)[1..] == blank[1..] + s;
      TrimLeftDrops(blank[1..], s);
    }
  }

  lemma {:induction false} TrimRightDrops(s: string, blank: string)
    requires (forall c :: c in blank ==> IsSpace(c)) && (s != "" ==> !IsSpace(s[|s| - 1]))
    ensures TrimRight(s + blank, IsSpace) == s
  {
    if blank == "" {
      assert s + blank == s;
    } else {
      var n := |blank| - 1;
      assert blank[n] in blank && (s + blank)[..|s + blank| - 1] == s + blank[..n];
      TrimRightDrops(s, blank[..n]);
    }
  }

  /** A name in any case with white space around it is that name. */
  lemma ParsedOne(left: string, word: string, right: string, fold: char -> char)
    requires LowerCasing(fold) && IsClean(Lower(word, fold), fold)
    requires forall c :: c in left + right ==> FoldsToSpace(c, fold) && c != ','
    ensures Parsed(left + word + right, fold) == [Lower(word, fold)]
  {
    var param, name := left + word + right, Lower(word, fold);
    NoComma(left, word, right, fold);
    SplitPrefix(param, "", ',');
    Padding(left, word, right, fold);
    var l, r := Lower(left, fold), Lower(right, fold);
    TrimLeftDrops(l, name + r);
    TrimRightDrops(name, r);
    Regrouped(l, name, r);
    CleanAllOne(param, name, fold);
  }

  lemma Regrouped(l: string, name: string, r: string)
    ensures l + name + r == l + (name + r)
  {
  }

  lemma CleanAllOne(param: string, name: string, fold: char -> char)
    requires Clean(param, fold) == name != ""
    ensures CleanAll([param], fold) == [name]
  {
    assert [param][..0] == [];
  }

  lemma NoComma(left: string, word: string, right: string, fold: char -> char)
    requires LowerCasing(fold) && ',' !in Lower(word, fold) && ',' !in left + right
    ensures ',' !in left + word + right
  {
    forall i | 0 <= i < |word| ensures word[i] != ',' {
      assert Lower(word, fold)[i] == fold(word[i]) && Lower(word, fold)[i] in Lower(word, fold);
    }
    assert forall c :: c in left + word + right ==> c in left + right || c in word;
  }

  lemma Padding(left: string, word: string, right: string, fold: char -> char)
    requires forall c :: c in left + right ==> FoldsToSpace(c, fold)
    ensures Lower(left + word + right, fold) == Lower(left, fold) + Lower(word, fold) + Lower(right, fold)
    ensures forall c :: c in Lower(left, fold) || c in Lower(right, fold) ==> IsSpace(c)
  {
    forall i | 0 <= i < |left| ensures IsSpace(Lower(left, fold)[i]) {
      assert left[i] in left + right;
    }
    forall i | 0 <= i < |right| ensures IsSpace(Lower(right, fold)[i]) {
      assert right[i] in left + right;
    }
  }

  lemma PlainIsClean(name: string, fold: char -> char)
    requires LowerCasing(fold) && name != "" && forall i :: 0 <= i < |name| ==> 'a' <= name[i] <= 'z'
    ensures Lower(name, fold) == name && IsClean(name, fold)
  {
    assert forall i :: 0 <= i < |name| ==> fold(name[i]) == name[i];
  }

  /** A name in small letters is parsed as itself, and no value at all as all three. */
  lemma ParsedPlain(name: string, fold: char -> char)
    requires LowerCasing(fold) && name != "" && forall i :: 0 <= i < |name| ==> 'a' <= name[i] <= 'z'
    ensures Parsed(name, fold) == [name] && Parsed("", fold) == ["stt", "diarize", "summarize"]
  {
    var none: string := [];
    PlainIsClean(name, fold);
    NothingAround(none, name);
    ParsedOne(none, name, none, fold);
  }
}

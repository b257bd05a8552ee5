/** The string operations of Go and Python that the gateway and the eval harness rely on. */
module Text {

  /** White space as unicode.IsSpace has it. */
  predicate IsSpace(c: char) {
    || '\t' <= c <= '\r' || c == ' ' || c == '\U{85}' || c == '\U{A0}' || c == '\U{1680}'
    || '\U{2000}' <= c <= '\U{200A}' || c == '\U{2028}' || c == '\U{2029}' || c == '\U{202F}'
    || c == '\U{205F}' || c == '\U{3000}'
  }

  function TrimLeft(s: string, space: char -> bool): (r: string)
    ensures r != "" ==> !space(r[0])
    ensures forall c :: c in r ==> c in s
  {
    if s != "" && space(s[0]) then TrimLeft(s[1..], space) else s
  }

  function TrimRight(s: string, space: char -> bool): (r: string)
    ensures |r| <= |s| && r == s[..|r|]
    ensures r != "" ==> !space(r[|r| - 1])
  {
    if s != "" && space(s[|s| - 1]) then TrimRight(s[..|s| - 1], space) else s
  }

  /** Without leading and trailing white space. */
  function Trim(s: string, space: char -> bool): (r: string)
    ensures Trimmed(r, space)
    ensures forall c :: c in r ==> c in s
  {
    TrimRight(TrimLeft(s, space), space)
  }

  predicate Trimmed(s: string, space: char -> bool) {
    s != "" ==> !space(s[0]) && !space(s[|s| - 1])
  }

  lemma TrimmedStays(s: string, space: char -> bool)
    requires Trimmed(s, space)
    ensures Trim(s, space) == s
  {
  }

  lemma {:induction false} TrimRightKeepsFirst(s: string, space: char -> bool)
    requires s != "" && !space(s[0])
    ensures TrimRight(s, space) != ""
  {
    if space(s[|s| - 1]) {
      TrimRightKeepsFirst(s[..|s| - 1], space);
    }
  }

  lemma NothingAround(none: string, s: string)
    requires |none| == 0
    ensures none + s + none == s
  {
  }

  /** Split at every separator, as strings.Split does. */
  function Split(s: string, sep: char): (r: seq<string>)
    ensures |r| > 0
    ensures forall i :: 0 <= i < |r| ==> sep !in r[i]
  {
    if s == "" then [""]
    else
      var rest := Split(s[1..], sep);
      if s[0] == sep then [""] + rest else [[s[0]] + rest[0]] + rest[1..]
  }

  function Join(parts: seq<string>, sep: char): string {
    if parts == [] then ""
    else if |parts| == 1 then parts[0]
    else parts[0] + [sep] + Join(parts[1..], sep)
  }

  lemma {:induction false} SplitPrefix(s: string, rest: string, sep: char)
    requires sep !in s
    ensures Split(s + [sep] + rest, sep) == [s] + Split(rest, sep)
    ensures Split(s, sep) == [s]
  {
    if s == "" {
      assert "" + [sep] + rest == [sep] + rest;
      assert ([sep] + rest)[1..] == rest;
    } else {
      var t := s + [sep] + rest;
      assert t[1..] == s[1..] + [sep] + rest;
      SplitPrefix(s[1..], rest, sep);
      assert [s[0]] + s[1..] == s;
    }
  }

  /** Splitting undoes joining for a non-empty list of parts without the separator. */
  lemma {:induction false} SplitUndoesJoin(parts: seq<string>, sep: char)
    requires parts != [] && forall i :: 0 <= i < |parts| ==> sep !in parts[i]
    ensures Split(Join(parts, sep), sep) == parts
  {
    if |parts| == 1 {
      SplitPrefix(parts[0], "", sep);
      assert parts == [parts[0]];
    } else {
      SplitUndoesJoin(parts[1..], sep);
      SplitPrefix(parts[0], Join(parts[1..], sep), sep);
      assert parts == [parts[0]] + parts[1..];
    }
  }

  /** Splitting is done part by part. */
  lemma {:induction false} SplitConcat(a: string, b: string, sep: char)
    ensures Split(a + [sep] + b, sep) == Split(a, sep) + Split(b, sep)
  {
    var s := a + [sep] + b;
    if a == "" {
      assert s[1..] == b;
    } else {
      assert s[1..] == a[1..] + [sep] + b;
      SplitConcat(a[1..], b, sep);
    }
  }
}

/** filepath.Join of Go on Unix, as far as the local event log needs it: from a request ID to the name of its file. */
module FilePath {
  import opened Api
  import opened Text

  const DOT_JSONL := ".jsonl"

  /** One element of a path: empty ones and "." vanish, ".." takes back the element before it. */
  function Pushed(stack: seq<string>, element: string, rooted: bool): seq<string> {
    if element == "" || element == "." then stack
    else if element != ".." then stack + [element]
    else if stack != [] && stack[|stack| - 1] != ".." then stack[..|stack| - 1]
    else if rooted then stack
    else stack + [".."]
  }

  function Cleaned(elements: seq<string>, rooted: bool): seq<string> {
    if elements == [] then []
    else Pushed(Cleaned(elements[..|elements| - 1], rooted), elements[|elements| - 1], rooted)
  }

  predicate Rooted(path: string) { path != "" && path[0] == '/' }

  function Render(stack: seq<string>, rooted: bool): string {
    var body := Join(stack, '/');
    if rooted then "/" + body else if body == "" then "." else body
  }

  /** filepath.Clean. */
  function Clean(path: string): string {
    Render(Cleaned(Split(path, '/'), Rooted(path)), Rooted(path))
  }

  /** filepath.Join(dir, id + ".jsonl"); an empty directory is left out. */
  function Resolve(dir: string, id: string): string {
    var name := id + DOT_JSONL;
    Clean(if dir == "" then name else dir + ['/'] + name)
  }

  // ----- Joining at the end

  lemma {:induction false} JoinSnoc(parts: seq<string>, last: string, sep: char)
    requires parts != []
    ensures Join(parts + [last], sep) == Join(parts, sep) + [sep] + last
  {
    if |parts| > 1 {
      JoinSnoc(parts[1..], last, sep);
      assert (parts + [last])[1..] == parts[1..] + [last];
    } else {
      assert (parts + [last])[1..] == [last];
    }
  }

  lemma CleanedSnoc(elements: seq<string>, last: string, rooted: bool)
    ensures Cleaned(elements + [last], rooted) == Pushed(Cleaned(elements, rooted), last, rooted)
  {
    assert (elements + [last])[..|elements|] == elements;
  }

  // ----- Where the files are

  /** The elements of the directory. */
  function Base(dir: string): seq<string> {
    if dir == "" then [] else Split(dir, '/')
  }

  function Stack(dir: string): seq<string> {
    Cleaned(Base(dir), Rooted(dir))
  }

  function Prefix(dir: string): string {
    (if Rooted(dir) then "/" else "") + if Stack(dir) == [] then "" else Join(Stack(dir), '/') + "/"
  }

  lemma ResolveElements(dir: string, id: string)
    requires !Rooted(id)
    ensures Resolve(dir, id) == Render(Cleaned(Base(dir) + Split(id + DOT_JSONL, '/'), Rooted(dir)), Rooted(dir))
  {
    var name := id + DOT_JSONL;
    assert !Rooted(name);
    if dir == "" {
      assert [] + Split(name, '/') == Split(name, '/');
    } else {
      SplitConcat(dir, name, '/');
      assert (dir + ['/'] + name)[0] == dir[0];
    }
  }

  /** An ID without a slash becomes one file name in the directory. */
  lemma PlainResolves(dir: string, id: string)
    requires '/' !in id
    ensures Resolve(dir, id) == Prefix(dir) + (id + ".jsonl")
  {
    var name := id + DOT_JSONL;
    SplitPrefix(name, "", '/');
    ResolveElements(dir, id);
    LastElement(Base(dir), name, Rooted(dir));
    RenderFile(Stack(dir), name, Rooted(dir));
  }

  lemma LastElement(base: seq<string>, name: string, rooted: bool)
    requires |name| > 2
    ensures Cleaned(base + [name], rooted) == Cleaned(base, rooted) + [name]
  {
    CleanedSnoc(base, name, rooted);
  }

  lemma RenderFile(stack: seq<string>, name: string, rooted: bool)
    requires name != ""
    ensures Render(stack + [name], rooted) ==
            (if rooted then "/" else "") + (if stack == [] then "" else Join(stack, '/') + "/") + name
  {
    var middle := if stack == [] then "" else Join(stack, '/') + "/";
    assert Join(stack + [name], '/') == middle + name by {
      if stack != [] {
        JoinSnoc(stack, name, '/');
      } else {
        assert stack + [name] == [name];
      }
    }
    Regroup(if rooted then "/" else "", middle, name);
  }

  /** So such IDs share a file only if they are equal. */
  lemma PlainApart(dir: string, a: string, b: string)
    requires '/' !in a && '/' !in b
    ensures Resolve(dir, a) == Resolve(dir, b) <==> a == b
  {
    PlainResolves(dir, a);
    PlainResolves(dir, b);
    SamePrefix(Prefix(dir), a, b, DOT_JSONL);
  }

  lemma SamePrefix(p: string, a: string, b: string, q: string)
    ensures p + (a + q) == p + (b + q) <==> a == b
  {
    var x, y := p + (a + q), p + (b + q);
    if x == y {
      assert |a| == |b|;
      assert a == x[|p|..|p| + |a|] && b == y[|p|..|p| + |b|];
    }
  }

  /** With a slash they may: a detour through a directory that is left again resolves to the same file. */
  lemma DetourResolves(dir: string, element: string, id: string)
    requires '/' !in element && '/' !in id && element != "" && element != "." && element != ".."
    ensures Resolve(dir, element + ['/'] + (".." + ['/'] + id)) == Resolve(dir, id)
  {
    var detour := element + ['/'] + (".." + ['/'] + id);
    var name := id + DOT_JSONL;
    DetourElements(element, name);
    assert detour + DOT_JSONL == element + ['/'] + (".." + ['/'] + name);
    ResolveElements(dir, detour);
    SplitPrefix(name, "", '/');
    ResolveElements(dir, id);
    DetourCleans(Base(dir), element, name, Rooted(dir));
  }

  lemma DetourElements(element: string, name: string)
    requires '/' !in element && '/' !in name
    ensures Split(element + ['/'] + (".." + ['/'] + name), '/') == [element, "..", name]
  {
    SplitPrefix(element, ".." + ['/'] + name, '/');
    SplitPrefix("..", name, '/');
    SplitPrefix(name, "", '/');
  }

  lemma DetourCleans(base: seq<string>, element: string, name: string, rooted: bool)
    requires element != "" && element != "." && element != ".."
    ensures Cleaned(base + [element, "..", name], rooted) == Cleaned(base + [name], rooted)
  {
    CleanedSnoc(base, element, rooted);
    CleanedSnoc(base + [element], "..", rooted);
    CleanedSnoc(base + [element] + [".."], name, rooted);
    CleanedSnoc(base, name, rooted);
    assert base + [element] + [".."] + [name] == base + [element, "..", name];
    var stack := Cleaned(base, rooted);
    assert (stack + [element])[..|stack|] == stack;
  }
}

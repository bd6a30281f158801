/** Go's path/filepath.IsAbs and filepath.Clean on Linux (purely lexical). */
module FilePath {
  import opened GoStrings

  /** filepath.IsAbs on Linux: the path starts with '/'. */
  predicate IsAbs(p: string)
  {
    |p| > 0 && p[0] == '/'
  }

  predicate Element(e: string)
  {
    e != "" && '/' !in e
  }

  /** The lexical steps of Clean over the '/'-separated elements: drop "" and ".", let ".."
      cancel the previous real element, drop ".." at the root, keep it in a relative path. */
  function CleanElements(elems: seq<string>, rooted: bool, stack: seq<string>): (r: seq<string>)
    requires forall k :: 0 <= k < |elems| ==> '/' !in elems[k]
    requires forall k :: 0 <= k < |stack| ==> Element(stack[k])
    ensures forall k :: 0 <= k < |r| ==> Element(r[k])
    decreases |elems|
  {
    if elems == [] then stack
    else
      var e := elems[0];
      if e == "" || e == "." then CleanElements(elems[1..], rooted, stack)
      else if e == ".." then
        if |stack| > 0 && stack[|stack| - 1] != ".." then CleanElements(elems[1..], rooted, stack[..|stack| - 1])
        else if rooted then CleanElements(elems[1..], rooted, stack)
        else CleanElements(elems[1..], rooted, stack + [".."])
      else CleanElements(elems[1..], rooted, stack + [e])
  }

  lemma JoinStartsWithFirst(parts: seq<string>, sep: string)
    requires |parts| >= 1 && parts[0] != ""
    ensures Join(parts, sep) != "" && Join(parts, sep)[0] == parts[0][0]
  {
  }

  /** filepath.Clean: the shortest lexically equivalent path; "." for an empty result. */
  function Clean(p: string): (r: string)
    ensures r != ""
    ensures IsAbs(r) <==> IsAbs(p)
  {
    var rooted := IsAbs(p);
    var stack := CleanElements(Split(p, '/'), rooted, []);
    var body := Join(stack, "/");
    assert |stack| > 0 ==> body != "" && body[0] == stack[0][0] by {
      if |stack| > 0 { JoinStartsWithFirst(stack, "/"); }
    }
    if rooted then "/" + body else if body == "" then "." else body
  }

  /** The root spelt with a trailing "." still cleans to the root. */
  lemma CleanRootDot()
    ensures Clean("/.") == "/" && Clean("/") == "/" && Clean(".") == "."
  {
    assert "."[1..] == "" && "/"[1..] == "" && "/."[1..] == ".";
    assert Split("", '/') == [""];
    assert ['.'] + "" == ".";
    assert Split(".", '/') == [['.'] + ""] + [""][1..];
    assert Split("/.", '/') == ["", "."];
    assert Split("/", '/') == ["", ""];
  }
}

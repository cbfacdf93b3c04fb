/** Item ids: absolute path names, checked by comparing strings.

    An id must be the canonical name of an existing item, and must be the root or start with the
    root followed by a slash.  `ValidIdsAreBelowRoot` says which items these two string tests let
    through. */
module ItemIds {
  import opened FileTree

  datatype Error =
    NotExists | InvalidArgument | Exists | Permission | NotAFolder | NotAFile | Conflict | Quota | Resource

  datatype Result<+T> = Ok(value: T) | Err(error: Error)

  // ----- names -----

  predicate NoSlash(s: string) {
    forall i :: 0 <= i < |s| ==> s[i] != '/'
  }

  /** What a directory entry can be called. */
  predicate Proper(n: Name) {
    n.text != "" && n.text != "." && n.text != ".." && NoSlash(n.text)
  }

  predicate ProperPath(p: Path) {
    forall i :: 0 <= i < |p| ==> Proper(p[i])
  }

  /** A single new component that is not reserved. */
  function Sanitize(name: string): (r: Result<Name>)
    ensures r.Ok? ==> r.value.text == name && Proper(r.value) && !Reserved(r.value)
    ensures r.Ok? <==> Proper(Name(name)) && !(TMPFILE_PREFIX <= name)
  {
    if !NoSlash(name) then Err(InvalidArgument)
    else if name == "" || name == "." || name == ".." then Err(InvalidArgument)
    else if Reserved(Name(name)) then Err(InvalidArgument)
    else Ok(Name(name))
  }

  // ----- writing and reading path names -----

  function RenderBelow(p: Path): string {
    if p == [] then "" else "/" + p[0].text + RenderBelow(p[1..])
  }

  function Render(p: Path): string {
    if p == [] then "/" else RenderBelow(p)
  }

  function FirstSlash(s: string): (i: nat)
    ensures i <= |s| && NoSlash(s[..i])
    ensures i < |s| ==> s[i] == '/'
  {
    if s == "" || s[0] == '/' then 0 else 1 + FirstSlash(s[1..])
  }

  /** The components between slashes, empty ones included. */
  function Split(s: string): (r: seq<string>)
    ensures r != [] && forall i :: 0 <= i < |r| ==> NoSlash(r[i])
    decreases |s|
  {
    var i := FirstSlash(s);
    if i == |s| then [s] else [s[..i]] + Split(s[i + 1..])
  }

  /** What the kernel does with a path name, one component after the other, without symlinks. */
  function Resolve(t: Tree, at: Path, components: seq<string>): (r: Result<Path>)
    decreases |components|
  {
    if components == [] then Ok(at)
    else if !IsFolder(t, at) then Err(NotExists)
    else
      var c, rest := components[0], components[1..];
      if c == "" || c == "." then Resolve(t, at, rest)
      else if c == ".." then Resolve(t, if at == [] then [] else Parent(at), rest)
      else if at + [Name(c)] !in t then Err(NotExists)
      else Resolve(t, at + [Name(c)], rest)
  }

  function Canonical(t: Tree, cwd: Path, id: string): Result<Path> {
    if id != "" && id[0] == '/' then Resolve(t, [], Split(id[1..])) else Resolve(t, cwd, Split(id))
  }

  /** The test of `throw_if_not_valid` on strings. */
  predicate StringTest(root: string, id: string) {
    id == root || root + "/" <= id
  }

  function CheckId(t: Tree, cwd: Path, root: Path, id: string): Result<Path> {
    match Canonical(t, cwd, id)
    case Err(e) => Err(e)
    case Ok(p) =>
      if Render(p) != id then Err(InvalidArgument)
      else if !StringTest(Render(root), id) then Err(InvalidArgument)
      else Ok(p)
  }

  // ----- strings against paths -----

  lemma ProperTail(p: Path)
    requires ProperPath(p) && p != []
    ensures ProperPath(p[1..])
  {
  }

  /** Two names that are both ended by a slash, or by the end of the string, are equal. */
  lemma {:induction false} SameFirstName(a: string, x: string, b: string, y: string)
    requires NoSlash(a) && NoSlash(b)
    requires x != "" && x[0] == '/' && (y == "" || y[0] == '/')
    requires a + x <= b + y
    ensures a == b && x <= y
  {
    assert (a + x)[0] == (b + y)[0];
    assert b != "" ==> (b + y)[0] == b[0];
    assert b == "" ==> b + y == y;
    if a == "" {
      assert a + x == x;
    } else {
      assert (a + x)[1..] == a[1..] + x;
      assert b != "" ==> (b + y)[1..] == b[1..] + y;
      SameFirstName(a[1..], x, b[1..], y);
      assert a == [a[0]] + a[1..] && b == [b[0]] + b[1..];
    }
  }

  lemma {:induction false} StringPrefixIsPathPrefix(root: Path, p: Path)
    requires ProperPath(root) && ProperPath(p)
    requires RenderBelow(root) + "/" <= RenderBelow(p)
    ensures root <= p && root != p
    decreases |root|
  {
    if root != [] && p != [] {
      var a, x := root[0].text, RenderBelow(root[1..]) + "/";
      var b, y := p[0].text, RenderBelow(p[1..]);
      assert (RenderBelow(root) + "/")[1..] == a + x;
      assert RenderBelow(p)[1..] == b + y;
      assert a + x <= b + y;
      SameFirstName(a, x, b, y);
      ProperTail(root);
      ProperTail(p);
      StringPrefixIsPathPrefix(root[1..], p[1..]);
      assert root == [root[0]] + root[1..] && p == [p[0]] + p[1..];
    }
  }

  lemma {:induction false} PathPrefixIsStringPrefix(root: Path, rest: Path)
    requires rest != []
    ensures RenderBelow(root) + "/" <= RenderBelow(root + rest)
    decreases |root|
  {
    if root == [] {
      assert root + rest == rest;
    } else {
      PathPrefixIsStringPrefix(root[1..], rest);
      assert (root + rest)[1..] == root[1..] + rest;
      assert RenderBelow(root) + "/" == "/" + root[0].text + (RenderBelow(root[1..]) + "/");
    }
  }

  lemma {:induction false} RenderInjective(p: Path, q: Path)
    requires ProperPath(p) && ProperPath(q) && Render(p) == Render(q)
    ensures p == q
  {
    if p == [] || q == [] {
      OnlyRootIsSlash(p);
      OnlyRootIsSlash(q);
    } else {
      RenderBelowInjective(p, q);
    }
  }

  lemma OnlyRootIsSlash(p: Path)
    requires ProperPath(p)
    ensures Render(p) == "/" <==> p == []
  {
    if p != [] {
      assert Proper(p[0]);
      assert |RenderBelow(p)| >= 1 + |p[0].text|;
    }
  }

  lemma {:induction false} RenderBelowInjective(p: Path, q: Path)
    requires ProperPath(p) && ProperPath(q) && RenderBelow(p) == RenderBelow(q)
    ensures p == q
    decreases |p|
  {
    if p != [] && q != [] {
      var a, x, b, y := p[0].text, RenderBelow(p[1..]), q[0].text, RenderBelow(q[1..]);
      assert a + x == RenderBelow(p)[1..] == RenderBelow(q)[1..] == b + y;
      assert a + (x + "/") == a + x + "/" && b + (y + "/") == b + y + "/";
      SameFirstName(a, x + "/", b, y + "/");
      assert x == (a + x)[|a|..] && y == (b + y)[|b|..];
      ProperTail(p);
      ProperTail(q);
      RenderBelowInjective(p[1..], q[1..]);
      assert p == [p[0]] + p[1..] && q == [q[0]] + q[1..];
    }
  }

  /** The string test is the component-wise prefix test, except below "/": as a root, "/" admits
      itself only. */
  lemma StringTestIsPathTest(root: Path, p: Path)
    requires ProperPath(root) && ProperPath(p)
    ensures StringTest(Render(root), Render(p)) <==> root <= p && (root != [] || p == [])
  {
    OnlyRootIsSlash(p);
    if root == [] {
      if p != [] {
        assert Proper(p[0]);
        assert Render(p)[1] == p[0].text[0] != '/';
      }
    } else {
      OnlyRootIsSlash(root);
      if root <= p && root != p {
        PathPrefixIsStringPrefix(root, p[|root|..]);
        assert p == root + p[|root|..];
      }
      if Render(p) == Render(root) {
        RenderInjective(p, root);
      }
      assert |Render(root)| >= 1;
      if p != [] && Render(root) + "/" <= Render(p) {
        StringPrefixIsPathPrefix(root, p);
      }
    }
  }

  // ----- canonical names -----

  lemma FirstSlashAfter(a: string, x: string)
    requires NoSlash(a) && (x == "" || x[0] == '/')
    ensures FirstSlash(a + x) == |a|
  {
    var i := FirstSlash(a + x);
    assert forall k :: 0 <= k < |a| ==> (a + x)[k] == a[k];
    assert x != "" ==> (a + x)[|a|] == x[0];
  }

  /** The components of a canonical name are the names on the path. */
  function Texts(p: Path): (r: seq<string>)
    ensures |r| == |p|
  {
    if p == [] then [] else [p[0].text] + Texts(p[1..])
  }

  lemma SplitName(a: string, x: string)
    requires NoSlash(a) && (x == "" || x[0] == '/')
    ensures Split(a + x) == if x == "" then [a] else [a] + Split(x[1..])
  {
    FirstSlashAfter(a, x);
    if x == "" {
      assert a + x == a;
    } else {
      assert (a + x)[..|a|] == a;
      assert (a + x)[|a| + 1..] == x[1..];
    }
  }

  lemma RenderedParts(p: Path)
    requires p != []
    ensures RenderBelow(p)[1..] == p[0].text + RenderBelow(p[1..])
    ensures RenderBelow(p[1..]) == "" <==> p[1..] == []
    ensures p[1..] != [] ==> RenderBelow(p[1..])[0] == '/'
  {
  }

  lemma {:induction false} SplitRendered(p: Path)
    requires ProperPath(p) && p != []
    ensures Split(RenderBelow(p)[1..]) == Texts(p)
    decreases |p|
  {
    assert Proper(p[0]);
    RenderedParts(p);
    SplitName(p[0].text, RenderBelow(p[1..]));
    if p[1..] != [] {
      ProperTail(p);
      SplitRendered(p[1..]);
    }
  }

  /** Walking the names of an existing path leads to it. */
  lemma {:induction false} ResolveTexts(t: Tree, at: Path, below: Path)
    requires IsTree(t) && at + below in t && ProperPath(below)
    ensures Resolve(t, at, Texts(below)) == Ok(at + below)
    decreases |below|
  {
    if below == [] {
      assert at + below == at;
    } else {
      var c, tail := below[0], below[1..];
      assert Proper(c) && Name(c.text) == c;
      assert at + below == at + [c] + tail;
      AncestorsExist(t, at + [c], at + below);
      AncestorsExist(t, at, at + below);
      assert at != at + below by { assert |at + below| > |at|; }
      ProperTail(below);
      ResolveTexts(t, at + [c], tail);
      assert Texts(below)[1..] == Texts(tail);
    }
  }

  /** Walking leads to an item, whose name is proper if the walk started at the top. */
  lemma {:induction false} ResolvedExists(t: Tree, at: Path, components: seq<string>)
    requires IsTree(t) && (at in t || components != [])
    requires forall i :: 0 <= i < |components| ==> NoSlash(components[i])
    ensures Resolve(t, at, components).Ok? ==> Resolve(t, at, components).value in t
    ensures Resolve(t, at, components).Ok? && ProperPath(at) ==> ProperPath(Resolve(t, at, components).value)
    decreases |components|
  {
    if components != [] && IsFolder(t, at) {
      var c, rest := components[0], components[1..];
      if c == "" || c == "." {
        ResolvedExists(t, at, rest);
      } else if c == ".." {
        ResolvedExists(t, if at == [] then [] else Parent(at), rest);
      } else if at + [Name(c)] in t {
        ResolvedExists(t, at + [Name(c)], rest);
      }
    }
  }

  lemma CanonicalOfRendered(t: Tree, cwd: Path, p: Path)
    requires IsTree(t) && p in t && ProperPath(p)
    ensures Canonical(t, cwd, Render(p)) == Ok(p)
  {
    if p == [] {
      assert Render(p)[1..] == "";
      assert Split("") == [""];
      assert Resolve(t, [], [""]) == Resolve(t, [], [""][1..]) == Ok([]);
    } else {
      assert [] + p == p;
      SplitRendered(p);
      ResolveTexts(t, [], p);
    }
  }

  lemma RenderedIsAbsolute(p: Path)
    ensures Render(p) != "" && Render(p)[0] == '/'
  {
  }

  /** An id passes the check exactly if it is the canonical name of an existing item that lies at
      or below the root; a root of "/" admits no item but itself. */
  lemma ValidIdsAreBelowRoot(t: Tree, cwd: Path, root: Path, id: string, p: Path)
    requires IsTree(t) && ProperPath(root)
    ensures CheckId(t, cwd, root, id) == Ok(p) <==>
              p in t && ProperPath(p) && id == Render(p) && root <= p && (root != [] || p == [])
  {
    if p in t && ProperPath(p) && id == Render(p) {
      CanonicalOfRendered(t, cwd, p);
      StringTestIsPathTest(root, p);
    }
    if CheckId(t, cwd, root, id) == Ok(p) {
      RenderedIsAbsolute(p);
      ResolvedExists(t, [], Split(id[1..]));
    }
  }
}

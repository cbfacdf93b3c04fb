/** File trees as values: paths, nodes, and what it means to copy or move a subtree. */
module FileTree {

  newtype byte = x: int | 0 <= x < 256

  datatype Name = Name(text: string)

  type Path = seq<Name>

  /** `mtime` is in nanoseconds since the epoch. */
  datatype Node = File(bytes: seq<byte>, mtime: nat) | Folder | Other

  type Tree = map<Path, Node>

  const TMPFILE_PREFIX := ".storage-framework"

  predicate Reserved(n: Name) {
    TMPFILE_PREFIX <= n.text
  }

  predicate Clean(p: Path) {
    forall i :: 0 <= i < |p| ==> !Reserved(p[i])
  }

  function Parent(p: Path): Path
    requires p != []
  {
    p[..|p| - 1]
  }

  function Last(p: Path): Name
    requires p != []
  {
    p[|p| - 1]
  }

  predicate IsFolder(t: Tree, p: Path) {
    p in t && t[p].Folder?
  }

  /** Everything but the root lies in a folder. */
  ghost predicate IsTree(t: Tree) {
    && IsFolder(t, [])
    && forall p :: p in t && p != [] ==> IsFolder(t, Parent(p))
  }

  /** Whatever lies at or below a path needs that path, as a folder if it lies below. */
  lemma {:induction false} AncestorsExist(t: Tree, p: Path, q: Path)
    requires IsTree(t) && q in t && p <= q
    ensures p in t && (p != q ==> t[p].Folder?)
    decreases |q|
  {
    if p != q {
      assert p <= Parent(q);
      AncestorsExist(t, p, Parent(q));
    }
  }

  // ----- removing and moving subtrees -----

  function RemoveTree(t: Tree, p: Path): Tree {
    map q | q in t && !(p <= q) :: t[q]
  }

  predicate Vacant(t: Tree, p: Path) {
    forall q :: q in t ==> !(p <= q)
  }

  lemma AbsentIsVacant(t: Tree, p: Path)
    requires IsTree(t) && p !in t
    ensures Vacant(t, p)
  {
    forall q | q in t
      ensures !(p <= q)
    {
      if p <= q { AncestorsExist(t, p, q); }
    }
  }

  function MovedKeys(t: Tree, src: Path, dst: Path): set<Path> {
    (set p | p in t && !(src <= p)) + (set p | p in t && src <= p :: dst + p[|src|..])
  }

  /** The tree after the subtree at `src` was moved to `dst`. */
  function Relocate(t: Tree, src: Path, dst: Path): Tree
    requires Vacant(t, dst)
  {
    map q | q in MovedKeys(t, src, dst) :: if dst <= q then MovedNode(t, src, dst, q) else t[q]
  }

  function MovedNode(t: Tree, src: Path, dst: Path, q: Path): Node
    requires Vacant(t, dst) && q in MovedKeys(t, src, dst) && dst <= q
  {
    assert src + q[|dst|..] in t by {
      var p :| p in t && src <= p && q == dst + p[|src|..];
      assert q[|dst|..] == p[|src|..] && p == src + p[|src|..];
    }
    t[src + q[|dst|..]]
  }

  lemma RelocateMoves(t: Tree, src: Path, dst: Path, rel: Path)
    requires Vacant(t, dst)
    ensures dst + rel in Relocate(t, src, dst) <==> src + rel in t
    ensures src + rel in t ==> Relocate(t, src, dst)[dst + rel] == t[src + rel]
  {
    assert (src + rel)[|src|..] == rel && (dst + rel)[|dst|..] == rel;
    if dst + rel in Relocate(t, src, dst) {
      var p :| p in t && src <= p && dst + rel == dst + p[|src|..];
      assert rel == (dst + p[|src|..])[|dst|..];
      assert p == src + p[|src|..];
    }
    if src + rel in t {
      assert src <= src + rel;
    }
  }

  lemma RelocateKeeps(t: Tree, src: Path, dst: Path, q: Path)
    requires Vacant(t, dst) && !(dst <= q)
    ensures q in Relocate(t, src, dst) <==> q in t && !(src <= q)
    ensures q in t && !(src <= q) ==> Relocate(t, src, dst)[q] == t[q]
  {
  }

  lemma SplitPath(p: Path, q: Path)
    requires p <= q
    ensures q == p + q[|p|..]
  {
  }

  lemma RelocateKeepsTree(t: Tree, src: Path, dst: Path)
    requires IsTree(t) && src in t && dst != [] && Vacant(t, dst)
    requires IsFolder(t, Parent(dst)) && !(src <= dst)
    ensures IsTree(Relocate(t, src, dst))
  {
    var t' := Relocate(t, src, dst);
    assert !(src <= Parent(dst));
    RelocateKeeps(t, src, dst, Parent(dst));
    RelocateKeeps(t, src, dst, []);
    forall q | q in t' && q != []
      ensures IsFolder(t', Parent(q))
    {
      if !(dst <= q) {
        RelocateKeeps(t, src, dst, q);
        assert !(dst <= Parent(q)) && !(src <= Parent(q));
        RelocateKeeps(t, src, dst, Parent(q));
      } else if q != dst {
        var rel := q[|dst|..];
        SplitPath(dst, q);
        RelocateMoves(t, src, dst, rel);
        RelocateMoves(t, src, dst, Parent(rel));
        assert Parent(src + rel) == src + Parent(rel);
        assert Parent(q) == dst + Parent(rel);
      }
    }
  }

  lemma RelocateVacates(t: Tree, src: Path, dst: Path)
    requires Vacant(t, dst) && !(src <= dst) && (src in t)
    ensures Vacant(Relocate(t, src, dst), src)
  {
    forall q | q in Relocate(t, src, dst)
      ensures !(src <= q)
    {
      if dst <= q {
        NotBetween(src, dst, q);
      } else {
        RelocateKeeps(t, src, dst, q);
      }
    }
  }

  /** Two prefixes of one path are comparable. */
  lemma NotBetween(src: Path, dst: Path, q: Path)
    requires dst <= q && !(src <= dst) && !(dst <= src)
    ensures !(src <= q)
  {
    if |src| <= |dst| {
      assert |src| <= |q| ==> q[..|src|] == dst[..|src|];
    } else if |src| <= |q| {
      assert q[..|src|][..|dst|] == q[..|dst|];
    }
  }

  // ----- copying -----

  /** `rel`, below `src`, takes part in a copy: a file or folder without reserved names on its way. */
  predicate Kept(t: Tree, src: Path, rel: Path) {
    src + rel in t && !t[src + rel].Other? && Clean(rel)
  }

  function KeptRels(t: Tree, src: Path): (rels: set<Path>)
    ensures forall rel :: rel in rels <==> Kept(t, src, rel)
  {
    assert forall rel :: src + rel in t ==> (src + rel)[|src|..] == rel;
    set p | p in t && src <= p && Kept(t, src, p[|src|..]) :: p[|src|..]
  }

  /** Same content; a copied file gets a modification time of its own. */
  predicate CopyOf(n: Node, original: Node, since: nat) {
    match original
    case File(bytes, _) => n.File? && n.bytes == bytes && n.mtime >= since
    case _ => n == original
  }

  /** `after` is `before` plus a copy, at `dst`, of what `t` has at `src` for each of `rels`. */
  ghost predicate Graft(before: Tree, after: Tree, t: Tree, src: Path, dst: Path, rels: set<Path>, since: nat) {
    && (forall q :: q in after <==> q in before || (dst <= q && q[|dst|..] in rels))
    && (forall q :: q in before ==> q in after && after[q] == before[q])
    && (forall rel :: rel in rels ==>
          src + rel in t && dst + rel in after && CopyOf(after[dst + rel], t[src + rel], since))
  }

  /** The copy of a whole subtree: the result that `copy` promises. */
  ghost predicate Snapshot(before: Tree, after: Tree, src: Path, dst: Path, since: nat) {
    Graft(before, after, before, src, dst, KeptRels(before, src), since)
  }

  function Extend(c: Name, rels: set<Path>): set<Path> {
    set rel | rel in rels :: [c] + rel
  }

  /** Paths that were copied once the children in `visited` are done. */
  function KeptVia(t: Tree, src: Path, visited: set<Name>): set<Path> {
    set rel | rel in KeptRels(t, src) && (rel == [] || rel[0] in visited)
  }

  lemma VisitClean(t: Tree, src: Path, visited: set<Name>, c: Name)
    requires !Reserved(c)
    ensures KeptVia(t, src, visited + {c}) == KeptVia(t, src, visited) + Extend(c, KeptRels(t, src + [c]))
  {
    forall rel
      ensures rel in KeptVia(t, src, visited + {c})
         <==> rel in KeptVia(t, src, visited) + Extend(c, KeptRels(t, src + [c]))
    {
      if rel != [] && rel[0] == c {
        var rest := rel[1..];
        assert rel == [c] + rest;
        assert src + rel == src + [c] + rest;
        assert Clean(rel) <==> Clean(rest) by {
          if Clean(rest) {
            forall i | 0 <= i < |rel|
              ensures !Reserved(rel[i])
            {
              if i > 0 { assert rel[i] == rest[i - 1]; }
            }
          }
          if Clean(rel) {
            forall i | 0 <= i < |rest|
              ensures !Reserved(rest[i])
            {
              assert rest[i] == rel[i + 1];
            }
          }
        }
        if rel in Extend(c, KeptRels(t, src + [c])) {
          var r :| r in KeptRels(t, src + [c]) && [c] + r == rel;
          assert r == rest;
        }
      }
    }
  }

  lemma VisitReserved(t: Tree, src: Path, visited: set<Name>, c: Name)
    requires Reserved(c)
    ensures KeptVia(t, src, visited + {c}) == KeptVia(t, src, visited)
  {
    forall rel | rel in KeptVia(t, src, visited + {c})
      ensures rel in KeptVia(t, src, visited)
    {
    }
  }

  /** An entry that is neither file nor folder contributes nothing. */
  lemma OtherHasNothing(t: Tree, p: Path)
    requires IsTree(t) && p in t && t[p].Other?
    ensures KeptRels(t, p) == {}
  {
    forall rel
      ensures !Kept(t, p, rel)
    {
      if p + rel in t {
        AncestorsExist(t, p, p + rel);
        if rel == [] { assert p + rel == p; }
      }
    }
  }

  lemma FileHasItself(t: Tree, p: Path)
    requires IsTree(t) && p in t && t[p].File?
    ensures KeptRels(t, p) == {[]}
  {
    assert p + [] == p;
    forall rel
      ensures Kept(t, p, rel) <==> rel == []
    {
      if p + rel in t && rel != [] {
        AncestorsExist(t, p, p + rel);
      }
    }
  }

  lemma GraftThen(
      b: Tree, m: Tree, a: Tree, t: Tree, src: Path, dst: Path, rels: set<Path>, c: Name, more: set<Path>, since: nat)
    requires Graft(b, m, t, src, dst, rels, since)
    requires Graft(m, a, t, src + [c], dst + [c], more, since)
    ensures Graft(b, a, t, src, dst, rels + Extend(c, more), since)
  {
    forall q
      ensures q in a <==> q in b || (dst <= q && q[|dst|..] in rels + Extend(c, more))
    {
      GraftThenKeys(b, m, a, dst, rels, c, more, q);
    }
    forall rel | rel in rels + Extend(c, more)
      ensures src + rel in t && dst + rel in a && CopyOf(a[dst + rel], t[src + rel], since)
    {
      if rel in rels {
        assert dst + rel in m && a[dst + rel] == m[dst + rel];
      } else {
        GraftThenNode(a, t, src, dst, c, more, rel, since);
      }
    }
  }

  lemma GraftThenNode(a: Tree, t: Tree, src: Path, dst: Path, c: Name, more: set<Path>, rel: Path, since: nat)
    requires forall r :: r in more ==>
               src + [c] + r in t && dst + [c] + r in a && CopyOf(a[dst + [c] + r], t[src + [c] + r], since)
    requires rel in Extend(c, more)
    ensures src + rel in t && dst + rel in a && CopyOf(a[dst + rel], t[src + rel], since)
  {
    var r :| r in more && rel == [c] + r;
    assert src + rel == src + [c] + r && dst + rel == dst + [c] + r;
  }

  lemma GraftThenKeys(b: Tree, m: Tree, a: Tree, dst: Path, rels: set<Path>, c: Name, more: set<Path>, q: Path)
    requires q in m <==> q in b || (dst <= q && q[|dst|..] in rels)
    requires q in a <==> q in m || (dst + [c] <= q && q[|dst + [c]|..] in more)
    ensures q in a <==> q in b || (dst <= q && q[|dst|..] in rels + Extend(c, more))
  {
    if dst + [c] <= q {
      assert q[|dst|..] == [c] + q[|dst + [c]|..];
    }
    if dst <= q && q[|dst|..] in Extend(c, more) {
      var r :| r in more && q[|dst|..] == [c] + r;
      SplitPath(dst, q);
      assert q == dst + [c] + r;
      assert q[|dst + [c]|..] == r;
    }
  }

  lemma GraftNothing(t: Tree, any: Tree, src: Path, dst: Path, since: nat)
    ensures Graft(t, t, any, src, dst, {}, since)
  {
  }

  lemma GraftOne(b: Tree, t: Tree, src: Path, dst: Path, n: Node, since: nat)
    requires dst !in b && src in t && CopyOf(n, t[src], since)
    ensures Graft(b, b[dst := n], t, src, dst, {[]}, since)
  {
    assert src + [] == src && dst + [] == dst;
    forall q
      ensures q in b[dst := n] <==> q in b || (dst <= q && q[|dst|..] in {[]})
    {
      if dst <= q { SplitPath(dst, q); }
    }
  }

  // ----- modification times -----

  predicate HasStamp(t: Tree, v: nat) {
    exists p :: p in t && t[p].File? && t[p].mtime == v
  }

  /** All modification times are in the past, and no two files share one. */
  ghost predicate Clocked(t: Tree, now: nat) {
    && (forall p :: p in t && t[p].File? ==> t[p].mtime < now)
    && (forall p, q :: p in t && q in t && t[p].File? && t[q].File? && t[p].mtime == t[q].mtime ==> p == q)
  }

  /** Files of `t'` are files of `t`, or are not older than `since`. */
  ghost predicate NewSince(t: Tree, t': Tree, since: nat) {
    forall p :: p in t' && t'[p].File? ==> (p in t && t[p] == t'[p]) || t'[p].mtime >= since
  }

  /** A version that is gone does not come back. */
  ghost predicate NoRevival(t: Tree, t': Tree, now: nat) {
    forall p :: p in t' && t'[p].File? && t'[p].mtime < now ==> HasStamp(t, t'[p].mtime)
  }

  /** What any change of the tree is expected to do with modification times. */
  ghost predicate Honest(t: Tree, now: nat, t': Tree, now': nat) {
    now <= now' && Clocked(t', now') && NoRevival(t, t', now)
  }

  lemma ClockedFile(t: Tree, now: nat, p: Path, bytes: seq<byte>)
    requires Clocked(t, now)
    ensures Clocked(t[p := File(bytes, now)], now + 1)
  {
  }

  lemma NewSinceIsHonest(t: Tree, now: nat, t': Tree, now': nat)
    requires now <= now' && Clocked(t', now') && NewSince(t, t', now)
    ensures Honest(t, now, t', now')
  {
  }

  /** Where the node at `q` was before the subtree at `src` moved to `dst`. */
  function Origin(src: Path, dst: Path, q: Path): Path {
    if dst <= q then src + q[|dst|..] else q
  }

  lemma RelocatedFrom(t: Tree, src: Path, dst: Path, q: Path)
    requires Vacant(t, dst) && q in Relocate(t, src, dst)
    ensures Origin(src, dst, q) in t && t[Origin(src, dst, q)] == Relocate(t, src, dst)[q]
    ensures src <= Origin(src, dst, q) <==> dst <= q
  {
    if dst <= q {
      SplitPath(dst, q);
      RelocateMoves(t, src, dst, q[|dst|..]);
    } else {
      RelocateKeeps(t, src, dst, q);
    }
  }

  lemma SameOrigin(t: Tree, src: Path, dst: Path, q: Path, r: Path)
    requires Vacant(t, dst) && q in Relocate(t, src, dst) && r in Relocate(t, src, dst)
    requires Origin(src, dst, q) == Origin(src, dst, r)
    ensures q == r
  {
    RelocatedFrom(t, src, dst, q);
    RelocatedFrom(t, src, dst, r);
    if dst <= q {
      SplitPath(dst, q);
      SplitPath(dst, r);
      assert Origin(src, dst, q)[|src|..] == q[|dst|..] && Origin(src, dst, r)[|src|..] == r[|dst|..];
    }
  }

  lemma RelocateIsClocked(t: Tree, src: Path, dst: Path, now: nat)
    requires Vacant(t, dst) && Clocked(t, now)
    ensures Clocked(Relocate(t, src, dst), now) && NoRevival(t, Relocate(t, src, dst), now)
  {
    var t' := Relocate(t, src, dst);
    forall q | q in t' && t'[q].File?
      ensures t'[q].mtime < now && HasStamp(t, t'[q].mtime)
    {
      RelocatedFrom(t, src, dst, q);
    }
    forall q, r | q in t' && r in t' && t'[q].File? && t'[r].File? && t'[q].mtime == t'[r].mtime
      ensures q == r
    {
      RelocatedFrom(t, src, dst, q);
      RelocatedFrom(t, src, dst, r);
      SameOrigin(t, src, dst, q, r);
    }
  }

  // ----- the walk stays out of its own output -----

  /** `after` differs from `before` strictly below `tmp` only. */
  ghost predicate FrozenOutside(before: Tree, after: Tree, tmp: Path) {
    forall p :: !(tmp < p) ==> (p in before <==> p in after) && (p in before ==> after[p] == before[p])
  }

  function Children(t: Tree, dir: Path): (names: set<Name>)
    ensures forall n :: n in names <==> dir + [n] in t
  {
    assert forall n :: dir + [n] in t ==> |dir + [n]| == |dir| + 1 && dir <= dir + [n] && (dir + [n])[|dir|] == n;
    assert forall p: Path :: |p| == |dir| + 1 && dir <= p ==> p == dir + [p[|dir|]];
    set p | p in t && |p| == |dir| + 1 && dir <= p :: p[|dir|]
  }

  lemma PrefixOfSnoc(tmp: Path, dir: Path, c: Name)
    requires !(tmp <= dir)
    ensures tmp <= dir + [c] ==> tmp == dir + [c]
  {
    if |tmp| <= |dir| {
      assert (dir + [c])[..|tmp|] == dir[..|tmp|];
    }
  }

  /** A folder outside the temporary folder keeps its entries while the copy is written. */
  lemma WalkedFolderIsStable(before: Tree, after: Tree, tmp: Path, dir: Path)
    requires FrozenOutside(before, after, tmp) && !(tmp <= dir)
    ensures Children(after, dir) == Children(before, dir)
  {
    forall n
      ensures n in Children(after, dir) <==> n in Children(before, dir)
    {
      PrefixOfSnoc(tmp, dir, n);
    }
  }

  /** Descending from outside the temporary folder only enters it through its reserved name. */
  lemma OnlyReservedEntersTmp(tmp: Path, dir: Path, c: Name)
    requires tmp != [] && Reserved(Last(tmp)) && !(tmp <= dir) && !Reserved(c)
    ensures !(tmp <= dir + [c])
  {
    PrefixOfSnoc(tmp, dir, c);
  }

  lemma {:induction false} CleanStaysOutside(tmp: Path, dir: Path, rel: Path)
    requires tmp != [] && Reserved(Last(tmp)) && !(tmp <= dir) && Clean(rel)
    ensures !(tmp <= dir + rel)
    decreases |rel|
  {
    if rel == [] {
      assert dir + rel == dir;
    } else {
      assert Clean(rel[1..]) by {
        forall i | 0 <= i < |rel[1..]| ensures !Reserved(rel[1..][i]) { assert rel[1..][i] == rel[i + 1]; }
      }
      OnlyReservedEntersTmp(tmp, dir, rel[0]);
      CleanStaysOutside(tmp, dir + [rel[0]], rel[1..]);
      assert dir + [rel[0]] + rel[1..] == dir + rel;
    }
  }

  /** The temporary folder adds nothing to what is copied. */
  lemma TmpIsNotKept(t: Tree, tmp: Path, src: Path)
    requires tmp != [] && Reserved(Last(tmp)) && Vacant(t, tmp) && !(tmp <= src)
    ensures KeptRels(t[tmp := Folder], src) == KeptRels(t, src)
  {
    forall rel
      ensures Kept(t[tmp := Folder], src, rel) <==> Kept(t, src, rel)
    {
      if Clean(rel) { CleanStaysOutside(tmp, src, rel); }
    }
  }

  /** Putting the finished temporary folder in its place completes the snapshot. */
  lemma RenameCompletes(t: Tree, built: Tree, src: Path, tmp: Path, dst: Path, since: nat)
    requires IsTree(t) && IsTree(built) && Vacant(t, tmp) && Vacant(t, dst) && Vacant(built, dst) && !(tmp <= dst)
    requires Graft(t, built, t, src, tmp, KeptRels(t, src), since)
    ensures Snapshot(t, Relocate(built, tmp, dst), src, dst, since)
  {
    var after := Relocate(built, tmp, dst);
    var rels := KeptRels(t, src);
    forall q
      ensures q in after <==> q in t || (dst <= q && q[|dst|..] in rels)
      ensures q in t ==> q in after && after[q] == t[q]
    {
      if dst <= q {
        var rel := q[|dst|..];
        SplitPath(dst, q);
        RelocateMoves(built, tmp, dst, rel);
        assert (tmp + rel)[|tmp|..] == rel;
      } else {
        RelocateKeeps(built, tmp, dst, q);
      }
    }
    forall rel | rel in rels
      ensures src + rel in t && dst + rel in after && CopyOf(after[dst + rel], t[src + rel], since)
    {
      RelocateMoves(built, tmp, dst, rel);
    }
  }
}

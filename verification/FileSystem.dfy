/** A mutable file system: the few POSIX operations the local provider uses, and the recursive
    walk that copies a folder while it reads and writes the same tree. */
module FileSystem {
  import opened FileTree

  class FileSystem {
    var nodes: Tree
    /** The next modification time; every file that is written gets a new one. */
    var now: nat
    /** How much more the medium can take: one for each node, and one for each byte of a copied file. */
    var credit: nat

    constructor (nodes: Tree, now: nat, credit: nat)
      ensures this.nodes == nodes && this.now == now && this.credit == credit
    {
      this.nodes, this.now, this.credit := nodes, now, credit;
    }

    /** Room and place for a new node at `p`. */
    predicate CanCreate(p: Path)
      reads this
    {
      credit > 0 && p != [] && p !in nodes && IsFolder(nodes, Parent(p))
    }

    method CreateDirectory(p: Path) returns (ok: bool)
      modifies this
      ensures ok == old(CanCreate(p))
      ensures ok ==> nodes == old(nodes)[p := Folder] && now == old(now) && credit == old(credit) - 1
      ensures !ok ==> unchanged(this)
    {
      ok := CanCreate(p);
      if ok {
        nodes := nodes[p := Folder];
        credit := credit - 1;
      }
    }

    /** Creates `dst` and then writes to it; what was written stays if the medium fills up. */
    method CopyFile(src: Path, dst: Path) returns (ok: bool)
      modifies this
      ensures FileWritten(old(nodes), old(now), old(credit), src, dst, ok, nodes, now)
      ensures if CanCopy(old(nodes), old(credit), src, dst)
              then credit == old(credit) - 1 - Fitting(|old(nodes)[src].bytes|, old(credit))
              else credit == old(credit)
    {
      ok := CanCreate(dst) && src in nodes && nodes[src].File?;
      if ok {
        var bytes := nodes[src].bytes;
        var n := Fitting(|bytes|, credit);
        ok := n == |bytes|;
        nodes := nodes[dst := File(bytes[..n], now)];
        now := now + 1;
        credit := credit - 1 - n;
      }
    }

    /** Renaming onto a path that does not exist; a folder does not go into itself. */
    method Rename(src: Path, dst: Path) returns (ok: bool)
      requires Vacant(nodes, dst)
      modifies this
      ensures ok == old(src in nodes && dst != [] && IsFolder(nodes, Parent(dst)) && !(src <= dst))
      ensures ok ==> nodes == Relocate(old(nodes), src, dst) && now == old(now) && credit == old(credit)
      ensures !ok ==> unchanged(this)
    {
      ok := src in nodes && dst != [] && IsFolder(nodes, Parent(dst)) && !(src <= dst);
      if ok {
        nodes := Relocate(nodes, src, dst);
      }
    }

    /** The modification time of a write to a file that has no name yet. */
    method Tick() returns (stamp: nat)
      modifies `now
      ensures stamp == old(now) && now == old(now) + 1
    {
      stamp := now;
      now := now + 1;
    }

    /** `unlink`: removes anything but a folder; the caller ignores failure. */
    method Unlink(p: Path)
      modifies `nodes
      ensures nodes == Unlinked(old(nodes), p)
    {
      if p in nodes && !nodes[p].Folder? {
        nodes := nodes - {p};
      }
    }

    /** `linkat`: gives a nameless file a name that is free.  `fault` stands for a failing medium. */
    method Link(file: Node, p: Path, fault: bool) returns (ok: bool)
      modifies `nodes
      ensures ok == (!fault && CanLink(old(nodes), p))
      ensures nodes == if ok then old(nodes)[p := file] else old(nodes)
    {
      ok := !fault && CanLink(nodes, p);
      if ok {
        nodes := nodes[p := file];
      }
    }

    method RemoveAll(p: Path)
      modifies this
      ensures nodes == RemoveTree(old(nodes), p)
      ensures now == old(now) && credit == old(credit)
    {
      nodes := RemoveTree(nodes, p);
    }

    /** Copies `src`, an entry of a folder outside `tmp`, to `dst`, a path inside `tmp`.  `t` is the
        tree as it was when the walk started; the walk itself reads the tree as it is now. */
    method CopyRecursively(src: Path, dst: Path, ghost t: Tree, ghost tmp: Path, ghost since: nat) returns (ok: bool)
      requires IsTree(t) && Walking(t, nodes, now, tmp, since)
      requires tmp != [] && Reserved(Last(tmp)) && tmp < dst
      requires src in t && src != [] && !(tmp <= Parent(src))
      requires dst !in nodes && IsFolder(nodes, Parent(dst))
      modifies this
      ensures Walking(t, nodes, now, tmp, since)
      ensures ok && Reserved(Last(src)) ==> nodes == old(nodes)
      ensures ok && !Reserved(Last(src)) ==> Graft(old(nodes), nodes, t, src, dst, KeptRels(t, src), since)
      ensures !ok ==> credit == 0
      decreases Below(t, src)
    {
      if Reserved(Last(src)) {
        return true;
      }
      SourceIsStable(t, nodes, tmp, src);
      if nodes[src].File? {
        ok := CopyOneFile(src, dst, t, tmp, since);
      } else if nodes[src].Folder? {
        ghost var before := nodes;
        ok := CreateDirectory(dst);
        if ok {
          GraftOne(before, t, src, dst, Folder, since);
          WalkCreates(t, before, now, tmp, since, dst);
          ok := CopyEntries(src, dst, t, tmp, since, before);
        }
      } else {
        OtherHasNothing(t, src);
        GraftNothing(nodes, t, src, dst, since);
        ok := true;
      }
    }

    method CopyOneFile(src: Path, dst: Path, ghost t: Tree, ghost tmp: Path, ghost since: nat) returns (ok: bool)
      requires IsTree(t) && Walking(t, nodes, now, tmp, since)
      requires src in t && src in nodes && nodes[src] == t[src] && t[src].File?
      requires dst != [] && tmp < dst && dst !in nodes && IsFolder(nodes, Parent(dst))
      modifies this
      ensures Walking(t, nodes, now, tmp, since)
      ensures ok ==> Graft(old(nodes), nodes, t, src, dst, KeptRels(t, src), since)
      ensures !ok ==> credit == 0
    {
      ghost var before, bytes, start, room := nodes, nodes[src].bytes, now, credit;
      FileHasItself(t, src);
      ok := CopyFile(src, dst);
      if room > 0 {
        WalkWrites(t, before, start, tmp, since, dst, bytes[..Fitting(|bytes|, room)]);
      }
      if ok {
        assert bytes[..|bytes|] == bytes;
        GraftOne(before, t, src, dst, File(bytes, start), since);
      }
    }

    /** The loop over the entries of `src`; each turn looks at the folder as it is at that time. */
    method CopyEntries(src: Path, dst: Path, ghost t: Tree, ghost tmp: Path, ghost since: nat, ghost before: Tree)
      returns (ok: bool)
      requires IsTree(t) && IsTree(before) && Walking(t, nodes, now, tmp, since)
      requires tmp != [] && Reserved(Last(tmp)) && tmp <= dst
      requires IsFolder(t, src) && !(tmp <= src)
      requires dst !in before && Graft(before, nodes, t, src, dst, {[]}, since) && IsFolder(nodes, dst)
      modifies this
      ensures Walking(t, nodes, now, tmp, since)
      ensures ok ==> Graft(before, nodes, t, src, dst, KeptRels(t, src), since)
      ensures !ok ==> credit == 0
      decreases Below(t, src), 0
    {
      WalkedFolderIsStable(t, nodes, tmp, src);
      NothingVisited(t, src);
      var visited: set<Name> := {};
      while visited != Children(nodes, src)
        invariant Walking(t, nodes, now, tmp, since)
        invariant Copying(before, nodes, t, src, dst, visited, since)
        invariant Children(nodes, src) == Children(t, src) && visited <= Children(t, src)
        decreases Children(t, src) - visited
      {
        var c :| c in Children(nodes, src) && c !in visited;
        ghost var m := nodes;
        UnvisitedIsAbsent(before, m, t, src, dst, visited, c, since);
        ChildIsSmaller(t, src, c);
        ok := CopyRecursively(src + [c], dst + [c], t, tmp, since);
        if !ok {
          return;
        }
        CopyingGoesOn(before, m, nodes, t, src, dst, visited, c, since);
        visited := visited + {c};
        WalkedFolderIsStable(t, nodes, tmp, src);
      }
      AllVisited(t, src);
      ok := true;
    }

    /** Fills a new temporary folder with a copy of what is in `src`; stops when the medium is full. */
    method CopyInto(src: Path, tmp: Path) returns (ok: bool)
      requires IsTree(nodes) && Clocked(nodes, now) && IsFolder(nodes, src)
      requires tmp != [] && Reserved(Last(tmp)) && tmp !in nodes
      modifies this
      ensures IsTree(nodes) && OnlyAt(old(nodes), nodes, tmp)
      ensures now >= old(now) && Clocked(nodes, now) && NewSince(old(nodes), nodes, old(now))
      ensures ok ==> Graft(old(nodes), nodes, old(nodes), src, tmp, KeptRels(old(nodes), src), old(now))
      ensures !IsFolder(old(nodes), Parent(tmp)) ==> !ok && nodes == old(nodes)
      ensures !ok && IsFolder(old(nodes), Parent(tmp)) ==> credit == 0
    {
      ghost var before, since := nodes, now;
      AbsentIsVacant(before, tmp);
      ok := CreateDirectory(tmp);
      if !ok {
        return;
      }
      ghost var t := nodes;
      NewLeafKeepsTree(before, tmp, Folder);
      GraftOne(before, t, src, tmp, Folder, since);
      ok := CopyEntries(src, tmp, t, tmp, since, before);
      if ok {
        TmpIsNotKept(before, tmp, src);
        GraftOriginal(before, t, nodes, src, tmp, since);
      }
    }
  }

  /** How many of a new file's bytes a medium with room for `room` takes. */
  function Fitting(size: nat, room: nat): nat
    requires room > 0
  {
    if size < room then size else room - 1
  }

  predicate CanCopy(t: Tree, room: nat, src: Path, dst: Path) {
    room > 0 && dst != [] && dst !in t && IsFolder(t, Parent(dst)) && src in t && t[src].File?
  }

  /** What copying a file makes of the tree `t`: all of the file, the beginning that fits, or nothing. */
  ghost predicate FileWritten(
      t: Tree, now: nat, room: nat, src: Path, dst: Path, ok: bool, t': Tree, now': nat)
  {
    if CanCopy(t, room, src, dst) then
      var bytes := t[src].bytes;
      ok == (|bytes| < room) && t' == t[dst := File(bytes[..Fitting(|bytes|, room)], now)] && now' == now + 1
    else !ok && t' == t && now' == now
  }

  function Unlinked(t: Tree, p: Path): Tree {
    if p in t && !t[p].Folder? then t - {p} else t
  }

  predicate CanLink(t: Tree, p: Path) {
    p !in t && p != [] && IsFolder(t, Parent(p))
  }

  /** `after` is `before`, but for the folder `tmp` and what is in it. */
  ghost predicate OnlyAt(before: Tree, after: Tree, tmp: Path) {
    forall p :: !(tmp <= p) ==> (p in after <==> p in before) && (p in before ==> after[p] == before[p])
  }

  /** During a walk the tree is as it was outside `tmp`, and all that was written is new. */
  ghost predicate Walking(t: Tree, m: Tree, now: nat, tmp: Path, since: nat) {
    IsTree(m) && FrozenOutside(t, m, tmp) && since <= now && Clocked(m, now) && NewSince(t, m, since)
  }

  lemma WalkCreates(t: Tree, m: Tree, now: nat, tmp: Path, since: nat, p: Path)
    requires Walking(t, m, now, tmp, since)
    requires p != [] && tmp < p && p !in m && IsFolder(m, Parent(p))
    ensures Walking(t, m[p := Folder], now, tmp, since)
  {
    NewLeafKeepsTree(m, p, Folder);
  }

  lemma WalkWrites(t: Tree, m: Tree, now: nat, tmp: Path, since: nat, p: Path, bytes: seq<byte>)
    requires Walking(t, m, now, tmp, since)
    requires p != [] && tmp < p && p !in m && IsFolder(m, Parent(p))
    ensures Walking(t, m[p := File(bytes, now)], now + 1, tmp, since)
  {
    NewLeafKeepsTree(m, p, File(bytes, now));
    ClockedFile(m, now, p, bytes);
  }

  /** The walk finds its sources as they were. */
  lemma SourceIsStable(t: Tree, m: Tree, tmp: Path, src: Path)
    requires FrozenOutside(t, m, tmp) && tmp != [] && Reserved(Last(tmp))
    requires src in t && src != [] && !(tmp <= Parent(src)) && !Reserved(Last(src))
    ensures !(tmp <= src) && src in m && m[src] == t[src]
  {
    assert src == Parent(src) + [Last(src)];
    OnlyReservedEntersTmp(tmp, Parent(src), Last(src));
  }

  /** The state of the loop over the entries of `src`: `visited` are copied. */
  ghost predicate Copying(before: Tree, m: Tree, t: Tree, src: Path, dst: Path, visited: set<Name>, since: nat) {
    IsFolder(m, dst) && Graft(before, m, t, src, dst, KeptVia(t, src, visited), since)
  }

  lemma CopyingGoesOn(
      before: Tree, m: Tree, m': Tree, t: Tree, src: Path, dst: Path, visited: set<Name>, c: Name, since: nat)
    requires Copying(before, m, t, src, dst, visited, since)
    requires if Reserved(c) then m' == m else Graft(m, m', t, src + [c], dst + [c], KeptRels(t, src + [c]), since)
    ensures Copying(before, m', t, src, dst, visited + {c}, since)
  {
    if Reserved(c) {
      VisitReserved(t, src, visited, c);
    } else {
      VisitClean(t, src, visited, c);
      GraftThen(before, m, m', t, src, dst, KeptVia(t, src, visited), c, KeptRels(t, src + [c]), since);
    }
  }

  /** Reading the source with or without the temporary folder in the tree makes no difference. */
  lemma GraftOriginal(before: Tree, t: Tree, built: Tree, src: Path, tmp: Path, since: nat)
    requires tmp !in before && t == before[tmp := Folder] && KeptRels(t, src) == KeptRels(before, src)
    requires Graft(before, built, t, src, tmp, KeptRels(t, src), since)
    ensures Graft(before, built, before, src, tmp, KeptRels(before, src), since)
  {
    forall rel | rel in KeptRels(before, src)
      ensures t[src + rel] == before[src + rel]
    {
    }
  }

  ghost function Below(t: Tree, p: Path): set<Path> {
    set q | q in t && p <= q
  }

  lemma ChildIsSmaller(t: Tree, src: Path, c: Name)
    requires src in t
    ensures Below(t, src + [c]) < Below(t, src)
  {
    assert src in Below(t, src) && src !in Below(t, src + [c]);
    forall q | q in Below(t, src + [c])
      ensures q in Below(t, src)
    {
      assert q[..|src|] == (src + [c])[..|src|];
    }
  }

  lemma NewLeafKeepsTree(t: Tree, p: Path, n: Node)
    requires IsTree(t) && p != [] && p !in t && IsFolder(t, Parent(p))
    ensures IsTree(t[p := n])
  {
  }

  lemma NothingVisited(t: Tree, src: Path)
    requires IsFolder(t, src)
    ensures KeptVia(t, src, {}) == {[]}
  {
    assert src + [] == src;
  }

  lemma FirstStepIsChild(t: Tree, src: Path, rel: Path)
    requires IsTree(t) && src + rel in t && rel != []
    ensures rel[0] in Children(t, src)
  {
    assert src + rel == src + [rel[0]] + rel[1..];
    AncestorsExist(t, src + [rel[0]], src + rel);
  }

  lemma AllVisited(t: Tree, src: Path)
    requires IsTree(t)
    ensures KeptVia(t, src, Children(t, src)) == KeptRels(t, src)
  {
    forall rel
      ensures rel in KeptVia(t, src, Children(t, src)) <==> rel in KeptRels(t, src)
    {
      if rel in KeptRels(t, src) && rel != [] {
        FirstStepIsChild(t, src, rel);
      }
    }
  }

  lemma UnvisitedIsAbsent(before: Tree, m: Tree, t: Tree, src: Path, dst: Path, visited: set<Name>, c: Name, since: nat)
    requires IsTree(before) && dst !in before && c !in visited
    requires Copying(before, m, t, src, dst, visited, since)
    ensures dst + [c] !in m
    ensures Parent(src + [c]) == src && Last(src + [c]) == c && Parent(dst + [c]) == dst
  {
    AbsentIsVacant(before, dst);
    assert (dst + [c])[|dst|..] == [c];
  }
}

/** The local provider: requests with item ids, served on a mutable file system.

    `copy` promises a snapshot of the source even though it writes into the tree it walks, and no
    request reaches anything that is not strictly below the root. */
module LocalProvider {
  import opened FileTree
  import opened FileSystem
  import opened ItemIds

  /** What one request did to the tree. */
  datatype Change =
    | NewFolder(p: Path)
    | Removed(p: Path)
    | Moved(src: Path, dst: Path)
    | CopiedFile(src: Path, dst: Path)
    | Truncated(src: Path, dst: Path, size: nat)
    | CopiedFolder(src: Path, dst: Path)
    | Litter(tmp: Path)
    | Committed(p: Path, file: Node)

  /** `c`, at or below `root`, leads from `t` to `t'`; files written by it are not older than `since`. */
  ghost predicate Applies(root: Path, t: Tree, t': Tree, since: nat, c: Change) {
    match c
    case NewFolder(p) => root < p && p !in t && IsFolder(t, Parent(p)) && t' == t[p := Folder]
    case Removed(p) => root < p && p in t && t' == RemoveTree(t, p)
    case Moved(src, dst) =>
      && root < src && root < dst && src in t && Vacant(t, dst) && IsFolder(t, Parent(dst)) && !(src <= dst)
      && t' == Relocate(t, src, dst)
    case CopiedFile(src, dst) =>
      && root < src && root < dst && src in t && t[src].File? && dst !in t && IsFolder(t, Parent(dst))
      && t' == t[dst := File(t[src].bytes, since)]
    case Truncated(src, dst, size) =>
      && root < src && root < dst && src in t && t[src].File? && dst !in t && IsFolder(t, Parent(dst))
      && size < |t[src].bytes| && t' == t[dst := File(t[src].bytes[..size], since)]
    case CopiedFolder(src, dst) =>
      && root <= src && root < dst && IsFolder(t, src) && Vacant(t, dst) && IsFolder(t, Parent(dst))
      && Snapshot(t, t', src, dst, since)
    case Litter(tmp) =>
      root < tmp && Reserved(Last(tmp)) && tmp !in t && IsTree(t') && OnlyAt(t, t', tmp)
    case Committed(p, file) =>
      root < p && file.File? && (p in t ==> !t[p].Folder?) && IsFolder(t, Parent(p)) && t' == t[p := file]
  }

  /** The root is a folder in a tree whose clock makes sense. */
  ghost predicate Sane(root: Path, t: Tree, now: nat) {
    IsTree(t) && IsFolder(t, root) && Clocked(t, now)
  }

  /** Nothing changed but strictly below `root`. */
  ghost predicate Contained(root: Path, t: Tree, t': Tree) {
    forall p :: !(root < p) ==> (p in t' <==> p in t) && (p in t ==> t'[p] == t[p])
  }

  lemma Below(root: Path, p: Path, q: Path)
    requires root < p && p <= q
    ensures root < q
  {
    assert q[..|root|] == p[..|root|];
  }

  lemma NotAncestor(p: Path, q: Path)
    requires q != [] && !(p <= q)
    ensures !(p <= Parent(q))
  {
    assert |p| < |q| ==> q[..|p|] == Parent(q)[..|p|];
  }

  lemma {:induction false} CleanParent(rel: Path)
    requires rel != [] && Clean(rel)
    ensures Clean(Parent(rel))
  {
  }

  lemma SnapshotParent(t: Tree, t': Tree, src: Path, dst: Path, since: nat, q: Path)
    requires dst != [] && IsFolder(t, Parent(dst)) && Snapshot(t, t', src, dst, since)
    requires q in t' && q != [] && (q in t ==> IsFolder(t, Parent(q)))
    requires forall rel :: Kept(t, src, rel) && rel != [] ==> IsFolder(t, Parent(src + rel))
    ensures IsFolder(t', Parent(q))
  {
    if q !in t && q != dst {
      var rel := q[|dst|..];
      SplitPath(dst, q);
      assert Kept(t, src, rel);
      CleanParent(rel);
      assert Parent(src + rel) == src + Parent(rel);
      assert Kept(t, src, Parent(rel));
      assert Parent(q) == dst + Parent(rel);
    }
  }

  lemma SnapshotIsTree(t: Tree, t': Tree, src: Path, dst: Path, since: nat)
    requires IsTree(t) && IsFolder(t, src) && dst != [] && IsFolder(t, Parent(dst)) && Snapshot(t, t', src, dst, since)
    ensures IsTree(t')
  {
    forall q | q in t' && q != []
      ensures IsFolder(t', Parent(q))
    {
      SnapshotParent(t, t', src, dst, since, q);
    }
  }

  lemma RemoveIsTree(t: Tree, p: Path)
    requires IsTree(t) && p != []
    ensures IsTree(RemoveTree(t, p))
  {
    forall q | q in RemoveTree(t, p) && q != []
      ensures !(p <= Parent(q))
    {
      NotAncestor(p, q);
    }
  }

  lemma LeafKeepsTree(t: Tree, p: Path, n: Node)
    requires IsTree(t) && p != [] && IsFolder(t, Parent(p)) && (p in t ==> !t[p].Folder?)
    ensures IsTree(t[p := n])
  {
  }

  lemma ChangeKeepsTree(root: Path, t: Tree, t': Tree, since: nat, c: Change)
    requires IsTree(t) && Applies(root, t, t', since, c)
    ensures IsTree(t')
  {
    match c
    case NewFolder(p) => LeafKeepsTree(t, p, Folder);
    case Removed(p) => RemoveIsTree(t, p);
    case Moved(src, dst) => RelocateKeepsTree(t, src, dst);
    case CopiedFile(_, dst) => LeafKeepsTree(t, dst, t'[dst]);
    case Truncated(_, dst, _) => LeafKeepsTree(t, dst, t'[dst]);
    case CopiedFolder(src, dst) => SnapshotIsTree(t, t', src, dst, since);
    case Litter(_) =>
    case Committed(p, file) => LeafKeepsTree(t, p, file);
  }

  /** One request stays below the root. */
  lemma ChangeIsContained(root: Path, t: Tree, t': Tree, since: nat, c: Change)
    requires Applies(root, t, t', since, c)
    ensures Contained(root, t, t')
  {
    forall p | !(root < p)
      ensures (p in t' <==> p in t) && (p in t ==> t'[p] == t[p])
    {
      match c
      case Removed(q) => if q <= p { Below(root, q, p); }
      case Moved(src, dst) =>
        if src <= p { Below(root, src, p); }
        if dst <= p { Below(root, dst, p); }
        RelocateKeeps(t, src, dst, p);
      case CopiedFolder(_, dst) => if dst <= p { Below(root, dst, p); }
      case Litter(tmp) => if tmp <= p { Below(root, tmp, p); }
      case _ =>
    }
  }

  /** A move takes the item and all below it to the target, and changes nothing else. */
  lemma MovesExactly(root: Path, t: Tree, t': Tree, since: nat, src: Path, dst: Path)
    requires Applies(root, t, t', since, Moved(src, dst))
    ensures forall rel :: dst + rel in t' <==> src + rel in t
    ensures forall rel :: src + rel in t ==> t'[dst + rel] == t[src + rel]
    ensures forall q :: !(src <= q) && !(dst <= q) ==> (q in t' <==> q in t) && (q in t ==> t'[q] == t[q])
    ensures Vacant(t', src)
  {
    forall rel
      ensures dst + rel in t' <==> src + rel in t
      ensures src + rel in t ==> t'[dst + rel] == t[src + rel]
    {
      RelocateMoves(t, src, dst, rel);
    }
    forall q | !(src <= q) && !(dst <= q)
      ensures (q in t' <==> q in t) && (q in t ==> t'[q] == t[q])
    {
      RelocateKeeps(t, src, dst, q);
    }
    RelocateVacates(t, src, dst);
  }

  /** Deleting takes away the item and all below it, and changes nothing else. */
  lemma RemovesExactly(root: Path, t: Tree, t': Tree, since: nat, p: Path)
    requires Applies(root, t, t', since, Removed(p))
    ensures forall q :: q in t' <==> q in t && !(p <= q)
    ensures forall q :: q in t' ==> t'[q] == t[q]
  {
  }

  /** What a client is shown of a folder: files and folders without reserved names. */
  function Visible(t: Tree, dir: Path): set<Name> {
    set n | n in Children(t, dir) && !Reserved(n) && !t[dir + [n]].Other?
  }

  lemma CleanSnoc(rel: Path, n: Name)
    requires Clean(rel)
    ensures Clean(rel + [n]) <==> !Reserved(n)
  {
    assert (rel + [n])[|rel|] == n;
  }

  lemma VisibleIsKept(t: Tree, src: Path, rel: Path, n: Name)
    requires Clean(rel)
    ensures n in Visible(t, src + rel) <==> Kept(t, src, rel + [n])
  {
    CleanSnoc(rel, n);
    assert src + rel + [n] == src + (rel + [n]);
  }

  /** Listing the copy, at any depth, shows what listing the source showed before. */
  lemma CopyListsLikeSource(t: Tree, t': Tree, src: Path, dst: Path, since: nat, rel: Path)
    requires Vacant(t, dst) && Snapshot(t, t', src, dst, since)
    requires Kept(t, src, rel) && IsFolder(t, src + rel)
    ensures IsFolder(t', dst + rel) && Visible(t', dst + rel) == Visible(t, src + rel)
  {
    assert rel in KeptRels(t, src);
    forall n
      ensures n in Visible(t', dst + rel) <==> n in Visible(t, src + rel)
    {
      VisibleIsKept(t', dst, rel, n);
      VisibleIsKept(t, src, rel, n);
      CopiedIsKept(t, t', src, dst, since, rel + [n]);
    }
  }

  /** Reading a file of the copy, at any depth, gives what reading it in the source gave before. */
  lemma CopyReadsLikeSource(t: Tree, t': Tree, src: Path, dst: Path, since: nat, rel: Path)
    requires Vacant(t, dst) && Snapshot(t, t', src, dst, since)
    requires Kept(t, src, rel) && t[src + rel].File?
    ensures dst + rel in t' && t'[dst + rel].File? && t'[dst + rel].bytes == t[src + rel].bytes
  {
    assert rel in KeptRels(t, src);
  }

  lemma CopiedIsKept(t: Tree, t': Tree, src: Path, dst: Path, since: nat, rel: Path)
    requires Vacant(t, dst) && Snapshot(t, t', src, dst, since)
    ensures Kept(t', dst, rel) <==> Kept(t, src, rel)
  {
    assert (dst + rel)[|dst|..] == rel;
    assert rel in KeptRels(t, src) <==> Kept(t, src, rel);
  }

  /** The random name of a temporary folder. */
  function TmpName(suffix: string): (n: Name)
    ensures Reserved(n)
  {
    Name(TMPFILE_PREFIX + "-" + suffix)
  }

  // ----- what each request keeps -----

  lemma FolderKeepsSane(root: Path, t: Tree, now: nat, p: Path)
    requires Sane(root, t, now) && p != [] && p !in t && IsFolder(t, Parent(p))
    ensures Sane(root, t[p := Folder], now) && Honest(t, now, t[p := Folder], now)
  {
    NewLeafKeepsTree(t, p, Folder);
    NewSinceIsHonest(t, now, t[p := Folder], now);
  }

  lemma FileKeepsSane(root: Path, t: Tree, now: nat, p: Path, bytes: seq<byte>)
    requires Sane(root, t, now) && p != [] && p !in t && IsFolder(t, Parent(p))
    ensures Sane(root, t[p := File(bytes, now)], now + 1) && Honest(t, now, t[p := File(bytes, now)], now + 1)
  {
    NewLeafKeepsTree(t, p, File(bytes, now));
    ClockedFile(t, now, p, bytes);
    NewSinceIsHonest(t, now, t[p := File(bytes, now)], now + 1);
  }

  lemma RemoveKeepsSane(root: Path, t: Tree, now: nat, p: Path)
    requires Sane(root, t, now) && root < p
    ensures Sane(root, RemoveTree(t, p), now) && Honest(t, now, RemoveTree(t, p), now)
  {
    RemoveIsTree(t, p);
    NewSinceIsHonest(t, now, RemoveTree(t, p), now);
  }

  lemma MoveKeepsSane(root: Path, t: Tree, now: nat, src: Path, dst: Path)
    requires Sane(root, t, now) && root < src && src in t && root < dst && dst !in t
    ensures Vacant(t, dst)
    ensures IsFolder(t, Parent(dst)) && !(src <= dst) ==>
              && Sane(root, Relocate(t, src, dst), now) && Honest(t, now, Relocate(t, src, dst), now)
  {
    AbsentIsVacant(t, dst);
    if IsFolder(t, Parent(dst)) && !(src <= dst) {
      RelocateKeepsTree(t, src, dst);
      RelocateKeeps(t, src, dst, root);
      RelocateIsClocked(t, src, dst, now);
    }
  }

  /** The path for an item called `name` in the folder `parentId`. */
  function TargetIn(t: Tree, cwd: Path, root: Path, parentId: string, name: string): (r: Result<Path>)
    ensures r.Ok? ==> r.value != []
  {
    match CheckId(t, cwd, root, parentId)
    case Err(e) => Err(e)
    case Ok(parent) =>
      match Sanitize(name)
      case Err(e) => Err(e)
      case Ok(n) => Ok(parent + [n])
  }

  // ----- requests -----

  class LocalProvider {
    const root: Path
    const cwd: Path
    const fs: FileSystem

    constructor (root: Path, cwd: Path, fs: FileSystem)
      ensures this.root == root && this.cwd == cwd && this.fs == fs
    {
      this.root, this.cwd, this.fs := root, cwd, fs;
    }

    ghost predicate Ready()
      reads this, fs
    {
      ProperPath(root) && Sane(root, fs.nodes, fs.now)
    }

    function Item(id: string): Result<Path>
      reads this, fs
    {
      CheckId(fs.nodes, cwd, root, id)
    }

    /** Where an item called `name` goes in the folder `parentId`. */
    function Target(parentId: string, name: string): Result<Path>
      reads this, fs
    {
      TargetIn(fs.nodes, cwd, root, parentId, name)
    }

    /** Why a free target could not be created. */
    function CreationError(target: Path): Error
      requires target != []
      reads this, fs
    {
      if IsFolder(fs.nodes, Parent(target)) then Quota else Resource
    }

    lemma ItemIsBelowRoot(id: string)
      requires Ready()
      ensures Item(id).Ok? ==> Item(id).value in fs.nodes && root <= Item(id).value && Render(Item(id).value) == id
    {
      if Item(id).Ok? {
        ValidIdsAreBelowRoot(fs.nodes, cwd, root, id, Item(id).value);
      }
    }

    lemma TargetIsBelowRoot(parentId: string, name: string)
      requires Ready()
      ensures Target(parentId, name).Ok? <==>
                Item(parentId).Ok? && Proper(Name(name)) && !(TMPFILE_PREFIX <= name)
      ensures Target(parentId, name).Ok? ==> Target(parentId, name).value == Item(parentId).value + [Name(name)]
      ensures Target(parentId, name).Ok? ==>
                var target := Target(parentId, name).value;
                && root < target && !Reserved(Last(target))
                && Parent(target) == Item(parentId).value && Parent(target) in fs.nodes
    {
      ItemIsBelowRoot(parentId);
    }

    /** The entries of a folder in directory order, whatever that is, without what is hidden. */
    method List(id: string) returns (r: Result<seq<Name>>)
      requires Ready()
      ensures Item(id).Err? ==> r == Err(Item(id).error)
      ensures Item(id).Ok? && !IsFolder(fs.nodes, Item(id).value) ==> r == Err(NotAFolder)
      ensures Item(id).Ok? && IsFolder(fs.nodes, Item(id).value) ==>
                && r.Ok?
                && (forall i, j :: 0 <= i < j < |r.value| ==> r.value[i] != r.value[j])
                && (forall n :: n in r.value <==> n in Visible(fs.nodes, Item(id).value))
    {
      var item := Item(id);
      if item.Err? {
        return Err(item.error);
      }
      if !IsFolder(fs.nodes, item.value) {
        return Err(NotAFolder);
      }
      var items: seq<Name> := [];
      var rest := Children(fs.nodes, item.value);
      while rest != {}
        invariant rest <= Children(fs.nodes, item.value)
        invariant forall i, j :: 0 <= i < j < |items| ==> items[i] != items[j]
        invariant forall n :: n in items <==> n in Visible(fs.nodes, item.value) - rest
        decreases rest
      {
        var n :| n in rest;
        assert n !in items;
        rest := rest - {n};
        if Reserved(n) {
          continue;
        }
        if !fs.nodes[item.value + [n]].Other? {
          items := items + [n];
        }
      }
      r := Ok(items);
    }

    method CreateFolder(parentId: string, name: string) returns (r: Result<Path>)
      requires Ready()
      modifies fs
      ensures Ready() && Honest(old(fs.nodes), old(fs.now), fs.nodes, fs.now)
      ensures r.Ok? ==> r == old(Target(parentId, name))
      ensures r.Ok? ==> Applies(root, old(fs.nodes), fs.nodes, old(fs.now), NewFolder(r.value))
      ensures r.Err? ==> unchanged(fs)
      ensures old(Target(parentId, name)).Err? ==> r == old(Target(parentId, name))
      ensures old(Target(parentId, name)).Ok? ==>
                var target := old(Target(parentId, name)).value;
                && (r.Ok? <==> old(fs.CanCreate(target)))
                && (r == Err(Exists) <==> target in old(fs.nodes))
                && (r == Err(Resource) <==> target !in old(fs.nodes) && !IsFolder(old(fs.nodes), Parent(target)))
                && (r == Err(Quota) <==>
                      target !in old(fs.nodes) && IsFolder(old(fs.nodes), Parent(target)) && old(fs.credit) == 0)
    {
      r := Target(parentId, name);
      if r.Err? {
        return;
      }
      TargetIsBelowRoot(parentId, name);
      var target := r.value;
      if target in fs.nodes {
        return Err(Exists);
      }
      var ok := fs.CreateDirectory(target);
      if !ok {
        return Err(CreationError(target));
      }
      FolderKeepsSane(root, old(fs.nodes), fs.now, target);
    }

    method DeleteItem(id: string) returns (r: Result<Path>)
      requires Ready()
      modifies fs
      ensures Ready() && Honest(old(fs.nodes), old(fs.now), fs.nodes, fs.now)
      ensures r.Ok? ==> Applies(root, old(fs.nodes), fs.nodes, old(fs.now), Removed(r.value))
      ensures r.Err? ==> unchanged(fs)
      ensures r == if old(Item(id)) == Ok(root) then Err(Permission) else old(Item(id))
    {
      r := Item(id);
      if r.Err? {
        return;
      }
      ItemIsBelowRoot(id);
      if r.value == root {
        return Err(Permission);
      }
      RemoveKeepsSane(root, fs.nodes, fs.now, r.value);
      fs.RemoveAll(r.value);
    }

    /** Renaming an item below the root to a free place below the root. */
    method Relocated(item: Path, target: Path) returns (ok: bool)
      requires Ready() && root < item && item in fs.nodes
      requires root < target && target !in fs.nodes
      modifies fs
      ensures Ready() && Honest(old(fs.nodes), old(fs.now), fs.nodes, fs.now)
      ensures ok == (IsFolder(old(fs.nodes), Parent(target)) && !(item <= target))
      ensures ok ==> Applies(root, old(fs.nodes), fs.nodes, old(fs.now), Moved(item, target)) && Vacant(fs.nodes, item)
      ensures !ok ==> unchanged(fs)
    {
      MoveKeepsSane(root, fs.nodes, fs.now, item, target);
      ghost var before := fs.nodes;
      ok := fs.Rename(item, target);
      if ok {
        RelocateVacates(before, item, target);
      }
    }

    method Move(id: string, newParentId: string, newName: string) returns (r: Result<Path>)
      requires Ready()
      modifies fs
      ensures Ready() && Honest(old(fs.nodes), old(fs.now), fs.nodes, fs.now)
      ensures r.Ok? ==> old(Item(id).Ok?) && r == old(Target(newParentId, newName))
      ensures r.Ok? ==> Applies(root, old(fs.nodes), fs.nodes, old(fs.now), Moved(old(Item(id)).value, r.value))
      ensures r.Ok? ==> Vacant(fs.nodes, old(Item(id)).value)
      ensures r.Err? ==> unchanged(fs)
      ensures old(Item(id)).Err? ==> r == old(Item(id))
      ensures old(Item(id)).Ok? && old(Target(newParentId, newName)).Err? ==> r == old(Target(newParentId, newName))
      ensures old(Item(id)).Ok? && old(Target(newParentId, newName)).Ok? ==>
                var item, target := old(Item(id)).value, old(Target(newParentId, newName)).value;
                r == if target in old(fs.nodes) then Err(Exists)
                     else if item == root then Err(Permission)
                     else if !IsFolder(old(fs.nodes), Parent(target)) || item <= target then Err(Resource)
                     else Ok(target)
    {
      var item := Item(id);
      if item.Err? {
        return item;
      }
      r := Target(newParentId, newName);
      if r.Err? {
        return;
      }
      ItemIsBelowRoot(id);
      TargetIsBelowRoot(newParentId, newName);
      var target := r.value;
      if target in fs.nodes {
        return Err(Exists);
      }
      if item.value == root {
        return Err(Permission);
      }
      var ok := Relocated(item.value, target);
      if !ok {
        return Err(Resource);
      }
    }

    /** The folder branch of `copy`: fill a temporary folder, then rename it. */
    method CopyFolder(src: Path, target: Path, tmp: Path) returns (ok: bool)
      requires Ready() && root <= src && IsFolder(fs.nodes, src)
      requires root < target && !Reserved(Last(target)) && target !in fs.nodes
      requires root < tmp && Reserved(Last(tmp)) && tmp !in fs.nodes && Parent(tmp) == Parent(target)
      modifies fs
      ensures Ready() && Honest(old(fs.nodes), old(fs.now), fs.nodes, fs.now)
      ensures ok ==> Applies(root, old(fs.nodes), fs.nodes, old(fs.now), CopiedFolder(src, target))
      ensures !ok ==> Applies(root, old(fs.nodes), fs.nodes, old(fs.now), Litter(tmp))
      ensures !ok && IsFolder(old(fs.nodes), Parent(target)) ==> fs.credit == 0
      ensures !IsFolder(old(fs.nodes), Parent(target)) ==> !ok && fs.nodes == old(fs.nodes)
    {
      ghost var t, since := fs.nodes, fs.now;
      ok := fs.CopyInto(src, tmp);
      NewSinceIsHonest(t, since, fs.nodes, fs.now);
      RootStaysFolder(root, t, fs.nodes, tmp);
      if ok {
        FinishCopy(root, t, fs.nodes, src, tmp, target, since, fs.now);
        ok := fs.Rename(tmp, target);
      }
    }

    /** Copying one file to a free place below the root. */
    method CopyOneFile(src: Path, target: Path) returns (r: Result<Path>)
      requires Ready() && root < src && src in fs.nodes && !IsFolder(fs.nodes, src)
      requires root < target && target !in fs.nodes
      modifies fs
      ensures Ready() && Honest(old(fs.nodes), old(fs.now), fs.nodes, fs.now)
      ensures FileCopied(root, old(fs.nodes), fs.nodes, old(fs.now), old(fs.credit), src, target, r)
    {
      ghost var t, since, room := fs.nodes, fs.now, fs.credit;
      r := Err(if fs.nodes[src].File? then CreationError(target) else Resource);
      var ok := fs.CopyFile(src, target);
      WrittenIsCopied(root, t, since, room, src, target, ok, fs.nodes, fs.now);
      if ok {
        r := Ok(target);
      }
    }

    /** The part of `copy` that follows the checks of its arguments. */
    method CopyItem(item: Path, target: Path, suffix: string) returns (r: Result<Path>)
      requires Ready() && root <= item && item in fs.nodes
      requires root < target && !Reserved(Last(target)) && Temporary(target, suffix) !in fs.nodes
      modifies fs
      ensures Ready() && Honest(old(fs.nodes), old(fs.now), fs.nodes, fs.now)
      ensures Copied(root, old(fs.nodes), fs.nodes, old(fs.now), old(fs.credit), fs.credit, item, target, suffix, r)
    {
      if target in fs.nodes {
        return Err(Exists);
      }
      if IsFolder(fs.nodes, item) {
        TemporaryIsBelowRoot(target, suffix);
        r := Err(CreationError(target));
        var ok := CopyFolder(item, target, Temporary(target, suffix));
        if ok {
          r := Ok(target);
        }
      } else {
        assert item != root && root < item;
        r := CopyOneFile(item, target);
      }
    }

    /** `suffix` is the random part of the temporary folder's name. */
    method Copy(id: string, newParentId: string, newName: string, suffix: string) returns (r: Result<Path>)
      requires Ready()
      requires Target(newParentId, newName).Ok? ==>
                 Temporary(Target(newParentId, newName).value, suffix) !in fs.nodes
      modifies fs
      ensures Ready() && Honest(old(fs.nodes), old(fs.now), fs.nodes, fs.now)
      ensures old(Item(id)).Err? ==> r == old(Item(id)) && unchanged(fs)
      ensures old(Item(id)).Ok? && old(Target(newParentId, newName)).Err? ==>
                r == old(Target(newParentId, newName)) && unchanged(fs)
      ensures old(Item(id)).Ok? && old(Target(newParentId, newName)).Ok? ==>
                Copied(root, old(fs.nodes), fs.nodes, old(fs.now), old(fs.credit), fs.credit, old(Item(id)).value,
                       old(Target(newParentId, newName)).value, suffix, r)
    {
      var item := Item(id);
      if item.Err? {
        return item;
      }
      r := Target(newParentId, newName);
      if r.Err? {
        return;
      }
      ItemIsBelowRoot(id);
      TargetIsBelowRoot(newParentId, newName);
      r := CopyItem(item.value, r.value, suffix);
    }

    lemma TemporaryIsBelowRoot(target: Path, suffix: string)
      requires root < target
      ensures root < Temporary(target, suffix)
    {
      assert Temporary(target, suffix)[..|root|] == target[..|root|];
    }

  }

  /** The outcome of copying a folder to a free target: a snapshot, or an error.  The error means that the
      target's parent is not a folder, and then nothing changed, or that the medium is full, and then
      there may be a new reserved folder, which no client is shown.  `left` is the room that is left. */
  ghost predicate FolderCopied(
      root: Path, t: Tree, t': Tree, since: nat, left: nat, item: Path, target: Path, suffix: string, r: Result<Path>)
    requires target != []
  {
    if !IsFolder(t, Parent(target)) then r == Err(Resource) && t' == t
    else
      || (r == Ok(target) && Applies(root, t, t', since, CopiedFolder(item, target)))
      || (r == Err(Quota) && left == 0 && Applies(root, t, t', since, Litter(Temporary(target, suffix))))
  }

  /** The outcome of copying anything else to a free target, where the medium has room for `room`: if
      that is not enough, the beginning of the file stays at the target. */
  ghost predicate FileCopied(
      root: Path, t: Tree, t': Tree, since: nat, room: nat, item: Path, target: Path, r: Result<Path>)
    requires item in t && target != []
  {
    if !t[item].File? || !IsFolder(t, Parent(target)) then r == Err(Resource) && t' == t
    else if room == 0 then r == Err(Quota) && t' == t
    else if room <= |t[item].bytes| then
      r == Err(Quota) && Applies(root, t, t', since, Truncated(item, target, room - 1))
    else r == Ok(target) && Applies(root, t, t', since, CopiedFile(item, target))
  }

  lemma WrittenIsCopied(
      root: Path, t: Tree, now: nat, room: nat, src: Path, target: Path, ok: bool, t': Tree, now': nat)
    requires Sane(root, t, now) && FileWritten(t, now, room, src, target, ok, t', now')
    requires root < src && src in t && !t[src].Folder? && root < target && target !in t
    ensures Sane(root, t', now') && Honest(t, now, t', now')
    ensures var e := if t[src].File? && IsFolder(t, Parent(target)) then Quota else Resource;
            FileCopied(root, t, t', now, room, src, target, if ok then Ok(target) else Err(e))
  {
    if CanCopy(t, room, src, target) {
      var bytes := t[src].bytes;
      FileKeepsSane(root, t, now, target, bytes[..Fitting(|bytes|, room)]);
      assert bytes[..|bytes|] == bytes;
    } else {
      NewSinceIsHonest(t, now, t, now);
    }
  }

  ghost predicate Copied(
      root: Path, t: Tree, t': Tree, since: nat, room: nat, left: nat,
      item: Path, target: Path, suffix: string, r: Result<Path>)
  {
    && item in t && target != []
    && if target in t then r == Err(Exists) && t' == t
       else if t[item].Folder? then FolderCopied(root, t, t', since, left, item, target, suffix, r)
       else FileCopied(root, t, t', since, room, item, target, r)
  }

  /** A copy that fails shows clients something new if and only if a file does not fit on a medium that
      can still take its name: they then see the file, cut short. */
  lemma FailedCopyShowsIff(
      root: Path, t: Tree, t': Tree, since: nat, room: nat, left: nat,
      item: Path, target: Path, suffix: string, r: Result<Path>, dir: Path, n: Name)
    requires Copied(root, t, t', since, room, left, item, target, suffix, r) && r.Err?
    requires Clean(dir) && !Reserved(Last(target))
    ensures n in Visible(t', dir) && n !in Visible(t, dir) <==>
              && target == dir + [n] && target !in t && IsFolder(t, dir)
              && t[item].File? && 0 < room <= |t[item].bytes|
    ensures n in Visible(t', dir) && n !in Visible(t, dir) ==>
              room - 1 < |t[item].bytes| && t'[target] == File(t[item].bytes[..room - 1], since)
  {
    assert target == dir + [n] ==> Parent(target) == dir && Last(target) == n;
    if target !in t && t[item].Folder? {
      if t' != t {
        LitterIsHidden(t, t', Temporary(target, suffix), dir, n);
      }
    } else if t' != t {
      NewFileShows(t, target, t'[target], dir, n);
    }
  }

  lemma NewFileShows(t: Tree, target: Path, file: Node, dir: Path, n: Name)
    requires target != [] && target !in t && file.File? && !Reserved(Last(target))
    ensures n in Visible(t[target := file], dir) && n !in Visible(t, dir) <==> target == dir + [n]
  {
    assert target == dir + [n] ==> Last(target) == n;
  }

  /** In folders without reserved names on their way, a reserved folder is not shown. */
  lemma LitterIsHidden(t: Tree, t': Tree, tmp: Path, dir: Path, n: Name)
    requires tmp != [] && Reserved(Last(tmp)) && OnlyAt(t, t', tmp) && Clean(dir)
    ensures n in Visible(t', dir) <==> n in Visible(t, dir)
  {
    var p := dir + [n];
    CleanSnoc(dir, n);
    assert tmp <= p ==> p[|tmp| - 1] == Last(tmp);
    assert tmp <= p ==> !Clean(p);
  }

  /** Renaming the filled temporary folder succeeds and yields the snapshot. */
  lemma FinishCopy(root: Path, t: Tree, built: Tree, src: Path, tmp: Path, target: Path, since: nat, now: nat)
    requires IsTree(t) && Sane(root, built, now) && OnlyAt(t, built, tmp)
    requires root <= src && IsFolder(t, src) && root < target && target !in t && root < tmp && tmp !in t
    requires Reserved(Last(tmp)) && !Reserved(Last(target)) && Parent(tmp) == Parent(target)
    requires Graft(t, built, t, src, tmp, KeptRels(t, src), since) && NewSince(t, built, since) && since <= now
    ensures tmp in built && Vacant(built, target) && IsFolder(built, Parent(target)) && !(tmp <= target)
    ensures Sane(root, Relocate(built, tmp, target), now) && NoRevival(t, Relocate(built, tmp, target), since)
    ensures Applies(root, t, Relocate(built, tmp, target), since, CopiedFolder(src, target))
  {
    SiblingIsOutside(tmp, target);
    AbsentIsVacant(t, tmp);
    AbsentIsVacant(t, target);
    CopyHoldsItself(t, built, src, tmp, since);
    AncestorsExist(built, Parent(tmp), tmp);
    AbsentIsVacant(built, target);
    RenameCompletes(t, built, src, tmp, target, since);
    MoveKeepsSane(root, built, now, tmp, target);
    forall v: nat | v < since && HasStamp(Relocate(built, tmp, target), v)
      ensures HasStamp(t, v)
    {
      OldStampsOnly(t, built, since, now, tmp, target, v);
    }
  }

  lemma OldStampsOnly(t: Tree, built: Tree, since: nat, now: nat, tmp: Path, target: Path, v: nat)
    requires Vacant(built, target) && NewSince(t, built, since) && v < since <= now
    requires NoRevival(built, Relocate(built, tmp, target), now) && HasStamp(Relocate(built, tmp, target), v)
    ensures HasStamp(t, v)
  {
    assert HasStamp(built, v);
  }

  lemma CopyHoldsItself(t: Tree, built: Tree, src: Path, tmp: Path, since: nat)
    requires IsFolder(t, src) && Graft(t, built, t, src, tmp, KeptRels(t, src), since)
    ensures tmp in built
  {
    assert Kept(t, src, []) by { assert src + [] == src; }
    assert tmp + [] == tmp;
  }

  /** The temporary folder stands beside the target. */
  function Temporary(target: Path, suffix: string): Path {
    (if target == [] then [] else Parent(target)) + [TmpName(suffix)]
  }

  lemma SiblingIsOutside(tmp: Path, target: Path)
    requires tmp != [] && target != [] && Parent(tmp) == Parent(target) && Last(tmp) != Last(target)
    ensures !(tmp <= target)
  {
  }

  lemma RootStaysFolder(root: Path, t: Tree, t': Tree, tmp: Path)
    requires IsFolder(t, root) && OnlyAt(t, t', tmp) && root < tmp
    ensures IsFolder(t', root)
  {
  }
}

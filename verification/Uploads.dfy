/** Uploads to local files: a byte-counting pump with a guarded commit.

    A job collects the stream in a file without a name and links that file into the tree when it
    finishes.  An update that was started with an ETag is a compare-and-swap on the version the
    ETag names, against any number of other uploads and any other change of the tree. */
module Uploads {
  import opened FileTree
  import opened FileSystem
  import opened ItemIds
  import opened LocalProvider

  // ----- ETags -----

  function Digit(d: nat): char
    requires d < 10
  {
    ['0', '1', '2', '3', '4', '5', '6', '7', '8', '9'][d]
  }

  /** The decimal notation of a modification time. */
  function ToString(n: nat): (s: string)
    ensures s != ""
  {
    if n < 10 then [Digit(n)] else ToString(n / 10) + [Digit(n % 10)]
  }

  lemma {:induction false} ToStringInjective(m: nat, n: nat)
    requires ToString(m) == ToString(n)
    ensures m == n
  {
    var s, t := ToString(m), ToString(n);
    assert s[|s| - 1] == Digit(m % 10) && t[|t| - 1] == Digit(n % 10);
    if m >= 10 && n >= 10 {
      assert s[..|s| - 1] == ToString(m / 10) && t[..|t| - 1] == ToString(n / 10);
      ToStringInjective(m / 10, n / 10);
    }
  }

  // ----- one job -----

  datatype Mode = Create(allowOverwrite: bool) | Update(oldEtag: string)

  datatype Progress = InProgress | Finished | Cancelled

  /** `content` and `stamp` are the file without a name; `unread` waits in the socket, and `sent` is
      all that the client ever sent. */
  datatype Job = Job(
    item: Path,
    mode: Mode,
    size: int,
    bytesToWrite: int,
    progress: Progress,
    content: seq<byte>,
    stamp: nat,
    unread: seq<byte>,
    sent: seq<byte>,
    reported: bool)

  datatype Files = Files(tree: Tree, now: nat)

  datatype Outcome = TooEarly | ExistsAlready | EtagMismatch | Failure | Committed' | Stuck

  function NewJob(item: Path, mode: Mode, size: int, stamp: nat): Job {
    Job(item, mode, size, size, InProgress, [], stamp, [], [], false)
  }

  function Abort(j: Job): Job {
    j.(progress := Cancelled, unread := [], bytesToWrite := 0)
  }

  /** How a write to the file went: it stayed in the file's buffer, it reached the medium, which sets
      the modification time, or it failed or came out short. */
  datatype Io = Quiet | Stored | Failed

  /** What the medium does during one `finish`: to the last write, to the flush, and to the link. */
  datatype Medium = Medium(write: Io, flush: Io, linkFails: bool)

  /** The modification time of a job's file after a write that did not fail, and the next one. */
  function Stamped(j: Job, now: nat, io: Io): (Job, nat) {
    if io.Stored? then (j.(stamp := now), now + 1) else (j, now)
  }

  /** Taking what is in the socket ends the upload with an error: there is more than was announced, or
      the medium does not take it. */
  predicate Breaks(j: Job, write: Io) {
    j.bytesToWrite >= 0 && j.unread != [] && (|j.unread| > j.bytesToWrite || write.Failed?)
  }

  /** Takes what is in the socket. */
  function BytesReady(j: Job, now: nat, write: Io): (Job, nat) {
    if j.bytesToWrite < 0 || j.unread == [] then (j, now)
    else if Breaks(j, write) then (Abort(j).(reported := true), now)
    else
      Stamped(
        j.(bytesToWrite := j.bytesToWrite - |j.unread|, content := j.content + j.unread, unread := []), now, write)
  }

  /** The checks that are repeated before the commit; `Committed'` if there is nothing to object. */
  function Recheck(j: Job, t: Tree): Outcome {
    match j.mode
    case Create(allow) => if !allow && j.item in t then ExistsAlready else Committed'
    case Update(etag) =>
      if etag == "" then Committed'
      else if j.item !in t then Failure
      else if !t[j.item].File? then ExistsAlready
      else if ToString(t[j.item].mtime) != etag then EtagMismatch
      else Committed'
  }

  /** Removing what is in the way and linking the file; a failing link leaves neither. */
  function Link(j: Job, f: Files, linkFails: bool): (Files, Outcome) {
    var t := Unlinked(f.tree, j.item);
    if !linkFails && CanLink(t, j.item) then (f.(tree := t[j.item := File(j.content, j.stamp)]), Committed')
    else (f.(tree := t), Failure)
  }

  /** Flushing the file and linking it. */
  function Commit(j: Job, f: Files, m: Medium): (Job, Files, Outcome) {
    if m.flush.Failed? then (j, f, Failure)
    else
      var (j', now) := Stamped(j, f.now, m.flush);
      var (f', outcome) := Link(j', f.(now := now), m.linkFails);
      (j', f', outcome)
  }

  /** Reporting an error from inside `finish` takes a lock that `finish` was called under. */
  function Finish(j: Job, f: Files, m: Medium): (Job, Files, Outcome) {
    var (j1, now1) := BytesReady(j, f.now, m.write);
    var f1 := f.(now := now1);
    if j1.reported && !j.reported then (j1, f1, Stuck)
    else if j1.bytesToWrite > 0 then (j1, f1, TooEarly)
    else
      var j2 := j1.(progress := Finished);
      if Recheck(j2, f1.tree) != Committed' then (j2, f1, Recheck(j2, f1.tree))
      else Commit(j2, f1, m)
  }

  function CancelJob(j: Job): Job {
    if j.progress.InProgress? then Abort(j) else j
  }

  /** What the constructors check, and where the file goes. */
  function StartCreate(t: Tree, now: nat, target: Path, size: int, allowOverwrite: bool): Result<Job> {
    if !allowOverwrite && target in t then Err(Exists)
    else if target == [] || !IsFolder(t, Parent(target)) then Err(Resource)
    else Ok(NewJob(target, Create(allowOverwrite), size, now))
  }

  function StartUpdate(t: Tree, now: nat, item: Path, size: int, oldEtag: string): Result<Job> {
    if item !in t || !t[item].File? then Err(NotAFile)
    else if oldEtag != "" && ToString(t[item].mtime) != oldEtag then Err(Conflict)
    else if item == [] || !IsFolder(t, Parent(item)) then Err(Resource)
    else Ok(NewJob(item, Update(oldEtag), size, now))
  }

  /** The job as it is coded. */
  class LocalUploadJob {
    const fs: FileSystem
    const item: Path
    const mode: Mode
    const size: int
    var bytesToWrite: int
    var progress: Progress
    var content: seq<byte>
    var stamp: nat
    var unread: seq<byte>
    var sent: seq<byte>
    var reported: bool

    function Abs(): Job
      reads this
    {
      Job(item, mode, size, bytesToWrite, progress, content, stamp, unread, sent, reported)
    }

    function FilesAbs(): Files
      reads this, fs
    {
      Files(fs.nodes, fs.now)
    }

    constructor (fs: FileSystem, item: Path, mode: Mode, size: int)
      modifies fs
      ensures this.fs == fs && fs.nodes == old(fs.nodes) && fs.now == old(fs.now) + 1
      ensures Abs() == NewJob(item, mode, size, old(fs.now))
    {
      this.fs, this.item, this.mode, this.size := fs, item, mode, size;
      bytesToWrite, progress, content, unread, sent, reported := size, InProgress, [], [], [], false;
      new;
      stamp := fs.Tick();
    }

    /** `create_file()`. */
    static method StartCreateFile(p: LocalProvider, parentId: string, name: string, size: int, allowOverwrite: bool)
      returns (r: Result<LocalUploadJob>)
      requires p.Ready()
      modifies p.fs
      ensures p.fs.nodes == old(p.fs.nodes) && p.Ready()
      ensures if r.Ok? then p.fs.now == old(p.fs.now) + 1 else unchanged(p.fs)
      ensures old(p.Target(parentId, name)).Err? ==> r == Err(old(p.Target(parentId, name)).error)
      ensures old(p.Target(parentId, name)).Ok? ==>
                var target := old(p.Target(parentId, name)).value;
                var start := old(StartCreate(p.fs.nodes, p.fs.now, target, size, allowOverwrite));
                && (start.Err? ==> r == Err(start.error))
                && (start.Ok? ==>
                      && r.Ok? && fresh(r.value) && r.value.fs == p.fs
                      && r.value.Abs() == start.value && p.root < target)
    {
      var target := p.Target(parentId, name);
      p.TargetIsBelowRoot(parentId, name);
      if target.Err? {
        return Err(target.error);
      }
      if !allowOverwrite && target.value in p.fs.nodes {
        return Err(Exists);
      }
      if !IsFolder(p.fs.nodes, Parent(target.value)) {
        return Err(Resource);
      }
      var job := new LocalUploadJob(p.fs, target.value, Create(allowOverwrite), size);
      r := Ok(job);
    }

    /** `update()`. */
    static method StartUpdateFile(p: LocalProvider, id: string, size: int, oldEtag: string)
      returns (r: Result<LocalUploadJob>)
      requires p.Ready()
      modifies p.fs
      ensures p.fs.nodes == old(p.fs.nodes) && p.Ready()
      ensures if r.Ok? then p.fs.now == old(p.fs.now) + 1 else unchanged(p.fs)
      ensures old(p.Item(id)).Err? ==> r == Err(old(p.Item(id)).error)
      ensures old(p.Item(id)).Ok? ==>
                var item := old(p.Item(id)).value;
                var start := old(StartUpdate(p.fs.nodes, p.fs.now, item, size, oldEtag));
                && (start.Err? ==> r == Err(start.error))
                && (start.Ok? ==>
                      && r.Ok? && fresh(r.value) && r.value.fs == p.fs
                      && r.value.Abs() == start.value && p.root < item)
    {
      var item := p.Item(id);
      p.ItemIsBelowRoot(id);
      if item.Err? {
        return Err(item.error);
      }
      var node := p.fs.nodes[item.value];
      if !node.File? {
        return Err(NotAFile);
      }
      if oldEtag != "" {
        if ToString(node.mtime) != oldEtag {
          return Err(Conflict);
        }
      }
      assert item.value != p.root && p.root < item.value;
      var job := new LocalUploadJob(p.fs, item.value, Update(oldEtag), size);
      r := Ok(job);
    }

    /** Bytes that arrive in the socket. */
    method Receive(bytes: seq<byte>)
      modifies this
      ensures Abs() == old(Abs()).(unread := old(unread) + bytes, sent := old(sent) + bytes)
    {
      unread := unread + bytes;
      sent := sent + bytes;
    }

    method AbortUpload()
      modifies this
      ensures Abs() == Abort(old(Abs()))
    {
      progress := Cancelled;
      unread := [];
      bytesToWrite := 0;
    }

    method OnBytesReady(write: Io)
      modifies this, fs`now
      ensures (Abs(), fs.now) == BytesReady(old(Abs()), old(fs.now), write)
    {
      if bytesToWrite < 0 {
        return;
      }
      var buf := unread;
      if |buf| != 0 {
        bytesToWrite := bytesToWrite - |buf|;
        if bytesToWrite < 0 {
          AbortUpload();
          reported := true;
          return;
        }
        if write.Failed? {
          AbortUpload();
          reported := true;
          return;
        }
        unread := [];
        content := content + buf;
        if write.Stored? {
          stamp := fs.Tick();
        }
      }
    }

    method CheckAgain() returns (outcome: Outcome)
      ensures outcome == Recheck(Abs(), fs.nodes)
    {
      match mode {
        case Create(allowOverwrite) =>
          if !allowOverwrite && item in fs.nodes {
            return ExistsAlready;
          }
        case Update(oldEtag) =>
          if oldEtag != "" {
            if item in fs.nodes && !fs.nodes[item].File? {
              return ExistsAlready;
            }
            if item !in fs.nodes {
              return Failure;
            }
            if ToString(fs.nodes[item].mtime) != oldEtag {
              return EtagMismatch;
            }
          }
      }
      return Committed';
    }

    method FinishUpload(m: Medium) returns (outcome: Outcome)
      modifies this, fs
      ensures (Abs(), FilesAbs(), outcome) == Finish(old(Abs()), old(FilesAbs()), m)
    {
      var reportedBefore := reported;
      OnBytesReady(m.write);
      if reported && !reportedBefore {
        return Stuck;
      }
      if bytesToWrite > 0 {
        return TooEarly;
      }
      progress := Finished;
      outcome := CheckAgain();
      if outcome != Committed' {
        return;
      }
      if m.flush.Failed? {
        return Failure;
      }
      if m.flush.Stored? {
        stamp := fs.Tick();
      }
      fs.Unlink(item);
      var ok := fs.Link(File(content, stamp), item, m.linkFails);
      if !ok {
        return Failure;
      }
      return Committed';
    }

    method Cancel()
      modifies this
      ensures Abs() == CancelJob(old(Abs()))
    {
      if progress == InProgress {
        AbortUpload();
      }
    }
  }

  // ----- one commit -----

  /** Errors of the repeated checks leave the tree alone, as does a `finish` that came too early. */
  lemma RefusalLeavesTree(j: Job, f: Files, m: Medium)
    ensures var (j', f', outcome) := Finish(j, f, m);
            outcome in {TooEarly, ExistsAlready, EtagMismatch, Stuck} ==> f'.tree == f.tree
  {
  }

  /** A commit replaces nothing but the item: a file or, where nothing was, nothing; and a create
      that may not overwrite replaces nothing at all. */
  lemma CommitIsOneFile(j: Job, f: Files, m: Medium)
    ensures var (j', f', outcome) := Finish(j, f, m);
            outcome == Committed' ==>
              && f'.tree == f.tree[j.item := File(j'.content, j'.stamp)]
              && (j.item in f.tree ==> !f.tree[j.item].Folder?)
              && (j.mode == Create(false) ==> j.item !in f.tree)
              && (j.mode.Update? && j.mode.oldEtag != "" ==>
                    j.item in f.tree && f.tree[j.item].File? && ToString(f.tree[j.item].mtime) == j.mode.oldEtag)
  {
    UnlinkThenLink(f.tree, j.item, File(Finish(j, f, m).0.content, Finish(j, f, m).0.stamp));
  }

  lemma UnlinkThenLink(t: Tree, p: Path, n: Node)
    ensures Unlinked(t, p)[p := n] == t[p := n]
  {
  }

  /** The drain fails neither for too many bytes nor for a bad write, and leaves none to come. */
  predicate Arrives(j: Job, write: Io) {
    && (j.bytesToWrite < 0 || j.unread == [] || (|j.unread| <= j.bytesToWrite && !write.Failed?))
    && j.bytesToWrite <= |j.unread|
  }

  /** What was promised to the client about the item: no overwriting where it was not allowed, and
      nothing but the named version where one was named. */
  predicate Permits(mode: Mode, t: Tree, item: Path) {
    match mode
    case Create(allow) => allow || item !in t
    case Update(etag) => etag == "" || (item in t && t[item].File? && ToString(t[item].mtime) == etag)
  }

  /** Something is in the way of the item. */
  predicate Obstructed(mode: Mode, t: Tree, item: Path) {
    item in t && (mode == Create(false) || (mode.Update? && mode.oldEtag != "" && !t[item].File?))
  }

  /** A file can get the item's name once what is there is unlinked. */
  predicate Linkable(t: Tree, item: Path) {
    item != [] && IsFolder(t, Parent(item)) && (item in t ==> !t[item].Folder?)
  }

  lemma LinkableIff(t: Tree, item: Path)
    ensures CanLink(Unlinked(t, item), item) <==> Linkable(t, item)
  {
    assert item != [] ==> Parent(item) != item;
  }

  /** `finish` does not return if and only if its drain fails: the socket holds more bytes than are
      still expected, or the medium does not take them.  It is too early if and only if the drain
      leaves bytes to come. */
  lemma FinishReturnsIff(j: Job, f: Files, m: Medium)
    requires !j.reported
    ensures Finish(j, f, m).2 == Stuck <==>
              j.bytesToWrite >= 0 && j.unread != [] && (|j.unread| > j.bytesToWrite || m.write.Failed?)
    ensures Finish(j, f, m).2 == TooEarly <==>
              |j.unread| < j.bytesToWrite && (j.unread == [] || !m.write.Failed?)
  {
  }

  /** When `finish` commits, and when it refuses: exactly the promises made at the start decide. */
  lemma FinishCommitsIff(j: Job, f: Files, m: Medium)
    requires !j.reported
    ensures Finish(j, f, m).2 == Committed' <==>
              && Arrives(j, m.write) && Permits(j.mode, f.tree, j.item)
              && Linkable(f.tree, j.item) && !m.flush.Failed? && !m.linkFails
    ensures Finish(j, f, m).2 == ExistsAlready <==> Arrives(j, m.write) && Obstructed(j.mode, f.tree, j.item)
    ensures Finish(j, f, m).2 == EtagMismatch <==>
              && Arrives(j, m.write) && j.item in f.tree && f.tree[j.item].File?
              && j.mode.Update? && j.mode.oldEtag != "" && ToString(f.tree[j.item].mtime) != j.mode.oldEtag
  {
    LinkableIff(f.tree, j.item);
  }

  /** What becomes of the job: it is over unless `finish` was too early; and the version of a file that
      was committed is the time of the last write that reached it. */
  lemma FinishEndsJob(j: Job, f: Files, m: Medium)
    requires j.progress.InProgress? && !j.reported
    ensures var (j', f', outcome) := Finish(j, f, m);
            && j'.progress == (if outcome == TooEarly then InProgress
                               else if outcome == Stuck then Cancelled else Finished)
            && (outcome != Stuck && j.bytesToWrite >= 0 ==> j'.content == j.content + j.unread && j'.unread == [])
            && (outcome == Committed' ==>
                  var wrote := m.write.Stored? && j.unread != [] && j.bytesToWrite >= 0;
                  j'.stamp == if m.flush.Stored? then f.now + (if wrote then 1 else 0)
                              else if wrote then f.now else j.stamp)
  {
  }

  /** Where the old file was, nothing is left if and only if the upload arrived, its promises hold, it
      was flushed, and then could not be linked: the old file is unlinked first. */
  lemma FileIsLostIff(j: Job, f: Files, m: Medium)
    requires !j.reported && IsTree(f.tree) && j.item != []
    ensures j.item in f.tree && j.item !in Finish(j, f, m).1.tree <==>
              && j.item in f.tree && !f.tree[j.item].Folder?
              && Arrives(j, m.write) && Permits(j.mode, f.tree, j.item) && !m.flush.Failed? && m.linkFails
  {
    LinkableIff(f.tree, j.item);
    if j.item in f.tree && !f.tree[j.item].Folder? {
      assert IsFolder(f.tree, Parent(j.item));
    }
  }

  /** A failure changes nothing, or loses the old file and nothing else. */
  lemma FailureLosesAtMostTheFile(j: Job, f: Files, m: Medium)
    ensures var (j', f', outcome) := Finish(j, f, m);
            outcome == Failure ==>
              f'.tree == f.tree || (j.item in f.tree && !f.tree[j.item].Folder? && f'.tree == f.tree - {j.item})
  {
  }

  /** For the provider as a whole a commit is one more change below the root. */
  lemma CommitIsChange(root: Path, j: Job, f: Files, m: Medium)
    requires root < j.item
    ensures var (j', f', outcome) := Finish(j, f, m);
            outcome == Committed' ==>
              Applies(root, f.tree, f'.tree, f.now, Committed(j.item, File(j'.content, j'.stamp)))
  {
    CommitIsOneFile(j, f, m);
  }

  lemma FailureIsChange(root: Path, j: Job, f: Files, m: Medium)
    requires root < j.item && IsTree(f.tree)
    ensures var (j', f', outcome) := Finish(j, f, m);
            outcome == Failure ==> f'.tree == f.tree || Applies(root, f.tree, f'.tree, f.now, Removed(j.item))
  {
    var t := f.tree;
    if j.item in t && !t[j.item].Folder? {
      forall q | q in t && j.item <= q
        ensures q == j.item
      {
        AncestorsExist(t, j.item, q);
      }
      assert t - {j.item} == RemoveTree(t, j.item);
    }
  }

  // ----- the start -----

  /** A new file is accepted if and only if it has a folder to go to and does not overwrite against its
      client's will; and then it is what was asked for. */
  lemma CreateStartsIff(t: Tree, now: nat, target: Path, size: int, allow: bool)
    ensures var r := StartCreate(t, now, target, size, allow);
            && (r.Ok? <==> target != [] && IsFolder(t, Parent(target)) && (allow || target !in t))
            && (r == Err(Exists) <==> !allow && target in t)
            && (r.Ok? ==> r.value == Job(target, Create(allow), size, size, InProgress, [], now, [], [], false))
  {
  }

  /** An update is accepted if and only if its item is a file, of the version that was named if one was. */
  lemma UpdateStartsIff(t: Tree, now: nat, item: Path, size: int, etag: string)
    requires IsTree(t)
    ensures var r := StartUpdate(t, now, item, size, etag);
            && (r.Ok? <==> item in t && t[item].File? && (etag == "" || ToString(t[item].mtime) == etag))
            && (r == Err(NotAFile) <==> item !in t || !t[item].File?)
            && (r == Err(Conflict) <==>
                  item in t && t[item].File? && etag != "" && ToString(t[item].mtime) != etag)
            && (r.Ok? ==> r.value == Job(item, Update(etag), size, size, InProgress, [], now, [], [], false))
  {
    if item in t && item != [] {
      assert IsFolder(t, Parent(item));
    }
  }

  // ----- the content -----

  /** The pump: what was received, what is expected, and what waits add up. */
  ghost predicate Pumping(j: Job) {
    && (j.size >= 0 && !j.progress.Cancelled? ==> j.bytesToWrite == j.size - |j.content| && j.bytesToWrite >= 0)
    && (j.size < 0 && !j.progress.Cancelled? ==> j.content == [] && j.bytesToWrite == j.size)
    && (!j.progress.Cancelled? ==> j.sent == j.content + j.unread)
    && (j.reported ==> j.progress.Cancelled?)
  }

  lemma BytesReadyPumps(j: Job, now: nat, write: Io)
    requires Pumping(j) && !j.progress.Cancelled?
    ensures Pumping(BytesReady(j, now, write).0)
  {
    assert j.content + j.unread + [] == j.content + j.unread;
  }

  lemma FinishPumps(j: Job, f: Files, m: Medium)
    requires Pumping(j) && j.progress.InProgress?
    ensures Pumping(Finish(j, f, m).0)
  {
    BytesReadyPumps(j, f.now, m.write);
  }

  function Max0(n: int): nat {
    if n < 0 then 0 else n
  }

  /** A commit publishes exactly the announced number of bytes, in the order they were sent. */
  lemma CommitIsExact(j: Job, f: Files, m: Medium)
    requires Pumping(j) && j.progress.InProgress?
    ensures var (j', f', outcome) := Finish(j, f, m);
            outcome == Committed' ==>
              && Max0(j.size) <= |j.sent|
              && j.item in f'.tree && f'.tree[j.item].File?
              && f'.tree[j.item].bytes == j.sent[..Max0(j.size)]
  {
    BytesReadyPumps(j, f.now, m.write);
    FinishPumps(j, f, m);
    CommitIsOneFile(j, f, m);
  }

  // ----- many jobs -----

  /** `swaps` lists, for each guarded commit, its ETag and the version it replaced. */
  datatype Swap = Swap(item: Path, etag: string, version: nat)

  datatype World = World(files: Files, jobs: seq<Job>, swaps: seq<Swap>)

  datatype Event =
    | CreateFile(target: Path, size: int, allowOverwrite: bool)
    | UpdateFile(item: Path, size: int, etag: string)
    | Sent(i: nat, bytes: seq<byte>)
    | Ready(i: nat, write: Io)
    | FinishRequested(i: nat, m: Medium)
    | CancelRequested(i: nat)
    | Elsewhere(files: Files)      // any other request, or any other program

  predicate Alive(w: World, i: nat) {
    i < |w.jobs| && w.jobs[i].progress.InProgress?
  }

  ghost predicate Enabled(w: World, e: Event) {
    match e
    case CreateFile(_, _, _) => true
    case UpdateFile(_, _, _) => true
    case Sent(i, _) => Alive(w, i)
    case Ready(i, _) => i < |w.jobs| && !w.jobs[i].progress.Cancelled?
    case FinishRequested(i, _) => Alive(w, i)
    case CancelRequested(i) => i < |w.jobs|
    case Elsewhere(f) => Honest(w.files.tree, w.files.now, f.tree, f.now)
  }

  function Started(w: World, start: Result<Job>): World {
    match start
    case Err(_) => w
    case Ok(j) => w.(files := w.files.(now := w.files.now + 1), jobs := w.jobs + [j])
  }

  predicate Guarded(j: Job) {
    j.mode.Update? && j.mode.oldEtag != ""
  }

  function Swapped(j: Job, t: Tree): seq<Swap> {
    if Guarded(j) && j.item in t && t[j.item].File? then [Swap(j.item, j.mode.oldEtag, t[j.item].mtime)] else []
  }

  function Step(w: World, e: Event): World {
    match e
    case CreateFile(target, size, allow) => Started(w, StartCreate(w.files.tree, w.files.now, target, size, allow))
    case UpdateFile(item, size, etag) => Started(w, StartUpdate(w.files.tree, w.files.now, item, size, etag))
    case Sent(i, bytes) =>
      if i < |w.jobs| then
        w.(jobs := w.jobs[i := w.jobs[i].(unread := w.jobs[i].unread + bytes, sent := w.jobs[i].sent + bytes)])
      else w
    case Ready(i, write) =>
      if i < |w.jobs| then
        var (j, now) := BytesReady(w.jobs[i], w.files.now, write);
        w.(jobs := w.jobs[i := j], files := w.files.(now := now))
      else w
    case FinishRequested(i, m) =>
      if i < |w.jobs| then
        var (j, f, outcome) := Finish(w.jobs[i], w.files, m);
        World(f, w.jobs[i := j],
              if outcome == Committed' then w.swaps + Swapped(w.jobs[i], w.files.tree) else w.swaps)
      else w
    case CancelRequested(i) => if i < |w.jobs| then w.(jobs := w.jobs[i := CancelJob(w.jobs[i])]) else w
    case Elsewhere(f) => w.(files := f)
  }

  ghost predicate IsRun(w: World, es: seq<Event>)
    decreases |es|
  {
    es == [] || (Enabled(w, es[0]) && IsRun(Step(w, es[0]), es[1..]))
  }

  ghost function Run(w: World, es: seq<Event>): World
    decreases |es|
  {
    if es == [] then w else Run(Step(w, es[0]), es[1..])
  }

  // ----- the invariant of the swaps -----

  /** Files that were not linked have versions of their own. */
  ghost predicate OwnStamps(f: Files, jobs: seq<Job>) {
    && (forall i :: 0 <= i < |jobs| ==> jobs[i].stamp < f.now)
    && (forall i :: 0 <= i < |jobs| && jobs[i].progress.InProgress? ==> !HasStamp(f.tree, jobs[i].stamp))
    && (forall i, j :: 0 <= i < |jobs| && 0 <= j < |jobs| && i != j && jobs[i].progress.InProgress? ==>
          jobs[i].stamp != jobs[j].stamp)
  }

  /** `v` was replaced, and cannot come back. */
  ghost predicate Retired(f: Files, jobs: seq<Job>, v: nat) {
    && v < f.now && !HasStamp(f.tree, v)
    && forall i :: 0 <= i < |jobs| && jobs[i].progress.InProgress? ==> jobs[i].stamp != v
  }

  ghost predicate SwapsAreFinal(w: World) {
    && (forall k :: 0 <= k < |w.swaps| ==>
          && ToString(w.swaps[k].version) == w.swaps[k].etag
          && Retired(w.files, w.jobs, w.swaps[k].version))
    && (forall k, l :: 0 <= k < l < |w.swaps| ==> w.swaps[k].version != w.swaps[l].version)
  }

  ghost predicate Inv(w: World) {
    && Clocked(w.files.tree, w.files.now)
    && OwnStamps(w.files, w.jobs)
    && SwapsAreFinal(w)
    && forall i :: 0 <= i < |w.jobs| ==> Pumping(w.jobs[i])
  }

  // ----- steps -----

  lemma StartKeepsInv(w: World, start: Result<Job>)
    requires Inv(w)
    requires start.Ok? ==> start.value == NewJob(start.value.item, start.value.mode, start.value.size, w.files.now)
    ensures Inv(Started(w, start))
  {
    if start.Ok? {
      var w' := Started(w, start);
      forall v: nat | Retired(w.files, w.jobs, v)
        ensures Retired(w'.files, w'.jobs, v)
      {
      }
      assert forall p :: p in w.files.tree && w.files.tree[p].File? ==> w.files.tree[p].mtime != w.files.now;
    }
  }

  /** A change of one job that leaves the tree alone, and takes a new stamp or none. */
  lemma LocalKeepsInv(w: World, i: nat, j: Job, now: nat)
    requires Inv(w) && i < |w.jobs| && Pumping(j) && now >= w.files.now
    requires j.progress.InProgress? ==> w.jobs[i].progress.InProgress?
    requires j.stamp == w.jobs[i].stamp || (j.stamp == w.files.now && now == w.files.now + 1)
    ensures Inv(World(w.files.(now := now), w.jobs[i := j], w.swaps))
  {
    var w' := World(w.files.(now := now), w.jobs[i := j], w.swaps);
    assert forall p :: p in w.files.tree && w.files.tree[p].File? ==> w.files.tree[p].mtime != w.files.now;
    forall v: nat | Retired(w.files, w.jobs, v)
      ensures Retired(w'.files, w'.jobs, v)
    {
    }
  }

  lemma ElsewhereKeepsInv(w: World, f: Files)
    requires Inv(w) && Honest(w.files.tree, w.files.now, f.tree, f.now)
    ensures Inv(w.(files := f))
  {
    forall v: nat | v < w.files.now && HasStamp(f.tree, v)
      ensures HasStamp(w.files.tree, v)
    {
    }
    forall v: nat | Retired(w.files, w.jobs, v)
      ensures Retired(f, w.jobs, v)
    {
    }
  }

  /** What `Link` makes of the tree: the item's old version is gone, the file's own has come. */
  lemma LinkedStamps(t: Tree, now: nat, p: Path, file: Node, v: nat)
    requires Clocked(t, now) && file.File?
    ensures HasStamp(t[p := file], v) ==> HasStamp(t, v) || v == file.mtime
    ensures p in t && t[p].File? && v == t[p].mtime && v != file.mtime ==> !HasStamp(t[p := file], v)
  {
  }

  lemma LinkIsClocked(t: Tree, now: nat, p: Path, file: Node)
    requires Clocked(t, now) && file.File? && file.mtime < now && !HasStamp(t, file.mtime)
    ensures Clocked(t[p := file], now)
  {
    forall q | q in t && t[q].File?
      ensures t[q].mtime != file.mtime
    {
      assert HasStamp(t, t[q].mtime);
    }
  }

  lemma LostKeepsInv(w: World, p: Path)
    requires Inv(w) && p in w.files.tree
    ensures Inv(w.(files := w.files.(tree := w.files.tree - {p})))
  {
    ElsewhereKeepsInv(w, w.files.(tree := w.files.tree - {p})) by {
      var t' := w.files.tree - {p};
      assert NewSince(w.files.tree, t', w.files.now);
      NewSinceIsHonest(w.files.tree, w.files.now, t', w.files.now);
    }
  }

  /** The commit of a finished job `j`, whose file is not in the tree yet. */
  lemma CommitKeepsInv(w: World, i: nat, swap: seq<Swap>)
    requires Inv(w) && i < |w.jobs| && w.jobs[i].progress.InProgress?
    requires var j, t := w.jobs[i], w.files.tree;
             || swap == []
             || (j.item in t && t[j.item].File?
                 && swap == [Swap(j.item, ToString(t[j.item].mtime), t[j.item].mtime)])
    ensures var j := w.jobs[i];
            Inv(World(w.files.(tree := w.files.tree[j.item := File(j.content, j.stamp)]),
                      w.jobs[i := j.(progress := Finished)], w.swaps + swap))
  {
    var j, t := w.jobs[i], w.files.tree;
    var file := File(j.content, j.stamp);
    var f' := w.files.(tree := t[j.item := file]);
    var jobs' := w.jobs[i := j.(progress := Finished)];
    LinkIsClocked(t, w.files.now, j.item, file);
    forall v: nat
      ensures HasStamp(f'.tree, v) ==> HasStamp(t, v) || v == j.stamp
    {
      LinkedStamps(t, w.files.now, j.item, file, v);
    }
    forall v: nat | Retired(w.files, w.jobs, v)
      ensures Retired(f', jobs', v)
    {
    }
    if swap != [] {
      var v := t[j.item].mtime;
      assert HasStamp(t, v);
      LinkedStamps(t, w.files.now, j.item, file, v);
      assert Retired(f', jobs', v);
    }
  }

  /** The job after its last bytes were taken from the socket. */
  function Drained(w: World, i: nat, write: Io): World
    requires i < |w.jobs|
  {
    var (j, now) := BytesReady(w.jobs[i], w.files.now, write);
    World(w.files.(now := now), w.jobs[i := j], w.swaps)
  }

  lemma DrainKeepsInv(w: World, i: nat, write: Io)
    requires Inv(w) && i < |w.jobs| && !w.jobs[i].progress.Cancelled?
    ensures Inv(Drained(w, i, write))
  {
    BytesReadyPumps(w.jobs[i], w.files.now, write);
    var (j, now) := BytesReady(w.jobs[i], w.files.now, write);
    LocalKeepsInv(w, i, j, now);
  }

  /** The link of a flushed file. */
  lemma LinkKeepsInv(w: World, i: nat, linkFails: bool)
    requires Inv(w) && i < |w.jobs| && w.jobs[i].progress.InProgress?
    requires Recheck(w.jobs[i], w.files.tree) == Committed'
    ensures var j := w.jobs[i].(progress := Finished);
            var (f, outcome) := Link(j, w.files, linkFails);
            Inv(World(f, w.jobs[i := j], if outcome == Committed' then w.swaps + Swapped(j, w.files.tree) else w.swaps))
  {
    var j := w.jobs[i].(progress := Finished);
    var t := w.files.tree;
    if Link(j, w.files, linkFails).1 == Committed' {
      UnlinkThenLink(t, j.item, File(j.content, j.stamp));
      CommitKeepsInv(w, i, Swapped(j, t));
    } else {
      LocalKeepsInv(w, i, j, w.files.now);
      if j.item in t && !t[j.item].Folder? {
        LostKeepsInv(w.(jobs := w.jobs[i := j]), j.item);
      }
    }
  }

  /** The flush and the link, after the repeated checks. */
  lemma CommitPartKeepsInv(w: World, i: nat, m: Medium)
    requires Inv(w) && i < |w.jobs| && w.jobs[i].progress.InProgress?
    requires Recheck(w.jobs[i], w.files.tree) == Committed'
    ensures var (j, f, outcome) := Commit(w.jobs[i].(progress := Finished), w.files, m);
            Inv(World(f, w.jobs[i := j],
                      if outcome == Committed' then w.swaps + Swapped(w.jobs[i], w.files.tree) else w.swaps))
  {
    if m.flush.Failed? {
      LocalKeepsInv(w, i, w.jobs[i].(progress := Finished), w.files.now);
    } else {
      var (j, now) := Stamped(w.jobs[i], w.files.now, m.flush);
      LocalKeepsInv(w, i, j, now);
      var w' := World(w.files.(now := now), w.jobs[i := j], w.swaps);
      LinkKeepsInv(w', i, m.linkFails);
      assert w'.jobs[i := j.(progress := Finished)] == w.jobs[i := j.(progress := Finished)];
    }
  }

  /** The part of `finish` after a drain that left nothing to come. */
  lemma RestKeepsInv(w: World, i: nat, m: Medium)
    requires Inv(w) && i < |w.jobs| && w.jobs[i].progress.InProgress?
    ensures var j := w.jobs[i].(progress := Finished);
            var (j', f, outcome) := if Recheck(j, w.files.tree) != Committed'
                                    then (j, w.files, Recheck(j, w.files.tree)) else Commit(j, w.files, m);
            Inv(World(f, w.jobs[i := j'],
                      if outcome == Committed' then w.swaps + Swapped(w.jobs[i], w.files.tree) else w.swaps))
  {
    if Recheck(w.jobs[i], w.files.tree) == Committed' {
      CommitPartKeepsInv(w, i, m);
    } else {
      LocalKeepsInv(w, i, w.jobs[i].(progress := Finished), w.files.now);
    }
  }

  lemma FinishKeepsInv(w: World, i: nat, m: Medium)
    requires Inv(w) && Alive(w, i)
    ensures Inv(Step(w, FinishRequested(i, m)))
  {
    var d := Drained(w, i, m.write);
    DrainKeepsInv(w, i, m.write);
    if d.jobs[i].progress.InProgress? {
      RestKeepsInv(d, i, m);
      var j' := Finish(w.jobs[i], w.files, m).0;
      assert d.jobs[i := j'] == w.jobs[i := j'];
    }
  }

  lemma StepKeepsInv(w: World, e: Event)
    requires Inv(w) && Enabled(w, e)
    ensures Inv(Step(w, e))
  {
    match e {
      case CreateFile(target, size, allow) =>
        StartKeepsInv(w, StartCreate(w.files.tree, w.files.now, target, size, allow));
      case UpdateFile(item, size, etag) =>
        StartKeepsInv(w, StartUpdate(w.files.tree, w.files.now, item, size, etag));
      case Sent(i, bytes) =>
        var j := w.jobs[i];
        assert j.content + (j.unread + bytes) == j.content + j.unread + bytes;
        LocalKeepsInv(w, i, j.(unread := j.unread + bytes, sent := j.sent + bytes), w.files.now);
      case Ready(i, write) => DrainKeepsInv(w, i, write);
      case FinishRequested(i, m) => FinishKeepsInv(w, i, m);
      case CancelRequested(i) => LocalKeepsInv(w, i, CancelJob(w.jobs[i]), w.files.now);
      case Elsewhere(f) => ElsewhereKeepsInv(w, f);
    }
  }

  lemma {:induction false} RunKeepsInv(w: World, es: seq<Event>)
    requires Inv(w) && IsRun(w, es)
    ensures Inv(Run(w, es))
    decreases |es|
  {
    if es != [] {
      StepKeepsInv(w, es[0]);
      RunKeepsInv(Step(w, es[0]), es[1..]);
    }
  }

  // ----- the results -----

  /** A step that commits a guarded update whose ETag is `etag`. */
  predicate Swaps(w: World, e: Event, etag: string) {
    && e.FinishRequested? && e.i < |w.jobs|
    && Guarded(w.jobs[e.i]) && w.jobs[e.i].mode.oldEtag == etag
    && Finish(w.jobs[e.i], w.files, e.m).2 == Committed'
  }

  ghost function CountSwaps(w: World, es: seq<Event>, etag: string): nat
    decreases |es|
  {
    if es == [] then 0 else (if Swaps(w, es[0], etag) then 1 else 0) + CountSwaps(Step(w, es[0]), es[1..], etag)
  }

  function CountEtag(swaps: seq<Swap>, etag: string): nat {
    if swaps == [] then 0
    else CountEtag(swaps[..|swaps| - 1], etag) + if swaps[|swaps| - 1].etag == etag then 1 else 0
  }

  lemma StepCounts(w: World, e: Event, etag: string)
    ensures CountEtag(Step(w, e).swaps, etag) == CountEtag(w.swaps, etag) + if Swaps(w, e, etag) then 1 else 0
  {
    if e.FinishRequested? && e.i < |w.jobs| {
      var j := w.jobs[e.i];
      CommitIsOneFile(j, w.files, e.m);
      if Step(w, e).swaps != w.swaps {
        assert Step(w, e).swaps[..|w.swaps|] == w.swaps;
      }
    }
  }

  lemma {:induction false} RunCounts(w: World, es: seq<Event>, etag: string)
    ensures CountEtag(Run(w, es).swaps, etag) == CountEtag(w.swaps, etag) + CountSwaps(w, es, etag)
    decreases |es|
  {
    if es != [] {
      StepCounts(w, es[0], etag);
      RunCounts(Step(w, es[0]), es[1..], etag);
    }
  }

  lemma {:induction false} DistinctCount(swaps: seq<Swap>, etag: string)
    requires forall k, l :: 0 <= k < l < |swaps| ==> swaps[k].etag != swaps[l].etag
    ensures CountEtag(swaps, etag) <= 1
    ensures CountEtag(swaps, etag) == 1 ==> exists k :: 0 <= k < |swaps| && swaps[k].etag == etag
  {
    if swaps != [] {
      DistinctCount(swaps[..|swaps| - 1], etag);
    }
  }

  lemma EtagsDiffer(w: World)
    requires SwapsAreFinal(w)
    ensures forall k, l :: 0 <= k < l < |w.swaps| ==> w.swaps[k].etag != w.swaps[l].etag
  {
    forall k, l | 0 <= k < l < |w.swaps|
      ensures w.swaps[k].etag != w.swaps[l].etag
    {
      if w.swaps[k].etag == w.swaps[l].etag {
        ToStringInjective(w.swaps[k].version, w.swaps[l].version);
      }
    }
  }

  /** Of all updates that were started with the same ETag, however they interleave with each other
      and with anything else that keeps time, one at most commits. */
  lemma OneCommitPerEtag(f: Files, es: seq<Event>, etag: string)
    requires Clocked(f.tree, f.now) && IsRun(World(f, [], []), es)
    ensures CountSwaps(World(f, [], []), es, etag) <= 1
  {
    RunKeepsInv(World(f, [], []), es);
    RunCounts(World(f, [], []), es, etag);
    EtagsDiffer(Run(World(f, [], []), es));
    DistinctCount(Run(World(f, [], []), es).swaps, etag);
  }

  /** A guarded commit replaces the version that its ETag names: that version was in place, and is
      gone for good. */
  lemma SwapReplacesNamedVersion(f: Files, es: seq<Event>, e: Event, etag: string)
    requires Clocked(f.tree, f.now) && IsRun(World(f, [], []), es)
    requires var w := Run(World(f, [], []), es); Enabled(w, e) && Swaps(w, e, etag)
    ensures var w := Run(World(f, [], []), es);
            var item := w.jobs[e.i].item;
            && item in w.files.tree && w.files.tree[item].File? && ToString(w.files.tree[item].mtime) == etag
            && Retired(Step(w, e).files, Step(w, e).jobs, w.files.tree[item].mtime)
  {
    RunKeepsInv(World(f, [], []), es);
    var w := Run(World(f, [], []), es);
    CommitIsOneFile(w.jobs[e.i], w.files, e.m);
    StepKeepsInv(w, e);
    var w' := Step(w, e);
    assert w'.swaps[|w.swaps|] == Swap(w.jobs[e.i].item, etag, w.files.tree[w.jobs[e.i].item].mtime);
  }

  /** All that the client of upload `i` sent in `es`. */
  function SentBytes(es: seq<Event>, i: nat): seq<byte> {
    if es == [] then []
    else (if es[0].Sent? && es[0].i == i then es[0].bytes else []) + SentBytes(es[1..], i)
  }

  function SentBefore(w: World, i: nat): seq<byte> {
    if i < |w.jobs| then w.jobs[i].sent else []
  }

  lemma StepSends(w: World, e: Event, i: nat)
    requires Enabled(w, e)
    ensures SentBefore(Step(w, e), i) == SentBefore(w, i) + if e.Sent? && e.i == i then e.bytes else []
  {
    if e.FinishRequested? {
      assert Finish(w.jobs[e.i], w.files, e.m).0.sent == w.jobs[e.i].sent;
    }
  }

  lemma {:induction false} RunSends(w: World, es: seq<Event>, i: nat)
    requires IsRun(w, es)
    ensures SentBefore(Run(w, es), i) == SentBefore(w, i) + SentBytes(es, i)
    decreases |es|
  {
    if es != [] {
      StepSends(w, es[0], i);
      RunSends(Step(w, es[0]), es[1..], i);
    }
  }

  /** One commit publishes the announced beginning of what was sent, and changes nothing else. */
  ghost predicate Publishes(t: Tree, t': Tree, item: Path, bytes: seq<byte>) {
    && item in t' && t'[item].File? && t'[item].bytes == bytes
    && forall p :: p != item ==> (p in t' <==> p in t) && (p in t ==> t'[p] == t[p])
  }

  lemma StepPublishes(w: World, i: nat, m: Medium)
    requires Alive(w, i) && Pumping(w.jobs[i]) && Finish(w.jobs[i], w.files, m).2 == Committed'
    ensures var j := w.jobs[i];
            && Max0(j.size) <= |j.sent|
            && Publishes(w.files.tree, Step(w, FinishRequested(i, m)).files.tree, j.item, j.sent[..Max0(j.size)])
  {
    CommitIsExact(w.jobs[i], w.files, m);
    CommitIsOneFile(w.jobs[i], w.files, m);
  }

  lemma RunPumps(f: Files, es: seq<Event>, i: nat)
    requires Clocked(f.tree, f.now) && IsRun(World(f, [], []), es) && i < |Run(World(f, [], []), es).jobs|
    ensures var j := Run(World(f, [], []), es).jobs[i]; Pumping(j) && j.sent == SentBytes(es, i)
  {
    RunKeepsInv(World(f, [], []), es);
    RunSends(World(f, [], []), es, i);
  }

  /** In every run, what a commit publishes is the beginning of what its client sent, and exactly as
      long as was announced. */
  lemma PublishedContent(f: Files, es: seq<Event>, i: nat, m: Medium)
    requires Clocked(f.tree, f.now) && IsRun(World(f, [], []), es)
    requires var w := Run(World(f, [], []), es);
             Alive(w, i) && Finish(w.jobs[i], w.files, m).2 == Committed'
    ensures var w := Run(World(f, [], []), es);
            var sent, size := SentBytes(es, i), Max0(w.jobs[i].size);
            && w.jobs[i].sent == sent && size <= |sent|
            && Publishes(w.files.tree, Step(w, FinishRequested(i, m)).files.tree, w.jobs[i].item, sent[..size])
  {
    RunPumps(f, es, i);
    StepPublishes(Run(World(f, [], []), es), i, m);
  }

  // ----- the end of an upload -----

  lemma {:induction false} EndedStaysEnded(w: World, es: seq<Event>, i: nat)
    requires IsRun(w, es) && i < |w.jobs| && !Alive(w, i)
    ensures i < |Run(w, es).jobs| && !Alive(Run(w, es), i)
    ensures forall m :: FinishRequested(i, m) !in es
    decreases |es|
  {
    if es != [] {
      EndedStaysEnded(Step(w, es[0]), es[1..], i);
    }
  }

  /** An upload that was cancelled, or whose `finish` was not too early, is over for good: no later run
      finishes it, so it commits at most once, and never after it was cancelled. */
  lemma EndIsFinal(f: Files, es: seq<Event>, end: Event, i: nat, more: seq<Event>)
    requires Clocked(f.tree, f.now) && IsRun(World(f, [], []), es)
    requires var w := Run(World(f, [], []), es);
             && Enabled(w, end) && IsRun(Step(w, end), more) && i < |w.jobs|
             && (end == CancelRequested(i)
                 || (end.FinishRequested? && end.i == i && Finish(w.jobs[i], w.files, end.m).2 != TooEarly))
    ensures !Alive(Run(Step(Run(World(f, [], []), es), end), more), i)
    ensures forall m :: FinishRequested(i, m) !in more
  {
    RunKeepsInv(World(f, [], []), es);
    var w := Run(World(f, [], []), es);
    if end.FinishRequested? {
      assert Pumping(w.jobs[i]);
      FinishEndsJob(w.jobs[i], w.files, end.m);
    }
    EndedStaysEnded(Step(w, end), more, i);
  }

  /** Cancelling drops what was not read of an upload in progress, leaves any other as it is, and touches
      neither the tree nor other uploads. */
  lemma CancelStops(w: World, i: nat)
    requires i < |w.jobs|
    ensures var w', j := Step(w, CancelRequested(i)), w.jobs[i];
            && w'.files == w.files && w'.swaps == w.swaps && |w'.jobs| == |w.jobs|
            && (forall k :: 0 <= k < |w.jobs| && k != i ==> w'.jobs[k] == w.jobs[k])
            && w'.jobs[i] == if j.progress == InProgress
                             then j.(progress := Cancelled, unread := [], bytesToWrite := 0) else j
  {
  }

  /** A step in which job `i` reports an error. */
  predicate Reports(w: World, e: Event, i: nat) {
    && (e.Ready? || e.FinishRequested?) && e.i == i < |w.jobs|
    && Breaks(w.jobs[i], if e.Ready? then e.write else e.m.write)
  }

  ghost function CountReports(w: World, es: seq<Event>, i: nat): nat
    decreases |es|
  {
    if es == [] then 0 else (if Reports(w, es[0], i) then 1 else 0) + CountReports(Step(w, es[0]), es[1..], i)
  }

  function Reported(w: World, i: nat): nat {
    if i < |w.jobs| && w.jobs[i].reported then 1 else 0
  }

  lemma StepReports(w: World, e: Event, i: nat)
    requires Inv(w) && Enabled(w, e)
    ensures Reported(Step(w, e), i) == Reported(w, i) + if Reports(w, e, i) then 1 else 0
  {
    if i < |w.jobs| {
      assert Pumping(w.jobs[i]);
    }
  }

  lemma {:induction false} RunReports(w: World, es: seq<Event>, i: nat)
    requires Inv(w) && IsRun(w, es)
    ensures Reported(Run(w, es), i) == Reported(w, i) + CountReports(w, es, i)
    decreases |es|
  {
    if es != [] {
      StepReports(w, es[0], i);
      StepKeepsInv(w, es[0]);
      RunReports(Step(w, es[0]), es[1..], i);
    }
  }

  /** In every run an upload reports at most once, and one that is in progress has not. */
  lemma ReportsAtMostOnce(f: Files, es: seq<Event>, i: nat)
    requires Clocked(f.tree, f.now) && IsRun(World(f, [], []), es)
    ensures CountReports(World(f, [], []), es, i) <= 1
    ensures Alive(Run(World(f, [], []), es), i) ==> CountReports(World(f, [], []), es, i) == 0
  {
    RunReports(World(f, [], []), es, i);
    RunKeepsInv(World(f, [], []), es);
  }

  // ----- runs that end badly -----

  /** An upload to `p` of `size` announced bytes, `bytes` of which arrived before `finish`. */
  function Sending(p: Path, size: int, bytes: seq<byte>): seq<Event> {
    [CreateFile(p, size, false), Sent(0, bytes)]
  }

  lemma SendingArrives(f: Files, p: Path, size: int, bytes: seq<byte>)
    requires p != [] && p !in f.tree && IsFolder(f.tree, Parent(p))
    ensures var w, es := World(f, [], []), Sending(p, size, bytes);
            && IsRun(w, es) && Alive(Run(w, es), 0)
            && Run(w, es).jobs[0] == NewJob(p, Create(false), size, f.now).(unread := bytes, sent := bytes)
  {
    var w, es := World(f, [], []), Sending(p, size, bytes);
    var w1 := Step(w, es[0]);
    var w2 := Step(w1, es[1]);
    assert es[1..] == [Sent(0, bytes)] && es[1..][1..] == [];
    assert Run(w1, es[1..]) == Run(w2, []) == w2;
    assert IsRun(w1, es[1..]);
  }

  /** Wherever a file can be created, one byte too many blocks `finish`, and so does one byte that the
      medium does not take. */
  lemma SurplusOrFaultBlocks(f: Files, p: Path, b: byte)
    requires p != [] && p !in f.tree && IsFolder(f.tree, Parent(p))
    ensures var w, ok, full := World(f, [], []), Medium(Stored, Quiet, false), Medium(Failed, Quiet, false);
            && IsRun(w, Sending(p, 1, [b, b])) && Alive(Run(w, Sending(p, 1, [b, b])), 0)
            && Finish(Run(w, Sending(p, 1, [b, b])).jobs[0], Run(w, Sending(p, 1, [b, b])).files, ok).2 == Stuck
            && IsRun(w, Sending(p, 1, [b])) && Alive(Run(w, Sending(p, 1, [b])), 0)
            && Finish(Run(w, Sending(p, 1, [b])).jobs[0], Run(w, Sending(p, 1, [b])).files, full).2 == Stuck
  {
    SendingArrives(f, p, 1, [b, b]);
    SendingArrives(f, p, 1, [b]);
  }

  /** Whatever file is updated, with nothing wrong but the link, is lost. */
  lemma FailingLinkLosesFile(f: Files, p: Path)
    requires IsTree(f.tree) && p != [] && p in f.tree && f.tree[p].File?
    ensures var w, es := World(f, [], []), [UpdateFile(p, 0, ToString(f.tree[p].mtime))];
            && IsRun(w, es) && Alive(Run(w, es), 0)
            && p !in Step(Run(w, es), FinishRequested(0, Medium(Quiet, Quiet, true))).files.tree
  {
    var w, es := World(f, [], []), [UpdateFile(p, 0, ToString(f.tree[p].mtime))];
    assert IsFolder(f.tree, Parent(p));
    var w1 := Step(w, es[0]);
    assert es[1..] == [] && Run(w1, es[1..]) == w1;
    FileIsLostIff(w1.jobs[0], w1.files, Medium(Quiet, Quiet, true));
  }

  /** Wherever a file can be created, a negative size publishes an empty one, whatever was sent. */
  lemma NegativeSizePublishesNothing(f: Files, p: Path, size: int, bytes: seq<byte>)
    requires p != [] && p !in f.tree && IsFolder(f.tree, Parent(p)) && size < 0
    ensures var w, es, m := World(f, [], []), Sending(p, size, bytes), Medium(Quiet, Quiet, false);
            && IsRun(w, es) && Alive(Run(w, es), 0)
            && Finish(Run(w, es).jobs[0], Run(w, es).files, m).2 == Committed'
            && Step(Run(w, es), FinishRequested(0, m)).files.tree == f.tree[p := File([], f.now)]
  {
    SendingArrives(f, p, size, bytes);
    var w, es := World(f, [], []), Sending(p, size, bytes);
    assert Run(w, es).files.tree == f.tree by {
      assert es[1..] == [Sent(0, bytes)] && es[1..][1..] == [];
      var w1 := Step(w, es[0]);
      assert Run(w1, es[1..]) == Run(Step(w1, es[1]), []);
    }
  }
}

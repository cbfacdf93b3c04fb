/** A provider at work: any sequence of requests and upload events, served by the methods themselves.

    Whatever clients ask for, in whatever order, nothing is touched but what lies strictly below the
    root, and no two guarded updates with the same ETag commit. */
module Service {
  import opened FileTree
  import opened ItemIds
  import opened LocalProvider
  import opened Uploads

  /** What a client asks for, or what happens to the upload with number `i`. */
  datatype Call =
    | ListFolder(id: string)
    | MakeFolder(parentId: string, name: string)
    | Delete(id: string)
    | MoveItem(id: string, newParentId: string, newName: string)
    | CopyItem(id: string, newParentId: string, newName: string, suffix: string)
    | BeginCreate(parentId: string, name: string, size: int, allowOverwrite: bool)
    | BeginUpdate(id: string, size: int, oldEtag: string)
    | Arrived(i: nat, bytes: seq<byte>)
    | Readable(i: nat, write: Io)
    | FinishJob(i: nat, m: Medium)
    | CancelJob(i: nat)

  predicate IsRequest(call: Call) {
    call.ListFolder? || call.MakeFolder? || call.Delete? || call.MoveItem? || call.CopyItem?
  }

  predicate IsStart(call: Call) {
    call.BeginCreate? || call.BeginUpdate?
  }

  /** What a request makes of the tree `t` on a medium with room for `room`. */
  ghost predicate Answers(
      root: Path, cwd: Path, t: Tree, since: nat, room: nat, t': Tree, left: nat, call: Call)
  {
    match call
    case MakeFolder(parentId, name) =>
      var target := TargetIn(t, cwd, root, parentId, name);
      if target.Err? || target.value in t || !IsFolder(t, Parent(target.value)) || room == 0 then t' == t
      else t' == t[target.value := Folder]
    case Delete(id) =>
      var item := CheckId(t, cwd, root, id);
      if item.Err? || item.value == root then t' == t else t' == RemoveTree(t, item.value)
    case MoveItem(id, newParentId, newName) =>
      var item, target := CheckId(t, cwd, root, id), TargetIn(t, cwd, root, newParentId, newName);
      if item.Err? || target.Err? || target.value in t || item.value == root
         || !IsFolder(t, Parent(target.value)) || item.value <= target.value then t' == t
      else Applies(root, t, t', since, Moved(item.value, target.value))
    case CopyItem(id, newParentId, newName, suffix) =>
      var item, target := CheckId(t, cwd, root, id), TargetIn(t, cwd, root, newParentId, newName);
      if item.Err? || target.Err? || Temporary(target.value, suffix) in t then t' == t
      else exists r :: Copied(root, t, t', since, room, left, item.value, target.value, suffix, r)
    case _ => t' == t
  }

  /** The upload that a request starts, if its checks let it. */
  function StartOf(root: Path, cwd: Path, f: Files, call: Call): Result<Job>
    requires IsStart(call)
  {
    match call
    case BeginCreate(parentId, name, size, allowOverwrite) =>
      (match TargetIn(f.tree, cwd, root, parentId, name)
       case Err(e) => Err(e)
       case Ok(target) => StartCreate(f.tree, f.now, target, size, allowOverwrite))
    case BeginUpdate(id, size, oldEtag) =>
      match CheckId(f.tree, cwd, root, id)
      case Err(e) => Err(e)
      case Ok(item) => StartUpdate(f.tree, f.now, item, size, oldEtag)
  }

  /** What happens to an upload: the runtime ends only a job that is in progress, and a job that was
      cancelled or has failed reads no more. */
  function Continued(w: World, call: Call): World {
    match call
    case Arrived(i, bytes) => if Alive(w, i) then Step(w, Sent(i, bytes)) else w
    case Readable(i, write) => if i < |w.jobs| && !w.jobs[i].progress.Cancelled? then Step(w, Ready(i, write)) else w
    case FinishJob(i, m) => if Alive(w, i) then Step(w, FinishRequested(i, m)) else w
    case CancelJob(i) => Step(w, CancelRequested(i))
    case _ => w
  }

  /** The provider's files and uploads, and the room on the medium, at some moment. */
  datatype Moment = Moment(world: World, room: nat)

  /** `call` leads from `a` to `b`. */
  ghost predicate Served(root: Path, cwd: Path, a: Moment, b: Moment, call: Call) {
    var f := a.world.files;
    if IsRequest(call) then
      && b.world == a.world.(files := b.world.files)
      && Honest(f.tree, f.now, b.world.files.tree, b.world.files.now)
      && Answers(root, cwd, f.tree, f.now, a.room, b.world.files.tree, b.room, call)
    else if IsStart(call) then b.world == Started(a.world, StartOf(root, cwd, f, call))
    else b.world == Continued(a.world, call)
  }

  /** The moments before, between and after `calls`. */
  ghost predicate IsTrace(root: Path, cwd: Path, trace: seq<Moment>, calls: seq<Call>) {
    && |trace| == |calls| + 1
    && forall n :: 0 <= n < |calls| ==> Served(root, cwd, trace[n], trace[n + 1], calls[n])
  }

  lemma TraceGrows(root: Path, cwd: Path, trace: seq<Moment>, calls: seq<Call>, n: nat, next: Moment)
    requires n < |calls| && IsTrace(root, cwd, trace, calls[..n]) && Served(root, cwd, trace[n], next, calls[n])
    ensures IsTrace(root, cwd, trace + [next], calls[..n + 1])
  {
  }

  lemma ContainedTwice(root: Path, t: Tree, t': Tree, t'': Tree)
    requires Contained(root, t, t') && Contained(root, t', t'')
    ensures Contained(root, t, t'')
  {
  }

  lemma CopyIsContained(
      root: Path, t: Tree, t': Tree, since: nat, room: nat, left: nat,
      item: Path, target: Path, suffix: string, r: Result<Path>)
    requires Copied(root, t, t', since, room, left, item, target, suffix, r)
    ensures Contained(root, t, t')
  {
    if t' != t {
      var c := if t[item].Folder? then if r.Ok? then CopiedFolder(item, target) else Litter(Temporary(target, suffix))
               else if r.Ok? then CopiedFile(item, target) else Truncated(item, target, room - 1);
      ChangeIsContained(root, t, t', since, c);
    }
  }

  lemma FinishStaysSane(root: Path, j: Job, f: Files, m: Medium)
    requires Sane(root, f.tree, f.now) && root < j.item && Clocked(Finish(j, f, m).1.tree, Finish(j, f, m).1.now)
    ensures Sane(root, Finish(j, f, m).1.tree, Finish(j, f, m).1.now)
    ensures Contained(root, f.tree, Finish(j, f, m).1.tree)
  {
    var (j', f', outcome) := Finish(j, f, m);
    RefusalLeavesTree(j, f, m);
    CommitIsChange(root, j, f, m);
    FailureIsChange(root, j, f, m);
    if f'.tree != f.tree {
      var c := if outcome == Committed' then Committed(j.item, File(j'.content, j'.stamp)) else Removed(j.item);
      ChangeKeepsTree(root, f.tree, f'.tree, f.now, c);
      ChangeIsContained(root, f.tree, f'.tree, f.now, c);
    }
  }

  // ----- requests of the provider alone -----

  method AnswerMakeFolder(p: LocalProvider, parentId: string, name: string)
    requires p.Ready()
    modifies p.fs
    ensures p.Ready() && Honest(old(p.fs.nodes), old(p.fs.now), p.fs.nodes, p.fs.now)
    ensures Contained(p.root, old(p.fs.nodes), p.fs.nodes)
    ensures Answers(p.root, p.cwd, old(p.fs.nodes), old(p.fs.now), old(p.fs.credit), p.fs.nodes, p.fs.credit,
                    MakeFolder(parentId, name))
  {
    ghost var t, since := p.fs.nodes, p.fs.now;
    var r := p.CreateFolder(parentId, name);
    if r.Ok? {
      ChangeIsContained(p.root, t, p.fs.nodes, since, NewFolder(r.value));
    }
  }

  method AnswerDelete(p: LocalProvider, id: string)
    requires p.Ready()
    modifies p.fs
    ensures p.Ready() && Honest(old(p.fs.nodes), old(p.fs.now), p.fs.nodes, p.fs.now)
    ensures Contained(p.root, old(p.fs.nodes), p.fs.nodes)
    ensures Answers(p.root, p.cwd, old(p.fs.nodes), old(p.fs.now), old(p.fs.credit), p.fs.nodes, p.fs.credit,
                    Delete(id))
  {
    ghost var t, since := p.fs.nodes, p.fs.now;
    var r := p.DeleteItem(id);
    if r.Ok? {
      ChangeIsContained(p.root, t, p.fs.nodes, since, Removed(r.value));
    }
  }

  method AnswerMove(p: LocalProvider, id: string, newParentId: string, newName: string)
    requires p.Ready()
    modifies p.fs
    ensures p.Ready() && Honest(old(p.fs.nodes), old(p.fs.now), p.fs.nodes, p.fs.now)
    ensures Contained(p.root, old(p.fs.nodes), p.fs.nodes)
    ensures Answers(p.root, p.cwd, old(p.fs.nodes), old(p.fs.now), old(p.fs.credit), p.fs.nodes, p.fs.credit,
                    MoveItem(id, newParentId, newName))
  {
    ghost var t, since, src := p.fs.nodes, p.fs.now, p.Item(id);
    var r := p.Move(id, newParentId, newName);
    if r.Ok? {
      ChangeIsContained(p.root, t, p.fs.nodes, since, Moved(src.value, r.value));
    }
  }

  /** A temporary name that is in use is not drawn. */
  method AnswerCopy(p: LocalProvider, id: string, newParentId: string, newName: string, suffix: string)
    requires p.Ready()
    modifies p.fs
    ensures p.Ready() && Honest(old(p.fs.nodes), old(p.fs.now), p.fs.nodes, p.fs.now)
    ensures Contained(p.root, old(p.fs.nodes), p.fs.nodes)
    ensures Answers(p.root, p.cwd, old(p.fs.nodes), old(p.fs.now), old(p.fs.credit), p.fs.nodes, p.fs.credit,
                    CopyItem(id, newParentId, newName, suffix))
  {
    ghost var t, since, room := p.fs.nodes, p.fs.now, p.fs.credit;
    var item, target := p.Item(id), p.Target(newParentId, newName);
    if target.Ok? && Temporary(target.value, suffix) in p.fs.nodes {
      NewSinceIsHonest(t, since, t, since);
      return;
    }
    var r := p.Copy(id, newParentId, newName, suffix);
    if item.Ok? && target.Ok? {
      CopyIsContained(p.root, t, p.fs.nodes, since, room, p.fs.credit, item.value, target.value, suffix, r);
    }
  }

  method AnswerRequest(p: LocalProvider, call: Call)
    requires p.Ready()
    modifies p.fs
    ensures p.Ready() && Honest(old(p.fs.nodes), old(p.fs.now), p.fs.nodes, p.fs.now)
    ensures Contained(p.root, old(p.fs.nodes), p.fs.nodes)
    ensures Answers(p.root, p.cwd, old(p.fs.nodes), old(p.fs.now), old(p.fs.credit), p.fs.nodes, p.fs.credit, call)
  {
    match call {
      case ListFolder(id) => var r := p.List(id);
      case MakeFolder(parentId, name) => AnswerMakeFolder(p, parentId, name);
      case Delete(id) => AnswerDelete(p, id);
      case MoveItem(id, newParentId, newName) => AnswerMove(p, id, newParentId, newName);
      case CopyItem(id, newParentId, newName, suffix) => AnswerCopy(p, id, newParentId, newName, suffix);
      case _ =>
    }
  }

  // ----- uploads that start -----

  ghost predicate IsStarted(root: Path, job: LocalUploadJob, start: Result<Job>, now: nat)
    reads job
  {
    && start.Ok? && start.value == NewJob(start.value.item, start.value.mode, start.value.size, now)
    && job.Abs() == start.value && root < job.item
  }

  method StartUpload(p: LocalProvider, call: Call) returns (r: Result<LocalUploadJob>)
    requires p.Ready() && IsStart(call)
    modifies p.fs
    ensures p.Ready() && p.fs.nodes == old(p.fs.nodes)
    ensures var start := StartOf(p.root, p.cwd, Files(old(p.fs.nodes), old(p.fs.now)), call);
            && (r.Ok? <==> start.Ok?)
            && (r.Ok? ==>
                  && fresh(r.value) && r.value.fs == p.fs && IsStarted(p.root, r.value, start, old(p.fs.now))
                  && p.fs.now == old(p.fs.now) + 1)
    ensures r.Err? ==> unchanged(p.fs)
  {
    match call {
      case BeginCreate(parentId, name, size, allowOverwrite) =>
        r := LocalUploadJob.StartCreateFile(p, parentId, name, size, allowOverwrite);
      case BeginUpdate(id, size, oldEtag) =>
        r := LocalUploadJob.StartUpdateFile(p, id, size, oldEtag);
    }
  }

  // ----- requests and uploads -----

  /** One `finish` of an upload in progress, as a step. */
  lemma FinishStep(root: Path, w: World, i: nat, m: Medium)
    requires Inv(w) && Alive(w, i) && Sane(root, w.files.tree, w.files.now) && root < w.jobs[i].item
    ensures var w' := Step(w, FinishRequested(i, m));
            Inv(w') && Sane(root, w'.files.tree, w'.files.now) && Contained(root, w.files.tree, w'.files.tree)
  {
    StepKeepsInv(w, FinishRequested(i, m));
    FinishStaysSane(root, w.jobs[i], w.files, m);
  }

  class Service {
    const provider: LocalProvider
    var jobs: seq<LocalUploadJob>
    /** The guarded updates that committed. */
    ghost var swaps: seq<Swap>

    ghost function Values(): (values: seq<Job>)
      reads this, jobs
      ensures |values| == |jobs| && forall i :: 0 <= i < |jobs| ==> values[i] == jobs[i].Abs()
    {
      seq(|jobs|, i requires 0 <= i < |jobs| reads this, jobs => jobs[i].Abs())
    }

    ghost function Abs(): World
      reads this, jobs, provider.fs
    {
      World(Files(provider.fs.nodes, provider.fs.now), Values(), swaps)
    }

    ghost predicate Valid()
      reads this, jobs, provider, provider.fs
    {
      provider.Ready() && Inv(Abs()) && Linked()
    }

    /** The jobs are different objects, on this provider's files. */
    ghost predicate Linked()
      reads this, jobs, provider
    {
      && (forall i, j :: 0 <= i < j < |jobs| ==> jobs[i] != jobs[j])
      && (forall i :: 0 <= i < |jobs| ==> jobs[i].fs == provider.fs && provider.root < jobs[i].item)
    }

    lemma ValidAs(w: World)
      requires Abs() == w && Inv(w) && Sane(provider.root, w.files.tree, w.files.now)
      requires ProperPath(provider.root) && Linked()
      ensures Valid()
    {
    }

    constructor (provider: LocalProvider)
      requires provider.Ready()
      ensures this.provider == provider && jobs == [] && swaps == [] && Valid()
    {
      this.provider, jobs, swaps := provider, [], [];
    }

    ghost function Now(): Moment
      reads this, jobs, provider.fs
    {
      Moment(Abs(), provider.fs.credit)
    }

    /** Requests that are answered at once. */
    method Answer(call: Call)
      requires Valid() && IsRequest(call)
      modifies provider.fs
      ensures Valid() && Contained(provider.root, old(provider.fs.nodes), provider.fs.nodes)
      ensures Served(provider.root, provider.cwd, old(Now()), Now(), call)
    {
      ghost var w := Abs();
      AnswerRequest(provider, call);
      ElsewhereKeepsInv(w, Files(provider.fs.nodes, provider.fs.now));
      assert Values() == w.jobs;
    }

    /** Takes a job that was just started from the state `w`. */
    method Accept(job: LocalUploadJob, ghost start: Result<Job>, ghost w: World)
      requires provider.Ready() && Linked() && Inv(w) && w.jobs == Values() && w.swaps == swaps
      requires IsStarted(provider.root, job, start, w.files.now) && job !in jobs && job.fs == provider.fs
      requires Files(provider.fs.nodes, provider.fs.now) == w.files.(now := w.files.now + 1)
      modifies `jobs
      ensures Valid() && jobs == old(jobs) + [job] && Abs() == Started(w, start)
    {
      StartKeepsInv(w, start);
      jobs := jobs + [job];
      assert Values() == w.jobs + [start.value];
      assert Abs() == Started(w, start);
    }

    /** Requests that start an upload. */
    method Begin(call: Call)
      requires Valid() && IsStart(call)
      modifies `jobs, provider.fs
      ensures Valid() && provider.fs.nodes == old(provider.fs.nodes)
      ensures Abs() == Started(old(Abs()), StartOf(provider.root, provider.cwd, old(Abs()).files, call))
      ensures forall i :: 0 <= i < |jobs| ==> jobs[i] in old(jobs) || fresh(jobs[i])
    {
      ghost var w := Abs();
      var r := StartUpload(provider, call);
      assert Values() == w.jobs && Linked();
      if r.Ok? {
        Accept(r.value, StartOf(provider.root, provider.cwd, w.files, call), w);
      } else {
        assert Abs() == w;
      }
    }

    method ArriveOne(i: nat, bytes: seq<byte>)
      requires Valid() && i < |jobs| && jobs[i].progress == InProgress
      modifies jobs
      ensures Valid() && Abs() == Step(old(Abs()), Sent(i, bytes))
    {
      ghost var w := Abs();
      StepKeepsInv(w, Sent(i, bytes));
      jobs[i].Receive(bytes);
      assert Values() == w.jobs[i := jobs[i].Abs()];
      assert Abs() == Step(w, Sent(i, bytes));
    }

    method ReadOne(i: nat, write: Io)
      requires Valid() && i < |jobs| && jobs[i].progress != Cancelled
      modifies jobs, provider.fs
      ensures Valid() && provider.fs.nodes == old(provider.fs.nodes)
      ensures Abs() == Step(old(Abs()), Ready(i, write))
    {
      ghost var w := Abs();
      StepKeepsInv(w, Ready(i, write));
      jobs[i].OnBytesReady(write);
      assert Values() == w.jobs[i := jobs[i].Abs()];
      assert Abs() == Step(w, Ready(i, write));
    }

    method CancelOne(i: nat)
      requires Valid() && i < |jobs|
      modifies jobs
      ensures Valid() && Abs() == Step(old(Abs()), CancelRequested(i))
    {
      ghost var w := Abs();
      StepKeepsInv(w, CancelRequested(i));
      jobs[i].Cancel();
      assert Values() == w.jobs[i := jobs[i].Abs()];
      assert Abs() == Step(w, CancelRequested(i));
    }

    method Continue(call: Call)
      requires Valid() && !IsRequest(call) && !IsStart(call)
      modifies this`swaps, jobs, provider.fs
      ensures Valid() && Contained(provider.root, old(provider.fs.nodes), provider.fs.nodes)
      ensures Abs() == Continued(old(Abs()), call)
    {
      match call {
        case Arrived(i, bytes) =>
          if i < |jobs| && jobs[i].progress == InProgress {
            ArriveOne(i, bytes);
          }
        case Readable(i, write) =>
          if i < |jobs| && jobs[i].progress != Cancelled {
            ReadOne(i, write);
          }
        case FinishJob(i, m) =>
          if i < |jobs| && jobs[i].progress == InProgress {
            FinishOne(i, m);
          }
        case CancelJob(i) =>
          if i < |jobs| {
            CancelOne(i);
          }
      }
    }

    method FinishHeld(i: nat, m: Medium)
      requires Linked() && i < |jobs|
      modifies this`swaps, jobs, provider.fs
      ensures Linked() && Abs() == Step(old(Abs()), FinishRequested(i, m))
    {
      ghost var w := Abs();
      var outcome := jobs[i].FinishUpload(m);
      swaps := if outcome == Committed' then w.swaps + Swapped(w.jobs[i], w.files.tree) else w.swaps;
      assert Values() == w.jobs[i := jobs[i].Abs()];
    }

    method FinishOne(i: nat, m: Medium)
      requires Valid() && i < |jobs| && jobs[i].progress == InProgress
      modifies this`swaps, jobs, provider.fs
      ensures Valid() && Contained(provider.root, old(provider.fs.nodes), provider.fs.nodes)
      ensures Abs() == Step(old(Abs()), FinishRequested(i, m))
    {
      ghost var w := Abs();
      FinishStep(provider.root, w, i, m);
      FinishHeld(i, m);
      ValidAs(Step(w, FinishRequested(i, m)));
    }

    method ServeOne(call: Call)
      requires Valid()
      modifies this, jobs, provider.fs
      ensures Valid() && Contained(provider.root, old(provider.fs.nodes), provider.fs.nodes)
      ensures Served(provider.root, provider.cwd, old(Now()), Now(), call)
      ensures forall i :: 0 <= i < |jobs| ==> jobs[i] in old(jobs) || fresh(jobs[i])
    {
      if IsRequest(call) {
        Answer(call);
      } else if IsStart(call) {
        Begin(call);
      } else {
        Continue(call);
      }
    }

    /** However many requests are served, in whatever order, each one does what it should (`trace` lists
        the moments between them), what does not lie strictly below the root is as it was, the root is a
        folder in a tree, and all guarded updates that committed had different ETags. */
    method Serve(calls: seq<Call>) returns (ghost trace: seq<Moment>)
      requires Valid()
      modifies this, jobs, provider.fs
      ensures IsTrace(provider.root, provider.cwd, trace, calls)
      ensures trace[0] == old(Now()) && trace[|calls|] == Now()
      ensures Valid() && Contained(provider.root, old(provider.fs.nodes), provider.fs.nodes)
      ensures forall k, l :: 0 <= k < l < |swaps| ==> swaps[k].etag != swaps[l].etag
    {
      ghost var t := provider.fs.nodes;
      trace := [Now()];
      for n := 0 to |calls|
        invariant Valid() && Contained(provider.root, t, provider.fs.nodes)
        invariant forall i :: 0 <= i < |jobs| ==> jobs[i] in old(jobs) || fresh(jobs[i])
        invariant IsTrace(provider.root, provider.cwd, trace, calls[..n]) && trace[0] == old(Now()) && trace[n] == Now()
      {
        ghost var t' := provider.fs.nodes;
        ServeOne(calls[n]);
        ContainedTwice(provider.root, t, t', provider.fs.nodes);
        TraceGrows(provider.root, provider.cwd, trace, calls, n, Now());
        trace := trace + [Now()];
      }
      assert calls[..|calls|] == calls;
      EtagsDiffer(Abs());
    }
  }
}

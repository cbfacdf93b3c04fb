/** Who may call what on an upload or download job.

    Client requests, retries of those requests, client disconnects, reports that jobs make from
    their own threads, and the shutdown of the account interleave freely.  The headers promise
    provider authors that `finish` and `cancel` are called at most once in total, and never after
    the job has reported its own outcome; `AtMostOneEnd` is that promise for every run. */
module JobProtocol {
  import opened OrderedMap
  import opened PendingJobs
  import opened Peers

  datatype Outcome = Complete | Failed

  /** What happened at the interface of one job: the job reported, or one of its methods ran. */
  datatype Call = Reported(outcome: Outcome) | FinishCalled | CancelCalled {
    predicate Ends() {
      FinishCalled? || CancelCalled?
    }
  }

  /** `taken` counts how often the future of the completion promise was taken. */
  datatype Job = Job(completed: bool, taken: nat, log: seq<Call>)

  const NEW_JOB := Job(false, 0, [])

  function Report(j: Job, outcome: Outcome): Job {
    j.(completed := true, log := j.log + [Reported(outcome)])
  }

  function Finish(j: Job): Job {
    if j.completed then j.(taken := j.taken + 1) else j.(log := j.log + [FinishCalled])
  }

  function Cancel(j: Job): Job {
    if j.completed then j else j.(log := j.log + [CancelCalled])
  }

  /** The runtime's half of a job, as coded for uploads and for downloads. */
  class JobImpl {
    var completed: bool
    var taken: nat
    var log: seq<Call>

    function Abs(): Job
      reads this
    {
      Job(completed, taken, log)
    }

    constructor ()
      ensures Abs() == NEW_JOB
    {
      completed, taken, log := false, 0, [];
    }

    method ReportError()
      modifies this
      ensures Abs() == Report(old(Abs()), Failed)
    {
      completed := true;
      log := log + [Reported(Failed)];
    }

    method ReportComplete()
      modifies this
      ensures Abs() == Report(old(Abs()), Complete)
    {
      completed := true;
      log := log + [Reported(Complete)];
    }

    method FinishJob() returns (fromPromise: bool)
      modifies this
      ensures Abs() == Finish(old(Abs()))
      ensures fromPromise == old(completed)
    {
      if completed {
        taken := taken + 1;
        return true;
      }
      log := log + [FinishCalled];
      return false;
    }

    method CancelJob()
      modifies this
      ensures Abs() == Cancel(old(Abs()))
    {
      if completed {
        return;
      }
      log := log + [CancelCalled];
    }
  }

  // ----- the whole account -----

  datatype World = World(pending: State, jobs: seq<Job>, alive: bool)

  const START := World(INITIAL, [], true)

  datatype Event =
    | Started(kind: Kind, key: Key)
    | FinishRequest(kind: Kind, key: Key)
    | CancelRequest(kind: Kind, key: Key)
    | ClientGone(peer: Peer)
    | JobReports(job: nat, outcome: Outcome)
    | Shutdown

  function OnJob(jobs: seq<Job>, r: nat, f: Job -> Job): seq<Job> {
    if r < |jobs| then jobs[r := f(jobs[r])] else jobs
  }

  function CancelAll(jobs: seq<Job>, rs: seq<nat>): (jobs': seq<Job>)
    ensures |jobs'| == |jobs|
    decreases |rs|
  {
    if rs == [] then jobs else CancelAll(OnJob(jobs, rs[0], Cancel), rs[1..])
  }

  /** A request takes the job out of the table first, and does nothing if it is not there. */
  function EndRequest(w: World, kind: Kind, key: Key, f: Job -> Job): World {
    var i := Find(w.pending.Table(kind), key);
    if i < 0 then w
    else World(Remove(w.pending, kind, key), OnJob(w.jobs, w.pending.Table(kind)[i].job, f), w.alive)
  }

  function Step(w: World, e: Event): World {
    match e
    case Started(kind, key) =>
      World(Add(w.pending, kind, Entry(key, |w.jobs|)), w.jobs + [NEW_JOB], w.alive)
    case FinishRequest(kind, key) => EndRequest(w, kind, key, Finish)
    case CancelRequest(kind, key) => EndRequest(w, kind, key, Cancel)
    case ClientGone(c) =>
      World(Disconnect(w.pending, c),
            CancelAll(w.jobs, JobsOf(w.pending.downloads, c) + JobsOf(w.pending.uploads, c)), w.alive)
    case JobReports(r, outcome) => w.(jobs := OnJob(w.jobs, r, j => Report(j, outcome)))
    case Shutdown =>
      w.(jobs := CancelAll(w.jobs, Jobs(w.pending.downloads) + Jobs(w.pending.uploads)), alive := false)
  }

  /** Job ids are unique among the jobs in progress, a job reports once at most, and the account
      serves nobody after it was shut down. */
  predicate Enabled(w: World, e: Event) {
    && (!e.JobReports? ==> w.alive)
    && (e.Started? ==> !Contains(w.pending.Table(e.kind), e.key))
    && (e.JobReports? ==> e.job < |w.jobs| && !w.jobs[e.job].completed)
  }

  ghost predicate IsRun(w: World, es: seq<Event>)
    decreases |es|
  {
    es == [] || (Enabled(w, es[0]) && IsRun(Step(w, es[0]), es[1..]))
  }

  ghost function Run(w: World, es: seq<Event>): World
    decreases |es|
  {
    if es == [] then w else Run(Step(w, es[0]), es[1..])
  }

  // ----- the invariant -----

  /** The promise of the headers, for the log of one job. */
  ghost predicate AtMostOnce(log: seq<Call>) {
    forall i, j :: 0 <= i < j < |log| ==> !((log[i].Ends() || log[i].Reported?) && log[j].Ends())
  }

  ghost predicate WellBehaved(j: Job) {
    && AtMostOnce(j.log)
    && j.taken <= 1
    && (j.completed <==> exists i :: 0 <= i < |j.log| && j.log[i].Reported?)
  }

  /** A job in the table has not been finished or cancelled, and nobody waits for its promise. */
  ghost predicate Untouched(j: Job) {
    j.taken == 0 && forall i :: 0 <= i < |j.log| ==> !j.log[i].Ends()
  }

  ghost predicate Owner(s: State, kind: Kind, e: Entry) {
    e in s.Table(kind)
  }

  /** No job is in two places of the table. */
  ghost predicate OneOwner(s: State) {
    forall kind, e, kind', e' :: Owner(s, kind, e) && Owner(s, kind', e') && e.job == e'.job ==>
      kind == kind' && e == e'
  }

  ghost predicate HeldUntouched(w: World) {
    forall kind, e :: Owner(w.pending, kind, e) ==> e.job < |w.jobs| && (w.alive ==> Untouched(w.jobs[e.job]))
  }

  ghost predicate Inv(w: World) {
    && Valid(w.pending)
    && OneOwner(w.pending)
    && HeldUntouched(w)
    && forall r :: 0 <= r < |w.jobs| ==> WellBehaved(w.jobs[r])
  }

  // ----- one job, one call -----

  lemma ReportBehaves(j: Job, outcome: Outcome)
    requires WellBehaved(j) && !j.completed
    ensures WellBehaved(Report(j, outcome))
    ensures Untouched(j) ==> Untouched(Report(j, outcome))
  {
    assert Report(j, outcome).log[|j.log|].Reported?;
  }

  lemma EndBehaves(j: Job)
    requires WellBehaved(j) && Untouched(j)
    ensures WellBehaved(Finish(j)) && WellBehaved(Cancel(j))
  {
    if j.completed {
      var i :| 0 <= i < |j.log| && j.log[i].Reported?;
      assert Finish(j).log[i].Reported?;
    }
  }

  // ----- the table -----

  lemma EmplaceMembers(s: seq<Entry>, e: Entry, x: Entry)
    requires Find(s, e.key) < 0
    ensures x in Emplace(s, e) <==> x in s || x == e
  {
    var i := LowerBound(s, e.key);
    assert s == s[..i] + s[i..];
  }

  lemma EraseMembers(s: seq<Entry>, i: nat, x: Entry)
    requires Sorted(s) && i < |s|
    ensures x in Erase(s, i) <==> x in s && x != s[i]
  {
    assert s == s[..i] + [s[i]] + s[i + 1..];
    if x == s[i] && x in Erase(s, i) {
      var j :| 0 <= j < |s| && j != i && s[j] == x;
      SortedKeysDiffer(s, i, j);
      assert false;
    }
  }

  lemma EraseDropsKey(s: seq<Entry>, i: nat)
    requires Sorted(s) && i < |s|
    ensures !Contains(Erase(s, i), s[i].key)
  {
    forall j | 0 <= j < |Erase(s, i)|
      ensures Erase(s, i)[j].key != s[i].key
    {
      SortedKeysDiffer(s, if j < i then j else j + 1, i);
    }
  }

  lemma StartMembers(s: State, kind: Kind, e: Entry, k: Kind, x: Entry)
    requires Sorted(s.Table(kind)) && !Contains(s.Table(kind), e.key)
    ensures Owner(Add(s, kind, e), k, x) <==> Owner(s, k, x) || (k == kind && x == e)
  {
    FindFinds(s.Table(kind), e.key);
    EmplaceMembers(s.Table(kind), e, x);
  }

  lemma StartKeepsOneOwner(s: State, kind: Kind, e: Entry)
    requires Sorted(s.Table(kind)) && !Contains(s.Table(kind), e.key) && OneOwner(s)
    requires forall k, x :: Owner(s, k, x) ==> x.job != e.job
    ensures OneOwner(Add(s, kind, e))
  {
    forall k, x
      ensures Owner(Add(s, kind, e), k, x) <==> Owner(s, k, x) || (k == kind && x == e)
    {
      StartMembers(s, kind, e, k, x);
    }
  }

  lemma StartKeepsInv(w: World, kind: Kind, key: Key)
    requires Inv(w) && Enabled(w, Started(kind, key))
    ensures Inv(Step(w, Started(kind, key)))
  {
    var w', e := Step(w, Started(kind, key)), Entry(key, |w.jobs|);
    AddKeepsValid(w.pending, kind, e);
    StartKeepsOneOwner(w.pending, kind, e);
    forall k, x | Owner(w'.pending, k, x)
      ensures x.job < |w'.jobs| && (w'.alive ==> Untouched(w'.jobs[x.job]))
    {
      StartMembers(w.pending, kind, e, k, x);
    }
  }

  lemma RemoveMembers(s: State, kind: Kind, key: Key, k: Kind, x: Entry)
    requires Valid(s) && Find(s.Table(kind), key) >= 0
    ensures Owner(Remove(s, kind, key), k, x)
       <==> Owner(s, k, x) && !(k == kind && x == s.Table(kind)[Find(s.Table(kind), key)])
  {
    EraseMembers(s.Table(kind), Find(s.Table(kind), key), x);
  }

  lemma EndKeepsInv(w: World, kind: Kind, key: Key, f: Job -> Job)
    requires Inv(w) && w.alive && (f == Finish || f == Cancel)
    requires forall j :: WellBehaved(j) && Untouched(j) ==> WellBehaved(f(j))
    ensures Inv(EndRequest(w, kind, key, f))
  {
    var i := Find(w.pending.Table(kind), key);
    if i >= 0 {
      var w' := EndRequest(w, kind, key, f);
      var e := w.pending.Table(kind)[i];
      RemoveKeepsValid(w.pending, kind, key);
      assert Owner(w.pending, kind, e);
      forall k, x
        ensures Owner(w'.pending, k, x) <==> Owner(w.pending, k, x) && !(k == kind && x == e)
      {
        RemoveMembers(w.pending, kind, key, k, x);
      }
    }
  }

  // ----- cancelling many jobs -----

  ghost predicate Distinct(rs: seq<nat>) {
    forall i, j :: 0 <= i < j < |rs| ==> rs[i] != rs[j]
  }

  lemma {:induction false} CancelAllEach(jobs: seq<Job>, rs: seq<nat>, r: nat)
    requires Distinct(rs) && r < |jobs|
    ensures CancelAll(jobs, rs)[r] == if r in rs then Cancel(jobs[r]) else jobs[r]
    decreases |rs|
  {
    if rs != [] {
      assert r in rs <==> r == rs[0] || r in rs[1..];
      CancelAllEach(OnJob(jobs, rs[0], Cancel), rs[1..], r);
    }
  }

  ghost predicate OneJobEach(s: seq<Entry>) {
    forall e, e' :: e in s && e' in s && e.job == e'.job ==> e == e'
  }

  lemma {:induction false} JobsOfDistinct(s: seq<Entry>, c: Peer)
    requires Sorted(s) && OneJobEach(s)
    ensures Distinct(JobsOf(s, c))
  {
    if s != [] {
      assert forall e :: e in s[1..] ==> e in s;
      JobsOfDistinct(s[1..], c);
      PartitionByPeer(s[1..], c);
      if s[0].job in JobsOf(s[1..], c) {
        var e :| e in s[1..] && e.key.peer == c && e.job == s[0].job;
        var k :| 0 <= k < |s[1..]| && s[1..][k] == e;
        SortedKeysDiffer(s, 0, k + 1);
        assert false;
      }
    }
  }

  lemma TableOneJobEach(s: State, kind: Kind)
    requires OneOwner(s)
    ensures OneJobEach(s.Table(kind))
  {
    forall e, e' | e in s.Table(kind) && e' in s.Table(kind) && e.job == e'.job
      ensures e == e'
    {
      assert Owner(s, kind, e) && Owner(s, kind, e');
    }
  }

  /** `rs` are held jobs, each once. */
  ghost predicate Held(w: World, rs: seq<nat>) {
    Distinct(rs) && forall r :: r in rs ==> exists kind, e :: Owner(w.pending, kind, e) && e.job == r
  }

  /** `rs` are jobs that the table `kind` holds, each once. */
  ghost predicate HeldIn(s: State, kind: Kind, rs: seq<nat>) {
    Distinct(rs) && forall r :: r in rs ==> exists e :: Owner(s, kind, e) && e.job == r
  }

  lemma HeldInBoth(w: World, ds: seq<nat>, us: seq<nat>)
    requires OneOwner(w.pending) && HeldIn(w.pending, Download, ds) && HeldIn(w.pending, Upload, us)
    ensures Held(w, ds + us)
  {
    forall i, j | 0 <= i < j < |ds + us|
      ensures (ds + us)[i] != (ds + us)[j]
    {
      if i < |ds| <= j {
        assert ds[i] in ds && us[j - |ds|] in us;
        var e :| Owner(w.pending, Download, e) && e.job == ds[i];
        var e' :| Owner(w.pending, Upload, e') && e'.job == us[j - |ds|];
      }
    }
  }

  lemma HeldJobsOf(s: State, kind: Kind, c: Peer)
    requires Valid(s) && OneOwner(s)
    ensures HeldIn(s, kind, JobsOf(s.Table(kind), c))
  {
    TableOneJobEach(s, kind);
    JobsOfDistinct(s.Table(kind), c);
    PartitionByPeer(s.Table(kind), c);
    forall r | r in JobsOf(s.Table(kind), c)
      ensures exists e :: Owner(s, kind, e) && e.job == r
    {
      var e :| e in s.Table(kind) && e.key.peer == c && e.job == r;
      assert Owner(s, kind, e);
    }
  }

  lemma HeldJobs(s: State, kind: Kind)
    requires Valid(s) && OneOwner(s)
    ensures HeldIn(s, kind, Jobs(s.Table(kind)))
  {
    var t := s.Table(kind);
    TableOneJobEach(s, kind);
    forall i, j | 0 <= i < j < |t|
      ensures t[i].job != t[j].job
    {
      SortedKeysDiffer(t, i, j);
    }
    forall r | r in Jobs(t)
      ensures exists e :: Owner(s, kind, e) && e.job == r
    {
      var i :| 0 <= i < |t| && t[i].job == r;
      assert Owner(s, kind, t[i]);
    }
  }

  lemma CancelKeepsWellBehaved(w: World, rs: seq<nat>)
    requires Inv(w) && w.alive && Held(w, rs)
    ensures forall r :: 0 <= r < |w.jobs| ==> WellBehaved(CancelAll(w.jobs, rs)[r])
    ensures forall r :: 0 <= r < |w.jobs| && r !in rs ==> CancelAll(w.jobs, rs)[r] == w.jobs[r]
  {
    forall r | 0 <= r < |w.jobs|
      ensures WellBehaved(CancelAll(w.jobs, rs)[r])
      ensures r !in rs ==> CancelAll(w.jobs, rs)[r] == w.jobs[r]
    {
      CancelAllEach(w.jobs, rs, r);
      if r in rs {
        var kind, e :| Owner(w.pending, kind, e) && e.job == r;
        EndBehaves(w.jobs[r]);
      }
    }
  }

  lemma DisconnectMembers(s: State, c: Peer, kind: Kind, e: Entry)
    ensures Owner(Disconnect(s, c), kind, e) <==> Owner(s, kind, e) && e.key.peer != c
  {
    PartitionByPeer(s.downloads, c);
    PartitionByPeer(s.uploads, c);
  }

  /** A job that survives a disconnect is not among those that were cancelled. */
  lemma SurvivorNotCancelled(s: State, c: Peer, kind: Kind, e: Entry)
    requires OneOwner(s) && Owner(Disconnect(s, c), kind, e)
    ensures Owner(s, kind, e) && e.job !in JobsOf(s.downloads, c) + JobsOf(s.uploads, c)
  {
    DisconnectMembers(s, c, kind, e);
    PartitionByPeer(s.downloads, c);
    PartitionByPeer(s.uploads, c);
    if e.job in JobsOf(s.downloads, c) {
      var e' :| e' in s.downloads && e'.key.peer == c && e'.job == e.job;
      assert Owner(s, Download, e');
      assert false;
    }
    if e.job in JobsOf(s.uploads, c) {
      var e' :| e' in s.uploads && e'.key.peer == c && e'.job == e.job;
      assert Owner(s, Upload, e');
      assert false;
    }
  }

  lemma GoneKeepsInv(w: World, c: Peer)
    requires Inv(w) && w.alive
    ensures Inv(Step(w, ClientGone(c)))
  {
    var w' := Step(w, ClientGone(c));
    DisconnectKeepsValid(w.pending, c);
    HeldJobsOf(w.pending, Download, c);
    HeldJobsOf(w.pending, Upload, c);
    HeldInBoth(w, JobsOf(w.pending.downloads, c), JobsOf(w.pending.uploads, c));
    CancelKeepsWellBehaved(w, JobsOf(w.pending.downloads, c) + JobsOf(w.pending.uploads, c));
    forall kind, e | Owner(w'.pending, kind, e)
      ensures Owner(w.pending, kind, e) && w'.jobs[e.job] == w.jobs[e.job]
    {
      SurvivorNotCancelled(w.pending, c, kind, e);
    }
  }

  lemma StepKeepsInv(w: World, e: Event)
    requires Inv(w) && Enabled(w, e)
    ensures Inv(Step(w, e))
  {
    match e {
      case Started(kind, key) =>
        StartKeepsInv(w, kind, key);
      case FinishRequest(kind, key) =>
        forall j | WellBehaved(j) && Untouched(j) ensures WellBehaved(Finish(j)) { EndBehaves(j); }
        EndKeepsInv(w, kind, key, Finish);
      case CancelRequest(kind, key) =>
        forall j | WellBehaved(j) && Untouched(j) ensures WellBehaved(Cancel(j)) { EndBehaves(j); }
        EndKeepsInv(w, kind, key, Cancel);
      case ClientGone(c) =>
        GoneKeepsInv(w, c);
      case JobReports(r, outcome) =>
        ReportBehaves(w.jobs[r], outcome);
      case Shutdown =>
        HeldJobs(w.pending, Download);
        HeldJobs(w.pending, Upload);
        HeldInBoth(w, Jobs(w.pending.downloads), Jobs(w.pending.uploads));
        CancelKeepsWellBehaved(w, Jobs(w.pending.downloads) + Jobs(w.pending.uploads));
    }
  }

  lemma {:induction false} RunKeepsInv(w: World, es: seq<Event>)
    requires Inv(w) && IsRun(w, es)
    ensures Inv(Run(w, es))
    decreases |es|
  {
    if es != [] {
      StepKeepsInv(w, es[0]);
      RunKeepsInv(Step(w, es[0]), es[1..]);
    }
  }

  // ----- the results -----

  /** Over every interleaving, `finish` and `cancel` of a job run at most once in total, neither
      runs after the job reported, and the future of its promise is taken at most once. */
  lemma AtMostOneEnd(es: seq<Event>, r: nat)
    requires IsRun(START, es) && r < |Run(START, es).jobs|
    ensures AtMostOnce(Run(START, es).jobs[r].log)
    ensures Run(START, es).jobs[r].taken <= 1
  {
    RunKeepsInv(START, es);
    assert WellBehaved(Run(START, es).jobs[r]);
  }

  /** Somebody took care of the job: it reported, was finished, or was cancelled. */
  ghost predicate Settled(j: Job) {
    j.completed || exists i :: 0 <= i < |j.log| && j.log[i].Ends()
  }

  ghost predicate IsHeld(s: State, r: nat) {
    exists kind, e :: Owner(s, kind, e) && e.job == r
  }

  ghost predicate NoneForgotten(w: World) {
    forall r :: 0 <= r < |w.jobs| ==> (w.alive && IsHeld(w.pending, r)) || Settled(w.jobs[r])
  }

  lemma CallsSettle(j: Job, outcome: Outcome)
    ensures Settled(Finish(j)) && Settled(Cancel(j)) && Settled(Report(j, outcome))
  {
    assert j.completed || Finish(j).log[|j.log|].Ends();
    assert j.completed || Cancel(j).log[|j.log|].Ends();
  }

  lemma StartForgetsNone(w: World, kind: Kind, key: Key)
    requires Valid(w.pending) && NoneForgotten(w) && Enabled(w, Started(kind, key))
    ensures NoneForgotten(Step(w, Started(kind, key)))
  {
    var w' := Step(w, Started(kind, key));
    var e := Entry(key, |w.jobs|);
    FindFinds(w.pending.Table(kind), key);
    EmplaceMembers(w.pending.Table(kind), e, e);
    assert Owner(w'.pending, kind, e);
    forall r: nat | IsHeld(w.pending, r)
      ensures IsHeld(w'.pending, r)
    {
      var k, x :| Owner(w.pending, k, x) && x.job == r;
      EmplaceMembers(w.pending.Table(kind), e, x);
      assert Owner(w'.pending, k, x);
    }
  }

  lemma EndForgetsNone(w: World, kind: Kind, key: Key, f: Job -> Job)
    requires Valid(w.pending) && NoneForgotten(w) && w.alive && forall j :: Settled(f(j))
    ensures NoneForgotten(EndRequest(w, kind, key, f))
  {
    var i := Find(w.pending.Table(kind), key);
    if i >= 0 {
      var w', e := EndRequest(w, kind, key, f), w.pending.Table(kind)[i];
      forall r: nat | IsHeld(w.pending, r) && r != e.job
        ensures IsHeld(w'.pending, r)
      {
        var k, x :| Owner(w.pending, k, x) && x.job == r;
        RemoveMembers(w.pending, kind, key, k, x);
        assert Owner(w'.pending, k, x);
      }
    }
  }

  lemma GoneForgetsNone(w: World, c: Peer)
    requires Inv(w) && NoneForgotten(w) && w.alive
    ensures NoneForgotten(Step(w, ClientGone(c)))
  {
    var w' := Step(w, ClientGone(c));
    var rs := JobsOf(w.pending.downloads, c) + JobsOf(w.pending.uploads, c);
    HeldJobsOf(w.pending, Download, c);
    HeldJobsOf(w.pending, Upload, c);
    HeldInBoth(w, JobsOf(w.pending.downloads, c), JobsOf(w.pending.uploads, c));
    forall r: nat | r < |w.jobs|
      ensures (w'.alive && IsHeld(w'.pending, r)) || Settled(w'.jobs[r])
    {
      CancelAllEach(w.jobs, rs, r);
      CallsSettle(w.jobs[r], Complete);
      if IsHeld(w.pending, r) && r !in rs {
        var k, x :| Owner(w.pending, k, x) && x.job == r;
        PartitionByPeer(w.pending.Table(k), c);
        DisconnectMembers(w.pending, c, k, x);
        assert Owner(w'.pending, k, x);
      }
    }
  }

  lemma ShutdownForgetsNone(w: World)
    requires Inv(w) && NoneForgotten(w) && w.alive
    ensures NoneForgotten(Step(w, Shutdown))
  {
    var w' := Step(w, Shutdown);
    var rs := Jobs(w.pending.downloads) + Jobs(w.pending.uploads);
    HeldJobs(w.pending, Download);
    HeldJobs(w.pending, Upload);
    HeldInBoth(w, Jobs(w.pending.downloads), Jobs(w.pending.uploads));
    forall r: nat | r < |w.jobs|
      ensures Settled(w'.jobs[r])
    {
      CancelAllEach(w.jobs, rs, r);
      CallsSettle(w.jobs[r], Complete);
      if IsHeld(w.pending, r) {
        var k, x :| Owner(w.pending, k, x) && x.job == r;
        var i :| 0 <= i < |w.pending.Table(k)| && w.pending.Table(k)[i] == x;
        assert Jobs(w.pending.Table(k))[i] == r;
        assert r in rs;
      }
    }
  }

  lemma StepForgetsNone(w: World, e: Event)
    requires Inv(w) && NoneForgotten(w) && Enabled(w, e)
    ensures NoneForgotten(Step(w, e))
  {
    forall j ensures Settled(Finish(j)) && Settled(Cancel(j)) { CallsSettle(j, Complete); }
    match e {
      case Started(kind, key) => StartForgetsNone(w, kind, key);
      case FinishRequest(kind, key) => EndForgetsNone(w, kind, key, Finish);
      case CancelRequest(kind, key) => EndForgetsNone(w, kind, key, Cancel);
      case ClientGone(c) => GoneForgetsNone(w, c);
      case JobReports(r, outcome) => CallsSettle(w.jobs[r], outcome);
      case Shutdown => ShutdownForgetsNone(w);
    }
  }

  lemma {:induction false} RunForgetsNone(w: World, es: seq<Event>)
    requires Inv(w) && NoneForgotten(w) && IsRun(w, es)
    ensures NoneForgotten(Run(w, es))
    decreases |es|
  {
    if es != [] {
      StepKeepsInv(w, es[0]);
      StepForgetsNone(w, es[0]);
      RunForgetsNone(Step(w, es[0]), es[1..]);
    }
  }

  /** No job is forgotten: it is in the table of a living account, neither finished nor cancelled, or
      it reported, was finished, or was cancelled. */
  lemma NoJobIsForgotten(es: seq<Event>, r: nat)
    requires IsRun(START, es) && r < |Run(START, es).jobs|
    ensures var w := Run(START, es);
            if w.alive && IsHeld(w.pending, r) then Untouched(w.jobs[r]) else Settled(w.jobs[r])
  {
    RunKeepsInv(START, es);
    RunForgetsNone(START, es);
    var w := Run(START, es);
    if w.alive && IsHeld(w.pending, r) {
      var kind, e :| Owner(w.pending, kind, e) && e.job == r;
    }
  }

  // ----- who is told what -----

  /** The event finishes job `r`: a finish request names its key. */
  ghost predicate Finishes(s: State, e: Event, r: nat) {
    e.FinishRequest? && Owner(s, e.kind, Entry(e.key, r))
  }

  /** The event cancels job `r`: a cancel request names its key, its client is gone, or the account is. */
  ghost predicate Cancels(s: State, e: Event, r: nat) {
    match e
    case CancelRequest(kind, key) => Owner(s, kind, Entry(key, r))
    case ClientGone(c) => exists kind, x :: Owner(s, kind, x) && x.key.peer == c && x.job == r
    case Shutdown => IsHeld(s, r)
    case _ => false
  }

  lemma FoundIs(s: State, kind: Kind, key: Key, r: nat)
    requires Valid(s)
    ensures Owner(s, kind, Entry(key, r)) <==>
              Find(s.Table(kind), key) >= 0 && s.Table(kind)[Find(s.Table(kind), key)].job == r
  {
    var t := s.Table(kind);
    if Owner(s, kind, Entry(key, r)) {
      var i :| 0 <= i < |t| && t[i] == Entry(key, r);
      FindIs(t, i);
    } else if Find(t, key) >= 0 {
      assert t[Find(t, key)] in t;
    }
  }

  lemma GoneAreListed(s: State, c: Peer, r: nat)
    ensures r in JobsOf(s.downloads, c) + JobsOf(s.uploads, c) <==> Cancels(s, ClientGone(c), r)
  {
    PartitionByPeer(s.downloads, c);
    PartitionByPeer(s.uploads, c);
    if r in JobsOf(s.downloads, c) {
      var x :| x in s.downloads && x.key.peer == c && x.job == r;
      assert Owner(s, Download, x);
    }
    if r in JobsOf(s.uploads, c) {
      var x :| x in s.uploads && x.key.peer == c && x.job == r;
      assert Owner(s, Upload, x);
    }
  }

  lemma HeldAreListed(s: State, r: nat)
    ensures r in Jobs(s.downloads) + Jobs(s.uploads) <==> IsHeld(s, r)
  {
    forall kind
      ensures r in Jobs(s.Table(kind)) <==> exists x :: Owner(s, kind, x) && x.job == r
    {
      var t := s.Table(kind);
      if r in Jobs(t) {
        var i :| 0 <= i < |t| && Jobs(t)[i] == r;
        assert Owner(s, kind, t[i]);
      }
      if exists x :: Owner(s, kind, x) && x.job == r {
        var x :| Owner(s, kind, x) && x.job == r;
        var i :| 0 <= i < |t| && t[i] == x;
        assert Jobs(t)[i] == r;
      }
    }
    assert s.Table(Download) == s.downloads && s.Table(Upload) == s.uploads;
  }

  lemma GoneTells(w: World, c: Peer, r: nat)
    requires Inv(w) && r < |w.jobs|
    ensures Step(w, ClientGone(c)).jobs[r]
         == if Cancels(w.pending, ClientGone(c), r) then Cancel(w.jobs[r]) else w.jobs[r]
  {
    HeldJobsOf(w.pending, Download, c);
    HeldJobsOf(w.pending, Upload, c);
    HeldInBoth(w, JobsOf(w.pending.downloads, c), JobsOf(w.pending.uploads, c));
    CancelAllEach(w.jobs, JobsOf(w.pending.downloads, c) + JobsOf(w.pending.uploads, c), r);
    GoneAreListed(w.pending, c, r);
  }

  lemma ShutdownTells(w: World, r: nat)
    requires Inv(w) && r < |w.jobs|
    ensures Step(w, Shutdown).jobs[r] == if IsHeld(w.pending, r) then Cancel(w.jobs[r]) else w.jobs[r]
  {
    HeldJobs(w.pending, Download);
    HeldJobs(w.pending, Upload);
    HeldInBoth(w, Jobs(w.pending.downloads), Jobs(w.pending.uploads));
    CancelAllEach(w.jobs, Jobs(w.pending.downloads) + Jobs(w.pending.uploads), r);
    HeldAreListed(w.pending, r);
  }

  /** In every run each job is told exactly what it should be: a finish request finishes the job that it
      names, a cancel request, the end of the client and the end of the account cancel the jobs
      concerned, a report is recorded, and no other job notices.  A job that reported is not called any
      more; a finish request then takes its promise's future, and nothing else does. */
  lemma JobsAreTold(es: seq<Event>, e: Event, r: nat)
    requires IsRun(START, es) && Enabled(Run(START, es), e) && r < |Run(START, es).jobs|
    ensures var w := Run(START, es);
            var j, j' := w.jobs[r], Step(w, e).jobs[r];
            if Finishes(w.pending, e, r) then
              j' == if j.completed then Job(true, j.taken + 1, j.log) else Job(false, j.taken, j.log + [FinishCalled])
            else if Cancels(w.pending, e, r) then
              j' == if j.completed then j else Job(false, j.taken, j.log + [CancelCalled])
            else if e.JobReports? && e.job == r then j' == Job(true, j.taken, j.log + [Reported(e.outcome)])
            else j' == j
  {
    RunKeepsInv(START, es);
    var w := Run(START, es);
    match e {
      case FinishRequest(kind, key) => FoundIs(w.pending, kind, key, r);
      case CancelRequest(kind, key) => FoundIs(w.pending, kind, key, r);
      case ClientGone(c) => GoneTells(w, c, r);
      case Shutdown => ShutdownTells(w, r);
      case _ =>
    }
  }

  /** In every run the table loses exactly the entries that an event is about, and gains exactly those of
      jobs that start, which are new. */
  lemma TableFollows(es: seq<Event>, e: Event, kind: Kind, x: Entry)
    requires IsRun(START, es) && Enabled(Run(START, es), e)
    ensures var w, w' := Run(START, es), Step(Run(START, es), e);
            && (Owner(w'.pending, kind, x) <==>
                  match e
                  case Started(k, key) => Owner(w.pending, kind, x) || (kind == k && x == Entry(key, |w.jobs|))
                  case FinishRequest(k, key) => Owner(w.pending, kind, x) && !(kind == k && x.key == key)
                  case CancelRequest(k, key) => Owner(w.pending, kind, x) && !(kind == k && x.key == key)
                  case ClientGone(c) => Owner(w.pending, kind, x) && x.key.peer != c
                  case _ => Owner(w.pending, kind, x))
            && |w'.jobs| == |w.jobs| + (if e.Started? then 1 else 0)
            && (e.Started? ==> w'.jobs[|w.jobs|] == Job(false, 0, []))
            && (w'.alive <==> w.alive && e != Shutdown)
  {
    RunKeepsInv(START, es);
    var w := Run(START, es);
    match e {
      case Started(k, key) => StartMembers(w.pending, k, Entry(key, |w.jobs|), kind, x);
      case FinishRequest(k, key) => EndedIsGone(w.pending, k, key, kind, x);
      case CancelRequest(k, key) => EndedIsGone(w.pending, k, key, kind, x);
      case ClientGone(c) => DisconnectMembers(w.pending, c, kind, x);
      case _ =>
    }
  }

  lemma EndedIsGone(s: State, k: Kind, key: Key, kind: Kind, x: Entry)
    requires Valid(s)
    ensures Owner(Remove(s, k, key), kind, x) <==> Owner(s, kind, x) && !(kind == k && x.key == key)
  {
    FoundIs(s, k, key, x.job);
    if Find(s.Table(k), key) >= 0 {
      RemoveMembers(s, k, key, kind, x);
    }
    assert x.key == key ==> x == Entry(key, x.job);
  }

  predicate EndsJob(e: Event, kind: Kind, key: Key) {
    e == FinishRequest(kind, key) || e == CancelRequest(kind, key)
  }

  /** Only a start brings a job into the table. */
  lemma NoNewOwner(w: World, e: Event, kind: Kind, x: Entry)
    requires Valid(w.pending) && Enabled(w, e) && Owner(Step(w, e).pending, kind, x)
    ensures Owner(w.pending, kind, x) || e == Started(kind, x.key)
  {
    match e {
      case Started(k, key) =>
        FindFinds(w.pending.Table(k), key);
        EmplaceMembers(w.pending.Table(k), Entry(key, |w.jobs|), x);
      case FinishRequest(k, key) =>
        if Find(w.pending.Table(k), key) >= 0 { RemoveMembers(w.pending, k, key, kind, x); }
      case CancelRequest(k, key) =>
        if Find(w.pending.Table(k), key) >= 0 { RemoveMembers(w.pending, k, key, kind, x); }
      case ClientGone(c) => DisconnectMembers(w.pending, c, kind, x);
      case _ =>
    }
  }

  lemma AbsentStaysAbsent(w: World, e: Event, kind: Kind, key: Key)
    requires Valid(w.pending) && Enabled(w, e) && e != Started(kind, key)
    requires !Contains(w.pending.Table(kind), key)
    ensures !Contains(Step(w, e).pending.Table(kind), key)
  {
    var s, s' := w.pending, Step(w, e).pending;
    if Contains(s'.Table(kind), key) {
      var i :| 0 <= i < |s'.Table(kind)| && s'.Table(kind)[i].key == key;
      var x := s'.Table(kind)[i];
      NoNewOwner(w, e, kind, x);
    }
  }

  lemma EndMakesAbsent(w: World, e: Event, kind: Kind, key: Key)
    requires Inv(w) && EndsJob(e, kind, key)
    ensures !Contains(Step(w, e).pending.Table(kind), key)
  {
    var t, t' := w.pending.Table(kind), Step(w, e).pending.Table(kind);
    var i := Find(t, key);
    FindFinds(t, key);
    if i >= 0 {
      EraseDropsKey(t, i);
    }
  }

  /** A request that finished or cancelled a job may be run again, by a retry or by the client,
      after any other events: unless a new job took the id, it touches no job. */
  lemma {:induction false} RetryIsHarmless(w: World, es: seq<Event>, again: Event, kind: Kind, key: Key)
    requires Inv(w) && IsRun(w, es) && EndsJob(again, kind, key)
    requires !Contains(w.pending.Table(kind), key)
    requires Started(kind, key) !in es
    ensures Step(Run(w, es), again) == Run(w, es)
    decreases |es|
  {
    if es == [] {
      FindFinds(w.pending.Table(kind), key);
    } else {
      AbsentStaysAbsent(w, es[0], kind, key);
      StepKeepsInv(w, es[0]);
      RetryIsHarmless(Step(w, es[0]), es[1..], again, kind, key);
    }
  }

  lemma RetryAfterRequest(before: seq<Event>, first: Event, between: seq<Event>, again: Event, kind: Kind, key: Key)
    requires IsRun(START, before) && Enabled(Run(START, before), first)
    requires IsRun(Step(Run(START, before), first), between)
    requires EndsJob(first, kind, key) && EndsJob(again, kind, key) && Started(kind, key) !in between
    ensures var w := Run(Step(Run(START, before), first), between);
            Step(w, again) == w
  {
    RunKeepsInv(START, before);
    var w := Run(START, before);
    EndMakesAbsent(w, first, kind, key);
    StepKeepsInv(w, first);
    RetryIsHarmless(Step(w, first), between, again, kind, key);
  }
}

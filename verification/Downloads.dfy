/** Downloads of local files: a pump that is driven by the socket's own progress.

    The job writes a chunk whenever the socket confirms bytes.  It must not stall with bytes left,
    and must report completion once, after the whole file went out in order. */
module Downloads {
  import opened FileTree
  import opened ItemIds
  import opened LocalProvider
  import Uploads

  const READ_SIZE := 64 * 1024

  /** `buffered` is in the socket and not confirmed yet, `delivered` is confirmed; `kick` says that
      the first chunk is still queued, and `open` that neither file nor socket was closed. */
  datatype Job = Job(
    file: seq<byte>,
    pos: nat,
    bytesToWrite: int,
    buffered: seq<byte>,
    delivered: seq<byte>,
    kick: bool,
    open: bool,
    completed: nat,
    failed: nat)

  function NewJob(file: seq<byte>): Job {
    Job(file, 0, |file|, [], [], true, true, 0, 0)
  }

  function Min(a: int, b: int): int {
    if a < b then a else b
  }

  /** What `read` returns at `pos`. */
  function Chunk(file: seq<byte>, pos: nat): seq<byte> {
    if pos < |file| then file[pos..Min(pos + READ_SIZE, |file|)] else []
  }

  /** How the next chunk fares: it gets into the socket, or the read fails, or the write fails or comes
      out short. */
  datatype Io = Good | Faulty

  function ReadAndWriteChunk(j: Job, io: Io): Job {
    if j.bytesToWrite == 0 then j.(open := false, completed := j.completed + 1)
    else if io.Faulty? then j.(buffered := [], open := false, failed := j.failed + 1)
    else j.(pos := j.pos + |Chunk(j.file, j.pos)|, buffered := j.buffered + Chunk(j.file, j.pos))
  }

  /** The queued first call. */
  function Kicked(j: Job, io: Io): Job {
    ReadAndWriteChunk(j.(kick := false), io)
  }

  function Confirmed(j: Job, n: nat): Job
    requires n <= |j.buffered|
  {
    j.(bytesToWrite := j.bytesToWrite - n, delivered := j.delivered + j.buffered[..n], buffered := j.buffered[n..])
  }

  /** The socket confirms its first `n` bytes. */
  function BytesWritten(j: Job, n: nat, io: Io): Job
    requires n <= |j.buffered|
  {
    ReadAndWriteChunk(Confirmed(j, n), io)
  }

  function Cancel(j: Job): Job {
    j.(buffered := [], open := false)
  }

  datatype FinishResult = Done | TooEarly

  function Finish(j: Job): (Job, FinishResult) {
    if j.bytesToWrite > 0 then (Cancel(j), TooEarly) else (j, Done)
  }

  /** The constructor's checks; the result is what will be sent. */
  function Start(t: Tree, item: Path, matchEtag: string): Result<seq<byte>> {
    if item !in t || !t[item].File? then Err(NotAFile)
    else if matchEtag != "" && Uploads.ToString(t[item].mtime) != matchEtag then Err(Conflict)
    else Ok(t[item].bytes)
  }

  /** A download starts if and only if its item is a file, of the version that was named if one was; and
      then it sends that file. */
  lemma StartsIff(t: Tree, item: Path, matchEtag: string)
    ensures var r := Start(t, item, matchEtag);
            && (r.Ok? <==>
                  item in t && t[item].File? && (matchEtag == "" || Uploads.ToString(t[item].mtime) == matchEtag))
            && (r == Err(NotAFile) <==> item !in t || !t[item].File?)
            && (r == Err(Conflict) <==>
                  item in t && t[item].File? && matchEtag != "" && Uploads.ToString(t[item].mtime) != matchEtag)
            && (r.Ok? ==> NewJob(r.value).file == t[item].bytes && NewJob(r.value).bytesToWrite == |t[item].bytes|)
  {
  }

  class LocalDownloadJob {
    const file: seq<byte>
    var pos: nat
    var bytesToWrite: int
    var buffered: seq<byte>
    var delivered: seq<byte>
    var kick: bool
    var open: bool
    var completed: nat
    var failed: nat

    function Abs(): Job
      reads this
    {
      Job(file, pos, bytesToWrite, buffered, delivered, kick, open, completed, failed)
    }

    constructor (file: seq<byte>)
      ensures Abs() == NewJob(file)
    {
      this.file := file;
      pos, bytesToWrite, buffered, delivered := 0, |file|, [], [];
      kick, open, completed, failed := true, true, 0, 0;
    }

    static method StartDownload(p: LocalProvider, id: string, matchEtag: string) returns (r: Result<LocalDownloadJob>)
      requires p.Ready()
      ensures p.Item(id).Err? ==> r == Err(p.Item(id).error)
      ensures p.Item(id).Ok? ==>
                var start := Start(p.fs.nodes, p.Item(id).value, matchEtag);
                && (start.Err? ==> r == Err(start.error))
                && (start.Ok? ==> r.Ok? && r.value.Abs() == NewJob(start.value))
    {
      var item := p.Item(id);
      p.ItemIsBelowRoot(id);
      if item.Err? {
        return Err(item.error);
      }
      var node := p.fs.nodes[item.value];
      if !node.File? {
        return Err(NotAFile);
      }
      if matchEtag != "" {
        if Uploads.ToString(node.mtime) != matchEtag {
          return Err(Conflict);
        }
      }
      var job := new LocalDownloadJob(node.bytes);
      r := Ok(job);
    }

    /** Reading a closed file ends the program; ReadsOnlyOpenFiles shows that it does not happen. */
    method DoReadAndWriteChunk(io: Io)
      requires open
      modifies this
      ensures Abs() == ReadAndWriteChunk(old(Abs()), io)
    {
      if bytesToWrite == 0 {
        open := false;
        completed := completed + 1;
        return;
      }
      if io.Faulty? {
        buffered := [];
        open := false;
        failed := failed + 1;
        return;
      }
      var buf := Chunk(file, pos);
      pos := pos + |buf|;
      buffered := buffered + buf;
    }

    method OnKick(io: Io)
      requires open
      modifies this
      ensures Abs() == Kicked(old(Abs()), io)
    {
      kick := false;
      DoReadAndWriteChunk(io);
    }

    method OnBytesWritten(n: nat, io: Io)
      requires open && n <= |buffered|
      modifies this
      ensures Abs() == BytesWritten(old(Abs()), n, io)
    {
      delivered := delivered + buffered[..n];
      buffered := buffered[n..];
      bytesToWrite := bytesToWrite - n;
      DoReadAndWriteChunk(io);
    }

    method DoCancel()
      modifies this
      ensures Abs() == Cancel(old(Abs()))
    {
      buffered := [];
      open := false;
    }

    method DoFinish() returns (r: FinishResult)
      modifies this
      ensures (Abs(), r) == Finish(old(Abs()))
    {
      if bytesToWrite > 0 {
        DoCancel();
        return TooEarly;
      }
      r := Done;
    }
  }

  // ----- runs -----

  datatype Event = Kick(io: Io) | Confirm(n: nat, io: Io) | CancelRequested | FinishRequested

  /** The runtime ends a job only if it has not reported, and not before the queued first call ran: the
      reply that tells a client of the job was queued behind that call.  The socket confirms what it
      holds. */
  predicate Enabled(j: Job, e: Event) {
    match e
    case Kick(_) => j.kick
    case Confirm(n, _) => 0 < n <= |j.buffered|
    case _ => j.completed == 0 && j.failed == 0 && !j.kick
  }

  function Step(j: Job, e: Event): Job
    requires Enabled(j, e)
  {
    match e
    case Kick(io) => Kicked(j, io)
    case Confirm(n, io) => BytesWritten(j, n, io)
    case CancelRequested => Cancel(j)
    case FinishRequested => Finish(j).0
  }

  predicate IsRun(j: Job, es: seq<Event>)
    decreases |es|
  {
    es == [] || (Enabled(j, es[0]) && IsRun(Step(j, es[0]), es[1..]))
  }

  function Run(j: Job, es: seq<Event>): Job
    requires IsRun(j, es)
    decreases |es|
  {
    if es == [] then j else Run(Step(j, es[0]), es[1..])
  }

  /** The runtime leaves the job alone, and nothing fails. */
  predicate Undisturbed(es: seq<Event>) {
    forall e :: e in es ==> (e.Kick? || e.Confirm?) && e.io.Good?
  }

  // ----- the invariant -----

  /** What is confirmed, what is in the socket, and what is left in the file add up. */
  ghost predicate Accounted(j: Job) {
    && j.pos <= |j.file| && j.delivered + j.buffered == j.file[..j.pos]
    && j.bytesToWrite == |j.file| - |j.delivered|
  }

  /** A job at work: bytes are under way as long as some are left. */
  ghost predicate Pumping(j: Job) {
    && Accounted(j)
    && j.failed == 0
    && (j.kick ==> j.open && j.pos == 0 && j.completed == 0)
    && (!j.kick && j.bytesToWrite > 0 ==> j.open && j.buffered != [] && j.completed == 0)
    && (!j.kick && j.bytesToWrite == 0 ==> !j.open && j.buffered == [] && j.completed == 1)
  }

  /** A job that failed, or that the runtime stopped: nothing more can happen to it. */
  ghost predicate Stopped(j: Job) {
    && j.buffered == [] && !j.open && !j.kick
    && j.bytesToWrite > 0 && j.delivered <= j.file
    && j.completed == 0 && j.failed <= 1
  }

  lemma PumpedIsPrefix(j: Job)
    requires Pumping(j)
    ensures j.delivered <= j.file && j.bytesToWrite >= 0 && |j.delivered| + |j.buffered| == j.pos
    ensures j.completed == 1 ==> j.delivered == j.file
  {
    assert |j.delivered + j.buffered| == j.pos;
    assert j.delivered == (j.delivered + j.buffered)[..|j.delivered|] == j.file[..|j.delivered|];
  }

  lemma ChunkAdvances(j: Job)
    requires Accounted(j) && j.bytesToWrite > 0
    ensures Accounted(ReadAndWriteChunk(j, Good)) && ReadAndWriteChunk(j, Good).buffered != []
  {
    var c := Chunk(j.file, j.pos);
    assert j.file[..j.pos] + c == j.file[..j.pos + |c|];
    assert j.delivered + (j.buffered + c) == j.delivered + j.buffered + c;
    if j.buffered == [] {
      assert j.delivered == j.file[..j.pos];
    }
  }

  lemma KickPumps(j: Job)
    requires Pumping(j) && j.kick
    ensures Pumping(Kicked(j, Good))
  {
    PumpedIsPrefix(j);
    if j.bytesToWrite > 0 {
      ChunkAdvances(j.(kick := false));
    }
  }

  lemma ConfirmPumps(j: Job, n: nat)
    requires Pumping(j) && 0 < n <= |j.buffered|
    ensures Pumping(BytesWritten(j, n, Good))
  {
    PumpedIsPrefix(j);
    var k := Confirmed(j, n);
    assert k.delivered + k.buffered == j.delivered + j.buffered;
    assert |k.delivered + k.buffered| == k.pos;
    if k.bytesToWrite > 0 {
      ChunkAdvances(k);
    }
  }

  /** Every job is at work or was stopped. */
  ghost predicate Inv(j: Job) {
    Pumping(j) || Stopped(j)
  }

  /** The event is a chunk that fails. */
  predicate Fails(j: Job, e: Event)
    requires Enabled(j, e)
  {
    match e
    case Kick(io) => io.Faulty? && j.bytesToWrite != 0
    case Confirm(n, io) => io.Faulty? && j.bytesToWrite != n
    case _ => false
  }

  function Measure(j: Job): int {
    j.bytesToWrite + if j.kick then 1 else 0
  }

  lemma FaultStops(j: Job, e: Event)
    requires Pumping(j) && Enabled(j, e) && Fails(j, e)
    ensures Stopped(Step(j, e)) && Step(j, e).failed == 1
  {
    PumpedIsPrefix(j);
    if e.Confirm? {
      assert j.delivered + j.buffered[..e.n] <= j.delivered + j.buffered == j.file[..j.pos];
    }
  }

  lemma StepKeepsInv(j: Job, e: Event)
    requires Inv(j) && Enabled(j, e)
    ensures Inv(Step(j, e)) && Step(j, e).file == j.file
    ensures Step(j, e).failed == j.failed + if Fails(j, e) then 1 else 0
    ensures Pumping(j) && Undisturbed([e]) ==> Pumping(Step(j, e)) && Measure(Step(j, e)) < Measure(j)
  {
    assert e in [e];
    if Pumping(j) {
      PumpedIsPrefix(j);
      if Fails(j, e) {
        FaultStops(j, e);
      } else {
        match e {
          case Kick(io) => KickPumps(j);
          case Confirm(n, io) => ConfirmPumps(j, n);
          case _ =>
        }
      }
    }
  }

  function Faults(j: Job, es: seq<Event>): nat
    requires IsRun(j, es)
    decreases |es|
  {
    if es == [] then 0 else (if Fails(j, es[0]) then 1 else 0) + Faults(Step(j, es[0]), es[1..])
  }

  lemma {:induction false} RunKeepsInv(j: Job, es: seq<Event>)
    requires Inv(j) && IsRun(j, es)
    ensures Inv(Run(j, es)) && Run(j, es).file == j.file
    ensures Run(j, es).failed == j.failed + Faults(j, es)
    ensures Pumping(j) && Undisturbed(es) ==> Pumping(Run(j, es)) && |es| + Measure(Run(j, es)) <= Measure(j)
    decreases |es|
  {
    if es != [] {
      assert es[0] in es;
      assert forall e :: e in es[1..] ==> e in es;
      StepKeepsInv(j, es[0]);
      RunKeepsInv(Step(j, es[0]), es[1..]);
    }
  }

  // ----- the results -----

  /** In any run, whatever fails and whether or not the runtime stops it, the job reports at most once:
      a failure exactly if a chunk failed, and completion only after the whole file was delivered.
      What was delivered is always the beginning of the file. */
  lemma ReportsAtMostOnce(file: seq<byte>, es: seq<Event>)
    requires IsRun(NewJob(file), es)
    ensures var j := Run(NewJob(file), es);
            && j.completed + j.failed <= 1
            && j.failed == Faults(NewJob(file), es)
            && (j.completed == 1 ==> j.delivered == file)
            && j.delivered <= file && j.bytesToWrite >= 0
  {
    RunKeepsInv(NewJob(file), es);
    var j := Run(NewJob(file), es);
    if Pumping(j) {
      PumpedIsPrefix(j);
    }
  }

  /** A chunk is read from the file only while the file is open. */
  lemma ReadsOnlyOpenFiles(file: seq<byte>, es: seq<Event>, e: Event)
    requires IsRun(NewJob(file), es) && Enabled(Run(NewJob(file), es), e)
    requires e.Kick? || e.Confirm?
    ensures Run(NewJob(file), es).open
  {
    RunKeepsInv(NewJob(file), es);
    var j := Run(NewJob(file), es);
    if Pumping(j) {
      PumpedIsPrefix(j);
    }
  }

  /** Left alone, the job never stalls: it has reported completion exactly if neither the queued
      call nor a confirmation can follow, and then the whole file was delivered in order. */
  lemma CompletesWhenQuiet(file: seq<byte>, es: seq<Event>)
    requires IsRun(NewJob(file), es) && Undisturbed(es)
    ensures var j := Run(NewJob(file), es);
            && j.failed == 0
            && (j.completed == 1 <==> !j.kick && j.buffered == [])
            && (j.completed == 1 ==> j.delivered == file)
            && |j.delivered| + j.bytesToWrite == |file| && j.delivered <= file
  {
    RunKeepsInv(NewJob(file), es);
    PumpedIsPrefix(Run(NewJob(file), es));
  }

  /** Left alone, the job takes no more steps than the file has bytes, and one. */
  lemma DownloadIsBounded(file: seq<byte>, es: seq<Event>)
    requires IsRun(NewJob(file), es) && Undisturbed(es)
    ensures |es| <= |file| + 1
  {
    RunKeepsInv(NewJob(file), es);
    PumpedIsPrefix(Run(NewJob(file), es));
  }

  /** A client's `finish` that reaches the job is always too early: the other branch cannot be reached,
      because a job without bytes left has reported. */
  lemma FinishIsAlwaysTooEarly(file: seq<byte>, es: seq<Event>)
    requires IsRun(NewJob(file), es) && Enabled(Run(NewJob(file), es), FinishRequested)
    ensures Finish(Run(NewJob(file), es)).1 == TooEarly
  {
    RunKeepsInv(NewJob(file), es);
    var j := Run(NewJob(file), es);
    if Pumping(j) {
      PumpedIsPrefix(j);
    }
  }

  lemma {:induction false} StoppedStays(j: Job, es: seq<Event>)
    requires Stopped(j) && IsRun(j, es)
    ensures var k := Run(j, es); k.delivered == j.delivered && k.completed == j.completed && k.failed == j.failed
    decreases |es|
  {
    if es != [] {
      StoppedStays(Step(j, es[0]), es[1..]);
    }
  }

  /** A job that was cancelled, or refused its `finish`, delivers nothing more and reports nothing,
      whatever happens then. */
  lemma StoppedSendsNoMore(file: seq<byte>, es: seq<Event>, end: Event, more: seq<Event>)
    requires IsRun(NewJob(file), es) && Enabled(Run(NewJob(file), es), end)
    requires end == CancelRequested || end == FinishRequested
    requires IsRun(Step(Run(NewJob(file), es), end), more)
    ensures var j, k := Run(NewJob(file), es), Run(Step(Run(NewJob(file), es), end), more);
            k.delivered == j.delivered && k.completed == 0 && k.failed == 0
  {
    RunKeepsInv(NewJob(file), es);
    var j := Run(NewJob(file), es);
    if Pumping(j) {
      PumpedIsPrefix(j);
    }
    StoppedStays(Step(j, end), more);
  }
}

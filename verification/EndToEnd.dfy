/** An upload from its owner to the provider's disk: the client's uploader at one end of a socket, the
    provider's job at the other.

    What the provider publishes is what the owner wrote, and bytes that the client loses are noticed. */
module EndToEnd {
  import opened FileTree
  import Transfers
  import opened Uploads

  /** The socket delivers what it was handed, in order, perhaps not all of it yet. */
  predicate Delivers(u: Transfers.Upload, j: Job) {
    j.sent <= u.handed
  }

  lemma HandedIsAccepted(es: seq<Transfers.UploadEvent>)
    ensures Transfers.UploadRun(Transfers.NEW_UPLOAD, es).handed <= Transfers.Accepted(Transfers.NEW_UPLOAD, es)
  {
    Transfers.WriteOrderIsKept(es);
  }

  /** Whatever happens at either end, a commit publishes the announced number of bytes from the start of
      what the owner was told is written; so all of it, if that is what was announced. */
  lemma PublishesWhatWasWritten(
      es: seq<Transfers.UploadEvent>, f: Files, us: seq<Event>, i: nat, m: Medium)
    requires Clocked(f.tree, f.now) && IsRun(World(f, [], []), us)
    requires var w := Run(World(f, [], []), us);
             && Alive(w, i) && Finish(w.jobs[i], w.files, m).2 == Committed'
             && Delivers(Transfers.UploadRun(Transfers.NEW_UPLOAD, es), w.jobs[i])
    ensures var w := Run(World(f, [], []), us);
            var w' := Step(w, FinishRequested(i, m));
            var j, written := w.jobs[i], Transfers.Accepted(Transfers.NEW_UPLOAD, es);
            && Max0(j.size) <= |written|
            && j.item in w'.files.tree && w'.files.tree[j.item].File?
            && w'.files.tree[j.item].bytes == written[..Max0(j.size)]
            && (j.size == |written| ==> w'.files.tree[j.item].bytes == written)
  {
    HandedIsAccepted(es);
    PublishedContent(f, us, i, m);
  }

  /** Where the announced size is what the owner wrote, the provider finds `finish` too early if and only
      if the client's `close` left bytes behind; so such an upload is refused, and changes nothing. */
  lemma LostBytesAreNoticedIff(
      es: seq<Transfers.UploadEvent>, writeOk: bool, f: Files, us: seq<Event>, i: nat, m: Medium)
    requires Transfers.IsUploadRun(Transfers.NEW_UPLOAD, es)
    requires Clocked(f.tree, f.now) && IsRun(World(f, [], []), us) && !m.write.Failed?
    requires var u, w := Transfers.UploadRun(Transfers.NEW_UPLOAD, es), Run(World(f, [], []), us);
             && u.core.status == Transfers.Ready && !u.core.finalizing
             && Alive(w, i) && w.jobs[i].sent == Transfers.CloseUpload(u, true, writeOk).handed
             && w.jobs[i].size == |Transfers.Accepted(Transfers.NEW_UPLOAD, es)|
    ensures var u, w := Transfers.UploadRun(Transfers.NEW_UPLOAD, es), Run(World(f, [], []), us);
            var (j', f', outcome) := Finish(w.jobs[i], w.files, m);
            && (outcome == TooEarly <==> u.buffer != [] && !writeOk)
            && outcome != Stuck
            && (outcome == TooEarly ==> f'.tree == w.files.tree)
  {
    var u, w := Transfers.UploadRun(Transfers.NEW_UPLOAD, es), Run(World(f, [], []), us);
    RunKeepsInv(World(f, [], []), us);
    assert Pumping(w.jobs[i]);
    Transfers.CloseSendsAllIff(es, writeOk);
    Transfers.WriteOrderIsKept(es);
    FinishReturnsIff(w.jobs[i], w.files, m);
    assert |w.jobs[i].sent| == |w.jobs[i].content| + |w.jobs[i].unread|;
  }
}

/** The client's side of a transfer: uploader and downloader objects whose status is moved by
    replies, by errors and by their owner, in any order.

    The status only moves forward, and an uploader hands its socket exactly the bytes its owner
    wrote, in order, although the socket appears only after the first writes. */
module Transfers {

  import FileTree

  type byte = FileTree.byte

  datatype Status = Loading | Ready | Finished | Cancelled | Error

  /** `first` and `finish` say that the reply to the opening call, or to the finishing call, is still
      to come. */
  datatype Core = Core(status: Status, finalizing: bool, first: bool, finish: bool)

  const NEW_CORE := Core(Loading, false, true, false)

  predicate Failed(s: Status) {
    s == Cancelled || s == Error
  }

  // ----- the status -----

  /** The opening call succeeded; `good` if the runtime lives and the descriptor is valid. */
  function FirstReply(c: Core, good: bool): Core {
    if c.status != Loading then c.(first := false)
    else c.(first := false, status := if good then Ready else Error)
  }

  /** The opening call failed; the status is not looked at. */
  function FirstError(c: Core): Core {
    c.(first := false, status := Error)
  }

  function Cancel(c: Core, runtimeOk: bool): Core {
    if Failed(c.status) || c.status == Finished then c
    else c.(status := if runtimeOk then Cancelled else Error)
  }

  function Close(c: Core, runtimeOk: bool): Core {
    if Failed(c.status) || c.finalizing then c
    else if c.status != Ready || !runtimeOk then c.(status := Error)
    else c.(finalizing := true, finish := true)
  }

  /** The finishing call succeeded; `good` if the runtime lives and the metadata is valid. */
  function FinishReply(c: Core, good: bool): Core {
    if Failed(c.status) then c.(finish := false)
    else c.(finish := false, status := if good then Finished else Error)
  }

  function FinishError(c: Core): Core {
    if c.status != Ready then c.(finish := false) else c.(finish := false, status := Error)
  }

  datatype Event =
    | FirstReplied(good: bool)
    | FirstFailed
    | CancelCalled(runtimeOk: bool)
    | CloseCalled(runtimeOk: bool)
    | FinishReplied(good: bool)
    | FinishFailed

  /** Each call is answered once. */
  predicate Enabled(c: Core, e: Event) {
    match e
    case FirstReplied(_) => c.first
    case FirstFailed => c.first
    case FinishReplied(_) => c.finish
    case FinishFailed => c.finish
    case _ => true
  }

  function Step(c: Core, e: Event): Core {
    match e
    case FirstReplied(good) => FirstReply(c, good)
    case FirstFailed => FirstError(c)
    case CancelCalled(ok) => Cancel(c, ok)
    case CloseCalled(ok) => Close(c, ok)
    case FinishReplied(good) => FinishReply(c, good)
    case FinishFailed => FinishError(c)
  }

  ghost predicate IsRun(c: Core, es: seq<Event>)
    decreases |es|
  {
    es == [] || (Enabled(c, es[0]) && IsRun(Step(c, es[0]), es[1..]))
  }

  ghost function Run(c: Core, es: seq<Event>): Core
    decreases |es|
  {
    if es == [] then c else Run(Step(c, es[0]), es[1..])
  }

  predicate Inv(c: Core) {
    && (c.status == Loading <==> c.first && !Failed(c.status))
    && (c.finish ==> c.finalizing)
    && (c.finalizing ==> !c.first && c.status != Loading)
    && (c.status == Finished ==> c.finalizing && !c.finish)
    && (c.finalizing && !c.finish ==> c.status == Finished || Failed(c.status))
  }

  /** The only ways in which the status changes. */
  predicate Forward(from: Status, to: Status) {
    match from
    case Loading => to != Finished
    case Ready => to != Loading
    case Cancelled => Failed(to)
    case _ => to == from
  }

  lemma StepKeepsInv(c: Core, e: Event)
    requires Inv(c) && Enabled(c, e)
    ensures Inv(Step(c, e)) && Forward(c.status, Step(c, e).status)
  {
  }

  lemma {:induction false} RunKeepsInv(c: Core, es: seq<Event>)
    requires Inv(c) && IsRun(c, es)
    ensures Inv(Run(c, es))
    decreases |es|
  {
    if es != [] {
      StepKeepsInv(c, es[0]);
      RunKeepsInv(Step(c, es[0]), es[1..]);
    }
  }

  lemma {:induction false} RunMovesForward(c: Core, es: seq<Event>)
    requires Inv(c) && IsRun(c, es)
    ensures c.status == Finished ==> Run(c, es).status == Finished
    ensures Failed(c.status) ==> Failed(Run(c, es).status)
    ensures c.status == Error ==> Run(c, es).status == Error
    ensures c.status != Loading ==> Run(c, es).status != Loading
    ensures c.finalizing ==> Run(c, es).finalizing
    decreases |es|
  {
    if es != [] {
      StepKeepsInv(c, es[0]);
      RunMovesForward(Step(c, es[0]), es[1..]);
    }
  }

  /** In every run the status never goes back: finished stays finished, a cancelled or failed
      transfer never becomes anything else, and nothing returns to loading. */
  lemma StatusIsMonotone(before: seq<Event>, after: seq<Event>)
    requires IsRun(NEW_CORE, before) && IsRun(Run(NEW_CORE, before), after)
    ensures var s, t := Run(NEW_CORE, before).status, Run(Run(NEW_CORE, before), after).status;
            && (s == Finished ==> t == Finished)
            && (Failed(s) ==> Failed(t))
            && (s == Error ==> t == Error)
            && (s != Loading ==> t != Loading)
  {
    RunKeepsInv(NEW_CORE, before);
    RunMovesForward(Run(NEW_CORE, before), after);
  }

  /** What each event does to a transfer in any run: the first answer decides between ready and failed,
      the answer to a close between finished and failed, and the owner's calls count only where they make
      sense. */
  lemma EventsDecide(es: seq<Event>, e: Event)
    requires IsRun(NEW_CORE, es) && Enabled(Run(NEW_CORE, es), e)
    ensures var c, c' := Run(NEW_CORE, es), Step(Run(NEW_CORE, es), e);
            var over := c.status == Finished || c.status == Cancelled || c.status == Error;
            match e
            case FirstReplied(good) =>
              c' == c.(first := false,
                       status := if c.status != Loading then c.status else if good then Ready else Error)
            case FirstFailed => c' == c.(first := false, status := Error)
            case CancelCalled(alive) =>
              c' == c.(status := if over then c.status else if alive then Cancelled else Error)
            case CloseCalled(alive) =>
              c' == if over || c.finalizing then c
                    else if c.status == Ready && alive then c.(finalizing := true, finish := true)
                    else c.(status := Error)
            case FinishReplied(good) =>
              c' == c.(finish := false, status := if over then c.status else if good then Finished else Error)
            case FinishFailed => c' == c.(finish := false, status := if over then c.status else Error)
  {
    RunKeepsInv(NEW_CORE, es);
  }

  /** In every run a transfer that was closed and has its answer is finished, cancelled or failed: its
      owner is not left waiting.  Without an answer outstanding at all, it is that or ready. */
  lemma ClosedIsAnswered(es: seq<Event>)
    requires IsRun(NEW_CORE, es)
    ensures var c := Run(NEW_CORE, es);
            && (c.finalizing && !c.finish ==> c.status == Finished || c.status == Cancelled || c.status == Error)
            && (!c.first && !c.finish ==> c.status != Loading && (c.status == Ready ==> !c.finalizing))
  {
    RunKeepsInv(NEW_CORE, es);
  }

  /** A transfer finishes only from ready, after it was closed, and by the answer to the close. */
  lemma FinishesOnlyAfterClose(es: seq<Event>, e: Event)
    requires IsRun(NEW_CORE, es) && Enabled(Run(NEW_CORE, es), e)
    requires Run(NEW_CORE, es).status != Finished && Step(Run(NEW_CORE, es), e).status == Finished
    ensures Run(NEW_CORE, es).status == Ready && Run(NEW_CORE, es).finalizing && e == FinishReplied(true)
  {
    RunKeepsInv(NEW_CORE, es);
  }

  /** A cancelled transfer turns into a failed one exactly when the opening call fails late. */
  lemma CancelledBecomesErrorIff(c: Core, e: Event)
    requires Inv(c) && Enabled(c, e) && c.status == Cancelled
    ensures Step(c, e).status != Cancelled <==> e == FirstFailed
  {
  }

  /** Which happens: the opening call fails after the owner cancelled. */
  lemma LateErrorAfterCancel()
    ensures var es := [CancelCalled(true), FirstFailed];
            && IsRun(NEW_CORE, es)
            && Run(NEW_CORE, es[..1]).status == Cancelled && Run(NEW_CORE, es).status == Error
  {
    var es := [CancelCalled(true), FirstFailed];
    var c1 := Step(NEW_CORE, es[0]);
    var c2 := Step(c1, es[1]);
    assert es[1..] == [FirstFailed] && es[1..][1..] == [] && es[..1][1..] == [];
    assert Run(c1, es[1..]) == Run(c2, []) == c2;
    assert IsRun(c1, es[1..]);
  }

  class DownloaderImpl {
    var status: Status
    var finalizing: bool
    ghost var first: bool
    ghost var finish: bool

    ghost function Abs(): Core
      reads this
    {
      Core(status, finalizing, first, finish)
    }

    constructor ()
      ensures Abs() == NEW_CORE
    {
      status, finalizing, first, finish := Loading, false, true, false;
    }

    method ProcessReply(runtimeOk: bool, fdOk: bool)
      modifies this
      ensures Abs() == FirstReply(old(Abs()), runtimeOk && fdOk)
    {
      first := false;
      if status != Loading {
        return;
      }
      if !runtimeOk {
        status := Error;
        return;
      }
      if !fdOk {
        status := Error;
        return;
      }
      status := Ready;
    }

    method ProcessError()
      modifies this
      ensures Abs() == FirstError(old(Abs()))
    {
      first := false;
      status := Error;
    }

    method DoCancel(runtimeOk: bool)
      modifies this
      ensures Abs() == Cancel(old(Abs()), runtimeOk)
    {
      if status == Error || status == Finished || status == Cancelled {
        return;
      }
      if !runtimeOk {
        status := Error;
        return;
      }
      status := Cancelled;
    }

    method DoClose(runtimeOk: bool)
      modifies this
      ensures Abs() == Close(old(Abs()), runtimeOk)
    {
      if status == Error || status == Cancelled || finalizing {
        return;
      }
      if status != Ready {
        status := Error;
        return;
      }
      if !runtimeOk {
        status := Error;
        return;
      }
      finalizing := true;
      finish := true;
    }

    method ProcessFinishReply(runtimeOk: bool)
      modifies this
      ensures Abs() == FinishReply(old(Abs()), runtimeOk)
    {
      finish := false;
      if status == Cancelled || status == Error {
        return;
      }
      if !runtimeOk {
        status := Error;
        return;
      }
      status := Finished;
    }

    method ProcessFinishError()
      modifies this
      ensures Abs() == FinishError(old(Abs()))
    {
      finish := false;
      if status != Ready {
        return;
      }
      status := Error;
    }
  }

  // ----- the uploader's bytes -----

  /** `handed` was taken by the socket. */
  datatype Upload = Upload(
    core: Core,
    buffer: seq<byte>,
    handed: seq<byte>,
    connected: bool,
    idKnown: bool,
    cancelSent: bool)

  const NEW_UPLOAD := Upload(NEW_CORE, [], [], false, false, false)

  /** The socket takes all of a write or nothing; `ok` is its choice while it is connected. */
  function Flush(u: Upload, ok: bool): (Upload, bool) {
    if u.buffer == [] then (u, true)
    else if u.connected && ok then (u.(handed := u.handed + u.buffer, buffer := []), true)
    else (u, false)
  }

  function Replied(u: Upload, runtimeOk: bool, fdOk: bool, writeOk: bool): Upload {
    var v := u.(core := FirstReply(u.core, runtimeOk && fdOk));
    if u.core.status != Loading then v
    else if !runtimeOk then v.(connected := false)
    else if !fdOk then v.(idKnown := true, connected := false)
    else Flush(v.(idKnown := true, connected := true), writeOk).0
  }

  function OpenFailed(u: Upload): Upload {
    u.(core := FirstError(u.core), connected := false)
  }

  function CancelUpload(u: Upload, runtimeOk: bool): Upload {
    var v := u.(core := Cancel(u.core, runtimeOk));
    if v.core == u.core || !runtimeOk then v
    else v.(cancelSent := u.cancelSent || u.idKnown, connected := false)
  }

  function CloseUpload(u: Upload, runtimeOk: bool, writeOk: bool): Upload {
    var v := u.(core := Close(u.core, runtimeOk));
    if v.core == u.core then v
    else if u.core.status != Ready then v.(connected := false)
    else if !runtimeOk then v
    else Flush(v, writeOk).0.(connected := false)
  }

  function FinishReplied'(u: Upload, runtimeOk: bool, valid: bool): Upload {
    u.(core := FinishReply(u.core, runtimeOk && valid),
       connected := u.connected && (runtimeOk || Failed(u.core.status)))
  }

  function FinishFailed'(u: Upload): Upload {
    u.(core := FinishError(u.core), connected := u.connected && u.core.status != Ready)
  }

  /** A write, and whether the owner is told that it succeeded. */
  function Write(u: Upload, data: seq<byte>, flushOk: bool, writeOk: bool): (Upload, bool) {
    match u.core.status
    case Loading => (u.(buffer := u.buffer + data), true)
    case Ready =>
      var (v, flushed) := Flush(u, flushOk);
      if !flushed || !(v.connected && writeOk) then (v, false)
      else (v.(handed := v.handed + data), true)
    case _ => (u, false)
  }

  class UploaderImpl {
    var status: Status
    var finalizing: bool
    ghost var first: bool
    ghost var finish: bool
    var buffer: seq<byte>
    var handed: seq<byte>
    var connected: bool
    var idKnown: bool
    var cancelSent: bool

    ghost function Abs(): Upload
      reads this
    {
      Upload(Core(status, finalizing, first, finish), buffer, handed, connected, idKnown, cancelSent)
    }

    constructor ()
      ensures Abs() == NEW_UPLOAD
    {
      status, finalizing, first, finish := Loading, false, true, false;
      buffer, handed := [], [];
      connected, idKnown, cancelSent := false, false, false;
    }

    method FlushBuffer(ok: bool) returns (flushed: bool)
      modifies this
      ensures (Abs(), flushed) == Flush(old(Abs()), ok)
    {
      if |buffer| > 0 {
        if !(connected && ok) {
          return false;
        }
        handed := handed + buffer;
        buffer := [];
      }
      return true;
    }

    method ProcessReply(runtimeOk: bool, fdOk: bool, writeOk: bool)
      modifies this
      ensures Abs() == Replied(old(Abs()), runtimeOk, fdOk, writeOk)
    {
      first := false;
      if status != Loading {
        return;
      }
      if !runtimeOk {
        connected := false;
        status := Error;
        return;
      }
      idKnown := true;
      if !fdOk {
        connected := false;
        status := Error;
        return;
      }
      connected := true;
      var _ := FlushBuffer(writeOk);
      status := Ready;
    }

    method ProcessError()
      modifies this
      ensures Abs() == OpenFailed(old(Abs()))
    {
      first := false;
      status := Error;
      connected := false;
    }

    method DoCancel(runtimeOk: bool)
      modifies this
      ensures Abs() == CancelUpload(old(Abs()), runtimeOk)
    {
      if status == Error || status == Finished || status == Cancelled {
        return;
      }
      if !runtimeOk {
        status := Error;
        return;
      }
      if idKnown {
        cancelSent := true;
      }
      connected := false;
      status := Cancelled;
    }

    method DoClose(runtimeOk: bool, writeOk: bool)
      modifies this
      ensures Abs() == CloseUpload(old(Abs()), runtimeOk, writeOk)
    {
      if status == Error || status == Cancelled || finalizing {
        return;
      }
      if status != Ready {
        connected := false;
        status := Error;
        return;
      }
      if !runtimeOk {
        status := Error;
        return;
      }
      finalizing := true;
      var _ := FlushBuffer(writeOk);
      connected := false;
      finish := true;
    }

    method ProcessFinishReply(runtimeOk: bool, valid: bool)
      modifies this
      ensures Abs() == FinishReplied'(old(Abs()), runtimeOk, valid)
    {
      finish := false;
      if status == Cancelled || status == Error {
        return;
      }
      if !runtimeOk {
        connected := false;
        status := Error;
        return;
      }
      if valid {
        status := Finished;
      } else {
        status := Error;
      }
    }

    method ProcessFinishError()
      modifies this
      ensures Abs() == FinishFailed'(old(Abs()))
    {
      finish := false;
      if status != Ready {
        return;
      }
      connected := false;
      status := Error;
    }

    method WriteData(data: seq<byte>, flushOk: bool, writeOk: bool) returns (ok: bool)
      modifies this
      ensures (Abs(), ok) == Write(old(Abs()), data, flushOk, writeOk)
    {
      match status {
        case Loading =>
          buffer := buffer + data;
          return true;
        case Ready =>
          ok := FlushBuffer(flushOk);
          if !ok {
            return;
          }
          if !(connected && writeOk) {
            return false;
          }
          handed := handed + data;
          return true;
        case _ =>
          return false;
      }
    }

    /** Waits for the opening reply, which is then processed at once, and flushes. */
    method WaitForBytesWritten(replyOk: bool, runtimeOk: bool, fdOk: bool, writeOk: bool, flushOk: bool)
      returns (ok: bool)
      modifies this
      ensures var u := old(Abs());
              var v := if u.core.status != Loading then u
                       else if replyOk then Replied(u, runtimeOk, fdOk, writeOk)
                       else OpenFailed(u);
              (Abs(), ok) == Flush(v, flushOk)
    {
      if status == Loading {
        if replyOk {
          ProcessReply(runtimeOk, fdOk, writeOk);
        } else {
          ProcessError();
        }
      }
      ok := FlushBuffer(flushOk);
    }
  }

  // ----- runs of an uploader -----

  datatype UploadEvent =
    | OpenReplied(runtimeOk: bool, fdOk: bool, writeOk: bool)
    | OpenFailed'
    | CancelCalled'(runtimeOk: bool)
    | CloseCalled'(runtimeOk: bool, writeOk: bool)
    | CloseReplied(runtimeOk: bool, valid: bool)
    | CloseFailed
    | Written(data: seq<byte>, flushOk: bool, writeOk: bool)
    | Flushed(flushOk: bool)

  /** What the event is for the status, if anything. */
  function StatusEvents(e: UploadEvent): seq<Event> {
    match e
    case OpenReplied(r, f, _) => [FirstReplied(r && f)]
    case OpenFailed' => [FirstFailed]
    case CancelCalled'(r) => [CancelCalled(r)]
    case CloseCalled'(r, _) => [CloseCalled(r)]
    case CloseReplied(r, v) => [FinishReplied(r && v)]
    case CloseFailed => [FinishFailed]
    case _ => []
  }

  predicate UploadEnabled(u: Upload, e: UploadEvent) {
    StatusEvents(e) == [] || Enabled(u.core, StatusEvents(e)[0])
  }

  function UploadStep(u: Upload, e: UploadEvent): Upload {
    match e
    case OpenReplied(r, f, w) => Replied(u, r, f, w)
    case OpenFailed' => OpenFailed(u)
    case CancelCalled'(r) => CancelUpload(u, r)
    case CloseCalled'(r, w) => CloseUpload(u, r, w)
    case CloseReplied(r, v) => FinishReplied'(u, r, v)
    case CloseFailed => FinishFailed'(u)
    case Written(data, f, w) => Write(u, data, f, w).0
    case Flushed(f) => Flush(u, f).0
  }

  ghost predicate IsUploadRun(u: Upload, es: seq<UploadEvent>)
    decreases |es|
  {
    es == [] || (UploadEnabled(u, es[0]) && IsUploadRun(UploadStep(u, es[0]), es[1..]))
  }

  ghost function UploadRun(u: Upload, es: seq<UploadEvent>): Upload
    decreases |es|
  {
    if es == [] then u else UploadRun(UploadStep(u, es[0]), es[1..])
  }

  /** The bytes an owner was told were written in a run: an account that does not look at buffers. */
  ghost function Accepted(u: Upload, es: seq<UploadEvent>): seq<byte>
    decreases |es|
  {
    if es == [] then []
    else
      (if es[0].Written? && Write(u, es[0].data, es[0].flushOk, es[0].writeOk).1 then es[0].data else [])
      + Accepted(UploadStep(u, es[0]), es[1..])
  }

  lemma FlushKeepsOrder(u: Upload, ok: bool)
    ensures Flush(u, ok).0.handed + Flush(u, ok).0.buffer == u.handed + u.buffer
  {
    assert u.handed + u.buffer + [] == u.handed + u.buffer;
  }

  lemma WriteIsInOrder(u: Upload, data: seq<byte>, flushOk: bool, writeOk: bool)
    ensures var (v, ok) := Write(u, data, flushOk, writeOk);
            v.handed + v.buffer == u.handed + u.buffer + if ok then data else []
  {
    FlushKeepsOrder(u, flushOk);
    assert u.handed + (u.buffer + data) == u.handed + u.buffer + data;
    assert u.handed + u.buffer + [] == u.handed + u.buffer;
    if u.core.status == Ready && Write(u, data, flushOk, writeOk).1 {
      var v := Flush(u, flushOk).0;
      assert v.buffer == [] && v.handed + data + [] == v.handed + [] + data;
    }
  }

  lemma StepIsInOrder(u: Upload, e: UploadEvent)
    ensures var v := UploadStep(u, e);
            var data := if e.Written? && Write(u, e.data, e.flushOk, e.writeOk).1 then e.data else [];
            v.handed + v.buffer == u.handed + u.buffer + data
  {
    assert u.handed + u.buffer + [] == u.handed + u.buffer;
    match e
    case OpenReplied(r, f, w) =>
      FlushKeepsOrder(u.(core := FirstReply(u.core, r && f), idKnown := true, connected := true), w);
    case CloseCalled'(r, w) => FlushKeepsOrder(u.(core := Close(u.core, r)), w);
    case Written(data, f, w) => WriteIsInOrder(u, data, f, w);
    case Flushed(f) => FlushKeepsOrder(u, f);
    case _ =>
  }

  lemma {:induction false} RunIsInOrder(u: Upload, es: seq<UploadEvent>)
    ensures UploadRun(u, es).handed + UploadRun(u, es).buffer == u.handed + u.buffer + Accepted(u, es)
    decreases |es|
  {
    if es != [] {
      StepIsInOrder(u, es[0]);
      RunIsInOrder(UploadStep(u, es[0]), es[1..]);
      var v := UploadStep(u, es[0]);
      var data := if es[0].Written? && Write(u, es[0].data, es[0].flushOk, es[0].writeOk).1 then es[0].data else [];
      assert u.handed + u.buffer + data + Accepted(v, es[1..]) == u.handed + u.buffer + (data + Accepted(v, es[1..]));
    }
  }

  /** In every run the bytes handed to the socket, and then those in the buffer, are the bytes of the
      successful writes in the order of the writes. */
  lemma WriteOrderIsKept(es: seq<UploadEvent>)
    ensures var u := UploadRun(NEW_UPLOAD, es);
            u.handed + u.buffer == Accepted(NEW_UPLOAD, es)
  {
    RunIsInOrder(NEW_UPLOAD, es);
  }

  lemma StepRefinesStatus(u: Upload, e: UploadEvent)
    ensures UploadStep(u, e).core == if StatusEvents(e) == [] then u.core else Step(u.core, StatusEvents(e)[0])
  {
  }

  ghost function AllStatusEvents(es: seq<UploadEvent>): seq<Event> {
    if es == [] then [] else StatusEvents(es[0]) + AllStatusEvents(es[1..])
  }

  /** An uploader's status is that of the plain status machine: writes do not matter to it. */
  lemma {:induction false} UploadRefinesStatus(u: Upload, es: seq<UploadEvent>)
    requires IsUploadRun(u, es)
    ensures IsRun(u.core, AllStatusEvents(es))
    ensures UploadRun(u, es).core == Run(u.core, AllStatusEvents(es))
    decreases |es|
  {
    if es != [] {
      StepRefinesStatus(u, es[0]);
      UploadRefinesStatus(UploadStep(u, es[0]), es[1..]);
      if StatusEvents(es[0]) != [] {
        assert AllStatusEvents(es)[0] == StatusEvents(es[0])[0];
        assert AllStatusEvents(es)[1..] == AllStatusEvents(es[1..]);
      } else {
        assert AllStatusEvents(es) == AllStatusEvents(es[1..]);
      }
    }
  }

  ghost predicate UploadInv(u: Upload) {
    && Inv(u.core)
    && (u.core.status == Ready && !u.core.finalizing ==> u.connected)
    && (u.core.status == Loading || u.core.finalizing ==> !u.connected)
    && (u.core.status == Cancelled ==> !u.connected)
    && (u.core.status == Loading ==> !u.idKnown)
    && (u.core.status == Ready ==> u.idKnown)
    && (u.cancelSent ==> Failed(u.core.status))
  }

  lemma UploadStepKeepsInv(u: Upload, e: UploadEvent)
    requires UploadInv(u) && UploadEnabled(u, e)
    ensures UploadInv(UploadStep(u, e))
  {
    StepRefinesStatus(u, e);
    if StatusEvents(e) != [] {
      StepKeepsInv(u.core, StatusEvents(e)[0]);
    }
  }

  lemma {:induction false} UploadRunKeepsInv(u: Upload, es: seq<UploadEvent>)
    requires UploadInv(u) && IsUploadRun(u, es)
    ensures UploadInv(UploadRun(u, es))
    decreases |es|
  {
    if es != [] {
      UploadStepKeepsInv(u, es[0]);
      UploadRunKeepsInv(UploadStep(u, es[0]), es[1..]);
    }
  }

  /** What the events of an uploader mean for its status, in any run: the runtime, the descriptor and the
      metadata that came must all be good; writing means nothing. */
  lemma UploadEventsDecide(es: seq<UploadEvent>, e: UploadEvent)
    requires IsUploadRun(NEW_UPLOAD, es) && UploadEnabled(UploadRun(NEW_UPLOAD, es), e)
    ensures var c, c' := UploadRun(NEW_UPLOAD, es).core, UploadStep(UploadRun(NEW_UPLOAD, es), e).core;
            var over := c.status == Finished || c.status == Cancelled || c.status == Error;
            match e
            case OpenReplied(alive, fdOk, _) =>
              c'.status == if c.status != Loading then c.status else if alive && fdOk then Ready else Error
            case OpenFailed' => c'.status == Error
            case CancelCalled'(alive) =>
              c'.status == if over then c.status else if alive then Cancelled else Error
            case CloseCalled'(alive, _) =>
              if over || c.finalizing then c' == c
              else if c.status == Ready && alive then c'.status == Ready && c'.finalizing && c'.finish
              else c'.status == Error
            case CloseReplied(alive, valid) =>
              c'.status == if over then c.status else if alive && valid then Finished else Error
            case CloseFailed => c'.status == if over then c.status else Error
            case _ => c' == c
  {
    UploadRunKeepsInv(NEW_UPLOAD, es);
    StepRefinesStatus(UploadRun(NEW_UPLOAD, es), e);
  }

  /** In every run a write succeeds if and only if the uploader is loading, or it is ready, not closed,
      and the socket takes what was buffered and then the data. */
  lemma WriteSucceedsIff(es: seq<UploadEvent>, data: seq<byte>, flushOk: bool, writeOk: bool)
    requires IsUploadRun(NEW_UPLOAD, es)
    ensures var u := UploadRun(NEW_UPLOAD, es);
            Write(u, data, flushOk, writeOk).1 <==>
              || u.core.status == Loading
              || (u.core.status == Ready && !u.core.finalizing && (u.buffer == [] || flushOk) && writeOk)
  {
    UploadRunKeepsInv(NEW_UPLOAD, es);
  }

  /** In every run a cancellation that takes effect is sent to the provider if and only if the uploader was
      ready, so that the provider has an upload to cancel. */
  lemma ProviderIsToldIff(es: seq<UploadEvent>)
    requires IsUploadRun(NEW_UPLOAD, es)
    requires UploadRun(NEW_UPLOAD, es).core.status in {Loading, Ready}
    ensures var u, v := UploadRun(NEW_UPLOAD, es), UploadStep(UploadRun(NEW_UPLOAD, es), CancelCalled'(true));
            && v.core.status == Cancelled && !v.connected && !u.cancelSent
            && (v.cancelSent <==> u.core.status == Ready)
  {
    UploadRunKeepsInv(NEW_UPLOAD, es);
  }

  lemma StepStaysDisconnected(u: Upload, e: UploadEvent)
    requires !u.connected && u.core.status != Loading
    ensures var v := UploadStep(u, e); !v.connected && v.core.status != Loading && v.handed == u.handed
  {
  }

  lemma {:induction false} DisconnectedStays(u: Upload, es: seq<UploadEvent>)
    requires !u.connected && u.core.status != Loading
    ensures UploadRun(u, es).handed == u.handed
    decreases |es|
  {
    if es != [] {
      StepStaysDisconnected(u, es[0]);
      DisconnectedStays(UploadStep(u, es[0]), es[1..]);
    }
  }

  /** Once an upload is cancelled or closed, whatever happens then, no more bytes are handed over. */
  lemma CancelledSendsNoMore(es: seq<UploadEvent>, more: seq<UploadEvent>)
    requires IsUploadRun(NEW_UPLOAD, es)
    requires var c := UploadRun(NEW_UPLOAD, es).core; c.status == Cancelled || c.finalizing
    ensures UploadRun(UploadRun(NEW_UPLOAD, es), more).handed == UploadRun(NEW_UPLOAD, es).handed
  {
    UploadRunKeepsInv(NEW_UPLOAD, es);
    DisconnectedStays(UploadRun(NEW_UPLOAD, es), more);
  }

  /** The finishing call goes out with every accepted byte handed to the socket, unless some were
      still buffered and the socket refused them: close() does not look at that failure. */
  lemma CloseSendsAllIff(es: seq<UploadEvent>, writeOk: bool)
    requires IsUploadRun(NEW_UPLOAD, es)
    requires var u := UploadRun(NEW_UPLOAD, es); u.core.status == Ready && !u.core.finalizing
    ensures var u := UploadRun(NEW_UPLOAD, es);
            var v := CloseUpload(u, true, writeOk);
            && v.core.finish
            && (v.handed == Accepted(NEW_UPLOAD, es) <==> u.buffer == [] || writeOk)
  {
    WriteOrderIsKept(es);
    UploadRunKeepsInv(NEW_UPLOAD, es);
    var u := UploadRun(NEW_UPLOAD, es);
    assert u.buffer != [] ==> |u.handed + u.buffer| > |u.handed|;
  }

  /** Which happens: what is written while loading stays in the buffer if the socket refuses it twice,
      once at the reply and once in `close`, and the owner was told that it was written. */
  lemma CloseLosesBytes(data: seq<byte>)
    requires data != []
    ensures var es := [Written(data, true, true), OpenReplied(true, true, false)];
            var u := UploadRun(NEW_UPLOAD, es);
            var v := CloseUpload(u, true, false);
            && IsUploadRun(NEW_UPLOAD, es) && u.core.status == Ready && !u.core.finalizing
            && Accepted(NEW_UPLOAD, es) == data
            && v.core.finish && !v.connected && v.handed == []
  {
    var es := [Written(data, true, true), OpenReplied(true, true, false)];
    var u1 := UploadStep(NEW_UPLOAD, es[0]);
    var u2 := UploadStep(u1, es[1]);
    assert es[1..] == [es[1]] && es[1..][1..] == [];
    assert u1.buffer == data;
    assert UploadRun(u1, es[1..]) == UploadRun(u2, []) == u2;
    assert Accepted(u1, es[1..]) == [] + Accepted(u2, []) == [];
    assert IsUploadRun(u1, es[1..]);
  }
}

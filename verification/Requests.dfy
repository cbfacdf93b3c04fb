/** Requests that share one authentication session.

    Each D-Bus request is served by a handler that may have to wait for the account to
    authenticate, asks for the client's credentials, runs the provider's callback, and retries
    once if the provider answered `Unauthorized`.  All handlers wait on the same session, which a
    later handler may replace. */
module Requests {

  datatype Session = Session(interactive: bool, invalidate: bool)

  datatype LiveSession = NoSession | Live(session: Session)

  /** `credentials` is false while the credentials are blank; `asked` counts the sessions that the
      account service was asked for. */
  datatype Account = Account(live: LiveSession, credentials: bool, asked: nat)

  const NO_ACCOUNT := Account(NoSession, false, 0)

  /** The existing session does for a caller with these wishes. */
  predicate GoodEnough(s: Session, interactive: bool, invalidate: bool) {
    if invalidate then s.invalidate else interactive ==> s.interactive
  }

  function Authenticate(a: Account, interactive: bool, invalidate: bool): Account {
    if a.live.Live? && GoodEnough(a.live.session, interactive, invalidate) then a
    else Account(Live(Session(interactive, invalidate)), false, a.asked + 1)
  }

  function Authenticated(a: Account, ok: bool): Account {
    Account(NoSession, ok, a.asked)
  }

  function Changed(a: Account): Account {
    if a.live.Live? then a else a.(credentials := false)
  }

  class OnlineAccountData {
    var authWatcher: bool
    var authenticatingInteractively: bool
    var authenticatingInvalidateCache: bool
    var credentials: bool
    var asked: nat

    function Abs(): Account
      reads this
    {
      Account(if authWatcher then Live(Session(authenticatingInteractively, authenticatingInvalidateCache))
              else NoSession,
              credentials, asked)
    }

    constructor ()
      ensures Abs() == Authenticate(NO_ACCOUNT, false, false)
    {
      authWatcher, authenticatingInteractively, authenticatingInvalidateCache := false, false, false;
      credentials, asked := false, 0;
      new;
      DoAuthenticate(false, false);
    }

    method DoAuthenticate(interactive: bool, invalidateCache: bool)
      modifies this
      ensures Abs() == Authenticate(old(Abs()), interactive, invalidateCache)
    {
      if authWatcher {
        if invalidateCache {
          if authenticatingInvalidateCache {
            return;
          }
        } else if interactive {
          if authenticatingInteractively {
            return;
          }
        } else {
          return;
        }
      }
      authenticatingInteractively := interactive;
      authenticatingInvalidateCache := invalidateCache;
      credentials := false;
      authWatcher := true;
      asked := asked + 1;
    }

    /** The session answered; the `authenticated` signal that follows is `AuthDone` below. */
    method OnAuthenticated(ok: bool)
      modifies this
      ensures Abs() == Authenticated(old(Abs()), ok)
    {
      credentials := false;
      if ok {
        credentials := true;
      }
      authWatcher := false;
    }

    method OnChanged()
      modifies this
      ensures Abs() == Changed(old(Abs()))
    {
      if authWatcher {
        return;
      }
      credentials := false;
    }
  }

  // ----- handlers -----

  datatype Phase =
    | Created              // `begin` has not run yet
    | WaitingAuth          // connected to the account's `authenticated` signal
    | WaitingPeer          // the client's credentials were asked for
    | CredentialsQueued    // `credentials_received` is queued
    | Running              // the callback's future is pending
    | UnauthorizedQueued   // `handle_unauthorized` is queued
    | ReplyQueued          // `send_reply` is queued
    | Done

  /** `callbacks` counts calls of the provider, `unauthorized` the futures of those calls that
      failed with `Unauthorized`; `registered` says that the interface's request table holds it. */
  datatype State = State(
    phase: Phase, retry: bool, callbacks: nat, unauthorized: nat, replies: nat, registered: bool, reply: Reply)

  const NEW_REQUEST := State(Created, false, 0, 0, 0, false, NoReply)

  /** How the future of the provider's callback ended. */
  datatype Outcome = Ok | Unauthorized | OtherError

  /** What the reply to the client says, once it is known. */
  datatype Reply = NoReply | NoCredentials | UnknownPeer | CallbackThrew | Answered(outcome: Outcome)

  function OnAuthenticated(a: Account, h: State): State {
    if a.credentials then h.(phase := WaitingPeer) else h.(phase := ReplyQueued, reply := NoCredentials)
  }

  function Begin(a: Account, h: State): (Account, State) {
    if a.credentials && !h.retry then (a, OnAuthenticated(a, h))
    else (Authenticate(a, true, h.retry), h.(phase := WaitingAuth))
  }

  function PeerReplied(h: State, valid: bool): State {
    if valid then h.(phase := CredentialsQueued) else h.(phase := ReplyQueued, reply := UnknownPeer)
  }

  function CredentialsReceived(h: State, throws: bool): State {
    if throws then h.(callbacks := h.callbacks + 1, phase := ReplyQueued, reply := CallbackThrew)
    else h.(callbacks := h.callbacks + 1, phase := Running)
  }

  function CallbackDone(h: State, outcome: Outcome): State {
    if outcome.Unauthorized? then h.(unauthorized := h.unauthorized + 1, phase := UnauthorizedQueued)
    else h.(phase := ReplyQueued, reply := Answered(outcome))
  }

  function SendReply(h: State): State {
    h.(phase := Done, replies := h.replies + 1, registered := false)
  }

  function HandleUnauthorized(a: Account, h: State): (Account, State) {
    if h.retry then (a, SendReply(h.(reply := Answered(Unauthorized)))) else Begin(a, h.(retry := true))
  }

  class Handler {
    const account: OnlineAccountData
    var phase: Phase
    var retry: bool
    var callbacks: nat
    var unauthorized: nat
    var replies: nat
    var registered: bool
    var reply: Reply

    function Abs(): State
      reads this
    {
      State(phase, retry, callbacks, unauthorized, replies, registered, reply)
    }

    constructor (account: OnlineAccountData)
      ensures Abs() == NEW_REQUEST && this.account == account
    {
      this.account := account;
      phase, retry, callbacks, unauthorized, replies, registered := Created, false, 0, 0, 0, false;
      reply := NoReply;
    }

    method DoBegin()
      modifies this, account
      ensures (account.Abs(), Abs()) == Begin(old(account.Abs()), old(Abs()))
    {
      if account.credentials && !retry {
        DoOnAuthenticated();
        return;
      }
      account.DoAuthenticate(true, retry);
      phase := WaitingAuth;
    }

    method DoOnAuthenticated()
      modifies this
      ensures Abs() == OnAuthenticated(account.Abs(), old(Abs()))
    {
      if !account.credentials {
        phase, reply := ReplyQueued, NoCredentials;
        return;
      }
      phase := WaitingPeer;
    }

    method DoPeerReplied(valid: bool)
      modifies this
      ensures Abs() == PeerReplied(old(Abs()), valid)
    {
      if valid {
        phase := CredentialsQueued;
      } else {
        phase, reply := ReplyQueued, UnknownPeer;
      }
    }

    method DoCredentialsReceived(throws: bool)
      modifies this
      ensures Abs() == CredentialsReceived(old(Abs()), throws)
    {
      callbacks := callbacks + 1;
      if throws {
        phase, reply := ReplyQueued, CallbackThrew;
        return;
      }
      phase := Running;
    }

    method DoCallbackDone(outcome: Outcome)
      modifies this
      ensures Abs() == CallbackDone(old(Abs()), outcome)
    {
      if outcome == Unauthorized {
        unauthorized := unauthorized + 1;
        phase := UnauthorizedQueued;
        return;
      }
      phase, reply := ReplyQueued, Answered(outcome);
    }

    method DoHandleUnauthorized()
      modifies this, account
      ensures (account.Abs(), Abs()) == HandleUnauthorized(old(account.Abs()), old(Abs()))
    {
      if retry {
        reply := Answered(Unauthorized);
        DoSendReply();
      } else {
        retry := true;
        DoBegin();
      }
    }

    method DoSendReply()
      modifies this
      ensures Abs() == SendReply(old(Abs()))
    {
      replies := replies + 1;
      phase := Done;
      registered := false;
    }
  }

  // ----- the whole account -----

  datatype World = World(account: Account, handlers: seq<State>)

  const START := World(Authenticate(NO_ACCOUNT, false, false), [])

  datatype Event =
    | NewRequest
    | AccountChanged
    | AuthDone(ok: bool)
    | Peer(i: nat, valid: bool)
    | RunCallback(i: nat, throws: bool)
    | Finished(i: nat, outcome: Outcome)
    | RunUnauthorized(i: nat)
    | RunReply(i: nat)

  /** What the environment, as opposed to the runtime, decides to do. */
  predicate External(e: Event) {
    e.NewRequest? || e.AccountChanged?
  }

  predicate At(w: World, i: nat, phase: Phase) {
    i < |w.handlers| && w.handlers[i].phase == phase
  }

  predicate Enabled(w: World, e: Event) {
    match e
    case NewRequest => true
    case AccountChanged => true
    case AuthDone(_) => w.account.live.Live?
    case Peer(i, _) => At(w, i, WaitingPeer)
    case RunCallback(i, _) => At(w, i, CredentialsQueued)
    case Finished(i, _) => At(w, i, Running)
    case RunUnauthorized(i) => At(w, i, UnauthorizedQueued)
    case RunReply(i) => At(w, i, ReplyQueued)
  }

  function Wake(a: Account, h: State): State {
    if h.phase.WaitingAuth? then OnAuthenticated(a, h) else h
  }

  /** The `authenticated` signal reaches every handler that is connected. */
  function Broadcast(a: Account, hs: seq<State>): (r: seq<State>)
    ensures |r| == |hs| && forall i :: 0 <= i < |hs| ==> r[i] == Wake(a, hs[i])
  {
    if hs == [] then [] else [Wake(a, hs[0])] + Broadcast(a, hs[1..])
  }

  function Step(w: World, e: Event): World
    requires Enabled(w, e)
  {
    match e
    case NewRequest =>
      var (a, h) := Begin(w.account, NEW_REQUEST);
      World(a, w.handlers + [h.(registered := true)])
    case AccountChanged => w.(account := Changed(w.account))
    case AuthDone(ok) =>
      var a := Authenticated(w.account, ok);
      World(a, Broadcast(a, w.handlers))
    case Peer(i, valid) => w.(handlers := w.handlers[i := PeerReplied(w.handlers[i], valid)])
    case RunCallback(i, throws) => w.(handlers := w.handlers[i := CredentialsReceived(w.handlers[i], throws)])
    case Finished(i, outcome) => w.(handlers := w.handlers[i := CallbackDone(w.handlers[i], outcome)])
    case RunUnauthorized(i) =>
      var (a, h) := HandleUnauthorized(w.account, w.handlers[i]);
      World(a, w.handlers[i := h])
    case RunReply(i) => w.(handlers := w.handlers[i := SendReply(w.handlers[i])])
  }

  ghost predicate IsRun(w: World, es: seq<Event>)
    decreases |es|
  {
    es == [] || (Enabled(w, es[0]) && IsRun(Step(w, es[0]), es[1..]))
  }

  ghost function Run(w: World, es: seq<Event>): World
    requires IsRun(w, es)
    decreases |es|
  {
    if es == [] then w else Run(Step(w, es[0]), es[1..])
  }

  // ----- the invariant -----

  predicate Sound(s: Session) {
    s.invalidate ==> s.interactive
  }

  /** A waiting handler has a live session, as strong as it needs. */
  predicate Served(a: Account, h: State) {
    h.phase.WaitingAuth? ==> a.live.Live? && a.live.session.interactive && (h.retry ==> a.live.session.invalidate)
  }

  function Retries(h: State): nat {
    if h.retry then 1 else 0
  }

  /** The counters agree with the phase. */
  predicate Counted(h: State) {
    && (match h.phase
        case Created => false
        case WaitingAuth => h.callbacks == h.unauthorized == Retries(h)
        case WaitingPeer => h.callbacks == h.unauthorized == Retries(h)
        case CredentialsQueued => h.callbacks == h.unauthorized == Retries(h)
        case Running => h.callbacks == 1 + Retries(h) && h.unauthorized == Retries(h)
        case UnauthorizedQueued => h.callbacks == h.unauthorized == 1 + Retries(h)
        case _ => Retries(h) <= h.unauthorized <= h.callbacks <= 1 + Retries(h))
    && h.replies == (if h.phase.Done? then 1 else 0)
    && h.registered == !h.phase.Done?
    && (h.reply == NoReply <==> !h.phase.ReplyQueued? && !h.phase.Done?)
    && (h.reply == Answered(Unauthorized) ==> h.phase.Done? && h.unauthorized == 2)
  }

  ghost predicate Inv(w: World) {
    && (w.account.live.Live? ==> Sound(w.account.live.session))
    && forall i :: 0 <= i < |w.handlers| ==> Served(w.account, w.handlers[i]) && Counted(w.handlers[i])
  }

  /** Asking again never takes away what another handler was promised. */
  lemma AuthenticateServes(a: Account, h: State, retry: bool)
    requires a.live.Live? ==> Sound(a.live.session)
    requires Served(a, h)
    ensures var a' := Authenticate(a, true, retry);
            && a'.live.Live? && Sound(a'.live.session)
            && a'.live.session.interactive && (retry ==> a'.live.session.invalidate)
            && Served(a', h)
  {
  }

  /** A handler that begins, for the first time or again, is counted and served. */
  lemma BeginCounts(a: Account, h: State)
    requires a.live.Live? ==> Sound(a.live.session)
    requires h.callbacks == h.unauthorized == Retries(h) && h.replies == 0 && h.registered && h.reply == NoReply
    ensures Counted(Begin(a, h).1) && Served(Begin(a, h).0, Begin(a, h).1)
  {
  }

  lemma BeginServesOthers(a: Account, h: State, other: State)
    requires (a.live.Live? ==> Sound(a.live.session)) && Served(a, other)
    ensures Served(Begin(a, h).0, other)
    ensures Begin(a, h).0.live.Live? ==> Sound(Begin(a, h).0.live.session)
  {
    AuthenticateServes(a, other, h.retry);
  }

  lemma NewKeepsInv(w: World)
    requires Inv(w)
    ensures Inv(Step(w, NewRequest))
  {
    var w' := Step(w, NewRequest);
    BeginCounts(w.account, NEW_REQUEST.(registered := true));
    BeginServesOthers(w.account, NEW_REQUEST, NEW_REQUEST);
    forall i | 0 <= i < |w.handlers|
      ensures Served(w'.account, w'.handlers[i]) && Counted(w'.handlers[i])
    {
      BeginServesOthers(w.account, NEW_REQUEST, w.handlers[i]);
    }
  }

  lemma RetryKeepsInv(w: World, i: nat)
    requires Inv(w) && At(w, i, UnauthorizedQueued)
    ensures Inv(Step(w, RunUnauthorized(i)))
  {
    var w' := Step(w, RunUnauthorized(i));
    var h := w.handlers[i];
    assert Counted(h);
    if !h.retry {
      BeginCounts(w.account, h.(retry := true));
      BeginServesOthers(w.account, h.(retry := true), h);
      forall j | 0 <= j < |w.handlers| && j != i
        ensures Served(w'.account, w'.handlers[j]) && Counted(w'.handlers[j])
      {
        BeginServesOthers(w.account, h.(retry := true), w.handlers[j]);
      }
    }
  }

  lemma AuthDoneKeepsInv(w: World, ok: bool)
    requires Inv(w)
    ensures Inv(World(Authenticated(w.account, ok), Broadcast(Authenticated(w.account, ok), w.handlers)))
  {
    forall i | 0 <= i < |w.handlers|
      ensures Counted(Wake(Authenticated(w.account, ok), w.handlers[i]))
    {
      assert Counted(w.handlers[i]);
    }
  }

  /** The steps of one handler that leave the account alone. */
  lemma LocalStepCounts(w: World, e: Event)
    requires Inv(w) && Enabled(w, e)
    requires e.Peer? || e.RunCallback? || e.Finished? || e.RunReply?
    ensures Step(w, e).account == w.account
    ensures Counted(Step(w, e).handlers[e.i]) && !Step(w, e).handlers[e.i].phase.WaitingAuth?
    ensures forall j :: 0 <= j < |w.handlers| && j != e.i ==> Step(w, e).handlers[j] == w.handlers[j]
  {
    assert Counted(w.handlers[e.i]);
  }

  lemma StepKeepsInv(w: World, e: Event)
    requires Inv(w) && Enabled(w, e)
    ensures Inv(Step(w, e))
  {
    match e {
      case NewRequest => NewKeepsInv(w);
      case AccountChanged =>
      case AuthDone(ok) => AuthDoneKeepsInv(w, ok);
      case RunUnauthorized(i) => RetryKeepsInv(w, i);
      case _ => LocalStepCounts(w, e);
    }
  }

  lemma {:induction false} RunKeepsInv(w: World, es: seq<Event>)
    requires Inv(w) && IsRun(w, es)
    ensures Inv(Run(w, es))
    decreases |es|
  {
    if es != [] {
      StepKeepsInv(w, es[0]);
      RunKeepsInv(Step(w, es[0]), es[1..]);
    }
  }

  // ----- replies and callbacks -----

  function Count(es: seq<Event>, e: Event): nat {
    if es == [] then 0 else (if es[0] == e then 1 else 0) + Count(es[1..], e)
  }

  lemma {:induction false} CountIn(es: seq<Event>, e: Event)
    ensures Count(es, e) > 0 <==> e in es
  {
    if es != [] {
      CountIn(es[1..], e);
    }
  }

  /** The futures of request `i` that failed with `Unauthorized`. */
  function Refusals(w: World, i: nat): nat {
    if i < |w.handlers| then w.handlers[i].unauthorized else 0
  }

  lemma StepRefuses(w: World, e: Event, i: nat)
    requires Enabled(w, e)
    ensures Refusals(Step(w, e), i) == Refusals(w, i) + if e == Finished(i, Unauthorized) then 1 else 0
  {
  }

  lemma {:induction false} RunRefuses(w: World, es: seq<Event>, i: nat)
    requires IsRun(w, es)
    ensures Refusals(Run(w, es), i) == Refusals(w, i) + Count(es, Finished(i, Unauthorized))
    decreases |es|
  {
    if es != [] {
      StepRefuses(w, es[0], i);
      RunRefuses(Step(w, es[0]), es[1..], i);
    }
  }

  /** In every run a request gets at most one reply and at most two calls of the provider, the
      second one only after the future of the first failed with `Unauthorized`; `unauthorized` counts
      those failures, and nothing else. */
  lemma RepliesAndCallbacks(es: seq<Event>, i: nat)
    requires IsRun(START, es) && i < |Run(START, es).handlers|
    ensures var h := Run(START, es).handlers[i];
            && h.replies <= 1
            && h.callbacks <= 2
            && h.unauthorized == Count(es, Finished(i, Unauthorized))
            && (h.callbacks == 2 ==> h.retry && Finished(i, Unauthorized) in es)
            && (h.retry ==> Finished(i, Unauthorized) in es)
            && (h.phase.CredentialsQueued? ==> h.callbacks == h.unauthorized <= 1)
  {
    RunKeepsInv(START, es);
    RunRefuses(START, es, i);
    CountIn(es, Finished(i, Unauthorized));
    assert Counted(Run(START, es).handlers[i]);
  }

  predicate IsAbout(e: Event, i: nat) {
    !External(e) && !e.AuthDone? && e.i == i
  }

  /** What each event does to the request that it is about; every other request stays as it was, but
      for those that an answer of the account service wakes. */
  lemma EventsMoveHandlers(es: seq<Event>, e: Event, i: nat)
    requires IsRun(START, es) && Enabled(Run(START, es), e) && i < |Run(START, es).handlers|
    ensures Moves(Run(START, es).handlers[i], Step(Run(START, es), e).handlers[i], e, i)
  {
    RunKeepsInv(START, es);
    StepMoves(Run(START, es), e, i);
  }

  predicate Moves(h: State, h': State, e: Event, i: nat) {
    if e.AuthDone? && h.phase.WaitingAuth? then
      h' == if e.ok then h.(phase := WaitingPeer) else h.(phase := ReplyQueued, reply := NoCredentials)
    else if !IsAbout(e, i) then h' == h
    else
      match e
      case Peer(_, valid) => h'.phase == if valid then CredentialsQueued else ReplyQueued
      case RunCallback(_, throws) =>
        h'.phase == (if throws then ReplyQueued else Running) && h'.callbacks == h.callbacks + 1
      case Finished(_, o) => h'.phase == if o == Unauthorized then UnauthorizedQueued else ReplyQueued
      case RunUnauthorized(_) => h'.phase == (if h.retry then Done else WaitingAuth) && h'.retry
      case _ => h'.phase == Done && h'.replies == 1 && h'.reply == h.reply
  }

  lemma StepMoves(w: World, e: Event, i: nat)
    requires Inv(w) && Enabled(w, e) && i < |w.handlers|
    ensures Moves(w.handlers[i], Step(w, e).handlers[i], e, i)
  {
    assert Counted(w.handlers[i]);
  }

  /** A new request goes on at once if the account has credentials, and otherwise waits for a session. */
  lemma NewRequestStarts(es: seq<Event>)
    requires IsRun(START, es)
    ensures var w, w' := Run(START, es), Step(Run(START, es), NewRequest);
            && |w'.handlers| == |w.handlers| + 1 && w'.handlers[..|w.handlers|] == w.handlers
            && w'.handlers[|w.handlers|].registered
            && (if w.account.credentials
                then w'.handlers[|w.handlers|].phase == WaitingPeer && w'.account == w.account
                else w'.handlers[|w.handlers|].phase == WaitingAuth && w'.account.live.Live?)
  {
  }

  // ----- what the reply says -----

  /** The events after which the reply to request `i` is known, and what it then says. */
  predicate Decides(e: Event, i: nat) {
    match e
    case Peer(k, valid) => k == i && !valid
    case RunCallback(k, throws) => k == i && throws
    case Finished(k, o) => k == i && o != Unauthorized
    case _ => false
  }

  function Meaning(e: Event): Reply {
    match e
    case Peer(_, _) => UnknownPeer
    case RunCallback(_, _) => CallbackThrew
    case Finished(_, o) => Answered(o)
    case _ => NoCredentials
  }

  function Says(w: World, i: nat, r: Reply): nat {
    if i < |w.handlers| && w.handlers[i].reply == r then 1 else 0
  }

  lemma StepSays(w: World, e: Event, i: nat, about: Event)
    requires Inv(w) && Enabled(w, e) && Decides(about, i)
    ensures Says(Step(w, e), i, Meaning(about)) == Says(w, i, Meaning(about)) + if e == about then 1 else 0
  {
    if i < |w.handlers| {
      assert Counted(w.handlers[i]);
    }
  }

  lemma {:induction false} RunSays(w: World, es: seq<Event>, i: nat, about: Event)
    requires Inv(w) && IsRun(w, es) && Decides(about, i)
    ensures Says(Run(w, es), i, Meaning(about)) == Says(w, i, Meaning(about)) + Count(es, about)
    decreases |es|
  {
    if es != [] {
      StepSays(w, es[0], i, about);
      StepKeepsInv(w, es[0]);
      RunSays(Step(w, es[0]), es[1..], i, about);
    }
  }

  lemma {:induction false} RunBlames(w: World, es: seq<Event>, i: nat)
    requires Inv(w) && IsRun(w, es)
    ensures Says(Run(w, es), i, NoCredentials) == 1 ==> Says(w, i, NoCredentials) == 1 || AuthDone(false) in es
    decreases |es|
  {
    if es != [] {
      StepKeepsInv(w, es[0]);
      RunBlames(Step(w, es[0]), es[1..], i);
      if i < |w.handlers| {
        assert Served(w.account, w.handlers[i]) && Counted(w.handlers[i]);
      }
    }
  }

  /** The reply tells what happened: in every run a request is answered with the provider's result if
      and only if a future of its callback ended with that result, and with each other error if and
      only if that happened to it; with `Unauthorized` only after a second refusal. */
  lemma ReplyTells(es: seq<Event>, i: nat)
    requires IsRun(START, es) && i < |Run(START, es).handlers|
    ensures var r := Run(START, es).handlers[i].reply;
            && (r == Answered(Ok) <==> Finished(i, Ok) in es)
            && (r == Answered(OtherError) <==> Finished(i, OtherError) in es)
            && (r == CallbackThrew <==> RunCallback(i, true) in es)
            && (r == UnknownPeer <==> Peer(i, false) in es)
            && (r == Answered(Unauthorized) ==> Count(es, Finished(i, Unauthorized)) == 2)
            && (r == NoCredentials ==> AuthDone(false) in es)
            && (Run(START, es).handlers[i].replies == 1 ==> r != NoReply)
  {
    RunKeepsInv(START, es);
    assert Counted(Run(START, es).handlers[i]);
    ReplyTellsOf(es, i, Finished(i, Ok));
    ReplyTellsOf(es, i, Finished(i, OtherError));
    ReplyTellsOf(es, i, RunCallback(i, true));
    ReplyTellsOf(es, i, Peer(i, false));
    RunBlames(START, es, i);
    RunRefuses(START, es, i);
  }

  lemma ReplyTellsOf(es: seq<Event>, i: nat, about: Event)
    requires IsRun(START, es) && i < |Run(START, es).handlers| && Decides(about, i)
    ensures Run(START, es).handlers[i].reply == Meaning(about) <==> about in es
  {
    RunSays(START, es, i, about);
    CountIn(es, about);
  }

  /** A handler that is about to reply is in the request table, which it leaves with its reply. */
  lemma ReplyFindsRequest(es: seq<Event>, e: Event)
    requires IsRun(START, es) && Enabled(Run(START, es), e)
    requires e.RunReply? || e.RunUnauthorized?
    ensures var w := Run(START, es);
            && w.handlers[e.i].registered
            && (Step(w, e).handlers[e.i].replies == 1 <==> !Step(w, e).handlers[e.i].registered)
  {
    RunKeepsInv(START, es);
    StepKeepsInv(Run(START, es), e);
    assert Counted(Run(START, es).handlers[e.i]);
    assert Counted(Step(Run(START, es), e).handlers[e.i]);
  }

  /** How far a handler is from its reply; a first attempt has a second one ahead of it. */
  function Distance(h: State): nat {
    match h.phase
    case Done => 0
    case ReplyQueued => 1
    case _ =>
      (if h.retry then 0 else 5) +
      match h.phase
      case Created => 6
      case WaitingAuth => 6
      case WaitingPeer => 5
      case CredentialsQueued => 4
      case Running => 3
      case _ => 2
  }

  function TotalDistance(hs: seq<State>): nat {
    if hs == [] then 0 else TotalDistance(hs[..|hs| - 1]) + Distance(hs[|hs| - 1])
  }

  function Measure(w: World): nat {
    2 * TotalDistance(w.handlers) + if w.account.live.Live? then 1 else 0
  }

  lemma {:induction false} TotalUpdate(hs: seq<State>, i: nat, h: State)
    requires i < |hs|
    ensures TotalDistance(hs[i := h]) == TotalDistance(hs) - Distance(hs[i]) + Distance(h)
  {
    var n := |hs| - 1;
    if i < n {
      TotalUpdate(hs[..n], i, h);
      assert hs[i := h][..n] == hs[..n][i := h];
    } else {
      assert hs[i := h][..n] == hs[..n];
    }
  }

  lemma {:induction false} TotalBroadcast(a: Account, hs: seq<State>, woken: seq<State>)
    requires |woken| == |hs| && forall i :: 0 <= i < |hs| ==> woken[i] == Wake(a, hs[i])
    ensures TotalDistance(woken) <= TotalDistance(hs)
  {
    if hs != [] {
      TotalBroadcast(a, hs[..|hs| - 1], woken[..|hs| - 1]);
    }
  }

  lemma HandlerComesCloser(w: World, e: Event)
    requires Inv(w) && Enabled(w, e) && !External(e) && !e.AuthDone?
    ensures Step(w, e).handlers == w.handlers[e.i := Step(w, e).handlers[e.i]]
    ensures Distance(Step(w, e).handlers[e.i]) < Distance(w.handlers[e.i])
  {
    assert Counted(w.handlers[e.i]);
  }

  lemma StepDecreases(w: World, e: Event)
    requires Inv(w) && Enabled(w, e) && !External(e)
    ensures Measure(Step(w, e)) < Measure(w)
  {
    var w' := Step(w, e);
    if e.AuthDone? {
      TotalBroadcast(w'.account, w.handlers, w'.handlers);
    } else {
      HandlerComesCloser(w, e);
      TotalUpdate(w.handlers, e.i, w'.handlers[e.i]);
    }
  }

  function Internal(es: seq<Event>): nat {
    if es == [] then 0 else (if External(es[0]) then 0 else 1) + Internal(es[1..])
  }

  /** Without new requests, only a bounded number of steps can follow. */
  lemma {:induction false} StepsAreBounded(w: World, es: seq<Event>)
    requires Inv(w) && IsRun(w, es) && NewRequest !in es
    ensures Internal(es) + Measure(Run(w, es)) <= Measure(w)
    decreases |es|
  {
    if es != [] {
      assert es[0] in es;
      StepKeepsInv(w, es[0]);
      if !External(es[0]) {
        StepDecreases(w, es[0]);
      }
      StepsAreBounded(Step(w, es[0]), es[1..]);
    }
  }

  /** The step that `h` waits for. */
  function Next(i: nat, h: State): Event {
    match h.phase
    case WaitingAuth => AuthDone(true)
    case WaitingPeer => Peer(i, true)
    case CredentialsQueued => RunCallback(i, false)
    case Running => Finished(i, Ok)
    case UnauthorizedQueued => RunUnauthorized(i)
    case _ => RunReply(i)
  }

  /** Nobody is left waiting: once every asynchronous step has completed, each request has had
      exactly one reply. */
  lemma QuietMeansAnswered(es: seq<Event>, i: nat)
    requires IsRun(START, es) && i < |Run(START, es).handlers|
    requires forall e :: Enabled(Run(START, es), e) ==> External(e)
    ensures Run(START, es).handlers[i].replies == 1
  {
    RunKeepsInv(START, es);
    QuietIsAnswered(Run(START, es), i);
  }

  lemma QuietIsAnswered(w: World, i: nat)
    requires Inv(w) && i < |w.handlers|
    requires forall e :: Enabled(w, e) ==> External(e)
    ensures w.handlers[i].replies == 1
  {
    var h := w.handlers[i];
    assert Served(w.account, h) && Counted(h);
    if !h.phase.Done? {
      assert Enabled(w, Next(i, h));
      assert false;
    }
  }

  // ----- credentials -----

  /** How often the bus vouched for the client of request `i`. */
  function Vouched(es: seq<Event>, i: nat): nat {
    if es == [] then 0 else (if es[0] == Peer(i, true) then 1 else 0) + Vouched(es[1..], i)
  }

  /** Calls of the provider that were made or are queued. */
  function Calls(w: World, i: nat): nat {
    if i < |w.handlers| then w.handlers[i].callbacks + if w.handlers[i].phase.CredentialsQueued? then 1 else 0
    else 0
  }

  lemma StepVouches(w: World, e: Event, i: nat)
    requires Enabled(w, e)
    ensures Calls(Step(w, e), i) == Calls(w, i) + if e == Peer(i, true) then 1 else 0
  {
  }

  lemma {:induction false} RunVouches(w: World, es: seq<Event>, i: nat)
    requires IsRun(w, es)
    ensures Calls(Run(w, es), i) == Calls(w, i) + Vouched(es, i)
    decreases |es|
  {
    if es != [] {
      StepVouches(w, es[0], i);
      RunVouches(Step(w, es[0]), es[1..], i);
    }
  }

  /** The provider is called for a request once for each time that the bus vouched for its client,
      and never otherwise. */
  lemma CallbacksAreVouchedFor(es: seq<Event>, i: nat)
    requires IsRun(START, es) && i < |Run(START, es).handlers|
    ensures var h := Run(START, es).handlers[i];
            h.callbacks == Vouched(es, i) - if h.phase.CredentialsQueued? then 1 else 0
  {
    RunVouches(START, es, i);
  }

  /** Whether the account's latest news, if any in `es`, was a good answer; else `good`. */
  function LatestIsGood(es: seq<Event>, good: bool): bool
    decreases |es|
  {
    if es == [] then good
    else LatestIsGood(es[1..], if es[0].AuthDone? then es[0].ok else good && !es[0].AccountChanged?)
  }

  lemma {:induction false} RunKeepsCurrent(w: World, es: seq<Event>, good: bool)
    requires IsRun(w, es) && (w.account.credentials <==> good && w.account.live.NoSession?)
    ensures var a := Run(w, es).account; a.credentials <==> LatestIsGood(es, good) && a.live.NoSession?
    decreases |es|
  {
    if es != [] {
      RunKeepsCurrent(Step(w, es[0]), es[1..], if es[0].AuthDone? then es[0].ok else good && !es[0].AccountChanged?);
    }
  }

  /** In every run the account has credentials exactly if no session is live and its latest news is a
      good answer. */
  lemma CredentialsAreCurrent(es: seq<Event>)
    requires IsRun(START, es)
    ensures var a := Run(START, es).account; a.credentials <==> LatestIsGood(es, false) && a.live.NoSession?
  {
    RunKeepsCurrent(START, es, false);
  }

  /** A handler that retries waits for a session that invalidates what the provider refused. */
  lemma RetryReauthenticates(es: seq<Event>, i: nat)
    requires IsRun(START, es) && At(Run(START, es), i, UnauthorizedQueued) && !Run(START, es).handlers[i].retry
    ensures var w := Step(Run(START, es), RunUnauthorized(i));
            && w.handlers[i].phase == WaitingAuth && w.handlers[i].retry
            && w.account.live == Live(Session(true, true)) && !w.account.credentials
  {
    RunKeepsInv(START, es);
    CredentialsAreCurrent(es);
    RetryAuthenticates(Run(START, es), i);
  }

  lemma RetryAuthenticates(w: World, i: nat)
    requires At(w, i, UnauthorizedQueued) && !w.handlers[i].retry
    requires w.account.live.Live? ==> Sound(w.account.live.session) && !w.account.credentials
    ensures var w' := Step(w, RunUnauthorized(i));
            && w'.handlers[i].phase == WaitingAuth && w'.handlers[i].retry
            && w'.account.live == Live(Session(true, true)) && !w'.account.credentials
  {
  }

  // ----- the session -----

  function Strength(s: Session): nat {
    if s.invalidate then 2 else if s.interactive then 1 else 0
  }

  /** After a call the session meets the caller's wishes, in every case but one: an interactive,
      invalidating call takes a non-interactive session that already invalidates as it is. */
  lemma AuthenticateMeetsWishes(a: Account, interactive: bool, invalidate: bool)
    ensures var s := Authenticate(a, interactive, invalidate).live.session;
            && (invalidate ==> s.invalidate)
            && ((interactive ==> s.interactive)
                <==> !(interactive && invalidate && a.live == Live(Session(false, true))))
  {
  }

  /** A call keeps what a live session offers if and only if it does not ask an interactive session that
      does not invalidate for one that invalidates without interaction.  Callers that never ask for that
      replace a session by a stronger one only. */
  lemma ReplacementStrengthens(a: Account, interactive: bool, invalidate: bool)
    requires a.live.Live? && Sound(a.live.session)
    ensures var s, s' := a.live.session, Authenticate(a, interactive, invalidate).live.session;
            && ((s'.interactive || !s.interactive) && (s'.invalidate || !s.invalidate) <==>
                !(invalidate && !interactive && s.interactive && !s.invalidate))
            && ((invalidate ==> interactive) ==>
                  if Authenticate(a, interactive, invalidate).asked == a.asked then s' == s
                  else Strength(s) < Strength(s') && s' == Session(interactive, invalidate))
  {
  }

  /** Which a call can do. */
  lemma InvalidateAloneWeakens()
    ensures var a := NO_ACCOUNT.(live := Live(Session(true, false)));
            Authenticate(a, false, true).live == Live(Session(false, true))
  {
  }

  /** The account service is asked for another session while one is live. */
  predicate Replaces(w: World, e: Event)
    requires Enabled(w, e)
  {
    w.account.live.Live? && Step(w, e).account.asked != w.account.asked
  }

  ghost function Replacements(w: World, es: seq<Event>): nat
    requires IsRun(w, es)
    decreases |es|
  {
    if es == [] then 0 else (if Replaces(w, es[0]) then 1 else 0) + Replacements(Step(w, es[0]), es[1..])
  }

  function Room(w: World): nat {
    if w.account.live.Live? then 2 - Strength(w.account.live.session) else 2
  }

  lemma {:induction false} RoomShrinks(w: World, es: seq<Event>)
    requires Inv(w) && IsRun(w, es) && forall e :: e in es ==> !e.AuthDone?
    ensures Replacements(w, es) + Room(Run(w, es)) <= Room(w)
    decreases |es|
  {
    if es != [] {
      assert es[0] in es;
      assert forall e :: e in es[1..] ==> e in es;
      StepKeepsInv(w, es[0]);
      if w.account.live.Live? {
        ReplacementStrengthens(w.account, true, true);
        ReplacementStrengthens(w.account, true, false);
      }
      RoomShrinks(Step(w, es[0]), es[1..]);
    }
  }

  /** Between two answers of the account service the session is replaced at most twice, however
      many requests arrive; and every waiting handler has a session as strong as it needs. */
  lemma SessionReplacedAtMostTwice(before: seq<Event>, es: seq<Event>)
    requires IsRun(START, before) && IsRun(Run(START, before), es)
    requires forall e :: e in es ==> !e.AuthDone?
    ensures Replacements(Run(START, before), es) <= 2
    ensures forall h :: h in Run(Run(START, before), es).handlers ==> Served(Run(Run(START, before), es).account, h)
  {
    RunKeepsInv(START, before);
    RoomShrinks(Run(START, before), es);
    RunKeepsInv(Run(START, before), es);
  }
}

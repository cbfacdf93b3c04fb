/** When a service may stop for lack of work: requests and jobs hold notifiers, a timer counts them and
    runs only while there are none.

    The count is right as long as no notifier that already holds is assigned another one: that is
    where the source loses one, and exactly where. */
module Activity {

  /** `armed` if the single-shot timer runs. */
  datatype Counter = Counter(requests: int, armed: bool)

  const NEW_COUNTER := Counter(0, false)

  function Started(c: Counter): Counter {
    Counter(c.requests + 1, if c.requests == 0 then false else c.armed)
  }

  function Finished(c: Counter): Counter {
    Counter(c.requests - 1, if c.requests == 1 then true else c.armed)
  }

  class InactivityTimer {
    var numRequests: int
    var armed: bool

    function Value(): Counter
      reads this
    {
      Counter(numRequests, armed)
    }

    constructor ()
      ensures Value() == NEW_COUNTER
    {
      numRequests, armed := 0, false;
    }

    /** The source asserts the precondition, as it does that of RequestFinished. */
    method RequestStarted()
      requires numRequests >= 0
      modifies this
      ensures Value() == Started(old(Value()))
    {
      numRequests := numRequests + 1;
      if numRequests - 1 == 0 {
        armed := false;
      }
    }

    method RequestFinished()
      requires numRequests > 0
      modifies this
      ensures Value() == Finished(old(Value()))
    {
      numRequests := numRequests - 1;
      if numRequests == 0 {
        armed := true;
      }
    }
  }

  class ActivityNotifier {
    var timer: InactivityTimer?

    constructor Empty()
      ensures timer == null
    {
      timer := null;
    }

    constructor Start(timer: InactivityTimer)
      requires timer.numRequests >= 0
      modifies timer
      ensures this.timer == timer && timer.Value() == Started(old(timer.Value()))
    {
      this.timer := timer;
      new;
      timer.RequestStarted();
    }

    constructor Move(other: ActivityNotifier)
      modifies other
      ensures timer == old(other.timer) && other.timer == null
    {
      timer := other.timer;
      new;
      other.timer := null;
    }

    /** Moves what `other` holds; no timer is told, whatever this notifier held before. */
    method Assign(other: ActivityNotifier)
      modifies this, other
      ensures timer == old(other.timer)
      ensures other != this ==> other.timer == null
    {
      var moved := other.timer;
      other.timer := null;
      timer := moved;
    }

    method Destroy()
      requires timer != null ==> timer.numRequests > 0
      modifies this, timer
      ensures timer == null
      ensures old(timer) != null ==> old(timer).Value() == Finished(old(timer.Value()))
    {
      if timer != null {
        timer.RequestFinished();
      }
      timer := null;
    }
  }

  /** `set_activity` of a job: a temporary notifier is assigned to the job's and then destroyed. */
  method SetActivity(activity: ActivityNotifier, timer: InactivityTimer)
    requires timer.numRequests >= 0
    modifies activity, timer
    ensures activity.timer == timer && timer.Value() == Started(old(timer.Value()))
  {
    var temporary := new ActivityNotifier.Start(timer);
    activity.Assign(temporary);
    temporary.Destroy();
  }

  // ----- runs -----

  /** All notifiers of one timer: those that exist, those among them that hold it, and how many
      holders were overwritten. */
  datatype World = World(counter: Counter, alive: set<nat>, holding: set<nat>, lost: nat)

  const NEW_WORLD := World(NEW_COUNTER, {}, {}, 0)

  datatype Event =
    | CreateEmpty(n: nat)
    | Create(n: nat)
    | MoveTo(n: nat, from: nat)
    | Assign(to: nat, from: nat)
    | Destroy(n: nat)
    | Timeout

  predicate Enabled(w: World, e: Event) {
    match e
    case CreateEmpty(n) => n !in w.alive
    case Create(n) => n !in w.alive
    case MoveTo(n, from) => n !in w.alive && from in w.alive
    case Assign(to, from) => to in w.alive && from in w.alive
    case Destroy(n) => n in w.alive
    case Timeout => w.counter.armed
  }

  /** Passes what `from` holds on to `to`. */
  function Pass(holding: set<nat>, to: nat, from: nat): set<nat> {
    if to == from then holding else if from in holding then (holding - {from}) + {to} else holding - {to}
  }

  /** Assigning to a notifier that holds, from another one, loses what it held. */
  predicate Overwrites(w: World, e: Event) {
    e.Assign? && e.to != e.from && e.to in w.holding
  }

  function Step(w: World, e: Event): World {
    match e
    case CreateEmpty(n) => w.(alive := w.alive + {n})
    case Create(n) => w.(counter := Started(w.counter), alive := w.alive + {n}, holding := w.holding + {n})
    case MoveTo(n, from) => w.(alive := w.alive + {n}, holding := Pass(w.holding, n, from))
    case Assign(to, from) =>
      w.(holding := Pass(w.holding, to, from), lost := w.lost + if Overwrites(w, e) then 1 else 0)
    case Destroy(n) =>
      w.(counter := if n in w.holding then Finished(w.counter) else w.counter,
         alive := w.alive - {n}, holding := w.holding - {n})
    case Timeout => w.(counter := w.counter.(armed := false))
  }

  ghost predicate IsRun(w: World, es: seq<Event>)
    decreases |es|
  {
    es == [] || (Enabled(w, es[0]) && IsRun(Step(w, es[0]), es[1..]))
  }

  ghost function Run(w: World, es: seq<Event>): World
    decreases |es|
  {
    if es == [] then w else Run(Step(w, es[0]), es[1..])
  }

  /** The timer counts the holders and the lost ones, and runs only at zero. */
  ghost predicate Inv(w: World) {
    && w.holding <= w.alive
    && w.counter.requests == |w.holding| + w.lost
    && (w.counter.armed ==> w.counter.requests == 0)
  }

  lemma Without(s: set<nat>, n: nat)
    ensures |s - {n}| == |s| - if n in s then 1 else 0
  {
    if n in s {
      assert s == (s - {n}) + {n};
    } else {
      assert s - {n} == s;
    }
  }

  lemma With(s: set<nat>, n: nat)
    requires n !in s
    ensures |s + {n}| == |s| + 1
  {
  }

  lemma PassCounts(holding: set<nat>, to: nat, from: nat)
    ensures |Pass(holding, to, from)| == |holding| - if to != from && to in holding then 1 else 0
  {
    if to != from {
      if from in holding {
        Without(holding, from);
        if to in holding {
          assert (holding - {from}) + {to} == holding - {from};
        }
      } else {
        Without(holding, to);
      }
    }
  }

  lemma StepCounts(w: World, e: Event)
    requires w.holding <= w.alive && w.counter.requests == |w.holding| + w.lost && Enabled(w, e)
    ensures var w' := Step(w, e); w'.counter.requests == |w'.holding| + w'.lost
  {
    match e
    case Create(n) => With(w.holding, n);
    case MoveTo(n, from) => PassCounts(w.holding, n, from);
    case Assign(to, from) => PassCounts(w.holding, to, from);
    case Destroy(n) => Without(w.holding, n);
    case _ =>
  }

  lemma StepKeepsInv(w: World, e: Event)
    requires Inv(w) && Enabled(w, e)
    ensures Inv(Step(w, e))
    ensures e.Destroy? && e.n in w.holding ==> w.counter.requests > 0
  {
    StepCounts(w, e);
    if e.Destroy? {
      Without(w.holding, e.n);
    }
  }

  lemma {:induction false} RunKeepsInv(w: World, es: seq<Event>)
    requires Inv(w) && IsRun(w, es)
    ensures Inv(Run(w, es))
    decreases |es|
  {
    if es != [] {
      StepKeepsInv(w, es[0]);
      RunKeepsInv(Step(w, es[0]), es[1..]);
    }
  }

  /** In every run the count is that of the notifiers that hold plus that of those overwritten, so the
      timer never runs, and the service is never told to stop, while anything holds. */
  lemma IdleMeansNobodyHolds(es: seq<Event>)
    requires IsRun(NEW_WORLD, es)
    ensures var w := Run(NEW_WORLD, es);
            && w.counter.requests == |w.holding| + w.lost
            && (w.counter.armed ==> w.holding == {})
  {
    RunKeepsInv(NEW_WORLD, es);
  }

  /** When the timer starts and stops, in any run: it starts when the last holder goes and none was lost,
      and it stops when a notifier is created or when it has fired. */
  lemma TimerFollows(es: seq<Event>, e: Event)
    requires IsRun(NEW_WORLD, es) && Enabled(Run(NEW_WORLD, es), e)
    ensures var w, w' := Run(NEW_WORLD, es), Step(Run(NEW_WORLD, es), e);
            w'.counter.armed ==
              match e
              case Create(_) => false
              case Timeout => false
              case Destroy(n) => if w.holding == {n} && w.lost == 0 then true else w.counter.armed
              case _ => w.counter.armed
  {
    RunKeepsInv(NEW_WORLD, es);
    var w := Run(NEW_WORLD, es);
    if e.Destroy? && e.n in w.holding {
      Without(w.holding, e.n);
      assert |w.holding| == 1 ==> w.holding - {e.n} == {};
    }
  }

  ghost predicate NoOverwrite(w: World, es: seq<Event>)
    decreases |es|
  {
    es == [] || (!Overwrites(w, es[0]) && NoOverwrite(Step(w, es[0]), es[1..]))
  }

  lemma {:induction false} LostIff(w: World, es: seq<Event>)
    ensures Run(w, es).lost >= w.lost
    ensures Run(w, es).lost == w.lost <==> NoOverwrite(w, es)
    decreases |es|
  {
    if es != [] {
      LostIff(Step(w, es[0]), es[1..]);
    }
  }

  lemma {:induction false} RunConcat(w: World, es: seq<Event>, e: Event)
    requires IsRun(w, es + [e])
    ensures IsRun(w, es) && Enabled(Run(w, es), e) && Run(w, es + [e]) == Step(Run(w, es), e)
    decreases |es|
  {
    if es == [] {
      assert es + [e] == [e];
    } else {
      assert (es + [e])[1..] == es[1..] + [e];
      RunConcat(Step(w, es[0]), es[1..], e);
    }
  }

  /** When the last holder goes, the timer starts if and only if no notifier that held was ever
      overwritten; otherwise the service never becomes idle again. */
  lemma BecomesIdleIff(es: seq<Event>, n: nat)
    requires IsRun(NEW_WORLD, es + [Destroy(n)])
    requires Run(NEW_WORLD, es).holding == {n}
    ensures Run(NEW_WORLD, es + [Destroy(n)]).counter.armed <==> NoOverwrite(NEW_WORLD, es)
  {
    RunConcat(NEW_WORLD, es, Destroy(n));
    RunKeepsInv(NEW_WORLD, es);
    LostIff(NEW_WORLD, es);
  }

  // ----- jobs -----

  /** `set_activity` on the job whose notifier is `job`, with the temporary `t`. */
  function SetActivityEvents(job: nat, t: nat): seq<Event> {
    [Create(t), Assign(job, t), Destroy(t)]
  }

  /** Giving a job its activity loses one exactly if the job already has one. */
  lemma SetActivityTwiceLoses(w: World, job: nat, t: nat)
    requires Inv(w) && job in w.alive && t !in w.alive
    ensures IsRun(w, SetActivityEvents(job, t))
    ensures var next := Run(w, SetActivityEvents(job, t));
            && next.alive == w.alive && next.holding == w.holding + {job}
            && next.counter == Started(w.counter)
            && next.lost == w.lost + if job in w.holding then 1 else 0
  {
    var es := SetActivityEvents(job, t);
    var w1 := Step(w, es[0]);
    var w2 := Step(w1, es[1]);
    var w3 := Step(w2, es[2]);
    assert es[1..] == [Assign(job, t), Destroy(t)] && es[1..][1..] == [Destroy(t)] && [Destroy(t)][1..] == [];
    assert w2.holding == w.holding + {job} && t !in w2.holding;
    assert w3.alive == w.alive;
    assert Run(w2, [Destroy(t)]) == Run(w3, []) == w3;
    assert IsRun(w2, [Destroy(t)]);
  }

  lemma {:induction false} RunsJoin(w: World, es: seq<Event>, more: seq<Event>)
    requires IsRun(w, es) && IsRun(Run(w, es), more)
    ensures IsRun(w, es + more) && Run(w, es + more) == Run(Run(w, es), more)
    decreases |es|
  {
    if es == [] {
      assert es + more == more;
    } else {
      assert (es + more)[1..] == es[1..] + more;
      RunsJoin(Step(w, es[0]), es[1..], more);
    }
  }

  /** Which happens: a job that is given its activity twice and then destroyed leaves nobody holding,
      and the timer not running. */
  lemma TwoActivitiesNeverIdle()
    ensures var es := [CreateEmpty(0)] + SetActivityEvents(0, 1) + SetActivityEvents(0, 1) + [Destroy(0)];
            var w := Run(NEW_WORLD, es);
            && IsRun(NEW_WORLD, es)
            && w.alive == {} && w.holding == {} && w.counter == Counter(1, false)
  {
    var job, set' := [CreateEmpty(0)], SetActivityEvents(0, 1);
    var w1 := Step(NEW_WORLD, CreateEmpty(0));
    assert job[1..] == [] && Run(w1, job[1..]) == w1;
    SetActivityTwiceLoses(w1, 0, 1);
    var w2 := Run(w1, set');
    RunsJoin(NEW_WORLD, job, set');
    RunKeepsInv(w1, set');
    SetActivityTwiceLoses(w2, 0, 1);
    var w3 := Run(w2, set');
    RunsJoin(NEW_WORLD, job + set', set');
    var gone := [Destroy(0)];
    assert gone[1..] == [] && Run(Step(w3, Destroy(0)), gone[1..]) == Step(w3, Destroy(0));
    RunsJoin(NEW_WORLD, job + set' + set', gone);
  }
}

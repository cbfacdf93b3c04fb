/** The table of uploads and downloads in progress, with one watch per client.

    Two ordered maps hold the jobs; `services` counts, per client, the jobs that are held for it,
    so that the client's bus name is watched exactly while it has a job. */
module PendingJobs {
  import opened OrderedMap
  import opened Peers

  datatype Kind = Download | Upload

  /** `cancelled` lists the jobs on which `cancel_job` was called, in order. */
  datatype State = State(
    downloads: seq<Entry>,
    uploads: seq<Entry>,
    services: map<Peer, nat>,
    watched: set<Peer>,
    cancelled: seq<nat>)
  {
    function Table(kind: Kind): seq<Entry> {
      if kind.Download? then downloads else uploads
    }

    function With(kind: Kind, table: seq<Entry>): State {
      if kind.Download? then this.(downloads := table) else this.(uploads := table)
    }

    /** How many jobs are held for `c`. */
    function Load(c: Peer): nat {
      CountPeer(downloads, c) + CountPeer(uploads, c)
    }
  }

  const INITIAL := State([], [], map[], {}, [])

  // ----- what one call does -----

  function Watch(s: State, c: Peer): State {
    if c in s.services then s.(services := s.services[c := s.services[c] + 1])
    else s.(watched := s.watched + {c}, services := s.services[c := 1])
  }

  function Unwatch(s: State, c: Peer): State {
    if c !in s.services then s
    else if s.services[c] <= 1 then s.(services := s.services - {c}, watched := s.watched - {c})
    else s.(services := s.services[c := s.services[c] - 1])
  }

  function Add(s: State, kind: Kind, e: Entry): State {
    Watch(s.With(kind, Emplace(s.Table(kind), e)), e.key.peer)
  }

  function Remove(s: State, kind: Kind, k: Key): State {
    var i := Find(s.Table(kind), k);
    if i < 0 then s else Unwatch(s.With(kind, Erase(s.Table(kind), i)), k.peer)
  }

  function Disconnect(s: State, c: Peer): State {
    State(Without(s.downloads, c), Without(s.uploads, c), s.services - {c}, s.watched - {c},
          s.cancelled + JobsOf(s.downloads, c) + JobsOf(s.uploads, c))
  }

  // ----- the invariant -----

  /** The count of each client is the number of its jobs, and never zero. */
  ghost predicate CountsAgree(s: State) {
    && (forall c :: c in s.services ==> s.services[c] == s.Load(c) > 0)
    && (forall c :: c !in s.services ==> s.Load(c) == 0)
    && s.watched == s.services.Keys
  }

  ghost predicate Valid(s: State) {
    Sorted(s.downloads) && Sorted(s.uploads) && CountsAgree(s)
  }

  lemma AddKeepsValid(s: State, kind: Kind, e: Entry)
    requires Valid(s) && !Contains(s.Table(kind), e.key)
    ensures Valid(Add(s, kind, e))
  {
    var s' := Add(s, kind, e);
    FindFinds(s.Table(kind), e.key);
    EmplaceKeepsSorted(s.Table(kind), e);
    forall c
      ensures s'.Load(c) == s.Load(c) + if c == e.key.peer then 1 else 0
    {
      CountEmplace(s.Table(kind), e, c);
    }
  }

  /** A job that is found has a counted client, so `unwatch_peer` finds that client. */
  lemma FoundIsWatched(s: State, kind: Kind, k: Key)
    requires Valid(s) && Find(s.Table(kind), k) >= 0
    ensures k.peer in s.services
  {
    CountErase(s.Table(kind), Find(s.Table(kind), k), k.peer);
    assert s.Load(k.peer) > 0;
  }

  lemma RemoveKeepsValid(s: State, kind: Kind, k: Key)
    requires Valid(s)
    ensures Valid(Remove(s, kind, k))
  {
    var i := Find(s.Table(kind), k);
    if i >= 0 {
      var s' := Remove(s, kind, k);
      FoundIsWatched(s, kind, k);
      EraseKeepsSorted(s.Table(kind), i);
      forall c
        ensures s'.Load(c) == s.Load(c) - if c == k.peer then 1 else 0
      {
        CountErase(s.Table(kind), i, c);
      }
    }
  }

  lemma EraseUndoesEmplace(s: seq<Entry>, e: Entry)
    requires Sorted(s) && !Contains(s, e.key)
    ensures var i := Find(Emplace(s, e), e.key); i >= 0 && Erase(Emplace(s, e), i) == s
  {
    FindFinds(s, e.key);
    EmplaceKeepsSorted(s, e);
    assert Emplace(s, e)[LowerBound(s, e.key)] == e;
    FindIs(Emplace(s, e), LowerBound(s, e.key));
  }

  lemma UnwatchUndoesWatch(s: State, c: Peer)
    requires CountsAgree(s)
    ensures Unwatch(Watch(s, c), c) == s
  {
    assert Unwatch(Watch(s, c), c).services == s.services;
    assert Unwatch(Watch(s, c), c).watched == s.watched;
  }

  /** Removing a job that was just added restores the table, the counts and the watches. */
  lemma RemoveUndoesAdd(s: State, kind: Kind, e: Entry)
    requires Valid(s) && !Contains(s.Table(kind), e.key)
    ensures Remove(Add(s, kind, e), kind, e.key) == s
  {
    EraseUndoesEmplace(s.Table(kind), e);
    assert Add(s, kind, e).Table(kind) == Emplace(s.Table(kind), e);
    assert Add(s, kind, e).With(kind, s.Table(kind)) == Watch(s, e.key.peer);
    UnwatchUndoesWatch(s, e.key.peer);
  }

  lemma DisconnectKeepsValid(s: State, c: Peer)
    requires Valid(s)
    ensures Valid(Disconnect(s, c))
    ensures Disconnect(s, c).Load(c) == 0
    ensures forall d :: d != c ==> Disconnect(s, c).Load(d) == s.Load(d)
  {
    WithoutKeepsSorted(s.downloads, c);
    WithoutKeepsSorted(s.uploads, c);
    forall d
      ensures Disconnect(s, c).Load(d) == if d == c then 0 else s.Load(d)
    {
      CountWithout(s.downloads, c, d);
      CountWithout(s.uploads, c, d);
    }
  }

  /** A disconnect removes exactly the jobs of that client; the jobs, the counts and the watches
      of everyone else stay as they were. */
  lemma DisconnectRemovesExactly(s: State, c: Peer)
    requires Valid(s)
    ensures var s' := Disconnect(s, c);
            && (forall kind, e :: e in s'.Table(kind) <==> e in s.Table(kind) && e.key.peer != c)
            && (forall d :: d != c ==> (d in s'.services <==> d in s.services) && (d in s'.watched <==> d in s.watched))
            && (forall d :: d != c && d in s.services ==> s'.services[d] == s.services[d])
            && c !in s'.services && c !in s'.watched
  {
    PartitionByPeer(s.downloads, c);
    PartitionByPeer(s.uploads, c);
    var s' := Disconnect(s, c);
    forall kind, e
      ensures e in s'.Table(kind) <==> e in s.Table(kind) && e.key.peer != c
    {
      assert s'.Table(kind) == Without(s.Table(kind), c);
    }
  }

  /** A disconnect cancels all jobs of that client and no others, as many times as there are. */
  lemma DisconnectCancelsExactly(s: State, c: Peer)
    requires Valid(s)
    ensures |Disconnect(s, c).cancelled| == |s.cancelled| + s.Load(c)
    ensures s.cancelled <= Disconnect(s, c).cancelled
    ensures forall j :: j in Disconnect(s, c).cancelled[|s.cancelled|..] <==>
              exists kind, e :: e in s.Table(kind) && e.key.peer == c && e.job == j
  {
    PartitionByPeer(s.downloads, c);
    PartitionByPeer(s.uploads, c);
    var fresh' := Disconnect(s, c).cancelled[|s.cancelled|..];
    assert fresh' == JobsOf(s.downloads, c) + JobsOf(s.uploads, c);
    forall j
      ensures j in fresh' <==> exists kind, e :: e in s.Table(kind) && e.key.peer == c && e.job == j
    {
      if j in JobsOf(s.downloads, c) {
        var e :| e in s.downloads && e.key.peer == c && e.job == j;
        assert e in s.Table(Download);
      }
      if j in JobsOf(s.uploads, c) {
        var e :| e in s.uploads && e.key.peer == c && e.job == j;
        assert e in s.Table(Upload);
      }
    }
  }

  // ----- runs -----

  datatype Event =
    | Added(kind: Kind, entry: Entry)
    | Removed(kind: Kind, key: Key)
    | Disconnected(peer: Peer)

  function Step(s: State, e: Event): State {
    match e
    case Added(kind, entry) => Add(s, kind, entry)
    case Removed(kind, k) => Remove(s, kind, k)
    case Disconnected(c) => Disconnect(s, c)
  }

  /** Providers must not reuse the id of a job that is still in progress. */
  predicate Enabled(s: State, e: Event) {
    e.Added? ==> !Contains(s.Table(e.kind), e.entry.key)
  }

  ghost predicate IsRun(s: State, es: seq<Event>)
    decreases |es|
  {
    es == [] || (Enabled(s, es[0]) && IsRun(Step(s, es[0]), es[1..]))
  }

  ghost function Run(s: State, es: seq<Event>): State
    decreases |es|
  {
    if es == [] then s else Run(Step(s, es[0]), es[1..])
  }

  lemma StepKeepsValid(s: State, e: Event)
    requires Valid(s) && Enabled(s, e)
    ensures Valid(Step(s, e))
  {
    match e
    case Added(kind, entry) => AddKeepsValid(s, kind, entry);
    case Removed(kind, k) => RemoveKeepsValid(s, kind, k);
    case Disconnected(c) => DisconnectKeepsValid(s, c);
  }

  lemma {:induction false} RunKeepsValid(s: State, es: seq<Event>)
    requires Valid(s) && IsRun(s, es)
    ensures Valid(Run(s, es))
    decreases |es|
  {
    if es != [] {
      StepKeepsValid(s, es[0]);
      RunKeepsValid(Step(s, es[0]), es[1..]);
    }
  }

  /** In every reachable state a client is watched exactly while it has jobs, and its count is
      the number of those jobs in both tables. */
  lemma WatchCountsAgree(es: seq<Event>, c: Peer)
    requires IsRun(INITIAL, es)
    ensures var s := Run(INITIAL, es);
            && (c in s.watched <==> s.Load(c) > 0)
            && (c in s.services <==> s.Load(c) > 0)
            && (c in s.services ==> s.services[c] == s.Load(c))
  {
    RunKeepsValid(INITIAL, es);
  }

  // ----- the table as it is coded -----

  datatype Removal = NoSuchJob | Removed'(job: nat)

  class PendingJobs {
    var downloads: seq<Entry>
    var uploads: seq<Entry>
    var services: map<Peer, nat>
    var watched: set<Peer>
    var cancelled: seq<nat>

    function Abs(): State
      reads this
    {
      State(downloads, uploads, services, watched, cancelled)
    }

    constructor ()
      ensures Abs() == INITIAL
    {
      downloads, uploads, services, watched, cancelled := [], [], map[], {}, [];
    }

    method WatchPeer(c: Peer)
      modifies `services, `watched
      ensures Abs() == Watch(old(Abs()), c)
    {
      if c in services {
        services := services[c := services[c] + 1];
      } else {
        watched := watched + {c};
        services := services[c := 1];
      }
    }

    method UnwatchPeer(c: Peer)
      requires c in services ==> services[c] > 0
      modifies `services, `watched
      ensures Abs() == Unwatch(old(Abs()), c)
    {
      if c !in services {
        return;
      }
      services := services[c := services[c] - 1];
      if services[c] == 0 {
        services := services - {c};
        watched := watched - {c};
      }
    }

    method AddDownload(client: Peer, id: string, job: nat)
      requires Valid(Abs())
      requires !Contains(downloads, Key(client, id))
      modifies this
      ensures Abs() == Add(old(Abs()), Download, Entry(Key(client, id), job))
      ensures Valid(Abs())
    {
      AddKeepsValid(Abs(), Download, Entry(Key(client, id), job));
      downloads := Emplace(downloads, Entry(Key(client, id), job));
      WatchPeer(client);
    }

    method AddUpload(client: Peer, id: string, job: nat)
      requires Valid(Abs())
      requires !Contains(uploads, Key(client, id))
      modifies this
      ensures Abs() == Add(old(Abs()), Upload, Entry(Key(client, id), job))
      ensures Valid(Abs())
    {
      AddKeepsValid(Abs(), Upload, Entry(Key(client, id), job));
      uploads := Emplace(uploads, Entry(Key(client, id), job));
      WatchPeer(client);
    }

    method RemoveDownload(client: Peer, id: string) returns (r: Removal)
      requires Valid(Abs())
      modifies this
      ensures Abs() == Remove(old(Abs()), Download, Key(client, id))
      ensures Valid(Abs())
      ensures r.Removed'? <==> old(Contains(downloads, Key(client, id)))
      ensures r.Removed'? ==> Entry(Key(client, id), r.job) in old(downloads)
    {
      RemoveKeepsValid(Abs(), Download, Key(client, id));
      FindFinds(downloads, Key(client, id));
      var it := Find(downloads, Key(client, id));
      if it < 0 {
        return NoSuchJob;
      }
      FoundIsWatched(Abs(), Download, Key(client, id));
      r := Removed'(downloads[it].job);
      downloads := Erase(downloads, it);
      UnwatchPeer(client);
    }

    method RemoveUpload(client: Peer, id: string) returns (r: Removal)
      requires Valid(Abs())
      modifies this
      ensures Abs() == Remove(old(Abs()), Upload, Key(client, id))
      ensures Valid(Abs())
      ensures r.Removed'? <==> old(Contains(uploads, Key(client, id)))
      ensures r.Removed'? ==> Entry(Key(client, id), r.job) in old(uploads)
    {
      RemoveKeepsValid(Abs(), Upload, Key(client, id));
      FindFinds(uploads, Key(client, id));
      var it := Find(uploads, Key(client, id));
      if it < 0 {
        return NoSuchJob;
      }
      FoundIsWatched(Abs(), Upload, Key(client, id));
      r := Removed'(uploads[it].job);
      uploads := Erase(uploads, it);
      UnwatchPeer(client);
    }

    /** The scan of one table: start at the lower bound of (`c`, ""), stop at the first entry of
        somebody else, erasing and cancelling on the way. */
    method CancelAndErase(table: seq<Entry>, c: Peer) returns (rest: seq<Entry>)
      requires Sorted(table)
      modifies `cancelled
      ensures rest == Without(table, c)
      ensures cancelled == old(cancelled) + JobsOf(table, c)
    {
      rest := table;
      var it := LowerBound(table, Key(c, ""));
      ScanStarts(table, c);
      while it < |rest| && rest[it].key.peer == c
        invariant Scanning(rest, it, c)
        invariant Without(rest, c) == Without(table, c)
        invariant cancelled + JobsOf(rest, c) == old(cancelled) + JobsOf(table, c)
        decreases |rest|
      {
        EraseOneOf(rest, it, c);
        ScanGoesOn(rest, it, c);
        var job := rest[it].job;
        rest := Erase(rest, it);
        cancelled := cancelled + [job];
      }
      NoneLeft(rest, it, c);
    }

    method ServiceDisconnected(c: Peer)
      requires Valid(Abs())
      modifies this
      ensures Abs() == Disconnect(old(Abs()), c)
      ensures Valid(Abs())
    {
      DisconnectKeepsValid(Abs(), c);
      services := services - {c};
      watched := watched - {c};
      downloads := CancelAndErase(downloads, c);
      uploads := CancelAndErase(uploads, c);
    }

    /** The destructor: every job that is left is cancelled. */
    method Destroy()
      modifies `cancelled
      ensures cancelled == old(cancelled) + Jobs(downloads) + Jobs(uploads)
    {
      for i := 0 to |downloads|
        invariant cancelled == old(cancelled) + Jobs(downloads[..i])
      {
        assert downloads[..i + 1] == downloads[..i] + [downloads[i]];
        cancelled := cancelled + [downloads[i].job];
      }
      assert downloads[..|downloads|] == downloads;
      for i := 0 to |uploads|
        invariant cancelled == old(cancelled) + Jobs(downloads) + Jobs(uploads[..i])
      {
        assert uploads[..i + 1] == uploads[..i] + [uploads[i]];
        cancelled := cancelled + [uploads[i].job];
      }
      assert uploads[..|uploads|] == uploads;
    }
  }

  /** The jobs of a table, in key order. */
  function Jobs(s: seq<Entry>): (js: seq<nat>)
    ensures |js| == |s|
  {
    seq(|s|, i requires 0 <= i < |s| => s[i].job)
  }

  lemma BelowLowerBound(k: Key, c: Peer)
    requires Less(k, Key(c, ""))
    ensures k.peer != c
  {
    if k.peer == c && StringLess(c.name, c.name) {
      StringLessAsymmetric(c.name, c.name);
    }
  }

  /** Everything before the scan position is somebody else's, and nothing of `c` was passed. */
  ghost predicate Scanning(table: seq<Entry>, it: nat, c: Peer) {
    && it <= |table| && Sorted(table)
    && (forall j :: 0 <= j < it ==> table[j].key.peer != c)
    && (it < |table| ==> !Less(table[it].key, Key(c, "")))
  }

  lemma ScanStarts(table: seq<Entry>, c: Peer)
    requires Sorted(table)
    ensures Scanning(table, LowerBound(table, Key(c, "")), c)
  {
    forall j | 0 <= j < LowerBound(table, Key(c, ""))
      ensures table[j].key.peer != c
    {
      BelowLowerBound(table[j].key, c);
    }
  }

  lemma ScanGoesOn(table: seq<Entry>, it: nat, c: Peer)
    requires Scanning(table, it, c) && it < |table|
    ensures Scanning(Erase(table, it), it, c)
  {
    EraseKeepsSorted(table, it);
    if it + 1 < |table| && Less(table[it + 1].key, Key(c, "")) {
      LessTransitive(table[it].key, table[it + 1].key, Key(c, ""));
    }
  }

  /** Erasing the first entry of `c` leaves the others, and the rest of the jobs of `c`. */
  lemma {:induction false} EraseOneOf(table: seq<Entry>, it: nat, c: Peer)
    requires it < |table| && table[it].key.peer == c
    requires forall j :: 0 <= j < it ==> table[j].key.peer != c
    ensures Without(Erase(table, it), c) == Without(table, c)
    ensures JobsOf(table, c) == [table[it].job] + JobsOf(Erase(table, it), c)
  {
    if it == 0 {
      assert Erase(table, 0) == table[1..];
    } else {
      EraseOneOf(table[1..], it - 1, c);
      assert Erase(table, it)[1..] == Erase(table[1..], it - 1);
    }
  }

  /** Once the entry at the scan position is somebody else's, so are all the later ones. */
  lemma NoneLeft(table: seq<Entry>, it: nat, c: Peer)
    requires Scanning(table, it, c)
    requires it < |table| ==> table[it].key.peer != c
    ensures Without(table, c) == table && JobsOf(table, c) == []
  {
    forall j | it <= j < |table|
      ensures table[j].key.peer != c
    {
      LessTotal(table[it].key, Key(c, ""));
      assert it < j ==> Less(table[it].key, table[j].key);
    }
    NoneOfPeer(table, c);
  }
}

/** Ordered maps as the C++ runtime uses them: entries sorted by a key that is a pair
    (bus name, job id), compared lexicographically. */
module OrderedMap {
  import opened Peers

  datatype Key = Key(peer: Peer, id: string)

  datatype Entry = Entry(key: Key, job: nat)

  // ----- the order -----

  /** Lexicographic order on strings. */
  predicate StringLess(a: string, b: string) {
    if b == "" then false
    else if a == "" then true
    else if a[0] != b[0] then a[0] < b[0]
    else StringLess(a[1..], b[1..])
  }

  lemma {:induction false} StringLessTransitive(a: string, b: string, c: string)
    requires StringLess(a, b) && StringLess(b, c)
    ensures StringLess(a, c)
  {
    if a != "" && b != "" && c != "" && a[0] == b[0] == c[0] {
      StringLessTransitive(a[1..], b[1..], c[1..]);
    }
  }

  lemma {:induction false} StringLessTotal(a: string, b: string)
    ensures StringLess(a, b) || a == b || StringLess(b, a)
  {
    if a != "" && b != "" && a[0] == b[0] {
      StringLessTotal(a[1..], b[1..]);
      assert a == [a[0]] + a[1..] && b == [b[0]] + b[1..];
    }
  }

  lemma {:induction false} StringLessAsymmetric(a: string, b: string)
    requires StringLess(a, b)
    ensures !StringLess(b, a) && a != b
  {
    if a != "" && a[0] == b[0] {
      StringLessAsymmetric(a[1..], b[1..]);
    }
  }

  predicate Less(a: Key, b: Key) {
    StringLess(a.peer.name, b.peer.name) || (a.peer == b.peer && StringLess(a.id, b.id))
  }

  lemma LessTransitive(a: Key, b: Key, c: Key)
    requires Less(a, b) && Less(b, c)
    ensures Less(a, c)
  {
    if StringLess(a.peer.name, b.peer.name) {
      if StringLess(b.peer.name, c.peer.name) {
        StringLessTransitive(a.peer.name, b.peer.name, c.peer.name);
      }
    } else if !StringLess(b.peer.name, c.peer.name) {
      StringLessTransitive(a.id, b.id, c.id);
    }
  }

  lemma LessTotal(a: Key, b: Key)
    ensures Less(a, b) || a == b || Less(b, a)
  {
    StringLessTotal(a.peer.name, b.peer.name);
    StringLessTotal(a.id, b.id);
  }

  lemma LessIrreflexive(a: Key)
    ensures !Less(a, a)
  {
    if Less(a, a) {
      if StringLess(a.peer.name, a.peer.name) {
        StringLessAsymmetric(a.peer.name, a.peer.name);
      } else {
        StringLessAsymmetric(a.id, a.id);
      }
      assert false;
    }
  }

  // ----- sorted entries -----

  ghost predicate Sorted(s: seq<Entry>) {
    forall i, j :: 0 <= i < j < |s| ==> Less(s[i].key, s[j].key)
  }

  predicate Contains(s: seq<Entry>, k: Key) {
    exists i :: 0 <= i < |s| && s[i].key == k
  }

  lemma SortedKeysDiffer(s: seq<Entry>, i: nat, j: nat)
    requires Sorted(s) && i < |s| && j < |s| && i != j
    ensures s[i].key != s[j].key
  {
    LessIrreflexive(s[i].key);
  }

  /** The first position whose key is not less than `k`. */
  function LowerBound(s: seq<Entry>, k: Key): (i: nat)
    ensures i <= |s|
    ensures forall j :: 0 <= j < i ==> Less(s[j].key, k)
    ensures i < |s| ==> !Less(s[i].key, k)
  {
    if s == [] || !Less(s[0].key, k) then 0 else 1 + LowerBound(s[1..], k)
  }

  lemma AfterLowerBound(s: seq<Entry>, k: Key, j: nat)
    requires Sorted(s) && LowerBound(s, k) <= j < |s|
    ensures !Less(s[j].key, k)
    ensures s[j].key == k ==> j == LowerBound(s, k)
  {
    var i := LowerBound(s, k);
    if i < j {
      if Less(s[j].key, k) || s[j].key == k {
        assert Less(s[i].key, s[j].key);
        if Less(s[j].key, k) {
          LessTransitive(s[i].key, s[j].key, k);
        }
        assert false;
      }
    }
  }

  /** Where `k` is found, as `std::map::find` answers. */
  function Find(s: seq<Entry>, k: Key): (i: int)
    ensures -1 <= i < |s|
    ensures 0 <= i ==> s[i].key == k
  {
    var i := LowerBound(s, k);
    if i < |s| && s[i].key == k then i else -1
  }

  lemma FindFinds(s: seq<Entry>, k: Key)
    requires Sorted(s)
    ensures Find(s, k) >= 0 <==> Contains(s, k)
  {
    if Contains(s, k) {
      var j :| 0 <= j < |s| && s[j].key == k;
      if j < LowerBound(s, k) {
        LessIrreflexive(k);
        assert false;
      }
      AfterLowerBound(s, k, j);
    }
  }

  lemma FindIs(s: seq<Entry>, i: nat)
    requires Sorted(s) && i < |s|
    ensures Find(s, s[i].key) == i
  {
    var b := LowerBound(s, s[i].key);
    assert b > i ==> Less(s[i].key, s[i].key);
    LessIrreflexive(s[i].key);
    AfterLowerBound(s, s[i].key, i);
  }

  function Emplace(s: seq<Entry>, e: Entry): seq<Entry> {
    var i := LowerBound(s, e.key);
    if i < |s| && s[i].key == e.key then s else s[..i] + [e] + s[i..]
  }

  function Erase(s: seq<Entry>, i: nat): seq<Entry>
    requires i < |s|
  {
    s[..i] + s[i + 1..]
  }

  lemma EmplaceKeepsSorted(s: seq<Entry>, e: Entry)
    requires Sorted(s)
    ensures Sorted(Emplace(s, e))
  {
    var i := LowerBound(s, e.key);
    forall j | i <= j < |s| && s[i].key != e.key
      ensures Less(e.key, s[j].key)
    {
      LessTotal(e.key, s[i].key);
      if i < j {
        LessTransitive(e.key, s[i].key, s[j].key);
      }
    }
  }

  lemma EraseKeepsSorted(s: seq<Entry>, i: nat)
    requires Sorted(s) && i < |s|
    ensures Sorted(Erase(s, i))
  {
  }

  // ----- what belongs to one peer -----

  function CountPeer(s: seq<Entry>, c: Peer): nat {
    if s == [] then 0 else (if s[0].key.peer == c then 1 else 0) + CountPeer(s[1..], c)
  }

  /** The jobs of `c`, in key order. */
  function JobsOf(s: seq<Entry>, c: Peer): seq<nat> {
    if s == [] then []
    else (if s[0].key.peer == c then [s[0].job] else []) + JobsOf(s[1..], c)
  }

  /** The entries of everyone else, in key order. */
  function Without(s: seq<Entry>, c: Peer): seq<Entry> {
    if s == [] then []
    else (if s[0].key.peer == c then [] else [s[0]]) + Without(s[1..], c)
  }

  lemma {:induction false} CountConcat(a: seq<Entry>, b: seq<Entry>, c: Peer)
    ensures CountPeer(a + b, c) == CountPeer(a, c) + CountPeer(b, c)
  {
    if a == [] {
      assert a + b == b;
    } else {
      assert (a + b)[1..] == a[1..] + b;
      CountConcat(a[1..], b, c);
    }
  }

  lemma {:induction false} PeerConcat(a: seq<Entry>, b: seq<Entry>, c: Peer)
    ensures JobsOf(a + b, c) == JobsOf(a, c) + JobsOf(b, c)
    ensures Without(a + b, c) == Without(a, c) + Without(b, c)
  {
    if a == [] {
      assert a + b == b;
    } else {
      assert (a + b)[1..] == a[1..] + b;
      PeerConcat(a[1..], b, c);
    }
  }

  lemma {:induction false} NoneOfPeer(s: seq<Entry>, c: Peer)
    requires forall i :: 0 <= i < |s| ==> s[i].key.peer != c
    ensures CountPeer(s, c) == 0 && JobsOf(s, c) == [] && Without(s, c) == s
  {
    if s != [] {
      NoneOfPeer(s[1..], c);
    }
  }

  lemma CountEmplace(s: seq<Entry>, e: Entry, c: Peer)
    requires Find(s, e.key) < 0
    ensures CountPeer(Emplace(s, e), c) == CountPeer(s, c) + if e.key.peer == c then 1 else 0
  {
    var i := LowerBound(s, e.key);
    assert s == s[..i] + s[i..];
    CountConcat(s[..i], s[i..], c);
    CountConcat(s[..i], [e], c);
    CountConcat(s[..i] + [e], s[i..], c);
  }

  lemma CountErase(s: seq<Entry>, i: nat, c: Peer)
    requires i < |s|
    ensures CountPeer(Erase(s, i), c) == CountPeer(s, c) - if s[i].key.peer == c then 1 else 0
  {
    assert s == s[..i] + [s[i]] + s[i + 1..];
    CountConcat(s[..i], [s[i]], c);
    CountConcat(s[..i] + [s[i]], s[i + 1..], c);
    CountConcat(s[..i], s[i + 1..], c);
  }

  lemma {:induction false} CountWithout(s: seq<Entry>, c: Peer, d: Peer)
    ensures CountPeer(Without(s, c), d) == if c == d then 0 else CountPeer(s, d)
  {
    if s != [] {
      CountWithout(s[1..], c, d);
      if s[0].key.peer != c {
        assert Without(s, c)[1..] == Without(s[1..], c);
      } else {
        assert Without(s, c) == Without(s[1..], c);
      }
    }
  }

  /** `Without` loses exactly the entries of `c`, and `JobsOf` lists exactly their jobs. */
  lemma {:induction false} PartitionByPeer(s: seq<Entry>, c: Peer)
    ensures forall e :: e in Without(s, c) <==> e in s && e.key.peer != c
    ensures forall j :: j in JobsOf(s, c) <==> exists e :: e in s && e.key.peer == c && e.job == j
    ensures |JobsOf(s, c)| == CountPeer(s, c) && |Without(s, c)| + |JobsOf(s, c)| == |s|
  {
    if s != [] {
      PartitionByPeer(s[1..], c);
      assert forall e :: e in s <==> e == s[0] || e in s[1..];
      forall j
        ensures j in JobsOf(s, c) <==> exists e :: e in s && e.key.peer == c && e.job == j
      {
        if j in JobsOf(s[1..], c) {
          var e :| e in s[1..] && e.key.peer == c && e.job == j;
          assert e in s;
        }
      }
    }
  }

  lemma {:induction false} WithoutKeepsSorted(s: seq<Entry>, c: Peer)
    requires Sorted(s)
    ensures Sorted(Without(s, c))
  {
    if s != [] {
      WithoutKeepsSorted(s[1..], c);
      PartitionByPeer(s[1..], c);
      var w := Without(s[1..], c);
      forall j | 0 <= j < |w|
        ensures Less(s[0].key, w[j].key)
      {
        assert w[j] in s[1..];
      }
    }
  }
}

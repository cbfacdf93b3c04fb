/** The client's listing of a folder: pages are fetched one after the other, each handed to the
    owner as a batch, until a page carries no token for a next one.

    Whatever the provider answers, at most one page is being fetched, the end is announced once, and
    a listing that finishes has handed over exactly the items of all the pages, in order. */
module PagedListing {

  datatype Status = Loading | Finished | Error

  /** One item as the provider describes it; `sound` if its metadata passes the checks made on every
      item. A listing moreover accepts no root. */
  datatype Metadata = Metadata(itemId: string, root: bool, sound: bool) {
    predicate Acceptable() {
      !root && sound
    }
  }

  datatype Item = Item(itemId: string)

  /** Names the page to fetch: the first one with the empty text, which a last page also carries. */
  datatype Token = Token(text: string)

  const FIRST := Token("")

  datatype Page = Page(metadata: seq<Metadata>, token: Token) {
    predicate Acceptable() {
      forall md :: md in metadata ==> md.Acceptable()
    }

    predicate IsLast() {
      token == FIRST
    }
  }

  datatype Failure = NoError | RuntimeDestroyed | BadMetadata(itemId: string) | Remote(name: string)

  datatype Signal = ItemsReady(items: seq<Item>) | StatusChanged(status: Status)

  /** `asked` are the tokens of all page requests so far, `outstanding` those not yet answered. */
  datatype Job = Job(status: Status, error: Failure, asked: seq<Token>, outstanding: seq<Token>, signals: seq<Signal>)

  const NEW_JOB := Job(Loading, NoError, [FIRST], [FIRST], [])

  // ----- one step -----

  function Items(metadata: seq<Metadata>): seq<Item> {
    if metadata == [] then [] else Items(metadata[..|metadata| - 1]) + [Item(metadata[|metadata| - 1].itemId)]
  }

  lemma {:induction false} ItemsMatch(metadata: seq<Metadata>)
    ensures |Items(metadata)| == |metadata|
    ensures forall i :: 0 <= i < |metadata| ==> Items(metadata)[i] == Item(metadata[i].itemId)
  {
    if metadata != [] {
      ItemsMatch(metadata[..|metadata| - 1]);
    }
  }

  function FirstBad(metadata: seq<Metadata>): (i: nat)
    ensures i <= |metadata|
    ensures forall k :: 0 <= k < i ==> metadata[k].Acceptable()
    ensures i < |metadata| ==> !metadata[i].Acceptable()
  {
    if metadata == [] then 0
    else if !metadata[0].Acceptable() then 0
    else 1 + FirstBad(metadata[1..])
  }

  function Stop(j: Job, why: Failure): Job {
    j.(status := Error, error := why, signals := j.signals + [StatusChanged(Error)])
  }

  /** `process_reply_`; `alive` if the runtime still is. */
  function ProcessReply(j: Job, page: Page, alive: bool): Job {
    var bad := FirstBad(page.metadata);
    if j.status != Loading then j
    else if !alive then Stop(j, RuntimeDestroyed)
    else if bad < |page.metadata| then Stop(j, BadMetadata(page.metadata[bad].itemId))
    else if page.IsLast() then
      j.(status := Finished, signals := j.signals + [ItemsReady(Items(page.metadata)), StatusChanged(Finished)])
    else
      j.(signals := j.signals + [ItemsReady(Items(page.metadata))],
         asked := j.asked + [page.token],
         outstanding := j.outstanding + [page.token])
  }

  /** Takes the request that is answered off the outstanding ones. */
  function Taken(j: Job, at: nat): Job
    requires at < |j.outstanding|
  {
    j.(outstanding := j.outstanding[..at] + j.outstanding[at + 1..])
  }

  class MultiItemListJob {
    var status: Status
    var error: Failure
    var asked: seq<Token>
    var outstanding: seq<Token>
    var signals: seq<Signal>

    ghost function Value(): Job
      reads this
    {
      Job(status, error, asked, outstanding, signals)
    }

    constructor ()
      ensures Value() == NEW_JOB
    {
      status, error, asked, outstanding, signals := Loading, NoError, [FIRST], [FIRST], [];
    }

    method HandleReply(at: nat, page: Page, alive: bool)
      requires at < |outstanding|
      modifies this
      ensures Value() == ProcessReply(Taken(old(Value()), at), page, alive)
    {
      outstanding := outstanding[..at] + outstanding[at + 1..];
      if status != Loading {
        return;
      }
      if !alive {
        error, status := RuntimeDestroyed, Error;
        signals := signals + [StatusChanged(status)];
        return;
      }
      var items: seq<Item> := [];
      for i := 0 to |page.metadata|
        invariant unchanged(`status) && unchanged(`error) && unchanged(`asked) && unchanged(`signals)
        invariant outstanding == Taken(old(Value()), at).outstanding
        invariant items == Items(page.metadata[..i])
        invariant forall k :: 0 <= k < i ==> page.metadata[k].Acceptable()
      {
        var md := page.metadata[i];
        if !md.Acceptable() {
          FirstBadIs(page.metadata, i);
          error, status := BadMetadata(md.itemId), Error;
          signals := signals + [StatusChanged(status)];
          return;
        }
        assert page.metadata[..i + 1][..i] == page.metadata[..i];
        items := items + [Item(md.itemId)];
      }
      assert page.metadata[..|page.metadata|] == page.metadata;
      if page.token == FIRST {
        status := Finished;
      }
      signals := signals + [ItemsReady(items)];
      if page.token == FIRST {
        signals := signals + [StatusChanged(status)];
      } else {
        asked := asked + [page.token];
        outstanding := outstanding + [page.token];
      }
    }

    /** The source asserts the precondition on `status`; RequestsAreInOrder shows that it holds. */
    method HandleError(at: nat, why: string)
      requires at < |outstanding| && status == Loading
      modifies this
      ensures Value() == Stop(Taken(old(Value()), at), Remote(why))
    {
      outstanding := outstanding[..at] + outstanding[at + 1..];
      error, status := Remote(why), Error;
      signals := signals + [StatusChanged(status)];
    }
  }

  lemma {:induction false} FirstBadIs(metadata: seq<Metadata>, i: nat)
    requires i < |metadata| && !metadata[i].Acceptable()
    requires forall k :: 0 <= k < i ==> metadata[k].Acceptable()
    ensures FirstBad(metadata) == i
  {
    if i > 0 {
      assert metadata[0].Acceptable();
      FirstBadIs(metadata[1..], i - 1);
    }
  }

  // ----- runs -----

  /** A reply to, or the failure of, the outstanding request at index `at`. */
  datatype Event = Replied(at: nat, page: Page, alive: bool) | Failed(at: nat, why: string)

  predicate Enabled(j: Job, e: Event) {
    e.at < |j.outstanding|
  }

  function Step(j: Job, e: Event): Job
    requires Enabled(j, e)
  {
    match e
    case Replied(at, page, alive) => ProcessReply(Taken(j, at), page, alive)
    case Failed(at, why) => Stop(Taken(j, at), Remote(why))
  }

  ghost predicate IsRun(es: seq<Event>)
    decreases |es|, 0
  {
    es == [] || (var n := |es| - 1; IsRun(es[..n]) && Enabled(Run(es[..n]), es[n]))
  }

  ghost function Run(es: seq<Event>): Job
    requires IsRun(es)
    decreases |es|, 1
  {
    if es == [] then NEW_JOB else Step(Run(es[..|es| - 1]), es[|es| - 1])
  }

  /** The pages that arrived, in order. */
  function Pages(es: seq<Event>): seq<Page> {
    if es == [] then []
    else
      var before := Pages(es[..|es| - 1]);
      if es[|es| - 1].Replied? then before + [es[|es| - 1].page] else before
  }

  function Batches(pages: seq<Page>): seq<Signal> {
    if pages == [] then []
    else Batches(pages[..|pages| - 1]) + [ItemsReady(Items(pages[|pages| - 1].metadata))]
  }

  /** The first request has no token, every other one has that of the page before it. */
  predicate AskedFor(asked: seq<Token>, pages: seq<Page>) {
    && 0 < |asked| <= |pages| + 1
    && asked[0] == FIRST
    && forall k :: 0 < k < |asked| ==> asked[k] == pages[k - 1].token
  }

  predicate AllGood(pages: seq<Page>) {
    forall k :: 0 <= k < |pages| ==> pages[k].Acceptable()
  }

  predicate NoneLast(pages: seq<Page>) {
    forall k :: 0 <= k < |pages| ==> !pages[k].IsLast()
  }

  ghost predicate LoadingInv(j: Job, pages: seq<Page>) {
    && |j.asked| == |pages| + 1
    && j.outstanding == [j.asked[|pages|]]
    && j.signals == Batches(pages)
    && AllGood(pages) && NoneLast(pages)
    && j.error == NoError
  }

  ghost predicate FinishedInv(j: Job, pages: seq<Page>) {
    && |j.asked| == |pages| > 0
    && j.outstanding == []
    && j.signals == Batches(pages) + [StatusChanged(Finished)]
    && AllGood(pages) && NoneLast(pages[..|pages| - 1]) && pages[|pages| - 1].IsLast()
    && j.error == NoError
  }

  /** `good` are the pages before the failure. */
  ghost predicate ErrorInv(j: Job, good: seq<Page>, pages: seq<Page>) {
    && |j.asked| == |good| + 1
    && j.outstanding == []
    && j.signals == Batches(good) + [StatusChanged(Error)]
    && AllGood(good) && NoneLast(good)
    && j.error != NoError
    && if j.error.BadMetadata? then
         |pages| == |good| + 1 && pages[..|good|] == good && !pages[|good|].Acceptable()
       else
         |good| <= |pages| <= |good| + 1 && pages[..|good|] == good
  }

  /** The pages whose items the owner has. */
  function Handed(j: Job, pages: seq<Page>): seq<Page> {
    if j.status == Error && 0 < |j.asked| <= |pages| then pages[..|j.asked| - 1] else pages
  }

  ghost predicate Inv(j: Job, pages: seq<Page>) {
    && AskedFor(j.asked, pages)
    && match j.status
       case Loading => LoadingInv(j, pages)
       case Finished => FinishedInv(j, pages)
       case Error => ErrorInv(j, Handed(j, pages), pages)
  }

  lemma BatchesExtend(pages: seq<Page>, page: Page)
    ensures Batches(pages + [page]) == Batches(pages) + [ItemsReady(Items(page.metadata))]
  {
    assert (pages + [page])[..|pages|] == pages;
  }

  lemma StopKeepsInv(j: Job, good: seq<Page>, pages: seq<Page>, why: Failure)
    requires LoadingInv(j, good) && AskedFor(j.asked, pages) && why != NoError
    requires pages == good || (|pages| == |good| + 1 && pages[..|good|] == good)
    requires why.BadMetadata? ==> |pages| == |good| + 1 && !pages[|good|].Acceptable()
    ensures Inv(Stop(Taken(j, 0), why), pages)
  {
    assert Handed(Stop(Taken(j, 0), why), pages) == good;
  }

  lemma ReplyKeepsInv(j: Job, pages: seq<Page>, page: Page, alive: bool)
    requires Inv(j, pages) && j.status == Loading
    ensures Inv(ProcessReply(Taken(j, 0), page, alive), pages + [page])
  {
    var bad, more := FirstBad(page.metadata), pages + [page];
    assert more[..|pages|] == pages;
    if !alive {
      StopKeepsInv(j, pages, more, RuntimeDestroyed);
    } else if bad < |page.metadata| {
      assert page.metadata[bad] in page.metadata;
      StopKeepsInv(j, pages, more, BadMetadata(page.metadata[bad].itemId));
    } else {
      GoodReplyKeepsInv(j, pages, page);
    }
  }

  lemma GoodReplyKeepsInv(j: Job, pages: seq<Page>, page: Page)
    requires Inv(j, pages) && j.status == Loading && FirstBad(page.metadata) == |page.metadata|
    ensures Inv(ProcessReply(Taken(j, 0), page, true), pages + [page])
  {
    var more, next := pages + [page], ProcessReply(Taken(j, 0), page, true);
    assert page.Acceptable();
    BatchesExtend(pages, page);
    assert more[..|pages|] == pages;
    if page.IsLast() {
      assert next.signals == Batches(more) + [StatusChanged(Finished)];
    }
  }

  lemma {:induction false} RunKeepsInv(es: seq<Event>)
    requires IsRun(es)
    ensures Inv(Run(es), Pages(es))
    decreases |es|
  {
    if es != [] {
      var n := |es| - 1;
      RunKeepsInv(es[..n]);
      var j, pages := Run(es[..n]), Pages(es[..n]);
      match es[n]
      case Replied(_, page, alive) => ReplyKeepsInv(j, pages, page, alive);
      case Failed(_, why) => StopKeepsInv(j, pages, pages, Remote(why));
    }
  }

  // ----- what the owner sees -----

  function Emitted(signals: seq<Signal>): seq<Item> {
    if signals == [] then []
    else
      var before := Emitted(signals[..|signals| - 1]);
      if signals[|signals| - 1].ItemsReady? then before + signals[|signals| - 1].items else before
  }

  function Ends(signals: seq<Signal>): nat {
    if signals == [] then 0
    else Ends(signals[..|signals| - 1]) + if signals[|signals| - 1].StatusChanged? then 1 else 0
  }

  function AllItems(pages: seq<Page>): seq<Item> {
    if pages == [] then [] else AllItems(pages[..|pages| - 1]) + Items(pages[|pages| - 1].metadata)
  }

  lemma {:induction false} BatchesEmit(pages: seq<Page>)
    ensures Emitted(Batches(pages)) == AllItems(pages) && Ends(Batches(pages)) == 0
  {
    if pages != [] {
      var n := |pages| - 1;
      BatchesEmit(pages[..n]);
      assert Batches(pages)[..|Batches(pages)| - 1] == Batches(pages[..n]);
    }
  }

  lemma EndEmits(signals: seq<Signal>, s: Status)
    ensures Emitted(signals + [StatusChanged(s)]) == Emitted(signals)
    ensures Ends(signals + [StatusChanged(s)]) == Ends(signals) + 1
  {
    assert (signals + [StatusChanged(s)])[..|signals|] == signals;
  }

  /** At most one page is being fetched, and one exactly while the job is loading; so no error can
      arrive in any other state. */
  lemma RequestsAreInOrder(es: seq<Event>)
    requires IsRun(es)
    ensures var j := Run(es);
            && |j.outstanding| <= 1
            && (j.status == Loading <==> j.outstanding != [])
            && AskedFor(j.asked, Pages(es))
  {
    RunKeepsInv(es);
  }

  lemma SignalsSay(j: Job, pages: seq<Page>)
    requires Inv(j, pages)
    ensures Emitted(j.signals) == AllItems(Handed(j, pages))
    ensures Ends(j.signals) == if j.status == Loading then 0 else 1
  {
    var good := Handed(j, pages);
    BatchesEmit(good);
    EndEmits(Batches(good), j.status);
    assert j.signals == if j.status == Loading then Batches(good) else Batches(good) + [StatusChanged(j.status)];
  }

  /** The end is announced exactly once, when it is reached and as the last signal. */
  lemma EndIsAnnouncedOnce(es: seq<Event>)
    requires IsRun(es)
    ensures var j := Run(es);
            && Ends(j.signals) == (if j.status == Loading then 0 else 1)
            && (j.status != Loading ==> j.signals != [] && j.signals[|j.signals| - 1] == StatusChanged(j.status))
            && (j.status == Error <==> j.error != NoError)
  {
    RunKeepsInv(es);
    SignalsSay(Run(es), Pages(es));
  }

  /** Whatever pages the provider sends, a job that finished has handed over the items of all of them
      in order, and one that failed those of the pages before the failure. */
  lemma EmitsAllPages(es: seq<Event>)
    requires IsRun(es)
    ensures var j, pages := Run(es), Pages(es);
            && Emitted(j.signals) == AllItems(Handed(j, pages))
            && (j.status != Error ==> Handed(j, pages) == pages)
            && (j.status == Error ==> |pages| - 1 <= |Handed(j, pages)| <= |pages|)
            && (j.status == Finished ==> pages != [] && pages[|pages| - 1].IsLast())
  {
    RunKeepsInv(es);
    SignalsSay(Run(es), Pages(es));
  }

  /** An item that a listing takes. */
  predicate Good(md: Metadata) {
    !md.root && md.sound
  }

  /** What each answer does, in any run: an error, a dead runtime or the first bad item ends the job with
      that error; a page of good items is handed over whole, and either ends the job or has the page
      behind its token asked for. */
  lemma AnswersDecide(es: seq<Event>, e: Event)
    requires IsRun(es) && Enabled(Run(es), e)
    ensures var j, j' := Run(es), Step(Run(es), e);
            match e
            case Failed(_, why) =>
              j'.status == Error && j'.error == Remote(why) && j'.signals == j.signals + [StatusChanged(Error)]
            case Replied(_, page, alive) =>
              if !alive then
                && j'.status == Error && j'.error == RuntimeDestroyed
                && j'.signals == j.signals + [StatusChanged(Error)]
              else if forall md :: md in page.metadata ==> Good(md) then
                && j'.error == NoError
                && j'.status == (if page.token.text == "" then Finished else Loading)
                && j'.signals == j.signals + [ItemsReady(Items(page.metadata))]
                                 + (if page.token.text == "" then [StatusChanged(Finished)] else [])
                && j'.asked == j.asked + (if page.token.text == "" then [] else [page.token])
              else
                && j'.status == Error && j'.signals == j.signals + [StatusChanged(Error)]
                && exists k :: 0 <= k < |page.metadata| && !Good(page.metadata[k])
                               && (forall i :: 0 <= i < k ==> Good(page.metadata[i]))
                               && j'.error == BadMetadata(page.metadata[k].itemId)
  {
    RequestsAreInOrder(es);
    EndIsAnnouncedOnce(es);
    if e.Replied? && e.alive {
      PageDecides(e.page);
    }
  }

  lemma PageDecides(page: Page)
    ensures FirstBad(page.metadata) == |page.metadata| <==> forall md :: md in page.metadata ==> Good(md)
    ensures page.IsLast() <==> page.token.text == ""
    ensures forall i :: 0 <= i < |page.metadata| ==> page.metadata[i].Acceptable() == Good(page.metadata[i])
  {
    var bad := FirstBad(page.metadata);
    assert bad < |page.metadata| ==> page.metadata[bad] in page.metadata;
  }

  // ----- against a provider's folder -----

  /** A folder's pages at the provider, by token. */
  type Folder = map<Token, Page>

  /** The pages of the folder from the one behind `token`, at most `n` of them: the folder's full
      listing once `n` is large enough. */
  function Listing(f: Folder, token: Token, n: nat): (pages: seq<Page>)
    ensures |pages| <= n
    decreases n
  {
    if n == 0 || token !in f then []
    else if f[token].IsLast() then [f[token]]
    else [f[token]] + Listing(f, f[token].token, n - 1)
  }

  /** Following the tokens from `token`, the `n`th page is the last. */
  predicate EndsAfter(f: Folder, token: Token, n: nat)
    decreases n
  {
    n > 0 && token in f && (if f[token].IsLast() then n == 1 else EndsAfter(f, f[token].token, n - 1))
  }

  /** Every reply is the folder's page for the token that was asked. */
  ghost predicate Served(f: Folder, es: seq<Event>)
    requires IsRun(es)
    decreases |es|
  {
    es != [] ==>
      var n := |es| - 1;
      && Served(f, es[..n])
      && (es[n].Replied? ==>
            var token := Run(es[..n]).outstanding[es[n].at];
            token in f && es[n].page == f[token])
  }

  /** No failure on the way: the runtime lives and every request is answered. */
  predicate Undisturbed(es: seq<Event>) {
    forall k :: 0 <= k < |es| ==> es[k].Replied? && es[k].alive
  }

  /** The token under which page `k` is found. */
  function TokenOf(pages: seq<Page>, k: nat): Token
    requires k <= |pages|
  {
    if k == 0 then FIRST else pages[k - 1].token
  }

  predicate IsServed(f: Folder, pages: seq<Page>, k: nat)
    requires k < |pages|
  {
    TokenOf(pages, k) in f && pages[k] == f[TokenOf(pages, k)]
  }

  /** `pages` are consecutive pages of the folder, from the first. */
  predicate Follows(f: Folder, pages: seq<Page>) {
    forall k :: 0 <= k < |pages| ==> IsServed(f, pages, k)
  }

  lemma FollowsOneMore(f: Folder, pages: seq<Page>, page: Page)
    requires Follows(f, pages) && TokenOf(pages, |pages|) in f && page == f[TokenOf(pages, |pages|)]
    ensures Follows(f, pages + [page])
  {
    var more := pages + [page];
    forall k | 0 <= k < |more| ensures IsServed(f, more, k) {
      assert TokenOf(more, k) == TokenOf(pages, k);
      assert k < |pages| ==> IsServed(f, pages, k);
    }
  }

  lemma {:induction false} ServedFollows(f: Folder, es: seq<Event>)
    requires IsRun(es) && Served(f, es)
    ensures Follows(f, Pages(es))
    decreases |es|
  {
    if es != [] {
      var n := |es| - 1;
      ServedFollows(f, es[..n]);
      RunKeepsInv(es[..n]);
      if es[n].Replied? {
        FollowsOneMore(f, Pages(es[..n]), es[n].page);
      }
    }
  }

  /** From the `k`th page on, following the tokens gives the rest of `pages`. */
  lemma {:induction false} FollowsEnds(f: Folder, pages: seq<Page>, k: nat)
    requires Follows(f, pages) && k < |pages|
    requires NoneLast(pages[..|pages| - 1]) && pages[|pages| - 1].IsLast()
    ensures EndsAfter(f, TokenOf(pages, k), |pages| - k)
    ensures Listing(f, TokenOf(pages, k), |pages| - k) == pages[k..]
    decreases |pages| - k
  {
    assert IsServed(f, pages, k) && TokenOf(pages, k + 1) == pages[k].token;
    if k < |pages| - 1 {
      assert !pages[..|pages| - 1][k].IsLast();
      FollowsEnds(f, pages, k + 1);
      assert [pages[k]] + pages[k + 1..] == pages[k..];
    }
  }

  lemma {:induction false} EndIsUnique(f: Folder, token: Token, m: nat, n: nat)
    requires EndsAfter(f, token, m) && EndsAfter(f, token, n)
    ensures m == n
    decreases m
  {
    if !f[token].IsLast() {
      EndIsUnique(f, f[token].token, m - 1, n - 1);
    }
  }

  lemma WholeListing(f: Folder, pages: seq<Page>, n: nat)
    requires Follows(f, pages) && EndsAfter(f, FIRST, n) && pages != []
    requires NoneLast(pages[..|pages| - 1]) && pages[|pages| - 1].IsLast()
    ensures Listing(f, FIRST, n) == pages && |pages| == n
  {
    FollowsEnds(f, pages, 0);
    EndIsUnique(f, FIRST, n, |pages|);
    assert pages[0..] == pages;
  }

  /** A paged listing is the full listing: a job that finishes has followed the folder's tokens to
      the end, and handed over exactly that listing's items in order. */
  lemma FinishedIsFullListing(f: Folder, es: seq<Event>, n: nat)
    requires IsRun(es) && Served(f, es) && EndsAfter(f, FIRST, n)
    requires Run(es).status == Finished
    ensures Emitted(Run(es).signals) == AllItems(Listing(f, FIRST, n)) && |Pages(es)| == n
  {
    RunKeepsInv(es);
    ServedFollows(f, es);
    WholeListing(f, Pages(es), n);
    SignalsSay(Run(es), Pages(es));
  }

  /** Pages that follow the tokens are the start of the folder's listing, if only the last of them may
      be the folder's last. */
  lemma {:induction false} FollowsListing(f: Folder, pages: seq<Page>, k: nat, n: nat)
    requires Follows(f, pages) && k < |pages| && NoneLast(pages[..|pages| - 1])
    requires EndsAfter(f, TokenOf(pages, k), n)
    ensures |pages| - k <= n
    ensures pages[k..] <= Listing(f, TokenOf(pages, k), n)
    decreases |pages| - k
  {
    assert IsServed(f, pages, k) && TokenOf(pages, k + 1) == pages[k].token;
    if k < |pages| - 1 {
      assert !pages[..|pages| - 1][k].IsLast();
      FollowsListing(f, pages, k + 1, n - 1);
      assert [pages[k]] + pages[k + 1..] == pages[k..];
    }
  }

  lemma {:induction false} UndisturbedErrors(es: seq<Event>)
    requires IsRun(es) && Undisturbed(es)
    ensures Run(es).error == NoError || Run(es).error.BadMetadata?
    decreases |es|
  {
    if es != [] {
      UndisturbedErrors(es[..|es| - 1]);
    }
  }

  /** A folder of `n` pages takes at most `n` replies. */
  lemma ListingIsBounded(f: Folder, es: seq<Event>, n: nat)
    requires IsRun(es) && Served(f, es) && EndsAfter(f, FIRST, n)
    ensures |Pages(es)| <= n && Pages(es) <= Listing(f, FIRST, n)
  {
    RunKeepsInv(es);
    ServedFollows(f, es);
    var pages := Pages(es);
    if pages != [] {
      assert NoneLast(pages[..|pages| - 1]);
      FollowsListing(f, pages, 0, n);
      assert pages[0..] == pages;
    }
  }

  lemma AllGoodIff(pages: seq<Page>)
    ensures AllGood(pages) <==> forall page, md :: page in pages && md in page.metadata ==> Good(md)
  {
    if AllGood(pages) {
      forall page, md | page in pages && md in page.metadata
        ensures Good(md)
      {
        var k :| 0 <= k < |pages| && pages[k] == page;
        assert pages[k].Acceptable() && md.Acceptable();
      }
    }
    if forall page, md :: page in pages && md in page.metadata ==> Good(md) {
      forall k | 0 <= k < |pages|
        ensures pages[k].Acceptable()
      {
        assert forall md :: md in pages[k].metadata ==> Good(md);
      }
    }
  }

  lemma FinishesIfAllGood(f: Folder, es: seq<Event>, n: nat)
    requires IsRun(es) && Served(f, es) && EndsAfter(f, FIRST, n)
    requires Undisturbed(es) && Run(es).outstanding == []
    ensures Run(es).status == Finished <==> AllGood(Listing(f, FIRST, n))
  {
    RunKeepsInv(es);
    UndisturbedErrors(es);
    ListingIsBounded(f, es, n);
    var j, pages, all := Run(es), Pages(es), Listing(f, FIRST, n);
    if j.status == Finished {
      FinishedIsFullListing(f, es, n);
      assert pages == all;
    } else {
      assert !pages[|pages| - 1].Acceptable() && all[|pages| - 1] == pages[|pages| - 1];
    }
  }

  /** Once an undisturbed listing has nothing outstanding, it has finished if and only if every item
      of the folder is good. */
  lemma FinishesIff(f: Folder, es: seq<Event>, n: nat)
    requires IsRun(es) && Served(f, es) && EndsAfter(f, FIRST, n)
    requires Undisturbed(es) && Run(es).outstanding == []
    ensures Run(es).status == Finished <==>
              forall page, md :: page in Listing(f, FIRST, n) && md in page.metadata ==> Good(md)
  {
    FinishesIfAllGood(f, es, n);
    AllGoodIff(Listing(f, FIRST, n));
  }
}

/**
 * Downloading every page (`getPage` and `getAllPages`, app.js:168-315): one
 * request per offset from 0 to the total, each page's records streamed to the
 * output as its response arrives, and the run summarised once every request
 * has settled. Requests are fired together and settle in an order the model
 * takes as a parameter; each one's answer comes from the pure `send`.
 */
module Paging {
  import opened Js
  import opened Http
  import opened Request
  import Sink
  import Template

  /** The summary `getPage` resolves with (timings are not modelled). */
  datatype PageResult = PageResult(count: int, start: int, end: int, correlationid: Value)

  /** A settled page: its summary and the records it wrote, or why it failed. */
  datatype PageOutcome = PageDone(result: PageResult, records: seq<Value>) | PageFailed(failure: Failure)

  /** What `getAllPages` resolves with. */
  datatype RunOutcome = RunOutcome(saved: bool, downloaded: int, failed: seq<Failure>)

  /** Whether `accessSafe(() => data.length, 0)` is `null`: an object whose `length` is null. */
  predicate NullLength(data: Value) {
    data.Obj? && "length" in data.fields && data.fields["length"].Null?
  }

  /**
   * `accessSafe(() => data.length, 0)`. A `length` that is neither a number nor
   * undefined is counted as 0.
   */
  function Length(data: Value): (n: int)
    ensures data.Arr? ==> n == |data.items|
    ensures data.Str? ==> n == |data.s|
    ensures data.Obj? && "length" in data.fields && data.fields["length"].Num? ==> n == data.fields["length"].n
    ensures !data.Arr? && !data.Str? && !data.Obj? ==> n == 0
  {
    match AccessSafe(Member(data, "length"), Num(0))
    case Num(k) => k
    case _ => 0
  }

  /** `accessSafe(() => response.config.params[key], 0)`, numbers only. */
  function Param(params: Option<Fields>, key: string): (n: int)
    ensures params.Some? && key in params.value && params.value[key].Num? ==> n == params.value[key].n
    ensures params.None? || key !in params.value ==> n == 0
  {
    if params.Some? && key in params.value && params.value[key].Num? then params.value[key].n else 0
  }

  /** What `null.toLocaleString()` throws. */
  const NullCountMessage := "Cannot read properties of null (reading 'toLocaleString')"

  /**
   * The `then` of `getPage` (app.js:189-218). A null count throws when it is
   * formatted for the log line and fails the page. A positive count with an
   * array body hands on all its records; a positive count with any other body
   * throws from `forEach` and fails the page; otherwise the page is done with
   * nothing to write.
   */
  function MapPage(c: Cleaned): (r: PageOutcome)
    ensures r.PageFailed? <==> NullLength(c.data) || (Length(c.data) > 0 && !c.data.Arr?)
    ensures r.PageFailed? ==> r.failure.Exception?
    ensures NullLength(c.data) ==> r == PageFailed(Exception(NullCountMessage))
    ensures r.PageDone? ==>
              r.result.count == Length(c.data)
              && r.result.start == Param(c.params, "offset")
              && r.result.end == Param(c.params, "offset") + Param(c.params, "max")
              && r.result.correlationid == (if c.correlationid.Undefined? then Null else c.correlationid)
    ensures r.PageDone? && c.data.Arr? ==> r.records == c.data.items
    ensures r.PageDone? && !c.data.Arr? ==> r.records == []
    ensures r.PageDone? ==> (r.result.count > 0 ==> r.result.count == |r.records|)
    ensures r.PageDone? ==> (r.result.count <= 0 ==> r.records == [])
  {
    if NullLength(c.data) then PageFailed(Exception(NullCountMessage))
    else
      var count := Length(c.data);
      var start := Param(c.params, "offset");
      var result := PageResult(count, start, start + Param(c.params, "max"),
                               AccessSafe(Ok(c.correlationid), Null));
      if count > 0 then
        if c.data.Arr? then PageDone(result, c.data.items)
        else PageFailed(Exception("response.data.forEach is not a function"))
      else PageDone(result, [])
  }

  /** `getPage(options, offset)`: the request at `offset`, then its mapping. */
  function FetchPage(opts: RequestOptions, offset: int, freshId: string, send: AxiosConfig -> Outcome): (r: PageOutcome)
    ensures opts.query.None? ==> r.PageFailed? && r.failure.Exception?
    ensures opts.query.Some? ==>
              var call := CallPercipio(PageOptions(opts, offset, freshId).value, freshId, send);
              (call.Failed? ==> r == PageFailed(call.failure))
              && (call.Answered? ==> r == MapPage(call.cleaned))
  {
    match PageOptions(opts, offset, freshId)
    case Thrown(m) => PageFailed(Exception(m))
    case Ok(page) =>
      match CallPercipio(page, freshId, send)
      case Failed(f) => PageFailed(f)
      case Answered(c) => MapPage(c)
  }

  /** The page size the loop steps by: `opts.request.query.max`, when it is a number. */
  predicate Pageable(opts: RequestOptions) {
    opts.query.Some? && "max" in opts.query.value && opts.query.value["max"].Num?
    && opts.query.value["max"].n > 0
  }

  function PageSize(opts: RequestOptions): int
    requires Pageable(opts)
  {
    opts.query.value["max"].n
  }

  /** How many offsets `for (index = 0; index <= total; index += max)` visits. */
  function PageCount(total: int, max: int): (n: nat)
    requires max > 0
    ensures n == 0 <==> total < 0
  {
    if total < 0 then 0 else total / max + 1
  }

  /** The offsets asked for are `0, max, …, (n - 1) * max`, the last being the largest multiple of `max` not above `total`. */
  lemma Offsets(total: int, max: int)
    requires max > 0 && total >= 0
    ensures var n := PageCount(total, max);
            n >= 1 && (n - 1) * max <= total < n * max
  {
    var q := total / max;
    assert total == q * max + total % max;
    assert (q + 1) * max == q * max + max;
  }

  /** Every page, in dispatch order; page `k` asks for offset `k * max` under id `uuid(k)`. */
  function Pages(opts: RequestOptions, total: int, send: AxiosConfig -> Outcome, uuid: nat -> string): (r: seq<PageOutcome>)
    requires Pageable(opts)
    ensures |r| == PageCount(total, PageSize(opts))
    ensures forall k :: 0 <= k < |r| ==> r[k] == FetchPage(opts, k * PageSize(opts), uuid(k), send)
  {
    Prefix(PageCount(total, PageSize(opts)), PageFetch(opts, send, uuid))
  }

  /** The request for page `k`: offset `k * max` under id `uuid(k)`. */
  function PageFetch(opts: RequestOptions, send: AxiosConfig -> Outcome, uuid: nat -> string): nat -> PageOutcome
    requires Pageable(opts)
  {
    (k: nat) => FetchPage(opts, k * PageSize(opts), uuid(k), send)
  }

  /** `f(0), …, f(n - 1)`. */
  function Prefix<T>(n: nat, f: nat -> T): (r: seq<T>)
    ensures |r| == n && forall k :: 0 <= k < n ==> r[k] == f(k)
  {
    seq(n, (k: int) requires 0 <= k => f(k))
  }

  lemma PrefixSnoc<T>(n: nat, f: nat -> T)
    ensures Prefix(n + 1, f) == Prefix(n, f) + [f(n)]
  {
  }

  lemma NextOffset(k: int, max: int)
    ensures (k + 1) * max == k * max + max
  {
  }

  /** `q` is `total / max` once `q * max <= total < (q + 1) * max`. */
  lemma DivideBetween(total: int, max: int, q: int)
    requires max > 0 && q * max <= total < (q + 1) * max
    ensures total / max == q
  {
    var d := total / max;
    var r := total % max;
    assert total == d * max + r && 0 <= r < max;
    if d < q {
      MultiplyMonotone(d + 1, q, max);
      assert false;
    } else if d > q {
      assert false;
    }
  }

  lemma MultiplyMonotone(a: int, b: int, m: int)
    requires a <= b && m > 0
    ensures a * m <= b * m
  {
    assert b * m - a * m == (b - a) * m;
  }

  /**
   * The dispatch loop of `getAllPages` (app.js:290-293): one page request per
   * offset `0, max, 2 * max, …` up to and including `total`.
   */
  method DispatchPages(opts: RequestOptions, total: int, send: AxiosConfig -> Outcome, uuid: nat -> string)
      returns (requests: seq<PageOutcome>)
    requires Pageable(opts)
    ensures requests == Pages(opts, total, send, uuid)
  {
    var max := PageSize(opts);
    var request := PageFetch(opts, send, uuid);
    requests := [];
    var index := 0;
    while index <= total
      invariant index == |requests| * max
      invariant |requests| > 0 ==> index - max <= total
      invariant requests == Prefix(|requests|, request)
      decreases total - index
    {
      var k := |requests|;
      NextOffset(k, max);
      PrefixSnoc(k, request);
      requests := requests + [request(k)];
      index := index + max;
    }
    var n := |requests|;
    if total >= 0 {
      assert n > 0;
      assert (n - 1) * max == index - max;
      DivideBetween(total, max, n - 1);
    } else {
      assert n == 0;
    }
    assert n == PageCount(total, max);
  }

  /** With the shipped page size, 2500 records take three pages and 2000 records also take three. */
  lemma PageCountExamples()
    ensures PageCount(2500, 1000) == 3 && PageCount(2000, 1000) == 3
    ensures PageCount(999, 1000) == 1 && PageCount(1000, 1000) == 2
  {
  }

  /** The records a page writes. */
  function RecordsOf(p: PageOutcome): seq<Value> {
    if p.PageDone? then p.records else []
  }

  /** The count a settled page adds to the total: `accessSafe(() => value.count, 0)`. */
  function CountOf(p: PageOutcome): int {
    if p.PageDone? then p.result.count else 0
  }

  /** `data.reduce((total, v) => total + count, 0)` (app.js:301-304), in dispatch order. */
  function Downloaded(pages: seq<PageOutcome>): (r: int)
    ensures NoNegativeCount(pages) ==> r >= 0
    ensures (forall k :: 0 <= k < |pages| ==> pages[k].PageFailed?) ==> r == 0
  {
    assert NoNegativeCount(pages) && pages != [] ==> NoNegativeCount(pages[..|pages| - 1]);
    if pages == [] then 0 else Downloaded(pages[..|pages| - 1]) + CountOf(pages[|pages| - 1])
  }

  /** `data.filter(request => request.status === 'rejected')` (app.js:297-299). */
  function Failures(pages: seq<PageOutcome>): (r: seq<Failure>)
    ensures |r| <= |pages|
  {
    if pages == [] then []
    else
      var last := pages[|pages| - 1];
      Failures(pages[..|pages| - 1]) + (if last.PageFailed? then [last.failure] else [])
  }

  /** Every entry of `order` names one of `n` requests. */
  predicate Within(order: seq<nat>, n: nat) {
    forall j :: 0 <= j < |order| ==> order[j] < n
  }

  /** The records written when pages settle in the order `order`. */
  function Written(pages: seq<PageOutcome>, order: seq<nat>): seq<Value> {
    if order == [] then []
    else Written(pages, order[..|order| - 1]) + Settled(pages, order[|order| - 1])
  }

  /** The records of request `k` when it settles; a request never made writes nothing. */
  function Settled(pages: seq<PageOutcome>, k: nat): seq<Value> {
    if k < |pages| then RecordsOf(pages[k]) else []
  }

  /** `0, 1, …, n - 1`. */
  function Range(n: nat): (r: seq<nat>)
    ensures |r| == n && forall j :: 0 <= j < n ==> r[j] == j
  {
    seq(n, (j: int) requires 0 <= j => j as nat)
  }

  /** An order in which the `n` requests settle: each exactly once. */
  predicate SettleOrder(order: seq<nat>, n: nat) {
    multiset(order) == multiset(Range(n))
  }

  /** No settled page reports a negative count (only an object body with a negative `length` does). */
  predicate NoNegativeCount(pages: seq<PageOutcome>) {
    forall k :: 0 <= k < |pages| && pages[k].PageDone? ==> pages[k].result.count >= 0
  }

  /** A page whose count is exactly the number of records it wrote. */
  predicate Consistent(p: PageOutcome) {
    p.PageDone? ==> p.result.count == |p.records|
  }

  lemma {:induction false} DownloadedAppend(a: seq<PageOutcome>, b: seq<PageOutcome>)
    ensures Downloaded(a + b) == Downloaded(a) + Downloaded(b)
    decreases |b|
  {
    if b == [] {
      assert a + b == a;
    } else {
      var b' := b[..|b| - 1];
      assert (a + b)[..|a + b| - 1] == a + b';
      DownloadedAppend(a, b');
    }
  }

  lemma {:induction false} FailuresAppend(a: seq<PageOutcome>, b: seq<PageOutcome>)
    ensures Failures(a + b) == Failures(a) + Failures(b)
    decreases |b|
  {
    if b == [] {
      assert a + b == a;
    } else {
      var b' := b[..|b| - 1];
      assert (a + b)[..|a + b| - 1] == a + b';
      FailuresAppend(a, b');
    }
  }

  /** No failures are reported exactly when every page was done. */
  lemma {:induction false} NoFailuresIffAllDone(pages: seq<PageOutcome>)
    ensures Failures(pages) == [] <==> forall k :: 0 <= k < |pages| ==> pages[k].PageDone?
    decreases |pages|
  {
    if pages != [] {
      var init := pages[..|pages| - 1];
      NoFailuresIffAllDone(init);
      if forall k :: 0 <= k < |pages| ==> pages[k].PageDone? {
        assert forall k :: 0 <= k < |init| ==> init[k] == pages[k];
      }
    }
  }

  /** Every reported failure is one of the failed pages, and there are as many of them as failed pages. */
  lemma {:induction false} FailuresAreFailedPages(pages: seq<PageOutcome>)
    ensures forall f :: f in Failures(pages) ==> exists k :: 0 <= k < |pages| && pages[k] == PageFailed(f)
    ensures |Failures(pages)| == |set k | 0 <= k < |pages| && pages[k].PageFailed?|
    decreases |pages|
  {
    if pages != [] {
      var n := |pages| - 1;
      var init := pages[..n];
      FailuresAreFailedPages(init);
      assert forall k :: 0 <= k < n ==> init[k] == pages[k];
      var before := set k | 0 <= k < n && init[k].PageFailed?;
      var all := set k | 0 <= k < |pages| && pages[k].PageFailed?;
      if pages[n].PageFailed? {
        assert all == before + {n};
      } else {
        assert all == before;
      }
    }
  }

  /** Settling one more request adds its records at the end. */
  lemma WrittenSnoc(pages: seq<PageOutcome>, order: seq<nat>, x: nat)
    ensures Written(pages, order + [x]) == Written(pages, order) + Settled(pages, x)
  {
    assert (order + [x])[..|order|] == order;
  }

  lemma {:induction false} WrittenAppend(pages: seq<PageOutcome>, a: seq<nat>, b: seq<nat>)
    ensures Written(pages, a + b) == Written(pages, a) + Written(pages, b)
    decreases |b|
  {
    if b == [] {
      assert a + b == a;
    } else {
      var b' := b[..|b| - 1];
      var x := b[|b| - 1];
      var done := Settled(pages, x);
      assert Written(pages, b) == Written(pages, b') + done by {
        assert b == b' + [x];
        WrittenSnoc(pages, b', x);
      }
      assert Written(pages, a + b) == Written(pages, a + b') + done by {
        assert a + b == (a + b') + [x];
        WrittenSnoc(pages, a + b', x);
      }
      WrittenAppend(pages, a, b');
    }
  }

  /** Taking the same element out of two equal multisets leaves equal multisets. */
  lemma RemoveOne(a: seq<nat>, k: nat, rest: seq<nat>)
    requires k < |a| && multiset(a) == multiset(rest + [a[k]])
    ensures multiset(a[..k] + a[k + 1..]) == multiset(rest)
  {
    var x := a[k];
    assert a == a[..k] + [x] + a[k + 1..];
    var left := multiset(a[..k] + a[k + 1..]);
    assert multiset(a) == left + multiset{x};
    assert multiset(rest + [x]) == multiset(rest) + multiset{x};
    assert forall y :: left[y] == (left + multiset{x})[y] - multiset{x}[y];
  }

  /** Writing `pre`, then request `x`, then `post`, and writing `pre` then `post`. */
  lemma WrittenSplit(pages: seq<PageOutcome>, pre: seq<nat>, x: nat, post: seq<nat>)
    ensures Written(pages, pre + [x] + post) == Written(pages, pre) + Settled(pages, x) + Written(pages, post)
    ensures Written(pages, pre + post) == Written(pages, pre) + Written(pages, post)
  {
    var front := pre + [x];
    WrittenAppend(pages, pre, post);
    WrittenSnoc(pages, pre, x);
    WrittenAppend(pages, front, post);
  }

  /** The records written do not depend on the order the pages settle in, only how they are interleaved. */
  lemma {:induction false} WrittenPermutation(pages: seq<PageOutcome>, a: seq<nat>, b: seq<nat>)
    requires multiset(a) == multiset(b)
    ensures multiset(Written(pages, a)) == multiset(Written(pages, b))
    decreases |b|
  {
    if b != [] {
      var x := b[|b| - 1];
      var b' := b[..|b| - 1];
      assert b == b' + [x];
      assert x in multiset(a);
      var k :| 0 <= k < |a| && a[k] == x;
      var front, back := a[..k], a[k + 1..];
      assert a == front + [x] + back;
      RemoveOne(a, k, b');
      WrittenSplit(pages, front, x, back);
      WrittenPermutation(pages, front + back, b');
      var mid := Settled(pages, x);
      var pre, post := Written(pages, front), Written(pages, back);
      assert Written(pages, b) == Written(pages, b') + mid by {
        assert b[..|b| - 1] == b';
      }
      calc {
        multiset(Written(pages, a));
        multiset(pre + mid + post);
        multiset(pre) + multiset(mid) + multiset(post);
        multiset(pre + post) + multiset(mid);
        multiset(Written(pages, b')) + multiset(mid);
        multiset(Written(pages, b));
      }
    }
  }

  /** Written in dispatch order, the records number exactly the downloaded total when every page is consistent. */
  lemma {:induction false} WrittenInOrderCount(pages: seq<PageOutcome>, n: nat)
    requires n <= |pages|
    requires forall k :: 0 <= k < |pages| ==> Consistent(pages[k])
    ensures |Written(pages, Range(n))| == Downloaded(pages[..n])
    decreases n
  {
    if n > 0 {
      WrittenInOrderCount(pages, n - 1);
      assert Range(n)[..n - 1] == Range(n - 1);
      assert pages[..n][..n - 1] == pages[..n - 1];
      assert Consistent(pages[n - 1]);
    }
  }

  /** A settle order names only requests that were made. */
  lemma OrderWithin(order: seq<nat>, n: nat)
    requires SettleOrder(order, n)
    ensures Within(order, n)
  {
    forall j | 0 <= j < |order| ensures order[j] < n {
      assert order[j] in multiset(Range(n));
    }
  }

  /**
   * Whatever order the pages settle in, the output holds the same records, and
   * when every page's count is its number of records their number is the total
   * downloaded: a run is saved exactly when it wrote something.
   */
  lemma WrittenMatchesDownloaded(pages: seq<PageOutcome>, order: seq<nat>)
    requires SettleOrder(order, |pages|)
    requires forall k :: 0 <= k < |pages| ==> Consistent(pages[k])
    ensures Within(order, |pages|)
    ensures multiset(Written(pages, order)) == multiset(Written(pages, Range(|pages|)))
    ensures |Written(pages, order)| == Downloaded(pages)
    ensures Downloaded(pages) != 0 <==> |Written(pages, order)| > 0
  {
    var n := |pages|;
    OrderWithin(order, n);
    WrittenPermutation(pages, order, Range(n));
    WrittenInOrderCount(pages, n);
    assert pages[..n] == pages;
    assert |Written(pages, order)| == |multiset(Written(pages, order))|;
  }

  /** A mapped page that does not report a negative count wrote exactly as many records as it counted. */
  lemma MapPageConsistent(c: Cleaned)
    ensures MapPage(c).PageDone? && MapPage(c).result.count >= 0 ==> Consistent(MapPage(c))
  {
  }

  /** The same for a fetched page: a failed page writes nothing and counts nothing. */
  lemma FetchPageConsistent(opts: RequestOptions, offset: int, freshId: string, send: AxiosConfig -> Outcome)
    ensures var p := FetchPage(opts, offset, freshId, send);
            p.PageDone? && p.result.count >= 0 ==> Consistent(p)
  {
    match PageOptions(opts, offset, freshId)
    case Thrown(_) =>
    case Ok(page) =>
      match CallPercipio(page, freshId, send)
      case Failed(_) =>
      case Answered(c) => MapPageConsistent(c);
  }

  /**
   * For the pages `getAllPages` dispatches, whatever order they settle in: when
   * no page reports a negative count, the records written number the total
   * downloaded, so the output is saved exactly when it holds a record.
   */
  lemma SavedIffWritten(opts: RequestOptions, total: int, send: AxiosConfig -> Outcome, uuid: nat -> string,
                        order: seq<nat>)
    requires Pageable(opts)
    requires SettleOrder(order, PageCount(total, PageSize(opts)))
    requires NoNegativeCount(Pages(opts, total, send, uuid))
    ensures var pages := Pages(opts, total, send, uuid);
            |Written(pages, order)| == RunOf(pages).downloaded
            && (RunOf(pages).saved <==> |Written(pages, order)| > 0)
  {
    var pages := Pages(opts, total, send, uuid);
    forall k | 0 <= k < |pages| ensures Consistent(pages[k]) {
      FetchPageConsistent(opts, k * PageSize(opts), uuid(k), send);
    }
    WrittenMatchesDownloaded(pages, order);
  }

  /**
   * With a server that answers each configuration with itself, a page that
   * is done reports the window it asked for and exactly the records it returned.
   */
  lemma PageWindow(opts: RequestOptions, offset: int, freshId: string, send: AxiosConfig -> Outcome)
    requires Pageable(opts)
    requires Template.Process(opts.uritemplate, opts.path).Ok?
    requires forall cfg :: send(cfg).Resolved? ==> send(cfg).response.config == cfg
    requires FetchPage(opts, offset, freshId, send).PageDone?
    ensures var p := FetchPage(opts, offset, freshId, send);
            p.result.start == offset && p.result.end == offset + PageSize(opts)
            && p.result.correlationid == Str(freshId)
  {
    PageRequest(opts, offset, freshId);
    var cfg := BuildConfig(PageOptions(opts, offset, freshId).value, freshId).value;
    var q := opts.query.value;
    assert cfg.params == Some(OmitNil(q)["offset" := Num(offset)]);
    assert "max" in OmitNil(q);
  }

  /** The `forEach` of `getPage` (app.js:212-214): the page's records, in order, into the output. */
  method EmitPage(sink: Sink.OutputSink, page: PageOutcome)
    requires !sink.ended
    modifies sink
    ensures sink.records == old(sink.records) + RecordsOf(page)
    ensures sink.bom == old(sink.bom) && sink.fileExists == old(sink.fileExists) && !sink.ended
  {
    var records := RecordsOf(page);
    var i := 0;
    while i < |records|
      invariant 0 <= i <= |records|
      invariant sink.records == old(sink.records) + records[..i]
      invariant sink.bom == old(sink.bom) && sink.fileExists == old(sink.fileExists) && !sink.ended
    {
      sink.Write(records[i]);
      i := i + 1;
      assert records[..i] == records[..i - 1] + [records[i - 1]];
    }
    assert records[..i] == records;
  }

  /** What `getAllPages` resolves with for the given pages: saved when the total is not 0. */
  function RunOf(pages: seq<PageOutcome>): (r: RunOutcome)
    ensures r.failed == [] <==> forall k :: 0 <= k < |pages| ==> pages[k].PageDone?
  {
    NoFailuresIffAllDone(pages);
    RunOutcome(Downloaded(pages) != 0, Downloaded(pages), Failures(pages))
  }

  /** Settling one more request adds its page's records to what was written. */
  lemma WrittenPrefix(pages: seq<PageOutcome>, order: seq<nat>, j: nat)
    requires 0 < j <= |order|
    ensures Written(pages, order[..j]) == Written(pages, order[..j - 1]) + Settled(pages, order[j - 1])
  {
    assert order[..j][..j - 1] == order[..j - 1];
  }

  /**
   * `Promise.allSettled(requests)` as the pages arrive (app.js:212-214,
   * 295): each page, in the order they settle, writes its records.
   */
  method SettlePages(sink: Sink.OutputSink, pages: seq<PageOutcome>, order: seq<nat>)
    requires Within(order, |pages|)
    requires sink.records == [] && !sink.ended
    modifies sink
    ensures sink.records == Written(pages, order)
    ensures sink.bom == old(sink.bom) && sink.fileExists == old(sink.fileExists) && !sink.ended
  {
    var j := 0;
    while j < |order|
      invariant 0 <= j <= |order|
      invariant sink.records == Written(pages, order[..j])
      invariant sink.bom == old(sink.bom) && sink.fileExists == old(sink.fileExists) && !sink.ended
    {
      EmitPage(sink, pages[order[j]]);
      WrittenPrefix(pages, order, j + 1);
      j := j + 1;
    }
    assert order[..j] == order;
  }

  /**
   * `getAllPages(options, total)`: open the output, fire one request per
   * offset, write each page's records as it settles (in `order`), and when all
   * have settled total the counts, collect the failures and end the output.
   */
  method GetAllPages(opts: RequestOptions, total: int, send: AxiosConfig -> Outcome, uuid: nat -> string,
                     order: seq<nat>, includeBom: bool)
      returns (run: RunOutcome, sink: Sink.OutputSink)
    requires Pageable(opts)
    requires SettleOrder(order, PageCount(total, PageSize(opts)))
    ensures fresh(sink)
    ensures Within(order, |Pages(opts, total, send, uuid)|)
    ensures sink.records == Written(Pages(opts, total, send, uuid), order)
    ensures run == RunOf(Pages(opts, total, send, uuid))
    ensures sink.ended && sink.bom == includeBom && sink.fileExists == run.saved
    ensures NoNegativeCount(Pages(opts, total, send, uuid)) ==>
              |sink.records| == run.downloaded && (run.saved <==> |sink.records| > 0)
  {
    sink := new Sink.OutputSink(includeBom);
    var requests := DispatchPages(opts, total, send, uuid);
    OrderWithin(order, |requests|);
    SettlePages(sink, requests, order);
    var downloaded := Downloaded(requests);
    var failed := Failures(requests);
    var saved := sink.Finish(downloaded);
    run := RunOutcome(saved, downloaded, failed);
    if NoNegativeCount(requests) {
      SavedIffWritten(opts, total, send, uuid, order);
    }
  }
}

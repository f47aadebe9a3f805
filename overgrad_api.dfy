/** The Overgrad API client: the paginator that walks an endpoint's pages and
    the single-record fetcher (entities/overgrad_api.py). The HTTP transport is
    an oracle: a `PageServer` that answers each request with the next page
    payload of a given sequence, and a `RecordServer` that answers a record URL
    from a given map. */
module OvergradApi {
  import opened Outcomes
  import opened Strings
  import opened Json

  /** The common prefix of every API URL. */
  const ApiRoot: string := "https://api.overgrad.com/api/v1/"

  /** `_set_base_url` of the paginator: `{root}{endpoint}?` followed by the
      present filters and `limit=100`, joined by `&`. */
  function BaseUrl(endpoint: string, graduationYear: Option<string>, afterDate: Option<string>): string
  {
    var head := [ApiRoot + endpoint + "?"];
    var withYear := if graduationYear.Some? then head + ["graduation_year=" + graduationYear.value] else head;
    var withDate := if afterDate.Some? then withYear + ["updated_after=" + afterDate.value] else withYear;
    var parts := withDate + ["limit=100"];
    Join(parts[..1], "") + Join(parts[1..], "&")
  }

  /** The URL is the head followed by the `&`-joined parameters. */
  lemma BaseUrlHead(head: string, params: seq<string>)
    ensures Join(([head] + params)[..1], "") + Join(([head] + params)[1..], "&") == head + Join(params, "&")
  {
    assert ([head] + params)[..1] == [head];
    assert ([head] + params)[1..] == params;
  }

  /** With both filters, as the joined parts. */
  lemma BaseUrlBothParts(endpoint: string, year: string, date: string)
    ensures BaseUrl(endpoint, Some(year), Some(date))
      == (ApiRoot + endpoint + "?") + (("graduation_year=" + year) + "&" + (("updated_after=" + date) + "&" + "limit=100"))
  {
    var head, y, d, limit := ApiRoot + endpoint + "?", "graduation_year=" + year, "updated_after=" + date, "limit=100";
    assert [head] + [y] + [d] + [limit] == [head] + [y, d, limit];
    BaseUrlHead(head, [y, d, limit]);
    JoinThree(y, d, limit, "&");
  }

  /** With both filters: the graduation year first, then the updated-after
      date, then the page size. */
  lemma BaseUrlBothFilters(endpoint: string, year: string, date: string)
    ensures BaseUrl(endpoint, Some(year), Some(date))
      == ApiRoot + endpoint + "?graduation_year=" + year + "&updated_after=" + date + "&limit=100"
  {
    BaseUrlBothParts(endpoint, year, date);
    BothFiltersText(ApiRoot + endpoint, year, date);
  }

  /** The parts of the URL with both filters, read as one text. */
  lemma BothFiltersText(root: string, year: string, date: string)
    ensures root + "?" + ("graduation_year=" + year + "&" + ("updated_after=" + date + "&" + "limit=100"))
      == root + "?graduation_year=" + year + "&updated_after=" + date + "&limit=100"
  {
  }

  /** With a graduation year only. */
  lemma BaseUrlYearOnly(endpoint: string, year: string)
    ensures BaseUrl(endpoint, Some(year), None) == ApiRoot + endpoint + "?graduation_year=" + year + "&limit=100"
  {
    var head, y, limit := ApiRoot + endpoint + "?", "graduation_year=" + year, "limit=100";
    var parts := [head, y, limit];
    assert [head] + [y] + [limit] == parts;
    assert parts[..1] == [head] && parts[1..] == [y, limit] && [y, limit][1..] == [limit];
    assert Join([limit], "&") == limit && Join([head], "") == head;
    assert Join([y, limit], "&") == y + "&" + limit;
    calc {
      BaseUrl(endpoint, Some(year), None);
      head + (y + "&" + limit);
      ApiRoot + endpoint + ("?" + "graduation_year=") + year + ("&" + limit);
    }
  }

  /** With an updated-after date only. */
  lemma BaseUrlDateOnly(endpoint: string, date: string)
    ensures BaseUrl(endpoint, None, Some(date)) == ApiRoot + endpoint + "?updated_after=" + date + "&limit=100"
  {
    var head, d, limit := ApiRoot + endpoint + "?", "updated_after=" + date, "limit=100";
    var parts := [head, d, limit];
    assert [head] + [d] + [limit] == parts;
    assert parts[..1] == [head] && parts[1..] == [d, limit] && [d, limit][1..] == [limit];
    assert Join([limit], "&") == limit && Join([head], "") == head;
    assert Join([d, limit], "&") == d + "&" + limit;
    calc {
      BaseUrl(endpoint, None, Some(date));
      head + (d + "&" + limit);
      ApiRoot + endpoint + ("?" + "updated_after=") + date + ("&" + limit);
    }
  }

  /** Without filters only the page size is asked for. */
  lemma BaseUrlNoFilter(endpoint: string)
    ensures BaseUrl(endpoint, None, None) == ApiRoot + endpoint + "?limit=100"
  {
    var head, limit := ApiRoot + endpoint + "?", "limit=100";
    var parts := [head, limit];
    assert parts[..1] == [head] && parts[1..] == [limit];
    calc {
      BaseUrl(endpoint, None, None);
      head + limit;
      ApiRoot + endpoint + ("?" + limit);
    }
  }

  /** `_generate_url`: page 1 is the base URL itself, any other page adds
      `&page=n`. */
  function PageUrl(base: string, page: int): string
  {
    if page == 1 then base else base + "&page=" + Decimal(page)
  }

  /** Different page numbers from 1 on give different URLs, so no page is
      requested twice. */
  lemma PageUrlInjective(base: string, m: int, n: int)
    requires m >= 1 && n >= 1 && m != n
    ensures PageUrl(base, m) != PageUrl(base, n)
  {
    if m != 1 && n != 1 && PageUrl(base, m) == PageUrl(base, n) {
      SameSuffix(base + "&page=", Decimal(m), Decimal(n));
      NatDecimalInjective(m, n);
    }
  }

  /** One decoded page payload: its `data` list and the `total_count` and
      `total_pages` it reports (None for JSON null). */
  datatype Page = Page(data: seq<Record>, totalCount: Option<int>, totalPages: Option<int>)

  /** The four counters of the paginator. */
  datatype PagerState = PagerState(currentPage: int, recordCount: int, totalCount: Option<int>, totalPages: Option<int>)

  /** A fresh paginator: page 1, nothing counted, totals unknown. */
  const Initial: PagerState := PagerState(1, 0, None, None)

  /** `_is_complete`: only a known page total can end the walk. */
  predicate Complete(s: PagerState)
  {
    s.totalPages.Some? && s.currentPage > s.totalPages.value
  }

  /** A fresh paginator is not complete, so it fetches at least one page. */
  lemma InitialNotComplete()
    ensures !Complete(Initial)
  {
  }

  /** The first half of a loop iteration: the fetched page's records are
      counted before they are yielded. */
  function Count(s: PagerState, page: Page): PagerState
  {
    s.(recordCount := s.recordCount + |page.data|)
  }

  /** The second half, once the records have been yielded: read the totals
      while the count is still unknown, then go to the next page. */
  function Advance(s: PagerState, page: Page): PagerState
  {
    if s.totalCount.None? then
      s.(currentPage := s.currentPage + 1, totalCount := page.totalCount, totalPages := page.totalPages)
    else
      s.(currentPage := s.currentPage + 1)
  }

  /** One iteration of the `call_endpoint` loop on a fetched page: count its
      records, read the totals while the count is still unknown, next page. */
  function Step(s: PagerState, page: Page): (r: PagerState)
    ensures r.currentPage == s.currentPage + 1
    ensures r.recordCount == s.recordCount + |page.data|
    ensures s.totalCount.Some? ==> r.totalCount == s.totalCount && r.totalPages == s.totalPages
    ensures s.totalCount.None? ==> r.totalCount == page.totalCount && r.totalPages == page.totalPages
  {
    Advance(Count(s, page), page)
  }

  /** The records of the pages, page after page. */
  function Concat(pages: seq<Page>): (r: seq<Record>)
    ensures |r| == DataCount(pages)
  {
    if pages == [] then [] else pages[0].data + Concat(pages[1..])
  }

  /** The summed lengths of the pages' `data`. */
  function DataCount(pages: seq<Page>): nat
  {
    if pages == [] then 0 else |pages[0].data| + DataCount(pages[1..])
  }

  /** What a complete run of the `call_endpoint` loop from state `s` does when
      the server has `pages` left to answer with. */
  datatype Walk = Walk(
    state: PagerState,       // the counters afterwards
    records: seq<Record>,    // the records yielded, in order
    urls: seq<string>,       // the URLs requested, in order
    consumed: nat,           // how many pages were fetched
    exhausted: bool)         // whether a request found the server without an answer

  /** The loop's specification. */
  function Drive(base: string, s: PagerState, pages: seq<Page>): (w: Walk)
    ensures w.consumed <= |pages|
    ensures |w.urls| == w.consumed + (if w.exhausted then 1 else 0)
    decreases |pages|
  {
    if Complete(s) then Walk(s, [], [], 0, false)
    else if pages == [] then Walk(s, [], [PageUrl(base, s.currentPage)], 0, true)
    else
      var rest := Drive(base, Step(s, pages[0]), pages[1..]);
      Walk(rest.state, pages[0].data + rest.records, [PageUrl(base, s.currentPage)] + rest.urls,
           rest.consumed + 1, rest.exhausted)
  }

  /** Each fetched page moves the paginator one page on and adds its records
      to the count; records come page after page, in in-page order; the walk
      stops either complete or on a request the server cannot answer, after
      all its pages. */
  lemma {:induction false} DriveFacts(base: string, s: PagerState, pages: seq<Page>)
    ensures var w := Drive(base, s, pages);
      && (w.exhausted ==> w.consumed == |pages|)
      && (!w.exhausted ==> Complete(w.state))
      && w.records == Concat(pages[..w.consumed])
      && w.state.currentPage == s.currentPage + w.consumed
      && w.state.recordCount == s.recordCount + |w.records|
    decreases |pages|
  {
    if !Complete(s) && pages != [] {
      DriveFacts(base, Step(s, pages[0]), pages[1..]);
      var rest := Drive(base, Step(s, pages[0]), pages[1..]);
      assert pages[..rest.consumed + 1] == [pages[0]] + pages[1..][..rest.consumed];
    }
  }

  /** `w` preceded by records, URLs and pages already dealt with. */
  function After(records: seq<Record>, urls: seq<string>, consumed: nat, w: Walk): Walk
  {
    Walk(w.state, records + w.records, urls + w.urls, consumed + w.consumed, w.exhausted)
  }

  /** One iteration of the loop, as `Drive` sees it. */
  lemma DriveUnfold(base: string, s: PagerState, pages: seq<Page>)
    requires !Complete(s) && pages != []
    ensures Drive(base, s, pages)
      == After(pages[0].data, [PageUrl(base, s.currentPage)], 1, Drive(base, Step(s, pages[0]), pages[1..]))
  {
  }

  /** Two stretches of a walk make one. */
  lemma AfterAfter(rs: seq<Record>, us: seq<string>, n: nat, rs': seq<Record>, us': seq<string>, n': nat, w: Walk)
    ensures After(rs, us, n, After(rs', us', n', w)) == After(rs + rs', us + us', n + n', w)
  {
    assert rs + (rs' + w.records) == (rs + rs') + w.records;
    assert us + (us' + w.urls) == (us + us') + w.urls;
  }

  /** Once the page total is known and no longer re-read, the loop requests
      pages p, p+1, ..., T and stops, given that many pages. */
  lemma {:induction false} DriveKnownTotal(base: string, s: PagerState, pages: seq<Page>, total: int)
    requires s.totalCount.Some? && s.totalPages == Some(total)
    requires |pages| >= Remaining(s.currentPage, total)
    ensures Drive(base, s, pages).consumed == Remaining(s.currentPage, total)
    ensures !Drive(base, s, pages).exhausted
    ensures Drive(base, s, pages).state.totalPages == Some(total)
    ensures forall i :: 0 <= i < Remaining(s.currentPage, total) ==>
      Drive(base, s, pages).urls[i] == PageUrl(base, s.currentPage + i)
    decreases |pages|
  {
    if !Complete(s) {
      var next := Step(s, pages[0]);
      assert Remaining(next.currentPage, total) == Remaining(s.currentPage, total) - 1;
      DriveKnownTotal(base, next, pages[1..], total);
      KnownTotalUrls(base, s, pages, total);
    } else {
      assert Remaining(s.currentPage, total) == 0;
    }
  }

  /** The URL step of `DriveKnownTotal`: the first page's URL, then those
      the rest of the walk requests. */
  lemma KnownTotalUrls(base: string, s: PagerState, pages: seq<Page>, total: int)
    requires s.totalCount.Some? && s.totalPages == Some(total) && !Complete(s) && pages != []
    requires var rest := Drive(base, Step(s, pages[0]), pages[1..]);
      && |rest.urls| >= Remaining(s.currentPage, total) - 1
      && forall i :: 0 <= i < Remaining(s.currentPage, total) - 1 ==>
           rest.urls[i] == PageUrl(base, Step(s, pages[0]).currentPage + i)
    ensures |Drive(base, s, pages).urls| >= Remaining(s.currentPage, total)
    ensures forall i :: 0 <= i < Remaining(s.currentPage, total) ==>
      Drive(base, s, pages).urls[i] == PageUrl(base, s.currentPage + i)
  {
    var next := Step(s, pages[0]);
    var rest := Drive(base, next, pages[1..]);
    DriveUnfold(base, s, pages);
    assert Drive(base, s, pages).urls == [PageUrl(base, s.currentPage)] + rest.urls;
    UrlsFrom(base, s.currentPage, next.currentPage, rest.urls, Remaining(s.currentPage, total));
  }

  /** The URL of page `p` in front of those of the pages from `p + 1` on
      gives the URLs of the pages from `p` on. */
  lemma UrlsFrom(base: string, p: int, q: int, urls: seq<string>, n: nat)
    requires q == p + 1 && n >= 1 && |urls| >= n - 1
    requires forall i :: 0 <= i < n - 1 ==> urls[i] == PageUrl(base, q + i)
    ensures forall i :: 0 <= i < n ==> ([PageUrl(base, p)] + urls)[i] == PageUrl(base, p + i)
  {
    forall i | 0 <= i < n
      ensures ([PageUrl(base, p)] + urls)[i] == PageUrl(base, p + i)
    {
      if i > 0 {
        var page := q + (i - 1);
        assert page == p + i;
        assert ([PageUrl(base, p)] + urls)[i] == urls[i - 1] == PageUrl(base, page);
      }
    }
  }

  /** The pages from `page` to `total`, none when `page` is already past it. */
  function Remaining(page: int, total: int): nat
  {
    if page > total then 0 else total - page + 1
  }

  /** When the first page reports its totals, with `total_pages = T`, and the
      server has enough pages: exactly max(1, T) pages are fetched, the URLs of
      pages 1, 2, ... in order, the walk ends complete, the records are those
      pages' records in order and the record count is their number. */
  lemma {:induction false} FirstPageFixesWalk(base: string, pages: seq<Page>)
    requires |pages| >= 1 && pages[0].totalCount.Some? && pages[0].totalPages.Some?
    requires |pages| >= Fetched(pages[0].totalPages.value)
    ensures var w := Drive(base, Initial, pages);
      && w.consumed == Fetched(pages[0].totalPages.value)
      && !w.exhausted && Complete(w.state)
      && (forall i :: 0 <= i < w.consumed ==> w.urls[i] == PageUrl(base, i + 1))
      && w.records == Concat(pages[..w.consumed])
      && w.state.recordCount == DataCount(pages[..w.consumed])
  {
    var total := pages[0].totalPages.value;
    var s1 := Step(Initial, pages[0]);
    assert s1.currentPage == 2 && s1.totalPages == Some(total);
    DriveKnownTotal(base, s1, pages[1..], total);
    DriveFacts(base, Initial, pages);
    var rest := Drive(base, s1, pages[1..]);
    assert Remaining(2, total) + 1 == Fetched(total);
    var w := Drive(base, Initial, pages);
    assert w.urls[0] == PageUrl(base, 1);
    assert forall i :: 1 <= i < w.consumed ==> w.urls[i] == rest.urls[i - 1];
  }

  /** How many pages a walk fetches when the first reports `total_pages = T`. */
  function Fetched(total: int): nat
  {
    if total < 1 then 1 else total
  }

  /** The URLs of a walk from a fresh paginator are pairwise different. */
  lemma {:induction false} WalkUrlsDistinct(base: string, pages: seq<Page>)
    requires |pages| >= 1 && pages[0].totalCount.Some? && pages[0].totalPages.Some?
    requires |pages| >= Fetched(pages[0].totalPages.value)
    ensures var w := Drive(base, Initial, pages);
      forall i, j :: 0 <= i < j < |w.urls| ==> w.urls[i] != w.urls[j]
  {
    FirstPageFixesWalk(base, pages);
    var w := Drive(base, Initial, pages);
    forall i, j | 0 <= i < j < |w.urls|
      ensures w.urls[i] != w.urls[j]
    {
      PageUrlInjective(base, i + 1, j + 1);
    }
  }

  /** The network oracle of the paginator: each request is answered with the
      next page payload, until there is none left. */
  class PageServer {
    var pending: seq<Page>
    var requested: seq<string>

    constructor (pages: seq<Page>)
      ensures pending == pages && requested == []
    {
      pending := pages;
      requested := [];
    }

    /** `_call_endpoint(url)`. */
    method Get(url: string) returns (r: Option<Page>)
      modifies this
      ensures requested == old(requested) + [url]
      ensures old(pending) == [] ==> r == None && pending == []
      ensures old(pending) != [] ==> r == Some(old(pending)[0]) && pending == old(pending)[1..]
    {
      requested := requested + [url];
      if pending == [] {
        r := None;
      } else {
        r := Some(pending[0]);
        pending := pending[1..];
      }
    }
  }

  /** `OvergradAPIPaginator`. */
  class Paginator {
    const endpoint: string
    const graduationYear: Option<string>
    const afterDate: Option<string>
    var currentPage: int
    var recordCount: int
    var totalCount: Option<int>
    var totalPages: Option<int>

    /** The counters as a value. */
    function State(): PagerState
      reads this
    {
      PagerState(currentPage, recordCount, totalCount, totalPages)
    }

    constructor (endpoint: string, graduationYear: Option<string>, afterDate: Option<string>)
      ensures this.endpoint == endpoint && this.graduationYear == graduationYear && this.afterDate == afterDate
      ensures State() == Initial
    {
      recordCount := 0;
      totalCount := None;
      totalPages := None;
      currentPage := 1;
      this.graduationYear := graduationYear;
      this.afterDate := afterDate;
      this.endpoint := endpoint;
    }

    /** `_base_url`, fixed by the filters given at construction. */
    function BaseAddress(): string
    {
      BaseUrl(endpoint, graduationYear, afterDate)
    }

    /** `_generate_url`. */
    function GenerateUrl(): string
      reads this
    {
      PageUrl(BaseAddress(), currentPage)
    }

    /** `_is_complete`. */
    function IsComplete(): (done: bool)
      reads this
      ensures done == Complete(State())
    {
      if totalPages.Some? then currentPage > totalPages.value else false
    }

    /** `_increment_page`. */
    method IncrementPage()
      modifies this
      ensures State() == old(State()).(currentPage := old(currentPage) + 1)
    {
      currentPage := currentPage + 1;
    }

    /** `_update_response_counts`. */
    method UpdateResponseCounts(page: Page)
      modifies this
      ensures State() == old(State()).(totalCount := page.totalCount, totalPages := page.totalPages)
    {
      totalCount := page.totalCount;
      totalPages := page.totalPages;
    }

    /** The first half of one loop iteration, up to the point where the page's
      records are yielded: request the current page and count its records. */
    method BeginPage(server: PageServer) returns (r: Result<Page>)
      modifies this, server
      ensures server.requested == old(server.requested) + [PageUrl(BaseAddress(), old(currentPage))]
      ensures old(server.pending) == [] ==>
        r == Err(NetworkExhausted) && server.pending == [] && State() == old(State())
      ensures old(server.pending) != [] ==>
        && r == Ok(old(server.pending)[0]) && server.pending == old(server.pending)[1..]
        && State() == Count(old(State()), r.value)
    {
      var url := GenerateUrl();
      var payload := server.Get(url);
      if payload.None? {
        return Err(NetworkExhausted);
      }
      recordCount := recordCount + |payload.value.data|;
      r := Ok(payload.value);
    }

    /** The second half, once the consumer has taken the page's records: read
      the totals while the count is unknown and move to the next page. */
    method FinishPage(page: Page)
      modifies this
      ensures State() == Advance(old(State()), page)
    {
      if totalCount.None? {
        UpdateResponseCounts(page);
      }
      IncrementPage();
    }

    /** One iteration of `call_endpoint` with nothing done to the page's
      records in between. */
    method NextPage(server: PageServer) returns (r: Result<Page>)
      modifies this, server
      ensures server.requested == old(server.requested) + [PageUrl(BaseAddress(), old(currentPage))]
      ensures old(server.pending) == [] ==>
        r == Err(NetworkExhausted) && server.pending == [] && State() == old(State())
      ensures old(server.pending) != [] ==>
        r == Ok(old(server.pending)[0]) && server.pending == old(server.pending)[1..]
        && State() == Step(old(State()), r.value)
    {
      r := BeginPage(server);
      if r.Ok? {
        FinishPage(r.value);
      }
    }

    /** `call_endpoint`, drained: the records of every page, in order, or
      the failure of a request the server could not answer. */
    method CallEndpoint(server: PageServer) returns (r: Result<seq<Record>>)
      modifies this, server
      ensures Drive(BaseAddress(), old(State()), old(server.pending)).exhausted ==> r == Err(NetworkExhausted)
      ensures !Drive(BaseAddress(), old(State()), old(server.pending)).exhausted ==>
        r == Ok(Drive(BaseAddress(), old(State()), old(server.pending)).records)
      ensures State() == Drive(BaseAddress(), old(State()), old(server.pending)).state
      ensures server.pending == old(server.pending)[Drive(BaseAddress(), old(State()), old(server.pending)).consumed..]
      ensures server.requested == old(server.requested) + Drive(BaseAddress(), old(State()), old(server.pending)).urls
    {
      ghost var s0, pages0, requested0 := State(), server.pending, server.requested;
      ghost var base := BaseAddress();
      var records: seq<Record> := [];
      ghost var urls: seq<string> := [];
      ghost var consumed: nat := 0;
      assert After([], [], 0, Drive(base, s0, pages0)) == Drive(base, s0, pages0);
      while !IsComplete()
        invariant consumed <= |pages0| && server.pending == pages0[consumed..]
        invariant server.requested == requested0 + urls
        invariant Drive(base, s0, pages0) == After(records, urls, consumed, Drive(base, State(), server.pending))
        decreases |server.pending|
      {
        var more;
        more, urls, consumed := DrainPage(server, Drive(base, s0, pages0), requested0, records, urls, consumed);
        if more.Err? {
          return more;
        }
        records := more.value;
      }
      assert Drive(base, State(), server.pending) == Walk(State(), [], [], 0, false);
      assert records + [] == records;
      r := Ok(records);
    }

    /** One turn of the loop of `call_endpoint`, placed in the walk `w0` of
      the whole call: either the request failed and the walk ends here
      exhausted, or one more page's records were collected and the walk
      continues from the advanced paginator. */
    method DrainPage(server: PageServer, ghost w0: Walk, ghost requested0: seq<string>, records: seq<Record>,
                     ghost urls: seq<string>, ghost consumed: nat)
      returns (r: Result<seq<Record>>, ghost urls': seq<string>, ghost consumed': nat)
      modifies this, server
      requires !Complete(State())
      requires w0 == After(records, urls, consumed, Drive(BaseAddress(), State(), server.pending))
      requires server.requested == requested0 + urls
      ensures r.Err? ==>
        && r == Err(NetworkExhausted) && w0.exhausted && old(server.pending) == [] && server.pending == []
        && w0.consumed == consumed && State() == w0.state && server.requested == requested0 + w0.urls
      ensures r.Ok? ==>
        && old(server.pending) != [] && server.pending == old(server.pending)[1..] && consumed' == consumed + 1
        && server.requested == requested0 + urls'
        && w0 == After(r.value, urls', consumed', Drive(BaseAddress(), State(), server.pending))
    {
      ghost var base := BaseAddress();
      ghost var before, pendingBefore := State(), server.pending;
      ghost var url := PageUrl(base, before.currentPage);
      var page := NextPage(server);
      urls', consumed' := urls, consumed;
      if page.Err? {
        assert w0 == After(records, urls, consumed, Walk(before, [], [url], 0, true));
        return Err(NetworkExhausted), urls', consumed';
      }
      assert w0 == After(records + page.value.data, urls + [url], consumed + 1,
                         Drive(base, State(), server.pending)) by {
        DriveUnfold(base, before, pendingBefore);
        AfterAfter(records, urls, consumed, page.value.data, [url], 1, Drive(base, State(), server.pending));
      }
      assert server.requested == (requested0 + urls) + [url] == requested0 + (urls + [url]);
      r, urls', consumed' := Ok(records + page.value.data), urls + [url], consumed + 1;
    }
  }

  /** The single-record URL of `OvergradAPIFetchRecord`. */
  function RecordUrl(endpoint: string, recordId: Value): string
  {
    ApiRoot + endpoint + "/" + PyStr(recordId)
  }

  /** Different integer ids have different record URLs. */
  lemma RecordUrlInjective(endpoint: string, m: int, n: int)
    requires m != n
    ensures RecordUrl(endpoint, Int(m)) != RecordUrl(endpoint, Int(n))
  {
    if RecordUrl(endpoint, Int(m)) == RecordUrl(endpoint, Int(n)) {
      SameSuffix(ApiRoot + endpoint + "/", PyStr(Int(m)), PyStr(Int(n)));
      PyStrIntInjective(m, n);
    }
  }

  /** The network oracle of the fetcher: the payload at each URL it can serve. */
  class RecordServer {
    const responses: map<string, Value>
    var requested: seq<string>

    constructor (responses: map<string, Value>)
      ensures this.responses == responses && requested == []
    {
      this.responses := responses;
      requested := [];
    }

    /** `_call_endpoint(url)`: a URL the server cannot serve is an HTTP error. */
    method Get(url: string) returns (r: Result<Value>)
      modifies this
      ensures requested == old(requested) + [url]
      ensures url in responses ==> r == Ok(responses[url])
      ensures url !in responses ==> r == Err(HttpError(url))
    {
      requested := requested + [url];
      if url in responses {
        r := Ok(responses[url]);
      } else {
        r := Err(HttpError(url));
      }
    }
  }

  /** `OvergradAPIFetchRecord`. */
  class RecordFetcher {
    const endpoint: string

    constructor (endpoint: string)
      ensures this.endpoint == endpoint
    {
      this.endpoint := endpoint;
    }

    /** `_set_base_url` of the fetcher: the endpoint's collection URL. */
    function BaseAddress(): string
    {
      ApiRoot + endpoint
    }

    /** `fetch_record`: one request to the record's URL, whose payload is
      returned unchanged; a missing record is not skipped. */
    method FetchRecord(server: RecordServer, recordId: Value) returns (r: Result<Value>)
      modifies server
      ensures server.requested == old(server.requested) + [RecordUrl(endpoint, recordId)]
      ensures RecordUrl(endpoint, recordId) in server.responses ==>
        r == Ok(server.responses[RecordUrl(endpoint, recordId)])
      ensures RecordUrl(endpoint, recordId) !in server.responses ==>
        r == Err(HttpError(RecordUrl(endpoint, recordId)))
    {
      var url := BaseAddress() + "/" + PyStr(recordId);
      r := server.Get(url);
    }
  }
}

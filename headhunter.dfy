/**
 `fetch_jobs_hh`: walks the result pages of the HeadHunter vacancies search
 for one language, stopping at the first page index the server itself reports
 as past the last page. The HTTP request is replaced by `source`, the page the
 server answers for each index.
 */
module HeadHunter {
  import opened Py
  import opened Salary
  import opened Aggregation

  /** The fields of one search response that the fetcher reads. */
  datatype Page = Page(pages: int, found: int, items: seq<HhJob>)

  /** The server's answer for every page index. */
  type Source = nat -> Page

  /** The page fetched at index `page` makes the loop break. */
  predicate Breaks(source: Source, page: nat) {
    page >= source(page).pages
  }

  /** `k` is the first page index at which the loop breaks. */
  predicate StopsAt(source: Source, k: nat) {
    Breaks(source, k) && forall j :: 0 <= j < k ==> !Breaks(source, j)
  }

  /** The first breaking index at or after `i`, given some breaking index `bound`. */
  function FirstBreak(source: Source, i: nat, bound: nat): (k: nat)
    requires i <= bound && Breaks(source, bound)
    ensures i <= k <= bound && Breaks(source, k)
    ensures forall j :: i <= j < k ==> !Breaks(source, j)
    decreases bound - i
  {
    if Breaks(source, i) then i else FirstBreak(source, i + 1, bound)
  }

  /** Only one index can be the first breaking one. */
  lemma StopsAtUnique(source: Source, k1: nat, k2: nat)
    requires StopsAt(source, k1) && StopsAt(source, k2)
    ensures k1 == k2
  {
  }

  /** The listings of pages `0 .. n - 1`, in the order they are examined. */
  function Jobs(source: Source, n: nat): seq<HhJob> {
    if n == 0 then [] else Jobs(source, n - 1) + source(n - 1).items
  }

  /** The listings of fewer pages are a prefix of those of more pages. */
  lemma {:induction false} JobsPrefix(source: Source, n: nat, m: nat)
    requires n <= m
    ensures |Jobs(source, n)| <= |Jobs(source, m)|
    ensures Jobs(source, m) == Jobs(source, n) + Jobs(source, m)[|Jobs(source, n)|..]
  {
    if n < m {
      JobsPrefix(source, n, m - 1);
      var a, b := Jobs(source, m - 1), source(m - 1).items;
      assert Jobs(source, m) == a + b;
      assert (a + b)[..|Jobs(source, n)|] == a[..|Jobs(source, n)|];
    }
  }

  /** The estimates the inner loop appends for a run of HeadHunter listings. */
  function Scan(jobs: seq<HhJob>): PyResult<seq<Option<real>>> {
    Collect(jobs, PredictRubSalaryHh, IsNotNone)
  }

  /** Scanning more pages is scanning fewer pages, then the rest. */
  lemma ScanJobsSplit(source: Source, n: nat, m: nat)
    requires n <= m
    ensures |Jobs(source, n)| <= |Jobs(source, m)|
    ensures Scan(Jobs(source, m)) == Then(Scan(Jobs(source, n)), Scan(Jobs(source, m)[|Jobs(source, n)|..]))
  {
    JobsPrefix(source, n, m);
    CollectAppend(Jobs(source, n), Jobs(source, m)[|Jobs(source, n)|..], PredictRubSalaryHh, IsNotNone);
  }

  /**
   What `fetch_jobs_hh` returns (or raises) when `stop` is the first breaking
   page: no entry when no page is processed, otherwise the summary of pages
   `0 .. stop - 1`, with `found` taken from the last of them.
   */
  function Expected(language: string, source: Source, stop: nat): PyResult<map<string, LanguageStats>> {
    if stop == 0 then Return(map[])
    else Summary(language, Scan(source(0).items), Scan(Jobs(source, stop)), source(stop - 1).found)
  }

  /** A listing on processed page `page` raises: so does the whole fetch, with that exception. */
  lemma RaisesOnPage(language: string, source: Source, page: nat, stop: nat)
    requires page < stop
    requires Scan(Jobs(source, page)).Return?
    requires page > 0 ==> Scan(source(0).items).Return? && Scan(source(0).items).value != []
    requires Scan(source(page).items).Raise?
    ensures Expected(language, source, stop) == Raise(Scan(source(page).items).error)
  {
    var items := source(page).items;
    var e := Scan(items).error;
    assert Scan(Jobs(source, page + 1)) == Raise(e) by {
      assert Jobs(source, page + 1) == Jobs(source, page) + items;
      CollectAppend(Jobs(source, page), items, PredictRubSalaryHh, IsNotNone);
    }
    assert Scan(Jobs(source, stop)) == Raise(e) by {
      ScanJobsSplit(source, page + 1, stop);
    }
    if page == 0 {
      assert Scan(source(0).items) == Raise(e);
    }
  }

  /** One step of the inner loop: the listing at index `i` is examined after `jobs[..i]`. */
  lemma ScanStep(jobs: seq<HhJob>, i: nat, added: seq<Option<real>>)
    requires i < |jobs| && Scan(jobs[..i]) == Return(added)
    ensures PredictRubSalaryHh(jobs[i]).Raise? ==> Scan(jobs[..i + 1]) == Raise(PredictRubSalaryHh(jobs[i]).error)
    ensures PredictRubSalaryHh(jobs[i]) == Return(None) ==> Scan(jobs[..i + 1]) == Return(added)
    ensures PredictRubSalaryHh(jobs[i]).Return? && PredictRubSalaryHh(jobs[i]).value.Some? ==>
              Scan(jobs[..i + 1]) == Return(added + [PredictRubSalaryHh(jobs[i]).value])
  {
    CollectStep(jobs, i, PredictRubSalaryHh, IsNotNone);
    assert added + [] == added;
  }

  /** Scanning page `page` after the pages before it extends the scan of those pages. */
  lemma PageScanned(source: Source, page: nat, before: seq<Option<real>>, added: seq<Option<real>>)
    requires Scan(Jobs(source, page)) == Return(before)
    requires Scan(source(page).items) == Return(added)
    ensures Scan(Jobs(source, page + 1)) == Return(before + added)
  {
    assert Jobs(source, page + 1) == Jobs(source, page) + source(page).items;
    CollectAppend(Jobs(source, page), source(page).items, PredictRubSalaryHh, IsNotNone);
  }

  /**
   The `results` snapshot after processed page `page`: the mean of the salaries so
   far, which only fails on the first page, and then fails the whole fetch.
   */
  lemma PageSummarised(language: string, source: Source, page: nat, stop: nat, salaries: seq<Option<real>>)
    requires page < stop
    requires Scan(Jobs(source, page + 1)) == Return(salaries)
    requires page > 0 ==> Scan(source(0).items).Return? && Scan(source(0).items).value != []
    requires page > 0 ==> salaries != []
    ensures Mean(salaries).Raise? ==> Expected(language, source, stop) == Raise(Mean(salaries).error)
    ensures Mean(salaries).Return? ==> Scan(source(0).items).Return? && Scan(source(0).items).value != []
  {
    assert Jobs(source, 1) == source(0).items by {
      assert Jobs(source, 0) == [];
    }
    CollectKeeps(Jobs(source, page + 1), PredictRubSalaryHh, IsNotNone);
    assert None !in salaries by {
      assert forall k :: 0 <= k < |salaries| ==> IsNotNone(salaries[k]);
    }
  }

  /**
   The state the loop keeps after processing pages `0 .. page - 1`: the
   salaries appended so far, and the last snapshot stored in `results`, whose
   mean did not raise.
   */
  ghost predicate Snapshot(language: string, source: Source, page: nat, salaries: seq<Option<real>>,
                           results: map<string, LanguageStats>)
  {
    && Scan(Jobs(source, page)) == Return(salaries)
    && (page == 0 ==> results == map[])
    && (page > 0 ==>
          && Scan(source(0).items).Return? && Scan(source(0).items).value != []
          && salaries != [] && Mean(salaries).Return?
          && results == map[language := LanguageStats(source(page - 1).found, |salaries|, Mean(salaries).value)])
  }

  /**
   Processing page `page` after the pages before it: an exception raised by one
   of its listings, or by the mean of the salaries so far, is the outcome of the
   whole fetch; otherwise overwriting `results[language]` gives the state after
   that page.
   */
  lemma PageOutcome(language: string, source: Source, page: nat, stop: nat,
                    before: seq<Option<real>>, salaries: seq<Option<real>>, results: map<string, LanguageStats>)
    requires page < stop && Snapshot(language, source, page, before, results)
    requires Scan(source(page).items).Return? ==> salaries == before + Scan(source(page).items).value
    ensures Scan(source(page).items).Raise? ==>
              Expected(language, source, stop) == Raise(Scan(source(page).items).error)
    ensures Scan(source(page).items).Return? && Mean(salaries).Raise? ==>
              Expected(language, source, stop) == Raise(Mean(salaries).error)
    ensures Scan(source(page).items).Return? && Mean(salaries).Return? ==>
              Snapshot(language, source, page + 1, salaries,
                       results[language := LanguageStats(source(page).found, |salaries|, Mean(salaries).value)])
  {
    if Scan(source(page).items).Raise? {
      RaisesOnPage(language, source, page, stop);
    } else {
      PageScanned(source, page, before, Scan(source(page).items).value);
      PageSummarised(language, source, page, stop, salaries);
    }
  }

  /** At the breaking page, the snapshot kept by the loop is what the fetch returns. */
  lemma Completed(language: string, source: Source, stop: nat, salaries: seq<Option<real>>,
                  results: map<string, LanguageStats>)
    requires Snapshot(language, source, stop, salaries, results)
    ensures Expected(language, source, stop) == Return(results)
  {
  }

  /**
   The `for job in jobs` loop of one page: each listing's estimate other than
   None is appended to `salaries` and counted; the first listing whose estimate
   raises ends the loop with that exception.
   */
  method ScanPage(jobs: seq<HhJob>, salaries: seq<Option<real>>, vacanciesProcessed: nat)
    returns (raised: Option<PyError>, salaries': seq<Option<real>>, vacanciesProcessed': nat)
    requires vacanciesProcessed == |salaries|
    ensures raised.Some? <==> Scan(jobs).Raise?
    ensures raised.Some? ==> raised.value == Scan(jobs).error
    ensures raised.None? ==> salaries' == salaries + Scan(jobs).value && vacanciesProcessed' == |salaries'|
  {
    salaries', vacanciesProcessed' := salaries, vacanciesProcessed;
    ghost var added: seq<Option<real>> := [];
    var i := 0;
    while i < |jobs|
      invariant i <= |jobs|
      invariant Scan(jobs[..i]) == Return(added)
      invariant salaries' == salaries + added
      invariant vacanciesProcessed' == |salaries'|
    {
      var estimate := PredictRubSalaryHh(jobs[i]);
      ScanStep(jobs, i, added);
      if estimate.Raise? {
        CollectPrefixRaises(jobs, i + 1, PredictRubSalaryHh, IsNotNone);
        return Some(estimate.error), salaries', vacanciesProcessed';
      }
      if estimate.value.Some? {
        salaries' := salaries' + [estimate.value];
        added := added + [estimate.value];
        vacanciesProcessed' := vacanciesProcessed' + 1;
      }
      i := i + 1;
    }
    assert jobs[..|jobs|] == jobs;
    raised := None;
  }

  /**
   `fetch_jobs_hh(language)`. Every page index from 0 on is fetched in turn;
   the first one at or past the page count that same response reports is
   fetched and then dropped, so a run that does not raise makes `stop + 1`
   requests and processes pages `0 .. stop - 1`. On a server that never
   reports such an index the loop runs until a listing or a mean raises, or
   forever; the method is stated only for servers that do report one.
   */
  method FetchJobsHh(language: string, source: Source)
    returns (r: PyResult<map<string, LanguageStats>>, fetched: seq<nat>, ghost stop: nat)
    requires exists k: nat :: Breaks(source, k)
    ensures StopsAt(source, stop)
    ensures r == Expected(language, source, stop)
    ensures forall i :: 0 <= i < |fetched| ==> fetched[i] == i
    ensures 0 < |fetched| <= stop + 1
    ensures r.Return? ==> |fetched| == stop + 1
    ensures r.Raise? ==> |fetched| <= stop
  {
    ghost var bound: nat :| Breaks(source, bound);
    stop := FirstBreak(source, 0, bound);
    var results: map<string, LanguageStats> := map[];
    var salaries: seq<Option<real>> := [];
    var vacanciesProcessed := 0;
    var page: nat := 0;
    fetched := [];
    while true
      invariant page <= stop
      invariant |fetched| == page && forall i :: 0 <= i < page ==> fetched[i] == i
      invariant vacanciesProcessed == |salaries|
      invariant Snapshot(language, source, page, salaries, results)
      decreases stop - page
    {
      var response := source(page);
      fetched := fetched + [page];
      if page >= response.pages {
        assert Breaks(source, page);
        break;
      }
      ghost var before := salaries;
      var raised;
      raised, salaries, vacanciesProcessed := ScanPage(response.items, salaries, vacanciesProcessed);
      PageOutcome(language, source, page, stop, before, salaries, results);
      if raised.Some? {
        r := Raise(raised.value);
        return;
      }
      var average := Mean(salaries);
      if average.Raise? {
        r := Raise(average.error);
        return;
      }
      results := results[language := LanguageStats(response.found, vacanciesProcessed, average.value)];
      page := page + 1;
    }
    assert page == stop;
    Completed(language, source, stop, salaries, results);
    r := Return(results);
  }

  /**
   The dictionary a fetch returns: empty when no page is processed; otherwise it
   holds only `language`, whose `vacancies_found` is the last processed page's
   `found` (not a sum), whose `vacancies_processed` counts exactly the examined
   listings with an estimate other than None, and whose `average_salary` is the
   mean of the estimates of all processed pages.
   */
  lemma Statistics(language: string, source: Source, stop: nat, m: map<string, LanguageStats>)
    requires Expected(language, source, stop) == Return(m)
    ensures stop == 0 <==> m == map[]
    ensures stop > 0 ==> m.Keys == {language}
    ensures stop > 0 ==> m[language].vacanciesFound == source(stop - 1).found
    ensures stop > 0 ==> Scan(Jobs(source, stop)).Return?
    ensures stop > 0 ==> m[language].vacanciesProcessed == CountKept(Jobs(source, stop), PredictRubSalaryHh, IsNotNone)
    ensures stop > 0 ==> 0 < m[language].vacanciesProcessed <= |Jobs(source, stop)|
    ensures stop > 0 ==> Mean(Scan(Jobs(source, stop)).value) == Return(m[language].averageSalary)
  {
    if stop > 0 {
      SummaryReturns(language, Scan(source(0).items), Scan(Jobs(source, stop)), source(stop - 1).found, m);
      CollectCount(Jobs(source, stop), PredictRubSalaryHh, IsNotNone);
      assert language in m;
    }
  }

  /**
   `statistics.mean` raises exactly when pages are processed and the first of
   them yields no estimate; on later pages the salary list is never empty.
   */
  lemma StatisticsErrorIff(language: string, source: Source, stop: nat)
    ensures Expected(language, source, stop) == Raise(StatisticsError) <==>
            stop > 0 && Scan(source(0).items) == Return([])
  {
    if stop > 0 {
      var first := Scan(source(0).items);
      var all := Scan(Jobs(source, stop));
      ScanJobsSplit(source, 1, stop);
      assert Jobs(source, 1) == source(0).items by {
        assert Jobs(source, 0) == [];
      }
      if first.Raise? {
        CollectRaisedBy(source(0).items, PredictRubSalaryHh, IsNotNone);
        var i :| 0 <= i < |source(0).items| && PredictRubSalaryHh(source(0).items[i]) == Raise(first.error);
      } else if first.value != [] && all.Raise? {
        var jobs := Jobs(source, stop);
        CollectRaisedBy(jobs, PredictRubSalaryHh, IsNotNone);
        var i :| 0 <= i < |jobs| && PredictRubSalaryHh(jobs[i]) == Raise(all.error);
      }
    }
  }

  /**
   A server that reports the same number of pages `p` on every page makes the
   loop stop at page `p`: a fetch that does not raise processes pages
   `0 .. p - 1` and fetches page `p` as well, `p + 1` requests in all.
   */
  lemma ConstantPagesStopsAt(source: Source, p: nat)
    requires forall k: nat :: source(k).pages == p
    ensures StopsAt(source, p)
  {
  }
}

/**
 `fetch_jobs_sj`: walks the result pages of the SuperJob vacancies search for
 one language up to a fixed cap of pages. The HTTP request (and with it the
 credentials that go into its headers) is replaced by `source`, the page the
 server answers for each index.
 */
module SuperJob {
  import opened Py
  import opened Salary
  import opened Aggregation

  /** The fixed number of pages the loop requests. */
  const MaxPageAmount: nat := 25

  /** The fields of one search response that the fetcher reads. */
  datatype Page = Page(total: int, objects: seq<SjJob>)

  /** The server's answer for every page index. */
  type Source = nat -> Page

  /** The listings of pages `0 .. n - 1`, in the order they are examined. */
  function Jobs(source: Source, n: nat): seq<SjJob> {
    if n == 0 then [] else Jobs(source, n - 1) + source(n - 1).objects
  }

  /** The listings of fewer pages are a prefix of those of more pages. */
  lemma {:induction false} JobsPrefix(source: Source, n: nat, m: nat)
    requires n <= m
    ensures |Jobs(source, n)| <= |Jobs(source, m)|
    ensures Jobs(source, m) == Jobs(source, n) + Jobs(source, m)[|Jobs(source, n)|..]
  {
    if n < m {
      JobsPrefix(source, n, m - 1);
      var a, b := Jobs(source, m - 1), source(m - 1).objects;
      assert Jobs(source, m) == a + b;
      assert (a + b)[..|Jobs(source, n)|] == a[..|Jobs(source, n)|];
    }
  }

  /**
   The estimates the inner loop appends for a run of SuperJob listings. The
   Python code's test is `not predict_rub_salary_sj(job)`, so what is kept, and
   counted, is the falsy estimates: `None` and `0.0`.
   */
  function Scan(jobs: seq<SjJob>): PyResult<seq<Option<real>>> {
    Collect(jobs, PredictRubSalarySj, IsFalsy)
  }

  /** Scanning more pages is scanning fewer pages, then the rest. */
  lemma ScanJobsSplit(source: Source, n: nat, m: nat)
    requires n <= m
    ensures |Jobs(source, n)| <= |Jobs(source, m)|
    ensures Scan(Jobs(source, m)) == Then(Scan(Jobs(source, n)), Scan(Jobs(source, m)[|Jobs(source, n)|..]))
  {
    JobsPrefix(source, n, m);
    CollectAppend(Jobs(source, n), Jobs(source, m)[|Jobs(source, n)|..], PredictRubSalarySj, IsFalsy);
  }

  /** The only exception a SuperJob scan can raise is `int(None)`'s TypeError. */
  lemma ScanRaisesTypeError(jobs: seq<SjJob>)
    requires Scan(jobs).Raise?
    ensures Scan(jobs).error == TypeError
  {
    CollectRaisedBy(jobs, PredictRubSalarySj, IsFalsy);
  }

  /**
   What `fetch_jobs_sj` returns (or raises) when it processes pages
   `0 .. n - 1`: no entry when no page is processed, otherwise the summary of
   those pages, with `total` taken from the last of them.
   */
  function Expected(language: string, source: Source, n: nat): PyResult<map<string, LanguageStats>> {
    if n == 0 then Return(map[])
    else Summary(language, Scan(source(0).objects), Scan(Jobs(source, n)), source(n - 1).total)
  }

  /** A listing on processed page `page` raises: so does the whole fetch, with that exception. */
  lemma RaisesOnPage(language: string, source: Source, page: nat, n: nat)
    requires page < n
    requires Scan(Jobs(source, page)).Return?
    requires page > 0 ==> Scan(source(0).objects).Return? && Scan(source(0).objects).value != []
    requires Scan(source(page).objects).Raise?
    ensures Expected(language, source, n) == Raise(Scan(source(page).objects).error)
  {
    var objects := source(page).objects;
    var e := Scan(objects).error;
    assert Scan(Jobs(source, page + 1)) == Raise(e) by {
      assert Jobs(source, page + 1) == Jobs(source, page) + objects;
      CollectAppend(Jobs(source, page), objects, PredictRubSalarySj, IsFalsy);
    }
    assert Scan(Jobs(source, n)) == Raise(e) by {
      ScanJobsSplit(source, page + 1, n);
    }
    if page == 0 {
      assert Scan(source(0).objects) == Raise(e);
    }
  }

  /** One step of the inner loop: the listing at index `i` is examined after `jobs[..i]`. */
  lemma ScanStep(jobs: seq<SjJob>, i: nat, added: seq<Option<real>>)
    requires i < |jobs| && Scan(jobs[..i]) == Return(added)
    ensures PredictRubSalarySj(jobs[i]).Raise? ==> Scan(jobs[..i + 1]) == Raise(PredictRubSalarySj(jobs[i]).error)
    ensures PredictRubSalarySj(jobs[i]).Return? && !IsFalsy(PredictRubSalarySj(jobs[i]).value) ==>
              Scan(jobs[..i + 1]) == Return(added)
    ensures PredictRubSalarySj(jobs[i]).Return? && IsFalsy(PredictRubSalarySj(jobs[i]).value) ==>
              Scan(jobs[..i + 1]) == Return(added + [PredictRubSalarySj(jobs[i]).value])
  {
    CollectStep(jobs, i, PredictRubSalarySj, IsFalsy);
    assert added + [] == added;
  }

  /** Scanning page `page` after the pages before it extends the scan of those pages. */
  lemma PageScanned(source: Source, page: nat, before: seq<Option<real>>, added: seq<Option<real>>)
    requires Scan(Jobs(source, page)) == Return(before)
    requires Scan(source(page).objects) == Return(added)
    ensures Scan(Jobs(source, page + 1)) == Return(before + added)
  {
    assert Jobs(source, page + 1) == Jobs(source, page) + source(page).objects;
    CollectAppend(Jobs(source, page), source(page).objects, PredictRubSalarySj, IsFalsy);
  }

  /**
   The `results` snapshot after processed page `page`: the mean of the salaries
   so far fails on an empty first page, or on a `None` kept on any page, and
   then fails the whole fetch.
   */
  lemma PageSummarised(language: string, source: Source, page: nat, n: nat, salaries: seq<Option<real>>)
    requires page < n
    requires Scan(Jobs(source, page + 1)) == Return(salaries)
    requires page > 0 ==> Scan(source(0).objects).Return? && Scan(source(0).objects).value != []
    requires page > 0 ==> salaries != []
    ensures Mean(salaries).Raise? ==> Expected(language, source, n) == Raise(Mean(salaries).error)
    ensures Mean(salaries).Return? ==> Scan(source(0).objects).Return? && Scan(source(0).objects).value != []
  {
    assert Jobs(source, 1) == source(0).objects by {
      assert Jobs(source, 0) == [];
    }
    if salaries != [] && None in salaries {
      ScanJobsSplit(source, page + 1, n);
      var rest := Scan(Jobs(source, n)[|Jobs(source, page + 1)|..]);
      if rest.Raise? {
        ScanRaisesTypeError(Jobs(source, n)[|Jobs(source, page + 1)|..]);
      } else {
        MeanOfExtendedNone(salaries, rest.value);
      }
    }
  }

  /**
   The state the loop keeps after processing pages `0 .. page - 1`: the
   salaries appended so far, and the last snapshot stored in `results`, whose
   mean did not raise.
   */
  ghost predicate Snapshot(language: string, source: Source, page: nat, salaries: seq<Option<real>>,
                           results: map<string, LanguageStats>)
  {
    && Scan(Jobs(source, page)) == Return(salaries)
    && (page == 0 ==> results == map[])
    && (page > 0 ==>
          && Scan(source(0).objects).Return? && Scan(source(0).objects).value != []
          && salaries != [] && Mean(salaries).Return?
          && results == map[language := LanguageStats(source(page - 1).total, |salaries|, Mean(salaries).value)])
  }

  /**
   Processing page `page` after the pages before it: an exception raised by one
   of its listings, or by the mean of the salaries so far, is the outcome of the
   whole fetch; otherwise overwriting `results[language]` gives the state after
   that page.
   */
  lemma PageOutcome(language: string, source: Source, page: nat, n: nat,
                    before: seq<Option<real>>, salaries: seq<Option<real>>, results: map<string, LanguageStats>)
    requires page < n && Snapshot(language, source, page, before, results)
    requires Scan(source(page).objects).Return? ==> salaries == before + Scan(source(page).objects).value
    ensures Scan(source(page).objects).Raise? ==>
              Expected(language, source, n) == Raise(Scan(source(page).objects).error)
    ensures Scan(source(page).objects).Return? && Mean(salaries).Raise? ==>
              Expected(language, source, n) == Raise(Mean(salaries).error)
    ensures Scan(source(page).objects).Return? && Mean(salaries).Return? ==>
              Snapshot(language, source, page + 1, salaries,
                       results[language := LanguageStats(source(page).total, |salaries|, Mean(salaries).value)])
  {
    if Scan(source(page).objects).Raise? {
      RaisesOnPage(language, source, page, n);
    } else {
      PageScanned(source, page, before, Scan(source(page).objects).value);
      PageSummarised(language, source, page, n, salaries);
    }
  }

  /** After the last page, the snapshot kept by the loop is what the fetch returns. */
  lemma Completed(language: string, source: Source, n: nat, salaries: seq<Option<real>>,
                  results: map<string, LanguageStats>)
    requires Snapshot(language, source, n, salaries, results)
    ensures Expected(language, source, n) == Return(results)
  {
  }

  /**
   The `for job in jobs` loop of one page: each falsy estimate is appended to
   `salaries` and counted; the first listing whose estimate raises ends the
   loop with that exception.
   */
  method ScanPage(jobs: seq<SjJob>, salaries: seq<Option<real>>, vacanciesProcessed: nat)
    returns (raised: Option<PyError>, salaries': seq<Option<real>>, vacanciesProcessed': nat)
    requires vacanciesProcessed == |salaries|
    ensures raised.Some? <==> Scan(jobs).Raise?
    ensures raised.Some? ==> raised.value == Scan(jobs).error
    ensures raised.None? ==> salaries' == salaries + Scan(jobs).value && vacanciesProcessed' == |salaries'|
  {
    salaries', vacanciesProcessed' := salaries, vacanciesProcessed;
    ghost var added: seq<Option<real>> := [];
    var i := 0;
    while i < |jobs|
      invariant i <= |jobs|
      invariant Scan(jobs[..i]) == Return(added)
      invariant salaries' == salaries + added
      invariant vacanciesProcessed' == |salaries'|
    {
      var estimate := PredictRubSalarySj(jobs[i]);
      ScanStep(jobs, i, added);
      if estimate.Raise? {
        CollectPrefixRaises(jobs, i + 1, PredictRubSalarySj, IsFalsy);
        return Some(estimate.error), salaries', vacanciesProcessed';
      }
      if IsFalsy(estimate.value) {
        salaries' := salaries' + [estimate.value];
        added := added + [estimate.value];
        vacanciesProcessed' := vacanciesProcessed' + 1;
      }
      i := i + 1;
    }
    assert jobs[..|jobs|] == jobs;
    raised := None;
  }

  /**
   `fetch_jobs_sj(secret_key, access_token, language)`. The page index is
   checked against the cap before each request, so a run that does not raise
   requests exactly pages `0 .. MaxPageAmount - 1` and never a page past the
   cap, however many results the server has.
   */
  method FetchJobsSj(language: string, source: Source)
    returns (r: PyResult<map<string, LanguageStats>>, fetched: seq<nat>)
    ensures r == Expected(language, source, MaxPageAmount)
    ensures forall i :: 0 <= i < |fetched| ==> fetched[i] == i
    ensures |fetched| <= MaxPageAmount
    ensures r.Return? ==> |fetched| == MaxPageAmount
  {
    var results: map<string, LanguageStats> := map[];
    var salaries: seq<Option<real>> := [];
    var vacanciesProcessed := 0;
    var page: nat := 0;
    fetched := [];
    while true
      invariant page <= MaxPageAmount
      invariant |fetched| == page && forall i :: 0 <= i < page ==> fetched[i] == i
      invariant vacanciesProcessed == |salaries|
      invariant Snapshot(language, source, page, salaries, results)
      decreases MaxPageAmount - page
    {
      if page >= MaxPageAmount {
        break;
      }
      var response := source(page);
      fetched := fetched + [page];
      ghost var before := salaries;
      var raised;
      raised, salaries, vacanciesProcessed := ScanPage(response.objects, salaries, vacanciesProcessed);
      PageOutcome(language, source, page, MaxPageAmount, before, salaries, results);
      if raised.Some? {
        r := Raise(raised.value);
        return;
      }
      var average := Mean(salaries);
      if average.Raise? {
        r := Raise(average.error);
        return;
      }
      results := results[language := LanguageStats(response.total, vacanciesProcessed, average.value)];
      page := page + 1;
    }
    Completed(language, source, MaxPageAmount, salaries, results);
    r := Return(results);
  }

  /**
   The dictionary a fetch over `n` pages returns: empty when no page is
   processed; otherwise it holds only `language`, whose `vacancies_found` is the
   last page's `total` (not a sum), whose `vacancies_processed` counts exactly
   the examined listings with a falsy estimate, and whose `average_salary` is
   the mean of those estimates, which is always 0: a kept `None` makes the mean
   raise, so every kept estimate is `0.0`.
   */
  lemma Statistics(language: string, source: Source, n: nat, m: map<string, LanguageStats>)
    requires Expected(language, source, n) == Return(m)
    ensures n == 0 <==> m == map[]
    ensures n > 0 ==> m.Keys == {language}
    ensures n > 0 ==> m[language].vacanciesFound == source(n - 1).total
    ensures n > 0 ==> Scan(Jobs(source, n)).Return?
    ensures n > 0 ==> m[language].vacanciesProcessed == CountKept(Jobs(source, n), PredictRubSalarySj, IsFalsy)
    ensures n > 0 ==> 0 < m[language].vacanciesProcessed <= |Jobs(source, n)|
    ensures n > 0 ==> Mean(Scan(Jobs(source, n)).value) == Return(m[language].averageSalary)
    ensures n > 0 ==> forall i :: 0 <= i < |Scan(Jobs(source, n)).value| ==> Scan(Jobs(source, n)).value[i] == Some(0.0)
    ensures n > 0 ==> m[language].averageSalary == 0.0
  {
    if n > 0 {
      var jobs := Jobs(source, n);
      SummaryReturns(language, Scan(source(0).objects), Scan(jobs), source(n - 1).total, m);
      CollectCount(jobs, PredictRubSalarySj, IsFalsy);
      CollectKeeps(jobs, PredictRubSalarySj, IsFalsy);
      var s := Scan(jobs).value;
      assert forall i :: 0 <= i < |s| ==> s[i] == Some(0.0) by {
        forall i | 0 <= i < |s| ensures s[i] == Some(0.0) {
          assert IsFalsy(s[i]);
          assert s[i] != None;
        }
      }
      MeanOfConstant(s, 0.0);
      assert language in m;
    }
  }

  /** Whatever the server answers, the fetch raises or returns an average of 0. */
  lemma AverageIsZero(language: string, source: Source)
    requires Expected(language, source, MaxPageAmount).Return?
    ensures language in Expected(language, source, MaxPageAmount).value
    ensures Expected(language, source, MaxPageAmount).value[language].averageSalary == 0.0
  {
    Statistics(language, source, MaxPageAmount, Expected(language, source, MaxPageAmount).value);
  }

  /**
   `statistics.mean` raises StatisticsError exactly when pages are processed
   and the first of them keeps no estimate; every other failure is a TypeError.
   */
  lemma StatisticsErrorIff(language: string, source: Source, n: nat)
    ensures Expected(language, source, n) == Raise(StatisticsError) <==>
            n > 0 && Scan(source(0).objects) == Return([])
    ensures Expected(language, source, n).Raise? ==>
              Expected(language, source, n).error == StatisticsError || Expected(language, source, n).error == TypeError
  {
    if n > 0 {
      var first := Scan(source(0).objects);
      var all := Scan(Jobs(source, n));
      ScanJobsSplit(source, 1, n);
      assert Jobs(source, 1) == source(0).objects by {
        assert Jobs(source, 0) == [];
      }
      if first.Raise? {
        ScanRaisesTypeError(source(0).objects);
      } else if first.value != [] && all.Raise? {
        ScanRaisesTypeError(Jobs(source, n));
      }
    }
  }
}

# parsing_from_hh in Dafny

`main.py` collects programming-job vacancies for a fixed list of languages
from two job boards, HeadHunter and SuperJob. For each listing it estimates one
rouble salary from the listing's lower and upper bounds. For each language it
records how many vacancies the board reports, how many listings it used, and
the average estimate. It then prints one table per board.

This project models the core of that script:

- the three salary estimators, as pure functions over JSON-like values (module `Salary`);
- the two page-walking fetchers, as imperative methods with loop invariants (modules `HeadHunter` and `SuperJob`);
- the row assembly of `make_table`, as a method with nested loops (module `Report`);
- the accumulation shared by both fetchers, as declarative functions (module `Aggregation`);
- the Python value semantics they rely on (module `Py`):
  - `None` is `Option`;
  - an exception is a `Raise` variant of `PyResult`;
  - truthiness of numbers is modelled;
  - `statistics.mean` raises on an empty list and on a list holding `None`.

Each fetcher method is proved equal to a declarative function `Expected` of its
page source. That function is built from `Aggregation.Collect`, the estimates a
run of listings appends to `salaries`, and from `Aggregation.Summary`, the
dictionary left by the last snapshot. Lemmas about `Expected` then state what
the script promises about the dictionary it returns.

The model keeps the code's quirks:

- The third branch of `predict_salary` cannot be reached, so an estimate is never `None`.
- When the lower bound is falsy and the upper one is `None`, `int(None)` raises `TypeError`. An upper bound of 0 gives 0.0.
- A HeadHunter listing without a `salary` object makes `.get` fail on `None` (`AttributeError`).
- `predict_rub_salary_sj` returns `None` for a listing with two truthy bounds. The SuperJob loop then keeps that `None` (see below).
- The SuperJob loop keeps the *falsy* estimates (`if not predict_rub_salary_sj(job)`). This has two consequences:
  - a successful SuperJob fetch always reports an average salary of 0 (`SuperJob.AverageIsZero`);
  - a kept `None` makes the mean raise `TypeError`.
- HeadHunter requests one page more than it processes: the page that triggers the `break` is fetched, but its listings are never examined.
- `statistics.mean` runs after every processed page. A first page that keeps no estimate therefore raises `StatisticsError`: for example, a HeadHunter first page whose listings are all in a foreign currency, or a SuperJob first page whose estimates are all truthy (`HeadHunter.StatisticsErrorIff`, `SuperJob.StatisticsErrorIff`).

Two consequences of the code are worth stating on their own:

- A HeadHunter server that reports 3 pages is sent 4 requests by a fetch that does not raise. Page 3 is fetched only to trigger the `break` (`HeadHunter.ConstantPagesStopsAt`, `HeadHunter.FetchJobsHh`).
- `statistics.mean` of an empty salary list raises `StatisticsError`. Nothing falls back to a default (`HeadHunter.StatisticsErrorIff`, `SuperJob.StatisticsErrorIff`).

The page sources are total functions from page index to page, of type `nat -> Page`. The method returns the sequence of page indices it requested, `fetched`, so the number of requests is part of its contract.

## Model

| member | source | states |
|---|---|---|
| Py.Mean | main.py:82 | `statistics.mean` raises StatisticsError exactly on an empty list, and TypeError exactly when a `None` is among the values |
| Py.MeanOfExtendedNone | main.py:113 | once the salary list holds a `None`, the mean raises TypeError however many values are appended later |
| Py.SumOfConstant | main.py:113 | a list holding `c` in every position sums to `c` times its length |
| Py.MeanOfConstant | main.py:113 | the mean of a non-empty list holding `c` in every position is `c`; this gives the SuperJob average of 0 |
| Salary.PredictSalary | main.py:11-19 | raises TypeError exactly when the lower bound is falsy and the upper one is `None`; both truthy gives `(from + to) / 2`; only `from` truthy gives `from * 1.2`; `from` falsy gives `to * 0.8` (0 when `to` is 0); a returned estimate is never `None` |
| Salary.PredictSalaryWithinRange | main.py:18-19 | with two nonzero ordered bounds, the estimate lies between them |
| Salary.PredictRubSalaryHh | main.py:22-27 | a missing `salary` object raises AttributeError; it returns `None` exactly when the currency is not "RUR", whatever the bounds; otherwise it equals `predict_salary(from, to)` |
| Salary.PredictRubSalarySj | main.py:30-38 | it returns `None` exactly when the currency is not "rub" or both payment bounds are truthy; otherwise it equals `predict_salary(payment_from, payment_to)`; it raises only TypeError |
| Salary.SjFalsyEstimate | main.py:30-38 | a SuperJob estimate is falsy exactly for a foreign currency, for a listing with two truthy bounds, and for a rouble listing with a falsy lower bound and an upper bound of 0 |
| Aggregation.Collect | main.py:75-78 | a completed scan keeps at most one estimate per listing |
| Aggregation.CollectKeeps | main.py:76-77 | every estimate a completed scan appends passes the loop's filter |
| Aggregation.CollectRaisedBy | main.py:75-77 | a scan that raises passes on the exception of one of its listings |
| Aggregation.CollectAppend | main.py:63-78 | scanning the listings of several pages is scanning each page in turn; the first exception wins |
| Aggregation.CollectStep | main.py:75-78 | one pass of the inner loop extends the scan of the listings before it by the current listing's contribution |
| Aggregation.CollectPrefixRaises | main.py:75-77 | once a listing raises, the rest of the listings do not change the outcome |
| Aggregation.CollectCount | main.py:75-78 | the number of appended estimates equals the number of listings whose estimate is returned and accepted, hence at most the number of listings |
| Aggregation.SummaryReturns | main.py:79-84 | a fetch that returns after processing pages holds only `language`, with the last page's count, one processed vacancy per appended estimate, and their mean |
| HeadHunter.FirstBreak | main.py:63-73 | the search from page `i` finds the first page at or after `i` that reports no more pages than its own index |
| HeadHunter.StopsAtUnique | main.py:72-73 | the page at which the loop stops is unique |
| HeadHunter.JobsPrefix | main.py:63-75 | the listings of the first `n` pages are a prefix of those of the first `m >= n` pages |
| HeadHunter.ScanJobsSplit | main.py:63-78 | the scan of the first `m` pages is the scan of the first `n` pages followed by that of the remaining ones |
| HeadHunter.RaisesOnPage | main.py:75-77 | an exception from a listing on a processed page is the exception of the whole fetch |
| HeadHunter.ScanStep | main.py:75-78 | one listing: a raised estimate ends the scan, `None` appends nothing, any other estimate is appended |
| HeadHunter.PageScanned | main.py:75-78 | a page's listings extend the salaries of the pages before it |
| HeadHunter.PageSummarised | main.py:79-83 | a mean that raises in the snapshot after a page is the outcome of the whole fetch |
| HeadHunter.PageOutcome | main.py:74-83 | processing one page: an exception from its listings or from the mean is the outcome of the whole fetch; otherwise overwriting `results[language]` keeps the loop's snapshot state for one more page |
| HeadHunter.Completed | main.py:72-84 | after the loop ends, the snapshot held in `results` is the declared outcome |
| HeadHunter.ScanPage | main.py:75-78 | the inner loop appends exactly the scan of the page's listings to `salaries`, with `vacancies_processed == len(salaries)`, or raises that scan's exception |
| HeadHunter.FetchJobsHh | main.py:57-84 | the fetch returns or raises `Expected` over the pages `0 .. k-1`, where `k` is the first page whose own `pages` is at most `k`; it requests pages `0, 1, ...` in order, exactly `k + 1` of them when it returns and at most `k` when it raises |
| HeadHunter.Statistics | main.py:60-84 | with no processed page the dictionary is empty; otherwise it holds only `language`, with the last page's `found` (not a sum), `vacancies_processed` equal to the number of listings with a non-`None` estimate (at least 1, at most the number of examined listings), and `average_salary` the mean of those estimates |
| HeadHunter.StatisticsErrorIff | main.py:79-83 | the fetch raises StatisticsError exactly when pages are processed and the first of them yields no estimate |
| HeadHunter.ConstantPagesStopsAt | main.py:63-73 | a server reporting `p` pages on every page makes `p` the first page at which the loop breaks; with `HeadHunter.StopsAtUnique` and the request count of `HeadHunter.FetchJobsHh`, a fetch that returns has then made `p + 1` requests |
| SuperJob.JobsPrefix | main.py:94-106 | the listings of the first `n` pages are a prefix of those of the first `m >= n` pages |
| SuperJob.ScanJobsSplit | main.py:94-109 | the scan of the first `m` pages is the scan of the first `n` pages followed by that of the remaining ones |
| SuperJob.ScanRaisesTypeError | main.py:106-108 | the only exception a SuperJob scan raises is TypeError |
| SuperJob.RaisesOnPage | main.py:106-108 | an exception from a listing on a processed page is the exception of the whole fetch |
| SuperJob.ScanStep | main.py:106-109 | one listing: a raised estimate ends the scan, a truthy estimate appends nothing, a falsy one is appended |
| SuperJob.PageScanned | main.py:106-109 | a page's listings extend the salaries of the pages before it |
| SuperJob.PageSummarised | main.py:110-114 | a mean that raises in the snapshot after a page, on an empty first page or once a `None` has been appended, is the outcome of the whole fetch |
| SuperJob.PageOutcome | main.py:105-114 | processing one page: an exception from its listings or from the mean is the outcome of the whole fetch; otherwise overwriting `results[language]` keeps the loop's snapshot state for one more page |
| SuperJob.Completed | main.py:94-115 | after the 25th page, the snapshot held in `results` is the declared outcome |
| SuperJob.ScanPage | main.py:106-109 | the inner loop appends exactly the falsy estimates of the page's listings to `salaries`, with `vacancies_processed == len(salaries)`, or raises that scan's exception |
| SuperJob.FetchJobsSj | main.py:87-115 | the fetch returns or raises `Expected` over pages `0 .. 24`; it requests pages `0, 1, ...` in order, never a page index of 25 or more, and all 25 when it returns |
| SuperJob.Statistics | main.py:88-115 | with no processed page the dictionary is empty; otherwise it holds only `language`, with the last page's `total`, `vacancies_processed` equal to the number of listings with a falsy estimate (at least 1, at most the number examined), every appended estimate `0.0`, and `average_salary` their mean, 0 |
| SuperJob.AverageIsZero | main.py:107-113 | a SuperJob fetch that returns reports an average salary of 0 for its language |
| SuperJob.StatisticsErrorIff | main.py:110-114 | the fetch raises StatisticsError exactly when the first page keeps no estimate; any other exception is TypeError |
| Report.Row | main.py:48-51 | a language's row has the header's width, starts with the language name and continues with the values of its statistics, in order |
| Report.MakeTable | main.py:41-52 | raises AttributeError exactly when some entry's statistics are `None`; otherwise the table is the header row followed by one row per entry, in entry order |

## Left out

- HTTP requests, `raise_for_status` and JSON decoding (main.py:69-71, 102-104). They are network I/O. Each fetcher takes a page source in their place, and a failed request is not modelled.
- The search parameters, the request headers and the SuperJob credentials (`secret_key`, `access_token`). They only shape the request. `FetchJobsSj` takes only the language.
- Loading the credentials from the environment (`load_dotenv`, `os.getenv`). This is environment I/O.
- The `AsciiTable` rendering and the `title` argument of `make_table` (main.py:53-54). They belong to a foreign library. `MakeTable` returns the list of rows.
- The `__main__` driver (main.py:118-137). It is glue only. As written it raises TypeError at the first `fetch_jobs_sj` call (main.py:131-135), after one `fetch_jobs_hh` run, because that call passes `popular_lang=` instead of `language=`. The `results` argument of `MakeTable` is a list of `(language, statistics or None)` pairs, because that is what the driver would build with `.get(language)`.
- Floating point. The estimates and the mean are exact reals, so IEEE rounding of `* 0.8`, `* 1.2`, `/ 2` and `statistics.mean` is not modelled.
- `int()` applied to numeric strings and its `ValueError`. Bounds are integers or `None`. So are the `pages`, `found` and `total` fields, which the model assumes are present. The model also assumes `items` and `objects` are present and are lists. In the Python code a missing one makes `for job in None` raise TypeError (main.py:75, main.py:106); the model does not cover that.
- `FetchJobsHh` requires that some page reports no more pages than its own index. On a server that never does, the Python code loops forever unless a listing or a mean raises first. The model covers no run on such a server, including the runs that end with an exception, for example a server reporting `k + 1` pages on every page `k` with an empty page 0, where the first mean raises StatisticsError after one request.
- `ScanPage` (both modules) calls the estimator once per listing. The Python code calls it a second time for the value it appends. Because the estimator is pure, this makes no difference.
- `Report.MakeTable` writes dictionary iteration order as a sequence of entries. A statistics dictionary is a record whose values come in insertion order. Duplicate language keys are not excluded.

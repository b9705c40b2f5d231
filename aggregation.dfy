/**
 What both vacancy fetchers share: the per-language statistics record, the
 list of estimates a page of listings contributes to `salaries`, and the
 outcome one fetch must have once all its pages are known.
 */
module Aggregation {
  import opened Py

  /** The dictionary stored under `results[language]`, keys in insertion order. */
  datatype LanguageStats = LanguageStats(vacanciesFound: int, vacanciesProcessed: int, averageSalary: real)

  /**
   The estimates that scanning `jobs` in order appends to `salaries`: each
   listing's estimate, kept when `keep` accepts it; the scan stops at the first
   listing whose estimate raises.
   */
  function Collect<J>(jobs: seq<J>, estimate: J -> PyResult<Option<real>>, keep: Option<real> -> bool)
    : (r: PyResult<seq<Option<real>>>)
    ensures r.Return? ==> |r.value| <= |jobs|
  {
    if jobs == [] then Return([])
    else
      match estimate(jobs[0])
      case Raise(e) => Raise(e)
      case Return(x) =>
        match Collect(jobs[1..], estimate, keep)
        case Raise(e) => Raise(e)
        case Return(rest) =>
          Return((if keep(x) then [x] else []) + rest)
  }

  /** Every estimate a completed scan keeps passes the filter. */
  lemma {:induction false} CollectKeeps<J>(jobs: seq<J>, estimate: J -> PyResult<Option<real>>, keep: Option<real> -> bool)
    requires Collect(jobs, estimate, keep).Return?
    ensures forall i :: 0 <= i < |Collect(jobs, estimate, keep).value| ==> keep(Collect(jobs, estimate, keep).value[i])
  {
    if jobs != [] {
      CollectKeeps(jobs[1..], estimate, keep);
    }
  }

  /** A scan that raises passes on the exception of one of the listings. */
  lemma {:induction false} CollectRaisedBy<J>(jobs: seq<J>, estimate: J -> PyResult<Option<real>>, keep: Option<real> -> bool)
    requires Collect(jobs, estimate, keep).Raise?
    ensures exists i :: 0 <= i < |jobs| && estimate(jobs[i]) == Raise(Collect(jobs, estimate, keep).error)
  {
    if estimate(jobs[0]).Return? {
      CollectRaisedBy(jobs[1..], estimate, keep);
      var i :| 0 <= i < |jobs[1..]| && estimate(jobs[1..][i]) == Raise(Collect(jobs[1..], estimate, keep).error);
      assert jobs[1..][i] == jobs[i + 1];
    }
  }

  /** Running two scans one after the other: the first exception wins. */
  function Then(first: PyResult<seq<Option<real>>>, second: PyResult<seq<Option<real>>>)
    : PyResult<seq<Option<real>>>
  {
    match first
    case Raise(e) => Raise(e)
    case Return(s) =>
      match second
      case Raise(e) => Raise(e)
      case Return(t) => Return(s + t)
  }

  /** Scanning a concatenation is scanning its two parts in turn. */
  lemma {:induction false} CollectAppend<J>(a: seq<J>, b: seq<J>,
                                            estimate: J -> PyResult<Option<real>>,
                                            keep: Option<real> -> bool)
    ensures Collect(a + b, estimate, keep) == Then(Collect(a, estimate, keep), Collect(b, estimate, keep))
  {
    if a == [] {
      assert a + b == b;
      match Collect(b, estimate, keep)
      case Raise(e) =>
      case Return(t) => assert [] + t == t;
    } else {
      assert (a + b)[0] == a[0];
      assert (a + b)[1..] == a[1..] + b;
      CollectAppend(a[1..], b, estimate, keep);
      match estimate(a[0])
      case Raise(e) =>
      case Return(x) =>
        var kept := if keep(x) then [x] else [];
        match Collect(a[1..], estimate, keep)
        case Raise(e) =>
        case Return(rest) =>
          match Collect(b, estimate, keep)
          case Raise(e) =>
          case Return(t) =>
            assert kept + (rest + t) == (kept + rest) + t;
    }
  }

  /** One step of the scan: the listing at index `i` is examined after `jobs[..i]`. */
  lemma CollectStep<J>(jobs: seq<J>, i: nat, estimate: J -> PyResult<Option<real>>, keep: Option<real> -> bool)
    requires i < |jobs|
    ensures Collect(jobs[..i + 1], estimate, keep) ==
            Then(Collect(jobs[..i], estimate, keep),
                 match estimate(jobs[i])
                 case Raise(e) => Raise(e)
                 case Return(x) => Return(if keep(x) then [x] else []))
  {
    assert jobs[..i + 1] == jobs[..i] + [jobs[i]];
    CollectAppend(jobs[..i], [jobs[i]], estimate, keep);
    assert [jobs[i]][1..] == [];
    match estimate(jobs[i])
    case Raise(e) =>
    case Return(x) =>
      var kept := if keep(x) then [x] else [];
      assert Collect([jobs[i]], estimate, keep) == Return(kept + []);
      assert kept + [] == kept;
  }

  /** When a prefix of the listings already raises, the whole scan raises the same. */
  lemma CollectPrefixRaises<J>(jobs: seq<J>, i: nat, estimate: J -> PyResult<Option<real>>, keep: Option<real> -> bool)
    requires i <= |jobs| && Collect(jobs[..i], estimate, keep).Raise?
    ensures Collect(jobs, estimate, keep) == Collect(jobs[..i], estimate, keep)
  {
    assert jobs == jobs[..i] + jobs[i..];
    CollectAppend(jobs[..i], jobs[i..], estimate, keep);
  }

  /** The number of listings whose estimate is returned and accepted by `keep`. */
  function CountKept<J>(jobs: seq<J>, estimate: J -> PyResult<Option<real>>, keep: Option<real> -> bool): nat {
    if jobs == [] then 0
    else (if estimate(jobs[0]).Return? && keep(estimate(jobs[0]).value) then 1 else 0)
         + CountKept(jobs[1..], estimate, keep)
  }

  /** A completed scan keeps one estimate per accepted listing, hence at most one per listing. */
  lemma {:induction false} CollectCount<J>(jobs: seq<J>, estimate: J -> PyResult<Option<real>>, keep: Option<real> -> bool)
    requires Collect(jobs, estimate, keep).Return?
    ensures |Collect(jobs, estimate, keep).value| == CountKept(jobs, estimate, keep) <= |jobs|
  {
    if jobs != [] {
      CollectCount(jobs[1..], estimate, keep);
    }
  }

  /**
   The dictionary a fetch returns after processing at least one page, given the
   scan of the first page, the scan of every processed page, and the
   `found`/`total` field of the last processed page. `statistics.mean` runs after
   every page: it raises on the first page when that page kept nothing, and
   otherwise the first exception is that of the scans or of the final mean.
   */
  function Summary(language: string, first: PyResult<seq<Option<real>>>,
                   all: PyResult<seq<Option<real>>>, found: int)
    : PyResult<map<string, LanguageStats>>
  {
    match first
    case Raise(e) => Raise(e)
    case Return(s0) =>
      if s0 == [] then Raise(StatisticsError)
      else
        match all
        case Raise(e) => Raise(e)
        case Return(s) =>
          match Mean(s)
          case Raise(e) => Raise(e)
          case Return(average) => Return(map[language := LanguageStats(found, |s|, average)])
  }

  /**
   A fetch that returns after processing pages holds one entry, for `language`:
   the last page's count, one processed vacancy per kept estimate, and their mean.
   */
  lemma SummaryReturns(language: string, first: PyResult<seq<Option<real>>>,
                       all: PyResult<seq<Option<real>>>, found: int, m: map<string, LanguageStats>)
    requires Summary(language, first, all, found) == Return(m)
    ensures all.Return? && all.value != [] && Mean(all.value).Return?
    ensures m.Keys == {language}
    ensures m[language] == LanguageStats(found, |all.value|, Mean(all.value).value)
  {
  }
}

/**
 The salary estimators: one representative salary from a lower/upper bound
 pair, and the per-source adapters for HeadHunter and SuperJob listings.
 Bounds are JSON integers or `null`; estimates are floats (exact reals here)
 or `None`.
 */
module Salary {
  import opened Py

  const HhCurrency: string := "RUR"
  const SjCurrency: string := "rub"

  /** The `salary` object of a HeadHunter listing. */
  datatype HhSalary = HhSalary(currency: Option<string>, salaryFrom: Option<int>, salaryTo: Option<int>)

  /** A HeadHunter listing: its `salary` field may be absent or `null`. */
  datatype HhJob = HhJob(salary: Option<HhSalary>)

  /** A SuperJob listing, with its own field names. */
  datatype SjJob = SjJob(currency: Option<string>, paymentFrom: Option<int>, paymentTo: Option<int>)

  /**
   `predict_salary`: the mean of both bounds, the lower bound raised by a fifth,
   or the upper bound lowered by a fifth. When the lower bound is falsy the upper
   one is converted with `int`, which raises on `None`. The third branch of the
   source (returning `None`) is unreachable, so a returned estimate is never `None`.
   */
  function PredictSalary(salaryFrom: Option<int>, salaryTo: Option<int>): (r: PyResult<Option<real>>)
    ensures r.Raise? <==> !Truthy(salaryFrom) && salaryTo.None?
    ensures r.Raise? ==> r.error == TypeError
    ensures r.Return? ==> r.value.Some?
    ensures Truthy(salaryFrom) && Truthy(salaryTo) ==>
              r == Return(Some((salaryFrom.value + salaryTo.value) as real / 2.0))
    ensures Truthy(salaryFrom) && !Truthy(salaryTo) ==>
              r == Return(Some(salaryFrom.value as real * 1.2))
    ensures !Truthy(salaryFrom) && salaryTo.Some? ==>
              r == Return(Some(salaryTo.value as real * 0.8))
  {
    if !Truthy(salaryFrom) then
      (if salaryTo.None? then Raise(TypeError) else Return(Some(salaryTo.value as real * 0.8)))
    else if !Truthy(salaryTo) then
      Return(Some(salaryFrom.value as real * 1.2))
    else if !Truthy(salaryFrom) && Truthy(salaryTo) then
      Return(None)
    else
      Return(Some((salaryFrom.value + salaryTo.value) as real / 2.0))
  }

  /** With both bounds given, an ordered range yields an estimate inside it. */
  lemma PredictSalaryWithinRange(salaryFrom: int, salaryTo: int)
    requires salaryFrom != 0 && salaryTo != 0 && salaryFrom <= salaryTo
    ensures PredictSalary(Some(salaryFrom), Some(salaryTo)).Return?
    ensures salaryFrom as real <= PredictSalary(Some(salaryFrom), Some(salaryTo)).value.value <= salaryTo as real
  {
  }

  /**
   `predict_rub_salary_hh`: `None` for any currency other than "RUR", otherwise
   `predict_salary` of the `from`/`to` fields. A listing without a `salary`
   object makes `.get` fail on `None`.
   */
  function PredictRubSalaryHh(job: HhJob): (r: PyResult<Option<real>>)
    ensures job.salary.None? ==> r == Raise(AttributeError)
    ensures job.salary.Some? && job.salary.value.currency != Some(HhCurrency) ==> r == Return(None)
    ensures job.salary.Some? && job.salary.value.currency == Some(HhCurrency) ==>
              r == PredictSalary(job.salary.value.salaryFrom, job.salary.value.salaryTo)
    ensures r == Return(None) <==> job.salary.Some? && job.salary.value.currency != Some(HhCurrency)
    ensures r.Raise? ==> r.error == AttributeError || r.error == TypeError
  {
    match job.salary
    case None => Raise(AttributeError)
    case Some(salary) =>
      if salary.currency != Some(HhCurrency) then Return(None)
      else PredictSalary(salary.salaryFrom, salary.salaryTo)
  }

  /**
   `predict_rub_salary_sj`: `None` for any currency other than "rub", `None` as
   well when both bounds are truthy, otherwise `predict_salary` of the
   `payment_from`/`payment_to` fields.
   */
  function PredictRubSalarySj(job: SjJob): (r: PyResult<Option<real>>)
    ensures job.currency != Some(SjCurrency) ==> r == Return(None)
    ensures Truthy(job.paymentFrom) && Truthy(job.paymentTo) ==> r == Return(None)
    ensures job.currency == Some(SjCurrency) && !(Truthy(job.paymentFrom) && Truthy(job.paymentTo)) ==>
              r == PredictSalary(job.paymentFrom, job.paymentTo)
    ensures r == Return(None) <==>
              job.currency != Some(SjCurrency) || (Truthy(job.paymentFrom) && Truthy(job.paymentTo))
    ensures r.Raise? ==> r.error == TypeError
  {
    if job.currency != Some(SjCurrency) then Return(None)
    else if Truthy(job.paymentFrom) && Truthy(job.paymentTo) then Return(None)
    else PredictSalary(job.paymentFrom, job.paymentTo)
  }

  /**
   The SuperJob estimate is falsy exactly for a foreign currency, for a listing
   with two truthy bounds, and for a rouble listing with a falsy lower bound and an
   upper bound of 0.
   */
  lemma SjFalsyEstimate(job: SjJob)
    requires PredictRubSalarySj(job).Return?
    ensures IsFalsy(PredictRubSalarySj(job).value) <==>
              || job.currency != Some(SjCurrency)
              || (Truthy(job.paymentFrom) && Truthy(job.paymentTo))
              || (!Truthy(job.paymentFrom) && job.paymentTo == Some(0))
  {
  }
}

/**
  The dataset-validation report: run the bean validation of every dataset
  and, when it fails, report the first constraint violation found in the
  cause chain, outermost exception first.
 */
module Diagnostics {
  import opened Wrappers
  import opened Causes
  import opened Responses

  /** What `beanValidationSvc.validateDatasets()` does: return, throw an
      exception with its cause chain, or throw an `Error` (a throwable that is
      not an exception), which the endpoint does not catch. */
  datatype ValidationRun = Passed | Threw(chain: Chain) | Escaped(error: string)

  /** The report for one violation as the endpoint builds it, by calling
      `toString()` on the bean, the property path and the invalid value. A
      null invalid value makes the last call throw: no report (None). */
  function ReportAsWritten(v: Violation): (r: Option<Body>)
    ensures r.Some? <==> v.invalidValue.Some?
    ensures r.Some? ==> r.value == ViolationReport(v.leafBean, v.propertyPath, v.invalidValue.value)
  {
    match v.invalidValue
    case None => None
    case Some(value) => Some(ViolationReport(v.leafBean, v.propertyPath, value))
  }

  /** The corrected report: a null invalid value is rendered as "null", as
      `String.valueOf` does. It agrees with the report as written wherever
      that one exists. */
  function Report(v: Violation): (r: Body)
    ensures r.ViolationReport? && r.entity == v.leafBean && r.field == v.propertyPath
    ensures v.invalidValue.Some? ==> r.invalidValue == v.invalidValue.value
    ensures v.invalidValue.None? ==> r.invalidValue == "null"
    ensures ReportAsWritten(v).Some? ==> ReportAsWritten(v).value == r
  {
    ViolationReport(v.leafBean, v.propertyPath, match v.invalidValue case Some(value) => value case None => "null")
  }

  /** A violation whose invalid value is null, as every violation of a
      @NotNull constraint has, gets no report as written; the corrected
      report renders the value as "null". */
  lemma NullInvalidValueHasNoReport(v: Violation)
    requires v.invalidValue.None?
    ensures ReportAsWritten(v) == None
    ensures Report(v) == ViolationReport(v.leafBean, v.propertyPath, "null")
  {
  }

  /** The endpoint as written: a first violation whose invalid value is null
      makes it throw instead of answering, which the container reports as an
      internal server error. */
  method ValidateAsWritten(run: ValidationRun) returns (resp: Response)
    ensures run.Passed? ==> resp == Response(Ok, ValidReport)
    ensures run.Escaped? ==> resp == Response(ServerError, Uncaught(run.error))
    ensures run.Threw? ==>
              (resp == Response(Ok, UnknownReport) <==> forall i :: 0 <= i < |run.chain| ==> !Flagged(run.chain[i]))
    ensures run.Threw? && resp != Response(Ok, UnknownReport) ==>
              exists i :: FirstFlagged(run.chain, i) &&
                var report := ReportAsWritten(run.chain[i].violations[0]);
                resp == if report.Some? then Response(Ok, report.value)
                        else Response(ServerError, Uncaught("java.lang.NullPointerException"))
  {
    match run
    case Passed =>
      resp := Response(Ok, ValidReport);
    case Escaped(error) =>
      resp := Response(ServerError, Uncaught(error));
    case Threw(chain) =>
      var found := FirstViolation(chain);
      match found
      case None =>
        resp := Response(Ok, UnknownReport);
      case Some(v) =>
        var report := ReportAsWritten(v);
        resp := if report.Some? then Response(Ok, report.value)
                else Response(ServerError, Uncaught("java.lang.NullPointerException"));
  }

  /** The endpoint corrected: "valid" when validation passes; after an
      exception, the first violation of the outermost constraint-violation
      exception that has one, or "UNKNOWN" when no exception in the chain has
      one. An `Error` still escapes, as in the code. */
  method Validate(run: ValidationRun) returns (resp: Response)
    ensures resp.status == Ok <==> !run.Escaped?
    ensures run.Escaped? ==> resp == Response(ServerError, Uncaught(run.error))
    ensures run.Passed? ==> resp.body == ValidReport
    ensures run.Threw? ==>
              (resp.body == UnknownReport <==> forall i :: 0 <= i < |run.chain| ==> !Flagged(run.chain[i]))
    ensures run.Threw? && resp.body != UnknownReport ==>
              exists i :: FirstFlagged(run.chain, i) && resp.body == Report(run.chain[i].violations[0])
  {
    match run
    case Passed =>
      resp := Response(Ok, ValidReport);
    case Escaped(error) =>
      resp := Response(ServerError, Uncaught(error));
    case Threw(chain) =>
      var found := FirstViolation(chain);
      match found
      case None =>
        resp := Response(Ok, UnknownReport);
      case Some(v) =>
        resp := Response(Ok, Report(v));
  }
}

/**
  Throwables as the administrative endpoints inspect them. A cause chain lists
  the exception that was caught first and then, in order, each `getCause()`
  below it; the last element is the deepest cause, the one with no cause.
 */
module Causes {
  import opened Wrappers

  /** One bean-validation violation: the bean holding the rejected value, the
      property path within it, and the rejected value (None when it is null). */
  datatype Violation = Violation(leafBean: string, propertyPath: string, invalidValue: Option<string>)

  /** The kinds of throwable the endpoints tell apart. */
  datatype ExKind =
    | ConstraintViolation(violations: seq<Violation>)  // javax.validation.ConstraintViolationException
    | Sql(message: string)                             // java.sql.SQLException
    | Other(className: string)                         // any other throwable

  /** A caught throwable with its causes, outermost first; never empty. */
  type Chain = c: seq<ExKind> | |c| > 0 witness [Other("java.lang.Throwable")]

  /** The deepest cause of a chain. */
  function Deepest(chain: Chain): ExKind
  {
    chain[|chain| - 1]
  }

  /** The unwrapping loop of the conversion endpoint: follow `getCause()`
      until there is none. */
  method RootCause(chain: Chain) returns (root: ExKind)
    ensures root == Deepest(chain)
  {
    var i := 0;
    while i < |chain| - 1
      invariant 0 <= i <= |chain| - 1
    {
      i := i + 1;
    }
    root := chain[i];
  }

  /** A constraint-violation exception that carries at least one violation. */
  predicate Flagged(e: ExKind)
  {
    e.ConstraintViolation? && |e.violations| > 0
  }

  /** Position i holds the outermost flagged exception of the chain. */
  ghost predicate FirstFlagged(chain: seq<ExKind>, i: int)
  {
    0 <= i < |chain| && Flagged(chain[i]) && forall j :: 0 <= j < i ==> !Flagged(chain[j])
  }

  /** The scan of the validation endpoint: walk the chain outermost first and
      stop at the first violation of the first constraint-violation exception
      that has one. */
  method FirstViolation(chain: seq<ExKind>) returns (found: Option<Violation>)
    ensures found.None? <==> forall i :: 0 <= i < |chain| ==> !Flagged(chain[i])
    ensures found.Some? ==> exists i :: FirstFlagged(chain, i) && found.value == chain[i].violations[0]
  {
    var k := 0;
    while k < |chain|
      invariant 0 <= k <= |chain|
      invariant forall j :: 0 <= j < k ==> !Flagged(chain[j])
    {
      if Flagged(chain[k]) {
        assert FirstFlagged(chain, k);
        return Some(chain[k].violations[0]);
      }
      k := k + 1;
    }
    return None;
  }
}

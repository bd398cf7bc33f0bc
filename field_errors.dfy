/**
 * Schema validation as the two forms use it: each field check yields at most one issue,
 * issues come out in schema order, and the submit handlers fold them into a
 * field-to-message map in which a later issue for the same field overwrites an earlier one.
 */
module FieldErrors {
  import opened Wrappers

  /** One validation issue: the path of the offending value and its message. */
  datatype Issue = Issue(path: seq<string>, message: string)

  /** `if (error.path[0])`: only issues with a non-empty first path element are kept. */
  predicate Keyed(i: Issue) {
    |i.path| > 0 && i.path[0] != ""
  }

  /** The map the `forEach` loop leaves behind after processing `issues` in order. */
  function FieldErrorMap(issues: seq<Issue>): map<string, string>
    decreases |issues|
  {
    if issues == [] then map[]
    else
      var m := FieldErrorMap(issues[..|issues| - 1]);
      var last := issues[|issues| - 1];
      if Keyed(last) then m[last.path[0] := last.message] else m
  }

  /** Issue `j` is the last kept issue for field `k`. */
  predicate LastFor(issues: seq<Issue>, k: string, j: int) {
    && 0 <= j < |issues|
    && Keyed(issues[j]) && issues[j].path[0] == k
    && forall j' :: j < j' < |issues| ==> !(Keyed(issues[j']) && issues[j'].path[0] == k)
  }

  /**
   * A field has an entry exactly when some kept issue names it, and the entry is the
   * message of the last such issue.
   */
  lemma {:induction false} LastIssueWins(issues: seq<Issue>, k: string)
    ensures k in FieldErrorMap(issues) <==> exists j :: 0 <= j < |issues| && Keyed(issues[j]) && issues[j].path[0] == k
    ensures k in FieldErrorMap(issues) ==>
      exists j :: LastFor(issues, k, j) && FieldErrorMap(issues)[k] == issues[j].message
    decreases |issues|
  {
    if issues != [] {
      var n := |issues| - 1;
      var init := issues[..n];
      LastIssueWins(init, k);
      assert forall j :: 0 <= j < n ==> init[j] == issues[j];
      var last := issues[n];
      if Keyed(last) && last.path[0] == k {
        assert LastFor(issues, k, n);
      } else if k in FieldErrorMap(init) {
        var j :| LastFor(init, k, j) && FieldErrorMap(init)[k] == init[j].message;
        assert LastFor(issues, k, j);
      }
    }
  }

  /** `err.errors.forEach(...)`: builds the field error map in one pass. */
  method BuildFieldErrors(issues: seq<Issue>) returns (fieldErrors: map<string, string>)
    ensures fieldErrors == FieldErrorMap(issues)
  {
    fieldErrors := map[];
    var i := 0;
    while i < |issues|
      invariant 0 <= i <= |issues|
      invariant fieldErrors == FieldErrorMap(issues[..i])
    {
      assert issues[..i + 1][..i] == issues[..i];
      var error := issues[i];
      if |error.path| > 0 && error.path[0] != "" {
        fieldErrors := fieldErrors[error.path[0] := error.message];
      }
      i := i + 1;
    }
    assert issues[..i] == issues;
  }

  /** The outcome of one field's checks: the message of its failing check, if any. */
  datatype Check = Check(field: string, problem: Option<string>)

  /** The issue a check raises, if it fails. */
  function Raised(c: Check): seq<Issue> {
    match c.problem
    case Some(msg) => [Issue([c.field], msg)]
    case None => []
  }

  /** The issues the checks raise, in order. */
  function IssuesOf(checks: seq<Check>): (issues: seq<Issue>)
    ensures |issues| <= |checks|
    ensures issues == [] <==> forall i :: 0 <= i < |checks| ==> checks[i].problem.None?
    decreases |checks|
  {
    if checks == [] then []
    else
      var init := checks[..|checks| - 1];
      assert forall i :: 0 <= i < |init| ==> init[i] == checks[i];
      IssuesOf(init) + Raised(checks[|checks| - 1])
  }

  /** The message of the last failing check for `field`, if any. */
  function LastProblem(checks: seq<Check>, field: string): Option<string>
    decreases |checks|
  {
    if checks == [] then None
    else
      var c := checks[|checks| - 1];
      if c.field == field && c.problem.Some? then c.problem
      else LastProblem(checks[..|checks| - 1], field)
  }

  /** Folding one more issue into the map. */
  lemma FieldErrorMapSnoc(issues: seq<Issue>, x: Issue)
    ensures FieldErrorMap(issues + [x]) ==
      if Keyed(x) then FieldErrorMap(issues)[x.path[0] := x.message] else FieldErrorMap(issues)
  {
    assert (issues + [x])[..|issues|] == issues;
  }

  /** For checks on named fields, the error map holds, per field, the message of its last failing check. */
  lemma {:induction false} ErrorMapOfChecks(checks: seq<Check>, field: string)
    requires forall i :: 0 <= i < |checks| ==> checks[i].field != ""
    ensures field in FieldErrorMap(IssuesOf(checks)) <==> LastProblem(checks, field).Some?
    ensures field in FieldErrorMap(IssuesOf(checks)) ==> FieldErrorMap(IssuesOf(checks))[field] == LastProblem(checks, field).value
    decreases |checks|
  {
    if checks != [] {
      var n := |checks| - 1;
      var init, c := checks[..n], checks[n];
      assert forall i :: 0 <= i < n ==> init[i] == checks[i];
      ErrorMapOfChecks(init, field);
      var before := FieldErrorMap(IssuesOf(init));
      match c.problem
      case None =>
        assert IssuesOf(checks) == IssuesOf(init);
        assert LastProblem(checks, field) == LastProblem(init, field);
      case Some(msg) =>
        assert IssuesOf(checks) == IssuesOf(init) + [Issue([c.field], msg)];
        FieldErrorMapSnoc(IssuesOf(init), Issue([c.field], msg));
        assert FieldErrorMap(IssuesOf(checks)) == before[c.field := msg];
        if c.field != field {
          assert LastProblem(checks, field) == LastProblem(init, field);
        }
    }
  }

  predicate FieldsDistinct(checks: seq<Check>) {
    forall i, j :: 0 <= i < j < |checks| ==> checks[i].field != checks[j].field
  }

  /** When field names are distinct, a field's last problem is its own check's problem. */
  lemma {:induction false} LastProblemOfDistinct(checks: seq<Check>, i: int)
    requires FieldsDistinct(checks) && 0 <= i < |checks|
    ensures LastProblem(checks, checks[i].field) == checks[i].problem
    decreases |checks|
  {
    var n := |checks| - 1;
    if i < n {
      var init := checks[..n];
      assert init[i] == checks[i];
      assert FieldsDistinct(init) by {
        forall a, b | 0 <= a < b < |init| ensures init[a].field != init[b].field {
          assert init[a] == checks[a] && init[b] == checks[b];
        }
      }
      LastProblemOfDistinct(init, i);
    } else if checks[i].problem.None? {
      var init := checks[..n];
      assert forall a :: 0 <= a < |init| ==> init[a] == checks[a];
      LastProblemOfUnchecked(init, checks[i].field);
    }
  }

  /** A field no check names has no problem. */
  lemma {:induction false} LastProblemOfUnchecked(checks: seq<Check>, field: string)
    requires forall i :: 0 <= i < |checks| ==> checks[i].field != field
    ensures LastProblem(checks, field).None?
    decreases |checks|
  {
    if checks != [] {
      var init := checks[..|checks| - 1];
      assert forall i :: 0 <= i < |init| ==> init[i] == checks[i];
      LastProblemOfUnchecked(init, field);
    }
  }
}

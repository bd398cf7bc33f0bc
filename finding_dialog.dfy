/**
 * The add/edit finding dialog: its form state, the finding schema, the payload handed to
 * `onSave`, the reset effect and the submit handler.
 */
module FindingDialog {
  import opened Wrappers
  import opened Text
  import opened SupabaseTypes
  import opened FieldErrors
  import opened Zod

  /**
   * What the CVSS text box holds, as the submit handler reads it: empty (sent as undefined),
   * text that `parseFloat` turns into a number, or text it turns into NaN.
   */
  datatype CvssText = Blank | Numeric(x: real) | NotANumber

  /** `formData`. Severity and status are kept as the strings the selects hold. */
  datatype FindingForm = FindingForm(
    title: string,
    description: string,
    severity: string,
    status: string,
    proof_of_concept: string,
    remediation: string,
    affected_url: string,
    cvss_score: CvssText)

  /** The initial form, which is also what a reset without a finding restores. */
  const DefaultFindingForm: FindingForm := FindingForm("", "", "medium", "open", "", "", "", Blank)

  /** The CVSS text passes the schema: absent, or a number in [0, 10]. */
  predicate CvssAcceptable(c: CvssText) {
    c.Blank? || (c.Numeric? && 0.0 <= c.x <= 10.0)
  }

  /** Every constraint of `findingSchema`, stated directly. */
  predicate FindingFormValid(f: FindingForm) {
    && 2 <= |f.title| <= 200
    && |f.description| <= 2000
    && f.severity in FindingSeverityValues
    && f.status in FindingStatusValues
    && |f.proof_of_concept| <= 5000
    && |f.remediation| <= 2000
    && |f.affected_url| <= 500
    && CvssAcceptable(f.cvss_score)
  }

  /** `cvss_score: z.number().min(0).max(10).optional()`. */
  function CvssProblem(c: CvssText): (p: Option<string>)
    ensures p.None? <==> CvssAcceptable(c)
  {
    match c
    case Blank => None
    case NotANumber => Some(NotANumberMessage)
    case Numeric(x) => RangeProblem(x, 0, 10)
  }

  /** Key `i` of `findingSchema`, in the schema's key order. */
  function FindingKey(i: nat): string
    requires i < 8
  {
    if i == 0 then "title"
    else if i == 1 then "description"
    else if i == 2 then "severity"
    else if i == 3 then "status"
    else if i == 4 then "proof_of_concept"
    else if i == 5 then "remediation"
    else if i == 6 then "affected_url"
    else "cvss_score"
  }

  /** What the check of key `i` reports about `f`, if anything. */
  function FindingProblem(f: FindingForm, i: nat): Option<string>
    requires i < 8
  {
    if i == 0 then LengthProblem(f.title, 2, "Title must be at least 2 characters", 200)
    else if i == 1 then MaxLengthProblem(f.description, 2000)
    else if i == 2 then EnumProblem(f.severity, FindingSeverityValues)
    else if i == 3 then EnumProblem(f.status, FindingStatusValues)
    else if i == 4 then MaxLengthProblem(f.proof_of_concept, 5000)
    else if i == 5 then MaxLengthProblem(f.remediation, 2000)
    else if i == 6 then MaxLengthProblem(f.affected_url, 500)
    else CvssProblem(f.cvss_score)
  }

  /** The schema's checks, one per key, in the schema's key order. */
  function FindingChecks(f: FindingForm): (checks: seq<Check>)
    ensures |checks| == 8
  {
    seq(8, i requires 0 <= i < 8 => Check(FindingKey(i), FindingProblem(f, i)))
  }

  lemma FindingChecksPassHead(f: FindingForm)
    ensures var c := FindingChecks(f);
      && (c[0].problem.None? <==> 2 <= |f.title| <= 200)
      && (c[1].problem.None? <==> |f.description| <= 2000)
      && (c[2].problem.None? <==> f.severity in FindingSeverityValues)
      && (c[3].problem.None? <==> f.status in FindingStatusValues)
  {
  }

  lemma FindingChecksPassTail(f: FindingForm)
    ensures var c := FindingChecks(f);
      && (c[4].problem.None? <==> |f.proof_of_concept| <= 5000)
      && (c[5].problem.None? <==> |f.remediation| <= 2000)
      && (c[6].problem.None? <==> |f.affected_url| <= 500)
      && (c[7].problem.None? <==> CvssAcceptable(f.cvss_score))
  {
  }

  /** Every check passes exactly when the form meets every constraint of the schema. */
  lemma FindingChecksPass(f: FindingForm)
    ensures (forall i :: 0 <= i < 8 ==> FindingChecks(f)[i].problem.None?) <==> FindingFormValid(f)
  {
    var c := FindingChecks(f);
    FindingChecksPassHead(f);
    FindingChecksPassTail(f);
    assert (forall i :: 0 <= i < 8 ==> c[i].problem.None?) <==>
      (&& c[0].problem.None? && c[1].problem.None? && c[2].problem.None? && c[3].problem.None?
       && c[4].problem.None? && c[5].problem.None? && c[6].problem.None? && c[7].problem.None?);
  }

  /** The issues `findingSchema.parse` reports; it succeeds exactly when there are none. */
  function FindingIssues(f: FindingForm): (issues: seq<Issue>)
    ensures issues == [] <==> FindingFormValid(f)
  {
    FindingChecksPass(f);
    IssuesOf(FindingChecks(f))
  }

  /** The schema's keys are distinct, non-empty names. */
  lemma FindingFieldNames(f: FindingForm)
    ensures FieldsDistinct(FindingChecks(f))
    ensures forall i :: 0 <= i < 8 ==> FindingChecks(f)[i].field != ""
  {
  }

  /**
   * After a failed parse, the error map has an entry for exactly the failing keys of the
   * schema, each holding that key's message, and no other entry.
   */
  lemma FindingErrorMap(f: FindingForm, field: string)
    ensures var checks, m := FindingChecks(f), FieldErrorMap(FindingIssues(f));
      && (forall i :: 0 <= i < 8 && checks[i].field == field ==>
            (field in m <==> checks[i].problem.Some?)
            && (field in m ==> m[field] == checks[i].problem.value))
      && ((forall i :: 0 <= i < 8 ==> checks[i].field != field) ==> field !in m)
  {
    var checks := FindingChecks(f);
    FindingFieldNames(f);
    ErrorMapOfChecks(checks, field);
    forall i | 0 <= i < 8 && checks[i].field == field ensures LastProblem(checks, field) == checks[i].problem {
      LastProblemOfDistinct(checks, i);
    }
    if forall i :: 0 <= i < 8 ==> checks[i].field != field {
      LastProblemOfUnchecked(checks, field);
    }
  }

  /** The `onSave` argument: optional texts as nullable columns, the score as a nullable number. */
  datatype FindingPayload = FindingPayload(
    title: string,
    description: Option<string>,
    severity: FindingSeverity,
    status: FindingStatus,
    proof_of_concept: Option<string>,
    remediation: Option<string>,
    affected_url: Option<string>,
    cvss_score: Option<real>)

  /** `validated.x || null` and `validated.cvss_score ?? null`, for a form that passed the schema. */
  function ToPayload(f: FindingForm): (p: FindingPayload)
    requires FindingFormValid(f)
    ensures p.title == f.title
    ensures FindingSeverityName(p.severity) == f.severity && FindingStatusName(p.status) == f.status
    ensures OrEmpty(p.description) == f.description && p.description != Some("")
    ensures OrEmpty(p.proof_of_concept) == f.proof_of_concept && p.proof_of_concept != Some("")
    ensures OrEmpty(p.remediation) == f.remediation && p.remediation != Some("")
    ensures OrEmpty(p.affected_url) == f.affected_url && p.affected_url != Some("")
    ensures p.cvss_score.None? <==> f.cvss_score.Blank?
    ensures f.cvss_score.Numeric? ==> p.cvss_score == Some(f.cvss_score.x)
  {
    FindingPayload(
      f.title,
      NullIfEmpty(f.description),
      ParseFindingSeverity(f.severity).value,
      ParseFindingStatus(f.status).value,
      NullIfEmpty(f.proof_of_concept),
      NullIfEmpty(f.remediation),
      NullIfEmpty(f.affected_url),
      match f.cvss_score
      case Numeric(x) => Some(x)
      case _ => None)
  }

  /** The reset effect with a finding: its fields, with a null text shown as "". */
  function FormFromFinding(row: FindingRow): (f: FindingForm)
    ensures f.title == row.title
    ensures f.severity == FindingSeverityName(row.severity) && f.status == FindingStatusName(row.status)
    ensures f.description == OrEmpty(row.description) && f.proof_of_concept == OrEmpty(row.proof_of_concept)
    ensures f.remediation == OrEmpty(row.remediation) && f.affected_url == OrEmpty(row.affected_url)
    ensures row.cvss_score.None? ==> f.cvss_score == Blank
    ensures row.cvss_score.Some? ==> f.cvss_score == Numeric(row.cvss_score.value)
  {
    FindingForm(
      row.title,
      OrEmpty(row.description),
      FindingSeverityName(row.severity),
      FindingStatusName(row.status),
      OrEmpty(row.proof_of_concept),
      OrEmpty(row.remediation),
      OrEmpty(row.affected_url),
      match row.cvss_score
      case Some(x) => Numeric(x)
      case None => Blank)
  }

  /** The finding row after the store applies a saved payload to it. */
  function ApplyPayload(row: FindingRow, p: FindingPayload): FindingRow {
    row.(title := p.title, description := p.description, severity := p.severity, status := p.status,
         proof_of_concept := p.proof_of_concept, remediation := p.remediation,
         affected_url := p.affected_url, cvss_score := p.cvss_score)
  }

  /** Saving a valid form and reopening the dialog on the saved finding shows the same form. */
  lemma ReopenAfterSave(f: FindingForm, row: FindingRow)
    requires FindingFormValid(f)
    ensures FormFromFinding(ApplyPayload(row, ToPayload(f))) == f
  {
    var p := ToPayload(f);
    assert ParseFindingSeverity(f.severity) == Some(p.severity);
    assert ParseFindingStatus(f.status) == Some(p.status);
  }

  /** No nullable text of the row holds the empty string. */
  predicate NoEmptyTexts(row: FindingRow) {
    && row.description != Some("") && row.proof_of_concept != Some("")
    && row.remediation != Some("") && row.affected_url != Some("")
  }

  /**
   * Opening the dialog on a finding and saving without edits writes back what was stored;
   * a stored empty text would come back as null.
   */
  lemma ResubmitUnchanged(row: FindingRow)
    requires FindingFormValid(FormFromFinding(row))
    ensures NoEmptyTexts(row) <==> ApplyPayload(row, ToPayload(FormFromFinding(row))) == row
  {
    var f := FormFromFinding(row);
    var p := ToPayload(f);
    assert ParseFindingSeverity(f.severity) == Some(row.severity);
    assert ParseFindingStatus(f.status) == Some(row.status);
    assert p.severity == row.severity && p.status == row.status;
    if ApplyPayload(row, p) == row {
      assert p.description == row.description && p.proof_of_concept == row.proof_of_concept;
      assert p.remediation == row.remediation && p.affected_url == row.affected_url;
    }
  }

  /** A one-letter title is refused with the schema's own message, and nothing else is reported. */
  lemma ShortTitleRefused()
    ensures var m := FieldErrorMap(FindingIssues(DefaultFindingForm.(title := "A")));
      && "title" in m && m["title"] == "Title must be at least 2 characters"
      && forall k :: k in m ==> k == "title"
  {
    var f := DefaultFindingForm.(title := "A");
    var checks := FindingChecks(f);
    assert checks[0].problem == Some("Title must be at least 2 characters");
    assert forall i :: 1 <= i < 8 ==> checks[i].problem.None?;
    FindingErrorMap(f, "title");
    forall k | k in FieldErrorMap(FindingIssues(f)) ensures k == "title" {
      FindingErrorMap(f, k);
    }
  }

  /** A score of 11 is refused, one of 7.5 or 0 accepted and saved as given. */
  lemma CvssBounds()
    ensures !FindingFormValid(DefaultFindingForm.(title := "XSS", cvss_score := Numeric(11.0)))
    ensures FindingFormValid(DefaultFindingForm.(title := "XSS", cvss_score := Numeric(7.5)))
    ensures ToPayload(DefaultFindingForm.(title := "XSS", cvss_score := Numeric(0.0))).cvss_score == Some(0.0)
  {
  }

  /** The dialog's state, and the payloads it has passed to `onSave` so far. */
  class FindingDialogState {
    var formData: FindingForm
    var errors: map<string, string>
    var isSubmitting: bool
    var saved: seq<FindingPayload>

    constructor()
      ensures formData == DefaultFindingForm && errors == map[] && !isSubmitting && saved == []
    {
      formData := DefaultFindingForm;
      errors := map[];
      isSubmitting := false;
      saved := [];
    }

    /** The effect run when the dialog opens or its finding changes. */
    method Reset(finding: Option<FindingRow>)
      modifies this
      ensures finding.None? ==> formData == DefaultFindingForm
      ensures finding.Some? ==> formData == FormFromFinding(finding.value)
      ensures errors == map[]
      ensures isSubmitting == old(isSubmitting) && saved == old(saved)
    {
      match finding {
        case Some(row) => formData := FormFromFinding(row);
        case None => formData := DefaultFindingForm;
      }
      errors := map[];
    }

    /** An input's `onChange`: the form takes the edited values. */
    method Edit(form: FindingForm)
      modifies this
      ensures formData == form
      ensures errors == old(errors) && isSubmitting == old(isSubmitting) && saved == old(saved)
    {
      formData := form;
    }

    /**
     * `handleSubmit`: a valid form is saved once and leaves no errors; an invalid one is not
     * saved and leaves the error map of its issues. Either way the handler ends not submitting.
     */
    method HandleSubmit()
      modifies this
      ensures !isSubmitting
      ensures formData == old(formData)
      ensures FindingFormValid(formData) ==> saved == old(saved) + [ToPayload(formData)] && errors == map[]
      ensures !FindingFormValid(formData) ==> saved == old(saved) && errors == FieldErrorMap(FindingIssues(formData))
    {
      errors := map[];
      isSubmitting := true;
      var issues := FindingIssues(formData);
      if issues == [] {
        saved := saved + [ToPayload(formData)];
      } else {
        var fieldErrors := BuildFieldErrors(issues);
        errors := fieldErrors;
      }
      isSubmitting := false;
    }
  }
}

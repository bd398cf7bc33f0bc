/**
 * The new-audit page: its form state, the audit schema, the normalisation of the validated
 * form into a create-audit draft, and the submit handler's validate-create-navigate sequence.
 */
module NewAudit {
  import opened Wrappers
  import opened Text
  import opened SupabaseTypes
  import opened FieldErrors
  import opened Zod
  import opened OwaspChecklist
  import opened AuditsHook

  /** `formData`. The status is kept as the string the select holds. */
  datatype AuditForm = AuditForm(
    name: string,
    client_name: string,
    target: string,
    description: string,
    start_date: string,
    end_date: string,
    status: string)

  /** The page's initial form: every text empty, the status planning. */
  const DefaultAuditForm: AuditForm := AuditForm("", "", "", "", "", "", "planning")

  /** Every constraint of `auditSchema`, stated directly. The two dates accept any string. */
  predicate AuditFormValid(f: AuditForm) {
    && 2 <= |f.name| <= 100
    && 2 <= |f.client_name| <= 100
    && |f.target| <= 255
    && |f.description| <= 1000
    && f.status in AuditStatusValues
  }

  /** Key `i` of `auditSchema`, in the schema's key order. */
  function AuditKey(i: nat): string
    requires i < 7
  {
    if i == 0 then "name"
    else if i == 1 then "client_name"
    else if i == 2 then "target"
    else if i == 3 then "description"
    else if i == 4 then "start_date"
    else if i == 5 then "end_date"
    else "status"
  }

  /** What the check of key `i` reports about `f`, if anything; the dates accept any string. */
  function AuditProblem(f: AuditForm, i: nat): Option<string>
    requires i < 7
  {
    if i == 0 then LengthProblem(f.name, 2, "Audit name must be at least 2 characters", 100)
    else if i == 1 then LengthProblem(f.client_name, 2, "Client name must be at least 2 characters", 100)
    else if i == 2 then MaxLengthProblem(f.target, 255)
    else if i == 3 then MaxLengthProblem(f.description, 1000)
    else if i == 4 || i == 5 then None
    else EnumProblem(f.status, AuditStatusValues)
  }

  /** The schema's checks, one per key, in the schema's key order. */
  function AuditChecks(f: AuditForm): (checks: seq<Check>)
    ensures |checks| == 7
  {
    seq(7, i requires 0 <= i < 7 => Check(AuditKey(i), AuditProblem(f, i)))
  }

  lemma AuditChecksPassHead(f: AuditForm)
    ensures var c := AuditChecks(f);
      && (c[0].problem.None? <==> 2 <= |f.name| <= 100)
      && (c[1].problem.None? <==> 2 <= |f.client_name| <= 100)
      && (c[2].problem.None? <==> |f.target| <= 255)
  {
  }

  lemma AuditChecksPassTail(f: AuditForm)
    ensures var c := AuditChecks(f);
      && (c[3].problem.None? <==> |f.description| <= 1000)
      && c[4].problem.None? && c[5].problem.None?
      && (c[6].problem.None? <==> f.status in AuditStatusValues)
  {
  }

  /** Every check passes exactly when the form meets every constraint of the schema. */
  lemma AuditChecksPass(f: AuditForm)
    ensures (forall i :: 0 <= i < 7 ==> AuditChecks(f)[i].problem.None?) <==> AuditFormValid(f)
  {
    var c := AuditChecks(f);
    AuditChecksPassHead(f);
    AuditChecksPassTail(f);
    assert (forall i :: 0 <= i < 7 ==> c[i].problem.None?) <==>
      (&& c[0].problem.None? && c[1].problem.None? && c[2].problem.None? && c[3].problem.None?
       && c[4].problem.None? && c[5].problem.None? && c[6].problem.None?);
  }

  /** The issues `auditSchema.parse` reports; it succeeds exactly when there are none. */
  function AuditIssues(f: AuditForm): (issues: seq<Issue>)
    ensures issues == [] <==> AuditFormValid(f)
  {
    AuditChecksPass(f);
    IssuesOf(AuditChecks(f))
  }

  /** The schema's keys are distinct, non-empty names. */
  lemma AuditFieldNames(f: AuditForm)
    ensures FieldsDistinct(AuditChecks(f))
    ensures forall i :: 0 <= i < 7 ==> AuditChecks(f)[i].field != ""
  {
  }

  /**
   * After a failed parse, the error map has an entry for exactly the failing keys of the
   * schema, each holding that key's message, and no other entry.
   */
  lemma AuditErrorMap(f: AuditForm, field: string)
    ensures var checks, m := AuditChecks(f), FieldErrorMap(AuditIssues(f));
      && (forall i :: 0 <= i < 7 && checks[i].field == field ==>
            (field in m <==> checks[i].problem.Some?)
            && (field in m ==> m[field] == checks[i].problem.value))
      && ((forall i :: 0 <= i < 7 ==> checks[i].field != field) ==> field !in m)
  {
    var checks := AuditChecks(f);
    AuditFieldNames(f);
    ErrorMapOfChecks(checks, field);
    forall i | 0 <= i < 7 && checks[i].field == field ensures LastProblem(checks, field) == checks[i].problem {
      LastProblemOfDistinct(checks, i);
    }
    if forall i :: 0 <= i < 7 ==> checks[i].field != field {
      LastProblemOfUnchecked(checks, field);
    }
  }

  /** The untouched form fails the two name checks, with their messages, and passes the rest. */
  lemma DefaultFormProblems()
    ensures var c := AuditChecks(DefaultAuditForm);
      && c[0].field == "name" && c[0].problem == Some("Audit name must be at least 2 characters")
      && c[1].field == "client_name" && c[1].problem == Some("Client name must be at least 2 characters")
      && forall i :: 2 <= i < 7 ==> c[i].problem.None?
  {
  }

  /** Submitting the untouched form reports exactly the two required names, with their own messages. */
  lemma EmptyFormRefused()
    ensures var m := FieldErrorMap(AuditIssues(DefaultAuditForm));
      && m.Keys == {"name", "client_name"}
      && m["name"] == "Audit name must be at least 2 characters"
      && m["client_name"] == "Client name must be at least 2 characters"
  {
    var f := DefaultAuditForm;
    var m := FieldErrorMap(AuditIssues(f));
    DefaultFormProblems();
    AuditErrorMap(f, "name");
    AuditErrorMap(f, "client_name");
    forall k | k in m ensures k == "name" || k == "client_name" {
      AuditErrorMap(f, k);
    }
  }

  /** The `createAudit` argument built from a form that passed the schema. */
  function NormalizeAudit(f: AuditForm): (d: AuditDraft)
    requires AuditFormValid(f)
    ensures d.name == f.name && d.client_name == f.client_name
    ensures d.status.Given? && AuditStatusName(d.status.value) == f.status
    ensures d.target.Given? && OrEmpty(d.target.value) == f.target && d.target.value != Some("")
    ensures d.description.Given? && OrEmpty(d.description.value) == f.description && d.description.value != Some("")
    ensures d.start_date.Given? && OrEmpty(d.start_date.value) == f.start_date && d.start_date.value != Some("")
    ensures d.end_date.Given? && OrEmpty(d.end_date.value) == f.end_date && d.end_date.value != Some("")
  {
    AuditDraft(f.client_name, f.name, Given(ParseAuditStatus(f.status).value),
               Given(NullIfEmpty(f.target)), Given(NullIfEmpty(f.description)),
               Given(NullIfEmpty(f.start_date)), Given(NullIfEmpty(f.end_date)))
  }

  /** The form a stored audit row reads back as, with a null text shown as "". */
  function FormOfRow(row: AuditRow): (f: AuditForm)
    ensures f.name == row.name && f.client_name == row.client_name
    ensures f.status == AuditStatusName(row.status)
    ensures f.target == OrEmpty(row.target) && f.description == OrEmpty(row.description)
    ensures f.start_date == OrEmpty(row.start_date) && f.end_date == OrEmpty(row.end_date)
  {
    AuditForm(row.name, row.client_name, OrEmpty(row.target), OrEmpty(row.description),
              OrEmpty(row.start_date), OrEmpty(row.end_date), AuditStatusName(row.status))
  }

  /**
   * The row the store keeps for a submitted form reads back as that form, belongs to the
   * signed-in user, and holds null rather than "" in every optional text.
   */
  lemma StoredAuditShowsForm(f: AuditForm, userId: string, id: string, now: string)
    requires AuditFormValid(f)
    ensures var row := InsertedAudit(OwnedBy(NormalizeAudit(f), userId), id, now);
      && FormOfRow(row) == f
      && row.user_id == userId && row.id == id
      && row.target != Some("") && row.description != Some("")
      && row.start_date != Some("") && row.end_date != Some("")
  {
    var row := InsertedAudit(OwnedBy(NormalizeAudit(f), userId), id, now);
    assert ParseAuditStatus(f.status) == Some(row.status);
  }

  /** The page's state, and the routes it has navigated to so far. */
  class NewAuditPage {
    var formData: AuditForm
    var errors: map<string, string>
    var navigations: seq<string>

    constructor()
      ensures formData == DefaultAuditForm && errors == map[] && navigations == []
    {
      formData := DefaultAuditForm;
      errors := map[];
      navigations := [];
    }

    /** An input's `onChange`: the form takes the edited values. */
    method Edit(form: AuditForm)
      modifies this
      ensures formData == form
      ensures errors == old(errors) && navigations == old(navigations)
    {
      formData := form;
    }

    /**
     * `handleSubmit`. An invalid form leaves its error map and touches neither the store nor
     * the route. A valid one is normalised and handed to `createAudit`, whose outcome is
     * returned; the page navigates to "/audits" exactly when that succeeds, and a failure
     * leaves the errors empty.
     */
    method HandleSubmit(store: AuditStore, user: Option<User>, auditInsertFails: bool, checklistInsertFails: bool,
                        newId: string, itemIds: seq<string>, now: string)
      returns (ghost outcome: Option<Result<AuditRow, CreateError>>)
      requires store.Valid()
      requires newId !in AuditIds(store.audits)
      requires |itemIds| == |OwaspTop10_2021()|
      modifies this, store
      ensures store.Valid()
      ensures formData == old(formData)
      ensures outcome.Some? <==> AuditFormValid(formData)
      ensures outcome.None? ==>
        && errors == FieldErrorMap(AuditIssues(formData))
        && navigations == old(navigations)
        && store.Contents() == old(store.Contents())
      ensures outcome.Some? ==>
        && errors == map[]
        && CreateAuditOutcome(old(store.Contents()), store.Contents(), user, NormalizeAudit(formData),
                              auditInsertFails, checklistInsertFails, newId, itemIds, now, outcome.value)
        && (outcome.value.Ok? ==> navigations == old(navigations) + ["/audits"])
        && (outcome.value.Err? ==> navigations == old(navigations))
    {
      errors := map[];
      var issues := AuditIssues(formData);
      if issues != [] {
        var fieldErrors := BuildFieldErrors(issues);
        errors := fieldErrors;
        return None;
      }
      var r := store.CreateAudit(user, NormalizeAudit(formData), auditInsertFails, checklistInsertFails,
                                 newId, itemIds, now);
      outcome := Some(r);
      if r.Ok? {
        navigations := navigations + ["/audits"];
      }
    }
  }
}

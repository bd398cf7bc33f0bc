/**
 * The database schema the client is typed against: the three enumerations, their
 * runtime constant lists, the Row and Insert shapes of the tables the core writes,
 * and the foreign keys between them.
 */
module SupabaseTypes {
  import opened Wrappers
  import opened Sequences

  // ---------------------------------------------------------------- enumerations

  datatype AuditStatus = Planning | InProgress | Completed | OnHold
  datatype FindingSeverity = Critical | High | Medium | Low | Info
  datatype FindingStatus = Open | Fixed | AcceptedRisk | FalsePositive

  /** The strings the database stores for each enumeration value. */
  function AuditStatusName(s: AuditStatus): (n: string)
    ensures n in AuditStatusValues
  {
    match s
    case Planning => "planning"
    case InProgress => "in_progress"
    case Completed => "completed"
    case OnHold => "on_hold"
  }

  function FindingSeverityName(s: FindingSeverity): (n: string)
    ensures n in FindingSeverityValues
  {
    match s
    case Critical => "critical"
    case High => "high"
    case Medium => "medium"
    case Low => "low"
    case Info => "info"
  }

  function FindingStatusName(s: FindingStatus): (n: string)
    ensures n in FindingStatusValues
  {
    match s
    case Open => "open"
    case Fixed => "fixed"
    case AcceptedRisk => "accepted_risk"
    case FalsePositive => "false_positive"
  }

  /** `Constants.public.Enums`: the runtime lists, in declaration order. */
  const AuditStatusValues: seq<string> := ["planning", "in_progress", "completed", "on_hold"]
  const FindingSeverityValues: seq<string> := ["critical", "high", "medium", "low", "info"]
  const FindingStatusValues: seq<string> := ["open", "fixed", "accepted_risk", "false_positive"]

  /** Every value of each enumeration, in the order of the union type. */
  const AllAuditStatuses: seq<AuditStatus> := [Planning, InProgress, Completed, OnHold]
  const AllFindingSeverities: seq<FindingSeverity> := [Critical, High, Medium, Low, Info]
  const AllFindingStatuses: seq<FindingStatus> := [Open, Fixed, AcceptedRisk, FalsePositive]

  /** Reads an enumeration value back from its stored string. */
  function ParseAuditStatus(name: string): (r: Option<AuditStatus>)
    ensures r.Some? <==> name in AuditStatusValues
    ensures forall s :: r == Some(s) <==> AuditStatusName(s) == name
  {
    if name == "planning" then Some(Planning)
    else if name == "in_progress" then Some(InProgress)
    else if name == "completed" then Some(Completed)
    else if name == "on_hold" then Some(OnHold)
    else None
  }

  function ParseFindingSeverity(name: string): (r: Option<FindingSeverity>)
    ensures r.Some? <==> name in FindingSeverityValues
    ensures forall s :: r == Some(s) <==> FindingSeverityName(s) == name
  {
    if name == "critical" then Some(Critical)
    else if name == "high" then Some(High)
    else if name == "medium" then Some(Medium)
    else if name == "low" then Some(Low)
    else if name == "info" then Some(Info)
    else None
  }

  function ParseFindingStatus(name: string): (r: Option<FindingStatus>)
    ensures r.Some? <==> name in FindingStatusValues
    ensures forall s :: r == Some(s) <==> FindingStatusName(s) == name
  {
    if name == "open" then Some(Open)
    else if name == "fixed" then Some(Fixed)
    else if name == "accepted_risk" then Some(AcceptedRisk)
    else if name == "false_positive" then Some(FalsePositive)
    else None
  }

  /** Each constant list names every union member once, in the union's order, and nothing else. */
  lemma AuditStatusConstantsExact()
    ensures |AuditStatusValues| == |AllAuditStatuses| == 4
    ensures forall i :: 0 <= i < |AuditStatusValues| ==> AuditStatusValues[i] == AuditStatusName(AllAuditStatuses[i])
    ensures Distinct(AuditStatusValues)
    ensures forall s :: AuditStatusName(s) in AuditStatusValues
  {
  }

  lemma FindingSeverityConstantsExact()
    ensures |FindingSeverityValues| == |AllFindingSeverities| == 5
    ensures forall i :: 0 <= i < |FindingSeverityValues| ==> FindingSeverityValues[i] == FindingSeverityName(AllFindingSeverities[i])
    ensures Distinct(FindingSeverityValues)
    ensures forall s :: FindingSeverityName(s) in FindingSeverityValues
  {
  }

  lemma FindingStatusConstantsExact()
    ensures |FindingStatusValues| == |AllFindingStatuses| == 4
    ensures forall i :: 0 <= i < |FindingStatusValues| ==> FindingStatusValues[i] == FindingStatusName(AllFindingStatuses[i])
    ensures Distinct(FindingStatusValues)
    ensures forall s :: FindingStatusName(s) in FindingStatusValues
  {
  }

  // ---------------------------------------------------------------- rows

  /** `audits.Row`. */
  datatype AuditRow = AuditRow(
    id: string,
    name: string,
    client_name: string,
    target: Option<string>,
    description: Option<string>,
    start_date: Option<string>,
    end_date: Option<string>,
    status: AuditStatus,
    user_id: string,
    created_at: string,
    updated_at: string)

  /** `checklist_items.Row`. */
  datatype ChecklistItemRow = ChecklistItemRow(
    id: string,
    audit_id: string,
    owasp_code: string,
    owasp_category: string,
    title: string,
    description: Option<string>,
    checked: bool,
    notes: Option<string>,
    created_at: string,
    updated_at: string)

  /** `findings.Row` (the score is a number; NaN is not modelled). */
  datatype FindingRow = FindingRow(
    id: string,
    audit_id: string,
    checklist_item_id: Option<string>,
    title: string,
    description: Option<string>,
    proof_of_concept: Option<string>,
    remediation: Option<string>,
    affected_url: Option<string>,
    severity: FindingSeverity,
    status: FindingStatus,
    cvss_score: Option<real>,
    user_id: string,
    created_at: string,
    updated_at: string)

  /** `attachments.Row`. */
  datatype AttachmentRow = AttachmentRow(
    id: string,
    finding_id: string,
    file_name: string,
    file_path: string,
    file_size: Option<real>,
    file_type: Option<string>,
    user_id: string,
    created_at: string)

  // ---------------------------------------------------------------- inserts

  /**
   * `audits.Insert` without the server-filled `id`, `created_at` and `updated_at`.
   * `status` may be omitted; the four optional texts may be omitted or null.
   */
  datatype AuditInsert = AuditInsert(
    client_name: string,
    name: string,
    user_id: string,
    status: Field<AuditStatus>,
    target: Field<Option<string>>,
    description: Field<Option<string>>,
    start_date: Field<Option<string>>,
    end_date: Field<Option<string>>)

  /** `Omit<AuditInsert, "user_id">`: what the create-audit mutation receives. */
  datatype AuditDraft = AuditDraft(
    client_name: string,
    name: string,
    status: Field<AuditStatus>,
    target: Field<Option<string>>,
    description: Field<Option<string>>,
    start_date: Field<Option<string>>,
    end_date: Field<Option<string>>)

  /** `{ ...audit, user_id }`: the draft with its owner attached. */
  function OwnedBy(draft: AuditDraft, userId: string): (ins: AuditInsert)
    ensures ins.user_id == userId
    ensures ins.client_name == draft.client_name && ins.name == draft.name && ins.status == draft.status
    ensures ins.target == draft.target && ins.description == draft.description
    ensures ins.start_date == draft.start_date && ins.end_date == draft.end_date
  {
    AuditInsert(draft.client_name, draft.name, userId, draft.status,
                draft.target, draft.description, draft.start_date, draft.end_date)
  }

  /** `checklist_items.Insert` without the server-filled columns. */
  datatype ChecklistItemInsert = ChecklistItemInsert(
    audit_id: string,
    owasp_category: string,
    owasp_code: string,
    title: string,
    checked: Field<bool>,
    notes: Field<Option<string>>,
    description: Field<Option<string>>)

  /** `findings.Insert` without the server-filled columns. */
  datatype FindingInsert = FindingInsert(
    audit_id: string,
    title: string,
    user_id: string,
    severity: Field<FindingSeverity>,
    status: Field<FindingStatus>,
    cvss_score: Field<Option<real>>,
    checklist_item_id: Field<Option<string>>,
    description: Field<Option<string>>,
    proof_of_concept: Field<Option<string>>,
    remediation: Field<Option<string>>,
    affected_url: Field<Option<string>>)

  // ---------------------------------------------------------------- inserting

  /** A nullable column the insert left out is stored as null. */
  function StoredText(f: Field<Option<string>>): Option<string> {
    f.OrDefault(None)
  }

  /** The stored value of a nullable column is the given value, or null when the insert left it out. */
  predicate Keeps<T(==)>(f: Field<Option<T>>, stored: Option<T>) {
    (f.Given? ==> stored == f.value) && (f.Omitted? ==> stored.None?)
  }

  /**
   * The row the store keeps for an audit insert; `id` and `now` are the values the server assigns.
   * An omitted status takes the column default, planning.
   */
  function InsertedAudit(ins: AuditInsert, id: string, now: string): (r: AuditRow)
    ensures r.id == id && r.user_id == ins.user_id && r.name == ins.name && r.client_name == ins.client_name
    ensures ins.status.Given? ==> r.status == ins.status.value
    ensures ins.status.Omitted? ==> r.status == Planning
    ensures Keeps(ins.target, r.target) && Keeps(ins.description, r.description)
    ensures Keeps(ins.start_date, r.start_date) && Keeps(ins.end_date, r.end_date)
    ensures r.created_at == now && r.updated_at == now
  {
    AuditRow(id, ins.name, ins.client_name, StoredText(ins.target), StoredText(ins.description),
             StoredText(ins.start_date), StoredText(ins.end_date), ins.status.OrDefault(Planning),
             ins.user_id, now, now)
  }

  /** The row the store keeps for a checklist item insert; an omitted `checked` is false. */
  function InsertedChecklistItem(ins: ChecklistItemInsert, id: string, now: string): (r: ChecklistItemRow)
    ensures r.id == id && r.audit_id == ins.audit_id && r.owasp_code == ins.owasp_code
    ensures r.owasp_category == ins.owasp_category && r.title == ins.title
    ensures r.checked == (ins.checked.Given? && ins.checked.value)
    ensures Keeps(ins.notes, r.notes) && Keeps(ins.description, r.description)
    ensures r.created_at == now && r.updated_at == now
  {
    ChecklistItemRow(id, ins.audit_id, ins.owasp_code, ins.owasp_category, ins.title,
                     StoredText(ins.description), ins.checked.OrDefault(false), StoredText(ins.notes), now, now)
  }

  /** The row the store keeps for a finding insert; omitted severity and status are medium and open. */
  function InsertedFinding(ins: FindingInsert, id: string, now: string): (r: FindingRow)
    ensures r.id == id && r.audit_id == ins.audit_id && r.title == ins.title && r.user_id == ins.user_id
    ensures ins.severity.Given? ==> r.severity == ins.severity.value
    ensures ins.severity.Omitted? ==> r.severity == Medium
    ensures ins.status.Given? ==> r.status == ins.status.value
    ensures ins.status.Omitted? ==> r.status == Open
    ensures Keeps(ins.cvss_score, r.cvss_score) && Keeps(ins.checklist_item_id, r.checklist_item_id)
    ensures Keeps(ins.description, r.description) && Keeps(ins.proof_of_concept, r.proof_of_concept)
    ensures Keeps(ins.remediation, r.remediation) && Keeps(ins.affected_url, r.affected_url)
    ensures r.created_at == now && r.updated_at == now
  {
    FindingRow(id, ins.audit_id, ins.checklist_item_id.OrDefault(None), ins.title, StoredText(ins.description),
               StoredText(ins.proof_of_concept), StoredText(ins.remediation), StoredText(ins.affected_url),
               ins.severity.OrDefault(Medium), ins.status.OrDefault(Open), ins.cvss_score.OrDefault(None),
               ins.user_id, now, now)
  }

  // ---------------------------------------------------------------- foreign keys

  function AuditIds(audits: seq<AuditRow>): set<string> {
    set a | a in audits :: a.id
  }

  function ChecklistItemIds(items: seq<ChecklistItemRow>): set<string> {
    set c | c in items :: c.id
  }

  function FindingIds(findings: seq<FindingRow>): set<string> {
    set f | f in findings :: f.id
  }

  /**
   * The four foreign keys: checklist_items.audit_id and findings.audit_id reference audits.id,
   * a non-null findings.checklist_item_id references checklist_items.id, and
   * attachments.finding_id references findings.id.
   */
  predicate ForeignKeysHold(audits: seq<AuditRow>, items: seq<ChecklistItemRow>,
                            findings: seq<FindingRow>, attachments: seq<AttachmentRow>)
  {
    && (forall c :: c in items ==> c.audit_id in AuditIds(audits))
    && (forall f :: f in findings ==> f.audit_id in AuditIds(audits))
    && (forall f :: f in findings && f.checklist_item_id.Some? ==> f.checklist_item_id.value in ChecklistItemIds(items))
    && (forall t :: t in attachments ==> t.finding_id in FindingIds(findings))
  }

  /** Adding rows to the parent tables never breaks a foreign key. */
  lemma ForeignKeysSurviveParentInserts(audits: seq<AuditRow>, items: seq<ChecklistItemRow>,
                                        findings: seq<FindingRow>, attachments: seq<AttachmentRow>,
                                        newAudits: seq<AuditRow>, newItems: seq<ChecklistItemRow>)
    requires ForeignKeysHold(audits, items, findings, attachments)
    requires forall c :: c in newItems ==> c.audit_id in AuditIds(audits + newAudits)
    ensures ForeignKeysHold(audits + newAudits, items + newItems, findings, attachments)
  {
    assert AuditIds(audits) <= AuditIds(audits + newAudits);
    assert ChecklistItemIds(items) <= ChecklistItemIds(items + newItems);
  }
}

/**
 * The JSON shape of the Insert types: which properties each table requires, which it
 * accepts, which may be null, and the bodies the typed payloads are sent as.
 */
module InsertShapes {
  import opened Wrappers
  import opened SupabaseTypes

  /** A JSON value as sent in an insert body. */
  datatype Json = JNull | JString(str: string) | JNumber(num: real) | JBool(b: bool)

  datatype Table = Audits | ChecklistItems | Findings

  /** The property names the three Insert types use. */
  datatype ColumnName =
    | AffectedUrl | AuditId | Checked | ChecklistItemId | ClientName | CreatedAt | CvssScore
    | Description | EndDate | Id | Name | Notes | OwaspCategory | OwaspCode | ProofOfConcept
    | Remediation | Severity | StartDate | Status | Target | Title | UpdatedAt | UserId

  /** The key under which a property travels. */
  function Key(c: ColumnName): string {
    match c
    case AffectedUrl => "affected_url"
    case AuditId => "audit_id"
    case Checked => "checked"
    case ChecklistItemId => "checklist_item_id"
    case ClientName => "client_name"
    case CreatedAt => "created_at"
    case CvssScore => "cvss_score"
    case Description => "description"
    case EndDate => "end_date"
    case Id => "id"
    case Name => "name"
    case Notes => "notes"
    case OwaspCategory => "owasp_category"
    case OwaspCode => "owasp_code"
    case ProofOfConcept => "proof_of_concept"
    case Remediation => "remediation"
    case Severity => "severity"
    case StartDate => "start_date"
    case Status => "status"
    case Target => "target"
    case Title => "title"
    case UpdatedAt => "updated_at"
    case UserId => "user_id"
  }

  datatype ColumnType = TString | TNumber | TBool | TEnum(values: seq<string>)

  /** One property of an Insert type: its type, whether it must be present, whether it may be null. */
  datatype Column = Column(ty: ColumnType, required: bool, nullable: bool)

  function Required(ty: ColumnType): Column { Column(ty, true, false) }
  function Optional(ty: ColumnType): Column { Column(ty, false, false) }
  function OptionalNullable(ty: ColumnType): Column { Column(ty, false, true) }

  /** The Insert type of each table; None for a property the table does not have. */
  function InsertColumn(t: Table, c: ColumnName): Option<Column> {
    match t
    case Audits => AuditsInsertColumn(c)
    case ChecklistItems => ChecklistItemsInsertColumn(c)
    case Findings => FindingsInsertColumn(c)
  }

  /** `audits.Insert`. */
  function AuditsInsertColumn(c: ColumnName): Option<Column> {
    match c
    case ClientName => Some(Required(TString))
    case CreatedAt => Some(Optional(TString))
    case Description => Some(OptionalNullable(TString))
    case EndDate => Some(OptionalNullable(TString))
    case Id => Some(Optional(TString))
    case Name => Some(Required(TString))
    case StartDate => Some(OptionalNullable(TString))
    case Status => Some(Optional(TEnum(AuditStatusValues)))
    case Target => Some(OptionalNullable(TString))
    case UpdatedAt => Some(Optional(TString))
    case UserId => Some(Required(TString))
    case _ => None
  }

  /** `checklist_items.Insert`. */
  function ChecklistItemsInsertColumn(c: ColumnName): Option<Column> {
    match c
    case AuditId => Some(Required(TString))
    case Checked => Some(Optional(TBool))
    case CreatedAt => Some(Optional(TString))
    case Description => Some(OptionalNullable(TString))
    case Id => Some(Optional(TString))
    case Notes => Some(OptionalNullable(TString))
    case OwaspCategory => Some(Required(TString))
    case OwaspCode => Some(Required(TString))
    case Title => Some(Required(TString))
    case UpdatedAt => Some(Optional(TString))
    case _ => None
  }

  /** `findings.Insert`. */
  function FindingsInsertColumn(c: ColumnName): Option<Column> {
    match c
    case AffectedUrl => Some(OptionalNullable(TString))
    case AuditId => Some(Required(TString))
    case ChecklistItemId => Some(OptionalNullable(TString))
    case CreatedAt => Some(Optional(TString))
    case CvssScore => Some(OptionalNullable(TNumber))
    case Description => Some(OptionalNullable(TString))
    case Id => Some(Optional(TString))
    case ProofOfConcept => Some(OptionalNullable(TString))
    case Remediation => Some(OptionalNullable(TString))
    case Severity => Some(Optional(TEnum(FindingSeverityValues)))
    case Status => Some(Optional(TEnum(FindingStatusValues)))
    case Title => Some(Required(TString))
    case UpdatedAt => Some(Optional(TString))
    case UserId => Some(Required(TString))
    case _ => None
  }

  predicate IsRequired(t: Table, c: ColumnName) {
    InsertColumn(t, c).Some? && InsertColumn(t, c).value.required
  }

  predicate HasType(v: Json, ty: ColumnType) {
    match ty
    case TString => v.JString?
    case TNumber => v.JNumber?
    case TBool => v.JBool?
    case TEnum(values) => v.JString? && v.str in values
  }

  predicate Fits(v: Json, c: Column) {
    HasType(v, c.ty) || (c.nullable && v.JNull?)
  }

  /** Every key of the record is a property of the table and its value has that property's type. */
  predicate Typed(t: Table, rec: map<ColumnName, Json>) {
    forall c :: c in rec ==> InsertColumn(t, c).Some? && Fits(rec[c], InsertColumn(t, c).value)
  }

  /** A well-formed Insert record: no unknown keys, every value typed, every required key present. */
  predicate Conforms(t: Table, rec: map<ColumnName, Json>) {
    Typed(t, rec) && forall c :: IsRequired(t, c) ==> c in rec
  }

  /** Which properties each Insert type demands. */
  lemma RequiredColumns(c: ColumnName)
    ensures IsRequired(Audits, c) <==> c in {ClientName, Name, UserId}
    ensures IsRequired(ChecklistItems, c) <==> c in {AuditId, OwaspCategory, OwaspCode, Title}
    ensures IsRequired(Findings, c) <==> c in {AuditId, Title, UserId}
  {
  }

  /** Leaving out an optional property keeps a record well formed; leaving out a required one never does. */
  lemma OmittingAKey(t: Table, rec: map<ColumnName, Json>, c: ColumnName)
    requires Conforms(t, rec) && c in rec
    ensures Conforms(t, rec - {c}) <==> !IsRequired(t, c)
  {
    if IsRequired(t, c) {
      assert c !in rec - {c};
    }
  }

  function NullableText(x: Option<string>): Json {
    match x
    case Some(s) => JString(s)
    case None => JNull
  }

  function NullableNumber(x: Option<real>): Json {
    match x
    case Some(n) => JNumber(n)
    case None => JNull
  }

  function Text(f: Field<Option<string>>): Field<Json> {
    match f
    case Given(x) => Given(NullableText(x))
    case Omitted => Omitted
  }

  function Enum<T>(f: Field<T>, name: T -> string): Field<Json> {
    match f
    case Given(x) => Given(JString(name(x)))
    case Omitted => Omitted
  }

  /** Every property name, so that a body built column by column is a finite map. */
  const AllColumns: set<ColumnName> := {
    AffectedUrl, AuditId, Checked, ChecklistItemId, ClientName, CreatedAt, CvssScore,
    Description, EndDate, Id, Name, Notes, OwaspCategory, OwaspCode, ProofOfConcept,
    Remediation, Severity, StartDate, Status, Target, Title, UpdatedAt, UserId}

  lemma EveryColumnListed(c: ColumnName)
    ensures c in AllColumns
  {
  }

  /** The body holding exactly the columns a payload gives. */
  function Body(entry: ColumnName -> Field<Json>): (m: map<ColumnName, Json>)
    ensures forall c :: c in m <==> entry(c).Given?
    ensures forall c :: c in m ==> m[c] == entry(c).value
  {
    forall c: ColumnName ensures c in AllColumns { EveryColumnListed(c); }
    map c | c in AllColumns && entry(c).Given? :: entry(c).value
  }

  /** What an audit payload says about each column. */
  function AuditEntry(a: AuditInsert, c: ColumnName): Field<Json> {
    match c
    case ClientName => Given(JString(a.client_name))
    case Name => Given(JString(a.name))
    case UserId => Given(JString(a.user_id))
    case Status => Enum(a.status, AuditStatusName)
    case Target => Text(a.target)
    case Description => Text(a.description)
    case StartDate => Text(a.start_date)
    case EndDate => Text(a.end_date)
    case _ => Omitted
  }

  function ChecklistItemEntry(i: ChecklistItemInsert, c: ColumnName): Field<Json> {
    match c
    case AuditId => Given(JString(i.audit_id))
    case OwaspCategory => Given(JString(i.owasp_category))
    case OwaspCode => Given(JString(i.owasp_code))
    case Title => Given(JString(i.title))
    case Checked => (match i.checked case Given(b) => Given(JBool(b)) case Omitted => Omitted)
    case Notes => Text(i.notes)
    case Description => Text(i.description)
    case _ => Omitted
  }

  function FindingEntry(f: FindingInsert, c: ColumnName): Field<Json> {
    match c
    case AuditId => Given(JString(f.audit_id))
    case Title => Given(JString(f.title))
    case UserId => Given(JString(f.user_id))
    case Severity => Enum(f.severity, FindingSeverityName)
    case Status => Enum(f.status, FindingStatusName)
    case CvssScore => (match f.cvss_score case Given(x) => Given(NullableNumber(x)) case Omitted => Omitted)
    case ChecklistItemId => Text(f.checklist_item_id)
    case Description => Text(f.description)
    case ProofOfConcept => Text(f.proof_of_concept)
    case Remediation => Text(f.remediation)
    case AffectedUrl => Text(f.affected_url)
    case _ => Omitted
  }

  /** One column of a body built from `entry` is right for the table. */
  predicate EntryFits(t: Table, c: ColumnName, v: Field<Json>) {
    && (v.Given? ==> InsertColumn(t, c).Some? && Fits(v.value, InsertColumn(t, c).value))
    && (IsRequired(t, c) ==> v.Given?)
  }

  lemma BodyConforms(t: Table, entry: ColumnName -> Field<Json>)
    requires forall c :: EntryFits(t, c, entry(c))
    ensures Conforms(t, Body(entry))
  {
  }

  lemma AuditEntryFits(a: AuditInsert, c: ColumnName)
    ensures EntryFits(Audits, c, AuditEntry(a, c))
  {
  }

  lemma ChecklistItemEntryFits(i: ChecklistItemInsert, c: ColumnName)
    ensures EntryFits(ChecklistItems, c, ChecklistItemEntry(i, c))
  {
  }

  lemma FindingEntryFits(f: FindingInsert, c: ColumnName)
    ensures EntryFits(Findings, c, FindingEntry(f, c))
  {
  }

  /** The JSON body of an audit insert: a well-formed `audits.Insert`. */
  function EncodeAuditInsert(a: AuditInsert): (m: map<ColumnName, Json>)
    ensures Conforms(Audits, m)
  {
    var entry := c => AuditEntry(a, c);
    forall c ensures EntryFits(Audits, c, entry(c)) { AuditEntryFits(a, c); }
    BodyConforms(Audits, entry);
    Body(entry)
  }

  /** The JSON body of one checklist item insert: a well-formed `checklist_items.Insert`. */
  function EncodeChecklistItemInsert(i: ChecklistItemInsert): (m: map<ColumnName, Json>)
    ensures Conforms(ChecklistItems, m)
  {
    var entry := c => ChecklistItemEntry(i, c);
    forall c ensures EntryFits(ChecklistItems, c, entry(c)) { ChecklistItemEntryFits(i, c); }
    BodyConforms(ChecklistItems, entry);
    Body(entry)
  }

  /** The JSON body of a finding insert: a well-formed `findings.Insert`. */
  function EncodeFindingInsert(f: FindingInsert): (m: map<ColumnName, Json>)
    ensures Conforms(Findings, m)
  {
    var entry := c => FindingEntry(f, c);
    forall c ensures EntryFits(Findings, c, entry(c)) { FindingEntryFits(f, c); }
    BodyConforms(Findings, entry);
    Body(entry)
  }

  /** The value a body holds for a column, if any. */
  function Lookup(m: map<ColumnName, Json>, c: ColumnName): Option<Json> {
    if c in m then Some(m[c]) else None
  }

  /** A nullable text the payload gives is under its key (null as null); an omitted one has no key. */
  predicate HoldsText(m: map<ColumnName, Json>, c: ColumnName, f: Field<Option<string>>) {
    && (f.Omitted? ==> Lookup(m, c) == None)
    && (f.Given? ==> Lookup(m, c) == Some(NullableText(f.value)))
  }

  /** An enumeration value the payload gives is under its key by name; an omitted one has no key. */
  predicate HoldsEnum<T>(m: map<ColumnName, Json>, c: ColumnName, f: Field<T>, name: T -> string) {
    && (f.Omitted? ==> Lookup(m, c) == None)
    && (f.Given? ==> Lookup(m, c) == Some(JString(name(f.value))))
  }

  /**
   * The audit body carries the caller's three required fields, the status by name exactly when
   * given, and each of the four nullable texts exactly when given.
   */
  lemma EncodeAuditInsertFields(a: AuditInsert)
    ensures var m := EncodeAuditInsert(a);
      && Lookup(m, Name) == Some(JString(a.name))
      && Lookup(m, ClientName) == Some(JString(a.client_name))
      && Lookup(m, UserId) == Some(JString(a.user_id))
      && HoldsEnum(m, Status, a.status, AuditStatusName)
      && HoldsText(m, Target, a.target) && HoldsText(m, Description, a.description)
      && HoldsText(m, StartDate, a.start_date) && HoldsText(m, EndDate, a.end_date)
  {
    var m := EncodeAuditInsert(a);
    assert m == Body(c => AuditEntry(a, c));
    assert AuditEntry(a, Name) == Given(JString(a.name));
    assert AuditEntry(a, ClientName) == Given(JString(a.client_name));
    assert AuditEntry(a, UserId) == Given(JString(a.user_id));
    assert AuditEntry(a, Status) == Enum(a.status, AuditStatusName);
    assert AuditEntry(a, Target) == Text(a.target);
    assert AuditEntry(a, Description) == Text(a.description);
    assert AuditEntry(a, StartDate) == Text(a.start_date);
    assert AuditEntry(a, EndDate) == Text(a.end_date);
  }

  /**
   * The checklist item body carries the four required fields, and `checked`, the notes and the
   * description exactly when given.
   */
  lemma EncodeChecklistItemInsertFields(i: ChecklistItemInsert)
    ensures var m := EncodeChecklistItemInsert(i);
      && Lookup(m, AuditId) == Some(JString(i.audit_id))
      && Lookup(m, OwaspCode) == Some(JString(i.owasp_code))
      && Lookup(m, OwaspCategory) == Some(JString(i.owasp_category))
      && Lookup(m, Title) == Some(JString(i.title))
      && (i.checked.Omitted? ==> Lookup(m, Checked) == None)
      && (i.checked.Given? ==> Lookup(m, Checked) == Some(JBool(i.checked.value)))
      && HoldsText(m, Notes, i.notes) && HoldsText(m, Description, i.description)
  {
    var m := EncodeChecklistItemInsert(i);
    assert m == Body(c => ChecklistItemEntry(i, c));
    assert ChecklistItemEntry(i, AuditId) == Given(JString(i.audit_id));
    assert ChecklistItemEntry(i, OwaspCode) == Given(JString(i.owasp_code));
    assert ChecklistItemEntry(i, OwaspCategory) == Given(JString(i.owasp_category));
    assert ChecklistItemEntry(i, Title) == Given(JString(i.title));
    assert ChecklistItemEntry(i, Notes) == Text(i.notes);
    assert ChecklistItemEntry(i, Description) == Text(i.description);
  }

  /**
   * The finding body carries the three required fields, the severity and status by name, and
   * the score (null as null), each exactly when given.
   */
  lemma EncodeFindingInsertFields(f: FindingInsert)
    ensures var m := EncodeFindingInsert(f);
      && Lookup(m, AuditId) == Some(JString(f.audit_id))
      && Lookup(m, Title) == Some(JString(f.title))
      && Lookup(m, UserId) == Some(JString(f.user_id))
      && (f.cvss_score.Omitted? ==> Lookup(m, CvssScore) == None)
      && (f.cvss_score.Given? ==> Lookup(m, CvssScore) == Some(NullableNumber(f.cvss_score.value)))
      && HoldsEnum(m, Severity, f.severity, FindingSeverityName)
      && HoldsEnum(m, Status, f.status, FindingStatusName)
  {
    var m := EncodeFindingInsert(f);
    assert m == Body(c => FindingEntry(f, c));
    assert FindingEntry(f, AuditId) == Given(JString(f.audit_id));
    assert FindingEntry(f, Title) == Given(JString(f.title));
    assert FindingEntry(f, UserId) == Given(JString(f.user_id));
    assert FindingEntry(f, Severity) == Enum(f.severity, FindingSeverityName);
    assert FindingEntry(f, Status) == Enum(f.status, FindingStatusName);
  }

  /** The finding body carries each of the five nullable texts exactly when given. */
  lemma EncodeFindingInsertTexts(f: FindingInsert)
    ensures var m := EncodeFindingInsert(f);
      && HoldsText(m, ChecklistItemId, f.checklist_item_id) && HoldsText(m, Description, f.description)
      && HoldsText(m, ProofOfConcept, f.proof_of_concept) && HoldsText(m, Remediation, f.remediation)
      && HoldsText(m, AffectedUrl, f.affected_url)
  {
    var m := EncodeFindingInsert(f);
    assert m == Body(c => FindingEntry(f, c));
    assert FindingEntry(f, ChecklistItemId) == Text(f.checklist_item_id);
    assert FindingEntry(f, Description) == Text(f.description);
    assert FindingEntry(f, ProofOfConcept) == Text(f.proof_of_concept);
    assert FindingEntry(f, Remediation) == Text(f.remediation);
    assert FindingEntry(f, AffectedUrl) == Text(f.affected_url);
  }
}

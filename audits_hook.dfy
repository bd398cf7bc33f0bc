/**
 * The audits hook: the two-step `createAudit` mutation against an in-memory store, and the
 * single-audit query of `useAudit`.
 */
module AuditsHook {
  import opened Wrappers
  import opened Sequences
  import opened SupabaseTypes
  import opened OwaspChecklist

  /** The signed-in user, as far as the hook reads it. */
  datatype User = User(id: string)

  /** Why `createAudit` threw. */
  datatype CreateError = NotAuthenticated | AuditInsertFailed | ChecklistInsertFailed {
    function Message(): string
      requires NotAuthenticated?
    {
      "Not authenticated"
    }
  }

  /** The rows the store keeps for a batch of checklist inserts, with the ids the server assigns. */
  function InsertedRows(inserts: seq<ChecklistItemInsert>, ids: seq<string>, now: string): (rows: seq<ChecklistItemRow>)
    requires |ids| == |inserts|
    ensures |rows| == |inserts|
    ensures forall i :: 0 <= i < |rows| ==> rows[i] == InsertedChecklistItem(inserts[i], ids[i], now)
  {
    seq(|inserts|, i requires 0 <= i < |inserts| => InsertedChecklistItem(inserts[i], ids[i], now))
  }

  /** The checklist rows of one audit, in store order. */
  function ItemsOfAudit(items: seq<ChecklistItemRow>, auditId: string): (r: seq<ChecklistItemRow>)
    ensures |r| <= |items|
    ensures forall c :: c in r <==> c in items && c.audit_id == auditId
    decreases |items|
  {
    if items == [] then []
    else (if items[0].audit_id == auditId then [items[0]] else []) + ItemsOfAudit(items[1..], auditId)
  }

  /** The filter keeps every row of the audit as often as it occurs, and no other row. */
  lemma {:induction false} ItemsOfAuditMultiplicity(items: seq<ChecklistItemRow>, auditId: string, c: ChecklistItemRow)
    ensures multiset(ItemsOfAudit(items, auditId))[c] == if c.audit_id == auditId then multiset(items)[c] else 0
    decreases |items|
  {
    if items != [] {
      ItemsOfAuditMultiplicity(items[1..], auditId, c);
      assert items == [items[0]] + items[1..];
    }
  }

  lemma {:induction false} ItemsOfAuditAppend(a: seq<ChecklistItemRow>, b: seq<ChecklistItemRow>, auditId: string)
    ensures ItemsOfAudit(a + b, auditId) == ItemsOfAudit(a, auditId) + ItemsOfAudit(b, auditId)
    decreases |a|
  {
    if a != [] {
      assert (a + b)[1..] == a[1..] + b;
      ItemsOfAuditAppend(a[1..], b, auditId);
    } else {
      assert a + b == b;
    }
  }

  /** Seeded rows all belong to the audit they were seeded for. */
  lemma SeededRowsBelongTo(auditId: string, table: seq<OwaspItem>, ids: seq<string>, now: string)
    requires |ids| == |table|
    ensures var rows := InsertedRows(Seed(auditId, table), ids, now);
      forall c :: c in rows ==> c.audit_id == auditId
  {
  }

  /** Every row of a list that all belongs to one audit is kept by that audit's filter. */
  lemma {:induction false} ItemsOfOwnAudit(rows: seq<ChecklistItemRow>, auditId: string)
    requires forall c :: c in rows ==> c.audit_id == auditId
    ensures ItemsOfAudit(rows, auditId) == rows
    decreases |rows|
  {
    if rows != [] {
      assert forall c :: c in rows[1..] ==> c in rows;
      ItemsOfOwnAudit(rows[1..], auditId);
      assert rows == [rows[0]] + rows[1..];
    }
  }

  /** No row refers to an audit that is not stored. */
  lemma {:induction false} NoItemsOfUnknownAudit(items: seq<ChecklistItemRow>, audits: seq<AuditRow>, auditId: string)
    requires forall c :: c in items ==> c.audit_id in AuditIds(audits)
    requires auditId !in AuditIds(audits)
    ensures ItemsOfAudit(items, auditId) == []
  {
    if ItemsOfAudit(items, auditId) != [] {
      assert ItemsOfAudit(items, auditId)[0] in ItemsOfAudit(items, auditId);
    }
  }

  /** An audit id is the primary key of its table. */
  predicate AuditIdsUnique(audits: seq<AuditRow>) {
    forall i, j :: 0 <= i < j < |audits| ==> audits[i].id != audits[j].id
  }

  /** Inserting an audit under a fresh id keeps the keys of the store. */
  lemma AuditInsertKeepsKeys(audits: seq<AuditRow>, items: seq<ChecklistItemRow>, findings: seq<FindingRow>,
                             attachments: seq<AttachmentRow>, newAudit: AuditRow)
    requires AuditIdsUnique(audits) && ForeignKeysHold(audits, items, findings, attachments)
    requires newAudit.id !in AuditIds(audits)
    ensures AuditIdsUnique(audits + [newAudit]) && ForeignKeysHold(audits + [newAudit], items, findings, attachments)
    ensures newAudit.id in AuditIds(audits + [newAudit])
  {
    assert newAudit in audits + [newAudit];
    forall i | 0 <= i < |audits| ensures audits[i].id != newAudit.id {
      assert audits[i] in audits;
    }
    ForeignKeysSurviveParentInserts(audits, items, findings, attachments, [newAudit], []);
  }

  /** Inserting the seeded checklist of a stored audit keeps the keys of the store. */
  lemma ChecklistInsertKeepsKeys(audits: seq<AuditRow>, items: seq<ChecklistItemRow>, findings: seq<FindingRow>,
                                 attachments: seq<AttachmentRow>, auditId: string, table: seq<OwaspItem>,
                                 ids: seq<string>, now: string)
    requires ForeignKeysHold(audits, items, findings, attachments)
    requires auditId in AuditIds(audits) && |ids| == |table|
    ensures ForeignKeysHold(audits, items + InsertedRows(Seed(auditId, table), ids, now), findings, attachments)
  {
    SeededRowsBelongTo(auditId, table, ids, now);
    ForeignKeysSurviveParentInserts(audits, items, findings, attachments, [], InsertedRows(Seed(auditId, table), ids, now));
    assert audits + [] == audits;
  }

  /** The four tables of the store, as one value. */
  datatype Tables = Tables(audits: seq<AuditRow>, checklistItems: seq<ChecklistItemRow>,
                           findings: seq<FindingRow>, attachments: seq<AttachmentRow>)

  /**
   * What the `createAudit` mutation does to the tables and what it settles with, per outcome:
   * no user throws before any write; a failed audit insert writes nothing; a failed checklist
   * insert keeps the new audit without rollback; success keeps the audit and its seeded
   * checklist, inserted as one batch.
   */
  predicate CreateAuditOutcome(before: Tables, after: Tables, user: Option<User>, audit: AuditDraft,
                               auditInsertFails: bool, checklistInsertFails: bool, newId: string,
                               itemIds: seq<string>, now: string, r: Result<AuditRow, CreateError>)
    requires |itemIds| == |OwaspTop10_2021()|
  {
    && after.findings == before.findings && after.attachments == before.attachments
    && (user.None? ==> r == Err(NotAuthenticated) && after == before)
    && (user.Some? && auditInsertFails ==> r == Err(AuditInsertFailed) && after == before)
    && (user.Some? && !auditInsertFails ==>
          after.audits == before.audits + [InsertedAudit(OwnedBy(audit, user.value.id), newId, now)])
    && (user.Some? && !auditInsertFails && checklistInsertFails ==>
          r == Err(ChecklistInsertFailed) && after.checklistItems == before.checklistItems)
    && (user.Some? && !auditInsertFails && !checklistInsertFails ==>
          && r == Ok(InsertedAudit(OwnedBy(audit, user.value.id), newId, now))
          && after.checklistItems == before.checklistItems + InsertedRows(CreateChecklistItemsForAudit(newId), itemIds, now))
  }

  /** The hosted tables the hook writes, held in memory. */
  class AuditStore {
    var audits: seq<AuditRow>
    var checklistItems: seq<ChecklistItemRow>
    var findings: seq<FindingRow>
    var attachments: seq<AttachmentRow>

    /** The primary key of audits and the four foreign keys. */
    predicate Valid()
      reads this
    {
      AuditIdsUnique(audits) && ForeignKeysHold(audits, checklistItems, findings, attachments)
    }

    function Contents(): Tables
      reads this
    {
      Tables(audits, checklistItems, findings, attachments)
    }

    constructor()
      ensures Valid()
      ensures audits == [] && checklistItems == [] && findings == [] && attachments == []
    {
      audits, checklistItems, findings, attachments := [], [], [], [];
    }

    /**
     * The `createAudit` mutation. The outcome of each insert, the id the server gives the
     * audit, the ids it gives the checklist rows and the timestamp are parameters.
     */
    method CreateAudit(user: Option<User>, audit: AuditDraft, auditInsertFails: bool, checklistInsertFails: bool,
                       newId: string, itemIds: seq<string>, now: string)
      returns (r: Result<AuditRow, CreateError>)
      requires Valid()
      requires newId !in AuditIds(audits)
      requires |itemIds| == |OwaspTop10_2021()|
      modifies this
      ensures Valid()
      ensures CreateAuditOutcome(old(Contents()), Contents(), user, audit, auditInsertFails, checklistInsertFails,
                                 newId, itemIds, now, r)
    {
      if user.None? {
        return Err(NotAuthenticated);
      }
      if auditInsertFails {
        return Err(AuditInsertFailed);
      }
      var newAudit := InsertedAudit(OwnedBy(audit, user.value.id), newId, now);
      AuditInsertKeepsKeys(audits, checklistItems, findings, attachments, newAudit);
      audits := audits + [newAudit];
      if checklistInsertFails {
        return Err(ChecklistInsertFailed);
      }
      var checklist := CreateChecklistItemsForAudit(newAudit.id);
      ChecklistInsertKeepsKeys(audits, checklistItems, findings, attachments, newAudit.id, OwaspTop10_2021(), itemIds, now);
      checklistItems := checklistItems + InsertedRows(checklist, itemIds, now);
      return Ok(newAudit);
    }
  }

  /** After a batch of seeded rows, the new audit owns exactly those rows. */
  lemma {:induction false} SeededItemsOfNewAudit(before: seq<ChecklistItemRow>, audits: seq<AuditRow>, newId: string,
                                                 table: seq<OwaspItem>, itemIds: seq<string>, now: string)
    requires forall c :: c in before ==> c.audit_id in AuditIds(audits)
    requires newId !in AuditIds(audits)
    requires |itemIds| == |table|
    ensures ItemsOfAudit(before, newId) == []
    ensures ItemsOfAudit(before + InsertedRows(Seed(newId, table), itemIds, now), newId) == InsertedRows(Seed(newId, table), itemIds, now)
  {
    NoItemsOfUnknownAudit(before, audits, newId);
    var rows := InsertedRows(Seed(newId, table), itemIds, now);
    SeededRowsBelongTo(newId, table, itemIds, now);
    ItemsOfOwnAudit(rows, newId);
    ItemsOfAuditAppend(before, rows, newId);
  }

  /**
   * What a finished `createAudit` leaves for the new audit: none of its checklist rows when
   * the batch failed, and otherwise exactly the ten seeded rows, codes A01 to A10 in order,
   * unchecked and without notes.
   */
  lemma CreatedChecklist(before: seq<ChecklistItemRow>, audits: seq<AuditRow>, newId: string,
                         itemIds: seq<string>, now: string)
    requires forall c :: c in before ==> c.audit_id in AuditIds(audits)
    requires newId !in AuditIds(audits)
    requires |itemIds| == |OwaspTop10_2021()|
    ensures ItemsOfAudit(before, newId) == []
    ensures var mine := ItemsOfAudit(before + InsertedRows(CreateChecklistItemsForAudit(newId), itemIds, now), newId);
      && |mine| == 10
      && (forall i :: 0 <= i < 10 ==> mine[i].owasp_code == CodeFor(i + 1) && !mine[i].checked && mine[i].notes.None?)
  {
    TableCodes();
    SeededItemsOfNewAudit(before, audits, newId, OwaspTop10_2021(), itemIds, now);
  }

  /** `.single()` fails unless exactly one row matched. */
  datatype FetchError = NotSingle(matched: nat)

  /** The rows of `.eq("id", id)`, in store order. */
  function RowsWithId(audits: seq<AuditRow>, id: string): (r: seq<AuditRow>)
    ensures |r| <= |audits|
    ensures forall a :: a in r <==> a in audits && a.id == id
    decreases |audits|
  {
    if audits == [] then []
    else (if audits[0].id == id then [audits[0]] else []) + RowsWithId(audits[1..], id)
  }

  lemma {:induction false} NoRowsWithAbsentId(audits: seq<AuditRow>, id: string)
    requires forall k :: 0 <= k < |audits| ==> audits[k].id != id
    ensures RowsWithId(audits, id) == []
    decreases |audits|
  {
    if audits != [] {
      NoRowsWithAbsentId(audits[1..], id);
    }
  }

  /** With unique ids, at most one row matches an id. */
  lemma {:induction false} RowsWithUniqueId(audits: seq<AuditRow>, id: string)
    requires AuditIdsUnique(audits)
    ensures |RowsWithId(audits, id)| <= 1
    decreases |audits|
  {
    if audits != [] {
      assert AuditIdsUnique(audits[1..]) by {
        forall i, j | 0 <= i < j < |audits[1..]| ensures audits[1..][i].id != audits[1..][j].id {
          assert audits[1..][i] == audits[i + 1] && audits[1..][j] == audits[j + 1];
        }
      }
      RowsWithUniqueId(audits[1..], id);
      if audits[0].id == id {
        forall k | 0 <= k < |audits[1..]| ensures audits[1..][k].id != id {
          assert audits[1..][k] == audits[k + 1];
        }
        NoRowsWithAbsentId(audits[1..], id);
      }
    }
  }

  /** The query function of `useAudit`: no id means no query and a null result. */
  function FetchAudit(id: Option<string>, audits: seq<AuditRow>): (r: Result<Option<AuditRow>, FetchError>)
    ensures (id.None? || id == Some("")) ==> r == Ok(None)
    ensures id.Some? && id.value != "" ==>
      (r.Ok? <==> |RowsWithId(audits, id.value)| == 1) &&
      (r.Ok? ==> r.value.Some? && r.value.value in audits && r.value.value.id == id.value) &&
      (r.Err? ==> r.error.matched == |RowsWithId(audits, id.value)|)
  {
    match id
    case None => Ok(None)
    case Some(key) =>
      if key == "" then Ok(None)
      else
        var rows := RowsWithId(audits, key);
        if |rows| == 1 then
          assert rows[0] in rows;
          Ok(Some(rows[0]))
        else Err(NotSingle(|rows|))
  }

  /** The state of the `useAudit` query: disabled, or the outcome of its query function. */
  datatype AuditQuery = Idle | Fetched(outcome: Result<Option<AuditRow>, FetchError>)

  /** `useAudit(id)`: the query runs only for a signed-in user and a truthy id. */
  function UseAudit(signedIn: bool, id: Option<string>, audits: seq<AuditRow>): (q: AuditQuery)
    ensures q.Fetched? <==> signedIn && id.Some? && id.value != ""
  {
    if signedIn && id.Some? && id.value != "" then Fetched(FetchAudit(id, audits)) else Idle
  }

  /** The null-id branch of the query function is unreachable through the hook. */
  lemma UseAuditNeverNull(signedIn: bool, id: Option<string>, audits: seq<AuditRow>)
    ensures UseAudit(signedIn, id, audits) != Fetched(Ok(None))
  {
  }

  /** With unique ids, the query returns exactly the stored audit with that id, and a miss is an error. */
  lemma FetchFindsStored(audits: seq<AuditRow>, id: string, a: AuditRow)
    requires AuditIdsUnique(audits)
    requires id != ""
    ensures FetchAudit(Some(id), audits) == Ok(Some(a)) <==> a in audits && a.id == id
    ensures id !in AuditIds(audits) <==> FetchAudit(Some(id), audits) == Err(NotSingle(0))
  {
    RowsWithUniqueId(audits, id);
    var rows := RowsWithId(audits, id);
    if a in audits && a.id == id {
      assert a in rows;
    }
    if id in AuditIds(audits) {
      var b :| b in audits && b.id == id;
      assert b in rows;
    }
  }
}

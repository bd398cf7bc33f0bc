# audit-ally, modelled in Dafny

audit-ally is a web application for planning and recording security audits. It runs against a
hosted Postgres backend. A signed-in user creates an **audit** (a client, a target, dates and a
status). Creating an audit seeds a ten-item **checklist**, one item per category of the OWASP
Top 10 (2021). The user then ticks items, writes notes on them and records **findings**, which
carry a severity, a status and an optional CVSS score.

This project models the application's core logic and proves properties of it:

- the schema of the hosted tables;
- the OWASP seed table;
- the form validation of the new-audit page and of the finding dialog;
- the create-audit hook, including its two inserts;
- the single-audit fetch;
- the search and status filters of the audits page;
- the dashboard counts and quick reference;
- the checklist's progress and notes editing;
- the severity sort of the findings tab.

Each core source file corresponds to one module:

| module | file | form |
|---|---|---|
| `SupabaseTypes` | src/integrations/supabase/types.ts | enumerations; Row and Insert records; the defaults a row takes when an insert omits a column; foreign keys |
| `InsertShapes` | src/integrations/supabase/types.ts | the JSON shape of each Insert type: required and optional properties, types and nullability |
| `OwaspChecklist` | src/lib/owasp-checklist.ts | the ten-entry table and `createChecklistItemsForAudit` |
| `Zod`, `FieldErrors` | the validation used by src/pages/NewAudit.tsx and src/components/audit/FindingDialog.tsx | each schema check with its message; the error map, built by a loop (`BuildFieldErrors`) |
| `NewAudit` | src/pages/NewAudit.tsx | the schema, the normalisation of the form, and the page as a class whose `HandleSubmit` validates, creates and navigates |
| `FindingDialog` | src/components/audit/FindingDialog.tsx | the schema, the form ⇄ payload conversions, and the dialog as a class (`Reset`, `Edit`, `HandleSubmit`) |
| `AuditsHook` | src/hooks/useAudits.ts | `createAudit` as a method on a class holding the tables; `useAudit` as a function |
| `AuditsPage` | src/pages/Audits.tsx | the filters and the choice of what to render |
| `Dashboard` | src/pages/Dashboard.tsx | the stats, the recent list and the quick-reference tiles |
| `ChecklistTab` | src/components/audit/ChecklistTab.tsx, src/hooks/useChecklist.ts | the count and the progress, the update a row receives, and the notes editor as a class |
| `FindingsTab` | src/components/audit/FindingsTab.tsx | the stable severity sort, the CVSS tag and what is rendered |
| `Text`, `Sequences`, `Wrappers` | — | the JavaScript string operations the core relies on (`\|\| null`, `\|\| ""`, `toLowerCase`, `includes`), and Option, Result and omitted-field helpers |

How JavaScript details are modelled:

- `x || null` on a string becomes `NullIfEmpty`, and `x || ""` becomes `OrEmpty`.
- An optional property that is absent from an object becomes `Field.Omitted`.
- The backend is held in memory by `AuditsHook.AuditStore`. Its four tables are sequences of
  rows, and `CreateAudit` performs the hook's two inserts on them.
- These are parameters of the model:
  - the session (`Option<User>`);
  - the identifiers and the timestamp the server assigns;
  - whether each insert fails.
- `parseFloat` of the CVSS text becomes the three-way `CvssText`: blank, a number, or not a
  number.

Points where the code's behaviour is easy to misread, and what the model does:

- **Atomicity.** The checklist is not created atomically with the audit. The hook inserts the
  ten items in a second statement, with no rollback. `CreateAuditOutcome` states the state this
  leaves when the second insert fails: the audit row is stored, and it has no checklist.
- **Error per field.** The `forEach` that builds the error map keeps the last issue of each
  field, not the first (`LastIssueWins`). The schemas here raise at most one issue per field,
  so each displayed message is that field's only one (`AuditErrorMap`, `FindingErrorMap`).
- **Missing audit.** `useAudit` uses `.single()`, which fails when no row matches, so a missing
  audit is an error and not a null result. `FetchAudit` returns `Err(NotSingle(0))` in that
  case. It returns `Ok(None)` only for a missing or empty id.
- **Column defaults.** types.ts marks some Insert columns optional but does not give their
  defaults. The model assumes these defaults: status `planning`, severity `medium`, finding
  status `open`, and `checked` false. No path of the core depends on them:
  - the new-audit page always sends a status;
  - the finding dialog always sends a severity and a status;
  - the checklist seed always sends `checked: false`.

## Model

| member | source | states |
|---|---|---|
| SupabaseTypes.ParseAuditStatus | src/integrations/supabase/types.ts:246 | a string names an audit status exactly when it is one of the four enum literals, and parsing is the inverse of `AuditStatusName` |
| SupabaseTypes.ParseFindingSeverity | src/integrations/supabase/types.ts:247 | a string is a severity exactly when it is one of the five literals; inverse of `FindingSeverityName` |
| SupabaseTypes.ParseFindingStatus | src/integrations/supabase/types.ts:248 | a string is a finding status exactly when it is one of the four literals; inverse of `FindingStatusName` |
| SupabaseTypes.AuditStatusConstantsExact | src/integrations/supabase/types.ts:373-376 | the `Constants` list of audit statuses has four distinct entries, in enum order, and every status is among them |
| SupabaseTypes.FindingSeverityConstantsExact | src/integrations/supabase/types.ts:373-377 | the severity list has five distinct entries from critical to info, covering every severity |
| SupabaseTypes.FindingStatusConstantsExact | src/integrations/supabase/types.ts:373-378 | the finding status list has four distinct entries covering every status |
| SupabaseTypes.OwnedBy | src/hooks/useAudits.ts:37 | the insert sent for a draft is the draft with `user_id` set to the signed-in user and every other field unchanged |
| SupabaseTypes.InsertedAudit | src/integrations/supabase/types.ts:59-84 | the stored audit row keeps every given column, takes status planning when none is given and null for omitted texts, and gets the server's id and timestamps |
| SupabaseTypes.InsertedChecklistItem | src/integrations/supabase/types.ts:101-124 | the stored item keeps its audit, code, category and title; it is checked only when the insert says so; omitted notes and descriptions are null |
| SupabaseTypes.InsertedFinding | src/integrations/supabase/types.ts:148-179 | the stored finding keeps every given column, defaults to severity medium and status open, and is null in every omitted nullable column |
| SupabaseTypes.ForeignKeysSurviveParentInserts | src/integrations/supabase/types.ts:137-145 | adding audits, and checklist items whose audit exists, keeps every foreign key of the schema satisfied |
| InsertShapes.RequiredColumns | src/integrations/supabase/types.ts:72-179 | the required Insert properties are exactly client_name, name and user_id for audits; audit_id, owasp_category, owasp_code and title for checklist items; audit_id, title and user_id for findings |
| InsertShapes.OmittingAKey | src/integrations/supabase/types.ts:72-179 | removing a property from a conforming insert body keeps it conforming exactly when the property is optional |
| InsertShapes.EncodeAuditInsert | src/integrations/supabase/types.ts:72-84 | every `AuditInsert` encodes to a body conforming to `audits.Insert`: required keys present, each value of its column's type, null only where nullable |
| InsertShapes.EncodeChecklistItemInsert | src/integrations/supabase/types.ts:113-124 | every `ChecklistItemInsert` encodes to a body conforming to `checklist_items.Insert` |
| InsertShapes.EncodeFindingInsert | src/integrations/supabase/types.ts:164-179 | every `FindingInsert` encodes to a body conforming to `findings.Insert` |
| InsertShapes.EncodeAuditInsertFields | src/integrations/supabase/types.ts:72-84 | the audit body holds name, client_name and user_id, plus status, target, description, start_date and end_date exactly when given, each under its own key (null texts as null) |
| InsertShapes.EncodeChecklistItemInsertFields | src/integrations/supabase/types.ts:113-124 | the checklist item body holds audit_id, owasp_code, owasp_category and title, plus checked, notes and description exactly when given, each under its own key |
| InsertShapes.EncodeFindingInsertFields | src/integrations/supabase/types.ts:164-179 | the finding body holds audit_id, title and user_id, plus cvss_score, severity and status exactly when given, each under its own key |
| InsertShapes.EncodeFindingInsertTexts | src/integrations/supabase/types.ts:164-179 | the finding body holds checklist_item_id, description, proof_of_concept, remediation and affected_url exactly when given, null as null |
| OwaspChecklist.EntryCode | src/lib/owasp-checklist.ts:10-64 | the code of entry i is "A" followed by the two digits of i+1 |
| OwaspChecklist.CodeForInjective | src/lib/owasp-checklist.ts:10-64 | two category numbers give the same code exactly when they are equal |
| OwaspChecklist.CodeForOrdered | src/lib/owasp-checklist.ts:10-64 | a smaller category number gives a lexicographically smaller code |
| OwaspChecklist.TableCodes | src/lib/owasp-checklist.ts:8-69 | the table has ten entries, coded A01 to A10 in order |
| OwaspChecklist.CodesAscending | src/lib/owasp-checklist.ts:8-69 | the table's codes are strictly ascending and therefore distinct |
| OwaspChecklist.Seed | src/lib/owasp-checklist.ts:71-81 | one insert per table entry, in order, carrying the audit id, the entry's code, category, title and description, `checked` false and null notes |
| OwaspChecklist.SeededChecklist | src/lib/owasp-checklist.ts:71-81 | the seeded checklist of an audit has ten items with distinct codes A01 to A10, all unchecked, all of that audit |
| Text.NullIfEmpty | src/pages/NewAudit.tsx:56-59 | `s \|\| null`: null exactly for "", otherwise the text itself; reading it back with `\|\| ""` gives `s` |
| Text.OrEmpty | src/components/audit/FindingDialog.tsx:71-77 | `x \|\| ""`: "" exactly for null or "", otherwise the text |
| Text.Lower | src/pages/Audits.tsx:44-46 | `toLowerCase` maps each character by itself, keeping the length and leaving no upper-case ASCII letter |
| Text.LowerOfUpper | src/pages/Audits.tsx:44-46 | lower-casing an upper-cased text equals lower-casing the text |
| Text.LowerOfLower | src/pages/Audits.tsx:44-46 | lower-casing twice is lower-casing once |
| Text.Includes | src/pages/Audits.tsx:44-46 | `includes` holds exactly when the needle occurs at some position of the text |
| Zod.LengthProblem | src/pages/NewAudit.tsx:24-25 | a `min`/`max` string check passes exactly inside the bounds, with the custom message below and the default message above |
| Zod.MaxLengthProblem | src/pages/NewAudit.tsx:26-27 | a `max` check passes exactly up to the bound, with the default message otherwise |
| Zod.EnumProblem | src/pages/NewAudit.tsx:30 | an enum check passes exactly for the listed values |
| Zod.RangeProblem | src/components/audit/FindingDialog.tsx:44 | a number `min`/`max` check passes exactly inside the closed range, with the too-small or too-big message |
| FieldErrors.LastIssueWins | src/pages/NewAudit.tsx:64-71 | a key is in the error map exactly when some issue has it as its path head, and its message is that of the last such issue |
| FieldErrors.BuildFieldErrors | src/pages/NewAudit.tsx:65-70 | the `forEach` loop builds exactly the map `FieldErrorMap` describes; the same loop is at src/components/audit/FindingDialog.tsx:117-122 |
| FieldErrors.IssuesOf | src/pages/NewAudit.tsx:52 | parsing raises no issue exactly when every check passes |
| FieldErrors.ErrorMapOfChecks | src/pages/NewAudit.tsx:64-71 | the error map of a schema's checks holds, for each key, the last message raised for it, and only keys that some check raised |
| FieldErrors.LastProblemOfDistinct | src/pages/NewAudit.tsx:23-31 | when the keys of the checks are distinct, the last problem of a key is that key's own problem |
| FindingDialog.CvssProblem | src/components/audit/FindingDialog.tsx:44 | a CVSS entry is refused exactly when it is a number outside 0 to 10, or not a number |
| FindingDialog.FindingChecksPass | src/components/audit/FindingDialog.tsx:36-45 | every check of the finding schema passes exactly when the form meets the schema: title 2 to 200, a known severity and status, a CVSS in range or blank, the four texts within their limits |
| FindingDialog.FindingIssues | src/components/audit/FindingDialog.tsx:100-103 | parsing the form raises no issue exactly when it is valid |
| FindingDialog.FindingFieldNames | src/components/audit/FindingDialog.tsx:36-45 | the schema's keys are distinct and non-empty |
| FindingDialog.FindingErrorMap | src/components/audit/FindingDialog.tsx:116-123 | after a failed parse the map has an entry for exactly the failing keys, each holding that key's message |
| FindingDialog.ToPayload | src/components/audit/FindingDialog.tsx:105-114 | the saved payload keeps the title, severity and status, sends null for every empty text, and sends no score for a blank CVSS, a score of 0 included |
| FindingDialog.FormFromFinding | src/components/audit/FindingDialog.tsx:67-78 | editing an existing finding fills the form from it, with "" for null texts and a blank CVSS for a null score |
| FindingDialog.ReopenAfterSave | src/components/audit/FindingDialog.tsx:67-114 | saving a valid form and reopening the saved finding shows exactly the same form |
| FindingDialog.ResubmitUnchanged | src/components/audit/FindingDialog.tsx:67-114 | resubmitting an opened finding unchanged leaves the row as it was exactly when none of its texts is "" |
| FindingDialog.ShortTitleRefused | src/components/audit/FindingDialog.tsx:37 | a one-letter title gives an error map with only the title key and its own message |
| FindingDialog.CvssBounds | src/components/audit/FindingDialog.tsx:44 | 11 is refused and 7.5 accepted; a score of 0 is sent as 0 |
| FindingDialog.FindingDialogState.constructor | src/components/audit/FindingDialog.tsx:56-65 | the dialog starts with the default form, no errors and nothing submitting |
| FindingDialog.FindingDialogState.Reset | src/components/audit/FindingDialog.tsx:67-92 | opening fills the form from the finding, or the defaults when there is none, and clears the errors |
| FindingDialog.FindingDialogState.Edit | src/components/audit/FindingDialog.tsx:147 | an input's change sets the form and nothing else |
| FindingDialog.FindingDialogState.HandleSubmit | src/components/audit/FindingDialog.tsx:94-128 | a valid form is saved as its payload with the errors cleared; an invalid one saves nothing and shows its error map; `isSubmitting` ends false either way |
| NewAudit.AuditChecksPass | src/pages/NewAudit.tsx:23-31 | every check of the audit schema passes exactly when name and client are 2 to 100 characters long, the target is at most 255, the description at most 1000, and the status is a known one |
| NewAudit.AuditIssues | src/pages/NewAudit.tsx:52 | parsing the form raises no issue exactly when it is valid |
| NewAudit.AuditFieldNames | src/pages/NewAudit.tsx:23-31 | the schema's keys are distinct and non-empty |
| NewAudit.AuditErrorMap | src/pages/NewAudit.tsx:63-72 | after a failed parse the map has an entry for exactly the failing keys, each holding that key's message |
| NewAudit.DefaultFormProblems | src/pages/NewAudit.tsx:36-44 | the untouched form fails the name and client checks with their custom messages and passes every other check |
| NewAudit.EmptyFormRefused | src/pages/NewAudit.tsx:36-72 | submitting the untouched form shows errors for exactly name and client_name, with their messages |
| NewAudit.NormalizeAudit | src/pages/NewAudit.tsx:53-61 | the create-audit draft keeps name, client and status, and turns every empty optional text into null |
| NewAudit.FormOfRow | src/integrations/supabase/types.ts:59-71 | the form a stored audit row reads back as, with "" for each null text |
| NewAudit.StoredAuditShowsForm | src/pages/NewAudit.tsx:53-61 | the row stored for a valid form reads back as that form, belongs to the signed-in user, and holds no "" in its optional texts |
| NewAudit.NewAuditPage.constructor | src/pages/NewAudit.tsx:36-45 | the page starts with the default form, no errors and no navigation |
| NewAudit.NewAuditPage.Edit | src/pages/NewAudit.tsx:110-112 | an input's change sets the form and nothing else |
| NewAudit.NewAuditPage.HandleSubmit | src/pages/NewAudit.tsx:47-74 | an invalid form shows its error map and leaves the store and the route alone; a valid one is created as its normalised draft, and the page goes to /audits exactly when creating succeeds |
| AuditsHook.InsertedRows | src/hooks/useAudits.ts:44-47 | the batch insert stores one row per seeded item, in order, each with its server id |
| AuditsHook.ItemsOfAudit | src/hooks/useChecklist.ts:18-22 | the checklist of an audit holds exactly the items whose audit_id is that audit |
| AuditsHook.ItemsOfAuditMultiplicity | src/hooks/useChecklist.ts:18-22 | each row of the audit appears in its checklist as often as in the table, and no other row appears |
| AuditsHook.SeededRowsBelongTo | src/lib/owasp-checklist.ts:71-81 | every seeded row belongs to the audit it was seeded for |
| AuditsHook.AuditInsertKeepsKeys | src/hooks/useAudits.ts:35-39 | inserting an audit with a fresh id keeps the audit ids unique and every foreign key satisfied |
| AuditsHook.ChecklistInsertKeepsKeys | src/hooks/useAudits.ts:44-47 | inserting the seed of an existing audit keeps every foreign key satisfied |
| AuditsHook.AuditStore.CreateAudit | src/hooks/useAudits.ts:30-52 | with no session nothing is stored and the error is "Not authenticated"; a failed audit insert stores nothing; a failed checklist insert leaves the audit row without a checklist; success stores the audit and its ten seeded items and returns the row |
| AuditsHook.SeededItemsOfNewAudit | src/hooks/useAudits.ts:41-47 | a fresh audit has no items before the seed, and exactly the seeded rows after it |
| AuditsHook.CreatedChecklist | src/hooks/useAudits.ts:30-52 | after a successful create, the new audit's checklist is the ten OWASP items, in table order and unchecked |
| AuditsHook.RowsWithId | src/hooks/useAudits.ts:114-117 | the query returns exactly the rows with the requested id |
| AuditsHook.RowsWithUniqueId | src/hooks/useAudits.ts:114-118 | with unique ids, at most one row matches |
| AuditsHook.FetchAudit | src/hooks/useAudits.ts:112-121 | a missing or empty id gives null without querying; otherwise one matching row is returned and any other count is an error |
| AuditsHook.UseAudit | src/hooks/useAudits.ts:107-124 | the query runs exactly when a user is signed in and the id is non-empty |
| AuditsHook.UseAuditNeverNull | src/hooks/useAudits.ts:113-123 | a query that runs never yields the null result, since the guard that returns null is disabled whenever it would apply |
| AuditsHook.FetchFindsStored | src/hooks/useAudits.ts:114-121 | with unique ids, fetching an id returns the row exactly when it is stored under that id, and the "no row" error exactly when the id is absent |
| AuditsPage.FilterAudits | src/pages/Audits.tsx:42-50 | the shown audits are those of the list that match both the search and the status filter, in list order |
| AuditsPage.FilterAuditsMultiplicity | src/pages/Audits.tsx:42-50 | each audit that passes both tests is shown as often as it occurs in the list, and no other audit is shown |
| AuditsPage.EmptySearchMatches | src/pages/Audits.tsx:43-46 | an empty search matches every audit |
| AuditsPage.DefaultFiltersShowAll | src/pages/Audits.tsx:38-50 | with the initial filters (no search, "all") the page lists every audit, in order |
| AuditsPage.SearchIgnoresCase | src/pages/Audits.tsx:43-46 | upper- or lower-casing the search text changes nothing |
| AuditsPage.NullTargetIgnored | src/pages/Audits.tsx:46 | for an audit with a null target only the name and the client are searched |
| AuditsPage.StatusFilterOptionsAreStatuses | src/pages/Audits.tsx:102-106 | the select offers "all" followed by the four statuses, and "all" is not a status |
| AuditsPage.StatusFilterExact | src/pages/Audits.tsx:47-48 | filtering by a status keeps exactly the matching audits of that status |
| AuditsPage.UnknownFilterHidesAll | src/pages/Audits.tsx:47-48 | a filter value that is neither "all" nor a status hides every audit |
| AuditsPage.View | src/pages/Audits.tsx:52-129 | loading shows three skeletons; an empty result shows the empty card, whose hint and create button depend on whether a filter is active; otherwise the filtered audits are shown as cards |
| AuditsPage.CreateButtonMeansNoAudits | src/pages/Audits.tsx:112-129 | the card with the "Create Audit" button appears exactly when the user has no audits and no filter is active |
| Dashboard.WithStatus | src/pages/Dashboard.tsx:23-25 | the filter keeps exactly the audits of one status |
| Dashboard.WithStatusMultiplicity | src/pages/Dashboard.tsx:23-25 | each audit of the status is kept as often as it occurs, and no other audit is kept |
| Dashboard.WithStatusCount | src/pages/Dashboard.tsx:23-25 | the filtered list's length is the number of positions holding an audit of that status |
| Dashboard.AuditStats | src/pages/Dashboard.tsx:21-26 | the total is the number of audits; inProgress, completed and planning are each the number of audits with that status |
| Dashboard.StatusCountsPartition | src/pages/Dashboard.tsx:21-26 | the counts of the four statuses add up to the total |
| Dashboard.StatsLeaveOutOnHold | src/pages/Dashboard.tsx:21-26 | the three counts shown leave out exactly the audits on hold |
| Dashboard.RecentAudits | src/pages/Dashboard.tsx:28 | the recent list is the first five audits, or all of them when there are fewer |
| Dashboard.RecentOfFew | src/pages/Dashboard.tsx:28 | with at most five audits the recent list is the whole list |
| Dashboard.QuickReferenceTile | src/pages/Dashboard.tsx:200-211 | tile i shows the table's code i, and its name equals the table's category except at A07 and A08 |
| Dashboard.QuickReferenceMatchesTable | src/pages/Dashboard.tsx:200-211 | the ten tiles show the table's codes A01 to A10 in order; names match the categories except the two abbreviated ones |
| ChecklistTab.CheckedItems | src/components/audit/ChecklistTab.tsx:44 | the checked items are exactly the checked rows; none exactly when no row is checked, all exactly when every row is |
| ChecklistTab.CheckedItemsMultiplicity | src/components/audit/ChecklistTab.tsx:44 | each checked row is kept as often as it occurs, and no unchecked row is kept |
| ChecklistTab.CheckedItemsCount | src/components/audit/ChecklistTab.tsx:44 | the filtered list's length is the number of positions holding a checked row |
| ChecklistTab.CheckedCount | src/components/audit/ChecklistTab.tsx:44 | `checkedCount` is the number of rows whose checked is true |
| ChecklistTab.Progress | src/components/audit/ChecklistTab.tsx:45 | the progress lies in 0 to 100; it is 0 exactly when nothing is checked and 100 exactly when a non-empty list is all checked |
| ChecklistTab.SeededChecklistStartsAtZero | src/lib/owasp-checklist.ts:71-81 | a freshly seeded checklist has no checked item and 0% progress |
| ChecklistTab.ApplyUpdate | src/hooks/useChecklist.ts:30-37 | an update changes only the given columns, and only on the row with the given id |
| ChecklistTab.CheckingRaisesCount | src/components/audit/ChecklistTab.tsx:87-88 | with distinct ids, checking one unchecked item raises the completed count by exactly one |
| ChecklistTab.NotesUpdateKeepsProgress | src/components/audit/ChecklistTab.tsx:38-42 | a notes update changes neither the count nor the progress |
| ChecklistTab.ItemsInEditMode | src/components/audit/ChecklistTab.tsx:112 | the rows shown with the editor open are those whose id is being edited |
| ChecklistTab.AtMostOneEditor | src/components/audit/ChecklistTab.tsx:112 | with distinct ids at most one row shows the editor, and one does exactly when the edited id is a row's |
| ChecklistTab.SaveUntouchedNotes | src/components/audit/ChecklistTab.tsx:38-42 | opening the editor and saving without typing stores the notes unchanged, except that "" becomes null |
| ChecklistTab.ChecklistTabState.constructor | src/components/audit/ChecklistTab.tsx:25-26 | no editor is open and nothing has been sent |
| ChecklistTab.ChecklistTabState.StartEditing | src/components/audit/ChecklistTab.tsx:142-145 | the editor opens on the item with its notes, or "" when it has none |
| ChecklistTab.ChecklistTabState.ChangeNotes | src/components/audit/ChecklistTab.tsx:116 | typing changes only the edited text |
| ChecklistTab.ChecklistTabState.SaveNotes | src/components/audit/ChecklistTab.tsx:38-42 | saving sends only the notes, null exactly when the text is empty, then closes the editor |
| ChecklistTab.ChecklistTabState.CancelEditing | src/components/audit/ChecklistTab.tsx:131-134 | cancelling closes the editor and sends nothing |
| ChecklistTab.ChecklistTabState.ToggleChecked | src/components/audit/ChecklistTab.tsx:87-88 | a checkbox sends only the item's id and its new checked value |
| FindingsTab.SeverityOrderIsEnumOrder | src/components/audit/FindingsTab.tsx:48 | the local severity order is the enum's order, critical first |
| FindingsTab.IndexOf | src/components/audit/FindingsTab.tsx:50 | `indexOf` returns the first position of the value, or -1 exactly when it is absent |
| FindingsTab.Rank | src/components/audit/FindingsTab.tsx:49-50 | every finding's severity has a rank from 0 to 4 |
| FindingsTab.RankIsIndexOf | src/components/audit/FindingsTab.tsx:49-50 | the rank is the `indexOf` of the severity in the order list |
| FindingsTab.SameRankSameSeverity | src/components/audit/FindingsTab.tsx:49-50 | two findings have the same rank exactly when they have the same severity |
| FindingsTab.SortBySeverity | src/components/audit/FindingsTab.tsx:49-51 | the sorted list is a permutation of the findings, ordered by severity from critical to info |
| FindingsTab.SortKeepsSeverityOrder | src/components/audit/FindingsTab.tsx:49-51 | the sort is stable: findings of equal severity keep their list order |
| FindingsTab.Buckets | src/components/audit/FindingsTab.tsx:48-51 | reference order: the critical findings, then the high ones and so on, each group in list order |
| FindingsTab.SortIsBuckets | src/components/audit/FindingsTab.tsx:48-51 | the sort equals the reference order |
| FindingsTab.SortOfSorted | src/components/audit/FindingsTab.tsx:49-51 | sorting an already ordered list changes nothing |
| FindingsTab.CvssTag | src/components/audit/FindingsTab.tsx:98-102 | a null score renders nothing; a score of 0 renders the bare text "0", because `&&` yields the falsy number; any other score renders the CVSS tag with that score |
| FindingsTab.SavedScoreTag | src/components/audit/FindingsTab.tsx:98-102 | a finding saved from the dialog renders nothing for a blank score, the bare "0" for an entered 0, and otherwise the tag with the entered score |
| FindingsTab.View | src/components/audit/FindingsTab.tsx:37-87 | loading shows three skeletons; no findings shows the empty card; otherwise the findings are shown as cards in severity order |

## Left out

- The network and the hosted backend are modelled only as in-memory tables. Row level security, server-side ordering (`order("created_at")`), cascading deletes, triggers and `updated_at` maintenance on update are not modelled.
- useAudits' list query, `updateAudit` and `deleteAudit` are not modelled, nor the query plumbing of useChecklist and useFindings; only the effect of a checklist update on the rows is (`ApplyUpdate`).
- The React Query cache, its invalidation, and the loading and error states of queries are not modelled. They are I/O, and the views take `isLoading` as a parameter.
- Toasts are left out. Of the error texts, only "Not authenticated" is modelled; the backend's own error messages are not.
- Routing is a log of the routes the new-audit page navigates to. Links to other pages are not modelled.
- The authentication hook is not modelled; the session is a parameter.
- The identifiers and timestamps the server assigns, and whether an insert fails, are parameters.
- The loading skeletons of the dashboard and the checklist tab, and the badge components, the app layout and the build configuration, are presentation only.
- In the finding dialog, `isSubmitting` is modelled, but the asynchronous interleaving of a submit with other events is not. Errors thrown by `onSave` other than a validation error are not modelled either.
- Text lengths are sequence lengths. JavaScript counts UTF-16 code units, which differs for characters outside the Basic Multilingual Plane.
- `Text.Lower`: folds only ASCII letters, because `toLowerCase`'s full Unicode case mapping is out of scope.
- `parseFloat` is abstracted into `CvssText`, and NaN has no value of its own. The progress percentage is a real number, rather than a floating-point one.
- The four long text columns of the OWASP table (code, category, title, description) are kept. They are written as one function per column rather than as one array literal, with the same texts in the same order.

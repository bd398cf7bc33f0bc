/**
 * The audits list page: the search box and status filter applied to the user's audits, and
 * the choice between skeletons, the empty card and the audit cards.
 */
module AuditsPage {
  import opened Wrappers
  import opened Sequences
  import opened Text
  import opened SupabaseTypes

  /** `matchesSearch`: the lower-cased search text occurs in the name, the client or the target. */
  predicate MatchesSearch(a: AuditRow, search: string) {
    var needle := Lower(search);
    || Includes(Lower(a.name), needle)
    || Includes(Lower(a.client_name), needle)
    || (a.target.Some? && Includes(Lower(a.target.value), needle))
  }

  /** `matchesStatus`: "all" accepts every audit, any other value needs the stored status. */
  predicate MatchesStatus(a: AuditRow, statusFilter: string) {
    statusFilter == "all" || AuditStatusName(a.status) == statusFilter
  }

  predicate Shown(a: AuditRow, search: string, statusFilter: string) {
    MatchesSearch(a, search) && MatchesStatus(a, statusFilter)
  }

  /** `filteredAudits`: the audits that pass both tests, in list order. */
  function FilterAudits(audits: seq<AuditRow>, search: string, statusFilter: string): (r: seq<AuditRow>)
    ensures |r| <= |audits|
    ensures forall a :: a in r <==> a in audits && Shown(a, search, statusFilter)
    ensures IsSubsequence(r, audits)
    decreases |audits|
  {
    if audits == [] then []
    else
      var rest := FilterAudits(audits[1..], search, statusFilter);
      assert audits == [audits[0]] + audits[1..];
      if Shown(audits[0], search, statusFilter) then
        assert ([audits[0]] + rest)[1..] == rest;
        [audits[0]] + rest
      else rest
  }

  /** The filter keeps every shown audit as often as it occurs, and no other audit. */
  lemma {:induction false} FilterAuditsMultiplicity(audits: seq<AuditRow>, search: string, statusFilter: string, a: AuditRow)
    ensures multiset(FilterAudits(audits, search, statusFilter))[a] ==
      if Shown(a, search, statusFilter) then multiset(audits)[a] else 0
    decreases |audits|
  {
    if audits != [] {
      FilterAuditsMultiplicity(audits[1..], search, statusFilter, a);
      assert audits == [audits[0]] + audits[1..];
    }
  }

  /** An empty search occurs in every text. */
  lemma EmptySearchMatches(a: AuditRow)
    ensures MatchesSearch(a, "")
  {
    assert OccursAt(Lower(a.name), Lower(""), 0);
  }

  lemma {:induction false} FilterKeepsAll(audits: seq<AuditRow>, search: string, statusFilter: string)
    requires forall a :: a in audits ==> Shown(a, search, statusFilter)
    ensures FilterAudits(audits, search, statusFilter) == audits
    decreases |audits|
  {
    if audits != [] {
      assert audits[0] in audits;
      FilterKeepsAll(audits[1..], search, statusFilter);
      assert audits == [audits[0]] + audits[1..];
    }
  }

  /** The page's initial state, no search and "all", lists every audit. */
  lemma DefaultFiltersShowAll(audits: seq<AuditRow>)
    ensures FilterAudits(audits, "", "all") == audits
  {
    forall a | a in audits ensures Shown(a, "", "all") {
      EmptySearchMatches(a);
    }
    FilterKeepsAll(audits, "", "all");
  }

  /** The search ignores the case of ASCII letters. */
  lemma SearchIgnoresCase(a: AuditRow, search: string)
    ensures MatchesSearch(a, Upper(search)) == MatchesSearch(a, search)
    ensures MatchesSearch(a, Lower(search)) == MatchesSearch(a, search)
  {
    LowerOfUpper(search);
    LowerOfLower(search);
  }

  /** A null target never contributes a match: only the name and the client are searched. */
  lemma NullTargetIgnored(a: AuditRow, search: string)
    requires a.target.None?
    ensures MatchesSearch(a, search) <==>
      Includes(Lower(a.name), Lower(search)) || Includes(Lower(a.client_name), Lower(search))
  {
  }

  /** The values of the status select: "all" and then the four statuses, in enumeration order. */
  const StatusFilterOptions: seq<string> := ["all", "planning", "in_progress", "completed", "on_hold"]

  lemma StatusFilterOptionsAreStatuses()
    ensures StatusFilterOptions == ["all"] + AuditStatusValues
    ensures "all" !in AuditStatusValues
  {
  }

  /** A specific status filter keeps exactly the audits of that status that match the search. */
  lemma StatusFilterExact(audits: seq<AuditRow>, search: string, status: AuditStatus, a: AuditRow)
    ensures a in FilterAudits(audits, search, AuditStatusName(status)) <==>
      a in audits && a.status == status && MatchesSearch(a, search)
  {
    var name := AuditStatusName(status);
    assert ParseAuditStatus(name) == Some(status);
    if a in audits && AuditStatusName(a.status) == name {
      assert ParseAuditStatus(name) == Some(a.status);
    }
  }

  /** A filter value that is neither "all" nor a status hides every audit. */
  lemma UnknownFilterHidesAll(audits: seq<AuditRow>, search: string, statusFilter: string)
    requires statusFilter != "all" && statusFilter !in AuditStatusValues
    ensures FilterAudits(audits, search, statusFilter) == []
  {
  }

  /** What the page renders below its header. */
  datatype AuditsView =
    | Skeletons(count: nat)
    | NoAuditsFound(hint: string, createButton: bool)
    | AuditCards(rows: seq<AuditRow>)

  const AdjustFiltersHint: string := "Try adjusting your filters"
  const FirstAuditHint: string := "Create your first security audit to get started"

  /**
   * Loading shows three card skeletons; otherwise an empty filtered list shows the empty card,
   * whose hint and "Create Audit" button depend on whether a search or filter is active.
   */
  function View(audits: seq<AuditRow>, isLoading: bool, search: string, statusFilter: string): (v: AuditsView)
    ensures isLoading <==> v == Skeletons(3)
    ensures v.NoAuditsFound? <==> !isLoading && FilterAudits(audits, search, statusFilter) == []
    ensures v.NoAuditsFound? ==>
      && (v.hint == AdjustFiltersHint <==> search != "" || statusFilter != "all")
      && (v.hint == FirstAuditHint <==> search == "" && statusFilter == "all")
      && (v.createButton <==> search == "" && statusFilter == "all")
    ensures v.AuditCards? ==> v.rows == FilterAudits(audits, search, statusFilter) && v.rows != []
  {
    if isLoading then Skeletons(3)
    else
      var shown := FilterAudits(audits, search, statusFilter);
      if |shown| == 0 then
        var filtering := search != "" || statusFilter != "all";
        NoAuditsFound(if filtering then AdjustFiltersHint else FirstAuditHint, !filtering)
      else AuditCards(shown)
  }

  /** The "Create Audit" button appears only when the user has no audits at all. */
  lemma CreateButtonMeansNoAudits(audits: seq<AuditRow>, search: string, statusFilter: string)
    ensures View(audits, false, search, statusFilter) == NoAuditsFound(FirstAuditHint, true) <==>
      audits == [] && search == "" && statusFilter == "all"
  {
    if search == "" && statusFilter == "all" {
      DefaultFiltersShowAll(audits);
    }
  }
}

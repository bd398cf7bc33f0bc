/**
 * The dashboard: the audit counts by status, the five most recent audits, and the OWASP quick
 * reference beside them.
 */
module Dashboard {
  import opened SupabaseTypes
  import opened OwaspChecklist

  /** `audits.filter((a) => a.status === status)`: the audits of one status, in list order. */
  function WithStatus(audits: seq<AuditRow>, status: AuditStatus): (r: seq<AuditRow>)
    ensures |r| <= |audits|
    ensures forall a :: a in r <==> a in audits && a.status == status
    decreases |audits|
  {
    if audits == [] then []
    else
      var rest := WithStatus(audits[1..], status);
      assert audits == [audits[0]] + audits[1..];
      if audits[0].status == status then [audits[0]] + rest else rest
  }

  /** The filter keeps every audit of the status as often as it occurs, and no other audit. */
  lemma {:induction false} WithStatusMultiplicity(audits: seq<AuditRow>, status: AuditStatus, a: AuditRow)
    ensures multiset(WithStatus(audits, status))[a] == if a.status == status then multiset(audits)[a] else 0
    decreases |audits|
  {
    if audits != [] {
      WithStatusMultiplicity(audits[1..], status, a);
      assert audits == [audits[0]] + audits[1..];
    }
  }

  lemma {:induction false} WithStatusSnoc(audits: seq<AuditRow>, x: AuditRow, status: AuditStatus)
    ensures WithStatus(audits + [x], status) == WithStatus(audits, status) + (if x.status == status then [x] else [])
    decreases |audits|
  {
    if audits == [] {
      assert audits + [x] == [x];
    } else {
      assert (audits + [x])[1..] == audits[1..] + [x];
      WithStatusSnoc(audits[1..], x, status);
    }
  }

  /** The positions of the audits with a given status. */
  function StatusPositions(audits: seq<AuditRow>, status: AuditStatus): set<int> {
    set i | 0 <= i < |audits| && audits[i].status == status
  }

  /** The filter's length is the number of audits with that status. */
  lemma {:induction false} WithStatusCount(audits: seq<AuditRow>, status: AuditStatus)
    ensures |WithStatus(audits, status)| == |StatusPositions(audits, status)|
    decreases |audits|
  {
    if audits != [] {
      var init, x := audits[..|audits| - 1], audits[|audits| - 1];
      assert audits == init + [x];
      WithStatusSnoc(init, x, status);
      WithStatusCount(init, status);
      StatusPositionsSnoc(init, x, status);
    }
  }

  lemma StatusPositionsSnoc(init: seq<AuditRow>, x: AuditRow, status: AuditStatus)
    ensures |StatusPositions(init + [x], status)| == |StatusPositions(init, status)| + if x.status == status then 1 else 0
  {
    var ps, qs := StatusPositions(init + [x], status), StatusPositions(init, status);
    assert forall i :: 0 <= i < |init| ==> (init + [x])[i] == init[i];
    if x.status == status {
      assert ps == qs + {|init|};
      assert |init| !in qs;
    } else {
      assert ps == qs;
    }
  }

  /** `stats`. */
  datatype Stats = Stats(total: nat, inProgress: nat, completed: nat, planning: nat)

  function AuditStats(audits: seq<AuditRow>): (s: Stats)
    ensures s.total == |audits|
    ensures s.inProgress == |StatusPositions(audits, InProgress)|
    ensures s.completed == |StatusPositions(audits, Completed)|
    ensures s.planning == |StatusPositions(audits, Planning)|
    ensures s.inProgress <= s.total && s.completed <= s.total && s.planning <= s.total
  {
    WithStatusCount(audits, InProgress);
    WithStatusCount(audits, Completed);
    WithStatusCount(audits, Planning);
    Stats(|audits|, |WithStatus(audits, InProgress)|, |WithStatus(audits, Completed)|,
          |WithStatus(audits, Planning)|)
  }

  /** Every audit has exactly one of the four statuses, so the four counts add up to the total. */
  lemma {:induction false} StatusCountsPartition(audits: seq<AuditRow>)
    ensures |WithStatus(audits, Planning)| + |WithStatus(audits, InProgress)|
          + |WithStatus(audits, Completed)| + |WithStatus(audits, OnHold)| == |audits|
    decreases |audits|
  {
    if audits != [] {
      StatusCountsPartition(audits[1..]);
    }
  }

  /**
   * The three counts on the cards never exceed the total, and what they leave out is exactly
   * the number of audits on hold.
   */
  lemma StatsLeaveOutOnHold(audits: seq<AuditRow>)
    ensures var s := AuditStats(audits);
      && s.inProgress + s.completed + s.planning <= s.total
      && s.total - (s.inProgress + s.completed + s.planning) == |WithStatus(audits, OnHold)|
  {
    StatusCountsPartition(audits);
  }

  /** `audits.slice(0, 5)`. */
  function RecentAudits(audits: seq<AuditRow>): (r: seq<AuditRow>)
    ensures |r| == if |audits| < 5 then |audits| else 5
    ensures r <= audits
  {
    if |audits| < 5 then audits else audits[..5]
  }

  /** The recent list is the whole list when there are at most five audits. */
  lemma RecentOfFew(audits: seq<AuditRow>)
    requires |audits| <= 5
    ensures RecentAudits(audits) == audits
  {
  }

  /** One tile of the quick reference. */
  datatype QuickReferenceItem = QuickReferenceItem(code: string, name: string)

  function QuickReferenceCode(i: nat): string
    requires i < 10
  {
    if i == 0 then "A01"
    else if i == 1 then "A02"
    else if i == 2 then "A03"
    else if i == 3 then "A04"
    else if i == 4 then "A05"
    else if i == 5 then "A06"
    else if i == 6 then "A07"
    else if i == 7 then "A08"
    else if i == 8 then "A09"
    else "A10"
  }

  function QuickReferenceName(i: nat): string
    requires i < 10
  {
    if i == 0 then "Broken Access Control"
    else if i == 1 then "Cryptographic Failures"
    else if i == 2 then "Injection"
    else if i == 3 then "Insecure Design"
    else if i == 4 then "Security Misconfiguration"
    else if i == 5 then "Vulnerable Components"
    else if i == 6 then "Auth Failures"
    else if i == 7 then "Data Integrity"
    else if i == 8 then "Logging Failures"
    else "SSRF"
  }

  /** The ten tiles, in the order of the array literal. */
  function QuickReference(): seq<QuickReferenceItem> {
    seq(10, i requires 0 <= i < 10 => QuickReferenceItem(QuickReferenceCode(i), QuickReferenceName(i)))
  }

  /** Tile `i` shows code `i` of the table; its name is the category except at A07 and A08. */
  lemma QuickReferenceTile(i: nat)
    requires i < 10
    ensures QuickReferenceCode(i) == EntryCode(i)
    ensures QuickReferenceName(i) == EntryCategory(i) <==> i != 6 && i != 7
  {
    if i == 6 {
      assert |QuickReferenceName(i)| != |EntryCategory(i)|;
    } else if i == 7 {
      assert |QuickReferenceName(i)| != |EntryCategory(i)|;
    }
  }

  /**
   * The tiles show the seeded table's codes, A01 to A10 in order, one tile per entry; the
   * shown names are the table's categories except for A07 and A08, which are abbreviated.
   */
  lemma QuickReferenceMatchesTable()
    ensures |QuickReference()| == |OwaspTop10_2021()| == 10
    ensures forall i :: 0 <= i < 10 ==>
      && QuickReference()[i].code == OwaspTop10_2021()[i].code == CodeFor(i + 1)
      && (QuickReference()[i].name == OwaspTop10_2021()[i].category <==> i != 6 && i != 7)
  {
    forall i | 0 <= i < 10
      ensures QuickReference()[i].code == OwaspTop10_2021()[i].code == CodeFor(i + 1)
      ensures QuickReference()[i].name == OwaspTop10_2021()[i].category <==> i != 6 && i != 7
    {
      QuickReferenceTile(i);
    }
  }
}

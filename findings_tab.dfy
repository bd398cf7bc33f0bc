/**
 * The findings tab: the severity order, the sorted copy of the findings it lists, the CVSS
 * tag of each card and the choice between skeletons, the empty state and the cards.
 */
module FindingsTab {
  import opened Wrappers
  import opened Sequences
  import opened SupabaseTypes
  import opened FindingDialog

  /** `severityOrder`. */
  const SeverityOrder: seq<string> := ["critical", "high", "medium", "low", "info"]

  /** The tab's order is the order of the severity enumeration, most severe first. */
  lemma SeverityOrderIsEnumOrder()
    ensures SeverityOrder == FindingSeverityValues
    ensures forall i :: 0 <= i < 5 ==> SeverityOrder[i] == FindingSeverityName(AllFindingSeverities[i])
  {
    FindingSeverityConstantsExact();
  }

  /** `xs.indexOf(x)`: the first position of `x`, or -1 when it does not occur. */
  function IndexOf(xs: seq<string>, x: string): (k: int)
    ensures -1 <= k < |xs|
    ensures k == -1 <==> x !in xs
    ensures k >= 0 ==> xs[k] == x && forall j :: 0 <= j < k ==> xs[j] != x
    decreases |xs|
  {
    if xs == [] then -1
    else if xs[0] == x then 0
    else
      var k := IndexOf(xs[1..], x);
      if k == -1 then -1 else k + 1
  }

  /** The position of a finding's severity in the enumeration. */
  function Rank(f: FindingRow): (k: int)
    ensures 0 <= k < 5
  {
    match f.severity
    case Critical => 0
    case High => 1
    case Medium => 2
    case Low => 3
    case Info => 4
  }

  /** In a list without repeats, `indexOf` finds each element at its own position. */
  lemma IndexOfDistinct(xs: seq<string>, k: int)
    requires Distinct(xs) && 0 <= k < |xs|
    ensures IndexOf(xs, xs[k]) == k
  {
    var j := IndexOf(xs, xs[k]);
    assert j != -1 by {
      assert xs[k] in xs;
    }
  }

  /** The comparator's key, `severityOrder.indexOf(f.severity)`, is that position. */
  lemma RankIsIndexOf(f: FindingRow)
    ensures IndexOf(SeverityOrder, FindingSeverityName(f.severity)) == Rank(f)
  {
    SeverityOrderIsEnumOrder();
    assert FindingSeverityName(f.severity) == SeverityOrder[Rank(f)];
    IndexOfDistinct(SeverityOrder, Rank(f));
  }

  /** Critical ranks 0, high 1, medium 2, low 3 and info 4; so equal ranks mean equal severities. */
  lemma RankIsEnumPosition(f: FindingRow, k: int)
    requires 0 <= k < 5
    ensures Rank(f) == k <==> f.severity == AllFindingSeverities[k]
  {
  }

  lemma SameRankSameSeverity(a: FindingRow, b: FindingRow)
    ensures Rank(a) == Rank(b) <==> a.severity == b.severity
  {
    RankIsEnumPosition(a, Rank(a));
    RankIsEnumPosition(b, Rank(b));
  }

  /** The comparator handed to `sort`, with the key of `RankIsIndexOf`. */
  function Compare(a: FindingRow, b: FindingRow): int {
    Rank(a) - Rank(b)
  }

  /** Every pair of the list is in comparator order. */
  predicate Sorted(r: seq<FindingRow>) {
    forall i, j :: 0 <= i < j < |r| ==> Compare(r[i], r[j]) <= 0
  }

  /** The findings of one severity, in their order in `fs`. */
  function Filter(fs: seq<FindingRow>, s: FindingSeverity): (r: seq<FindingRow>)
    ensures forall f :: f in r <==> f in fs && f.severity == s
    decreases |fs|
  {
    if fs == [] then []
    else (if fs[0].severity == s then [fs[0]] else []) + Filter(fs[1..], s)
  }

  /** Inserts `x` before the first element that does not rank strictly above it. */
  function Insert(x: FindingRow, r: seq<FindingRow>): (res: seq<FindingRow>)
    ensures multiset(res) == multiset(r) + multiset{x}
    decreases |r|
  {
    if r == [] then [x]
    else if Rank(x) <= Rank(r[0]) then
      assert r == [r[0]] + r[1..];
      [x] + r
    else
      assert r == [r[0]] + r[1..];
      [r[0]] + Insert(x, r[1..])
  }

  /** Inserting into a sorted list keeps it sorted. */
  lemma {:induction false} InsertSorted(x: FindingRow, r: seq<FindingRow>)
    requires Sorted(r)
    ensures Sorted(Insert(x, r))
    decreases |r|
  {
    if r == [] {
    } else if Rank(x) <= Rank(r[0]) {
      RestSorted(r);
      assert r == [r[0]] + r[1..];
      ConsSorted(x, r);
    } else {
      RestSorted(r);
      InsertSorted(x, r[1..]);
      var t := Insert(x, r[1..]);
      forall y | y in t ensures Rank(r[0]) <= Rank(y) {
        assert y in multiset(t);
      }
      ConsSorted(r[0], t);
    }
  }

  /** The tail of a sorted list is sorted, and its head ranks no higher than any of the tail. */
  lemma RestSorted(r: seq<FindingRow>)
    requires Sorted(r) && r != []
    ensures Sorted(r[1..])
    ensures forall y :: y in r[1..] ==> Rank(r[0]) <= Rank(y)
  {
    forall i, j | 0 <= i < j < |r[1..]| ensures Compare(r[1..][i], r[1..][j]) <= 0 {
      assert r[1..][i] == r[i + 1] && r[1..][j] == r[j + 1];
    }
    forall y | y in r[1..] ensures Rank(r[0]) <= Rank(y) {
      var k :| 0 <= k < |r[1..]| && r[1..][k] == y;
      assert r[k + 1] == y;
    }
  }

  /** A sorted list stays sorted under a head that ranks no higher than any of its elements. */
  lemma ConsSorted(a: FindingRow, t: seq<FindingRow>)
    requires Sorted(t)
    requires forall y :: y in t ==> Rank(a) <= Rank(y)
    ensures Sorted([a] + t)
  {
    var r := [a] + t;
    forall i, j | 0 <= i < j < |r| ensures Compare(r[i], r[j]) <= 0 {
      assert r[j] == t[j - 1];
      assert t[j - 1] in t;
      if i > 0 {
        assert r[i] == t[i - 1];
      }
    }
  }

  /**
   * `sortedFindings`: the findings ordered by severity, findings of one severity in their
   * original order. It is built on a copy, so the caller's list is not touched.
   */
  function SortBySeverity(fs: seq<FindingRow>): (r: seq<FindingRow>)
    ensures multiset(r) == multiset(fs)
    ensures |r| == |fs|
    ensures Sorted(r)
    decreases |fs|
  {
    if fs == [] then []
    else
      assert fs == [fs[0]] + fs[1..];
      var rest := SortBySeverity(fs[1..]);
      InsertSorted(fs[0], rest);
      Insert(fs[0], rest)
  }

  lemma FilterOfCons(a: FindingRow, t: seq<FindingRow>, s: FindingSeverity)
    ensures Filter([a] + t, s) == (if a.severity == s then [a] else []) + Filter(t, s)
  {
    assert ([a] + t)[1..] == t;
  }

  lemma Swap<T>(a: seq<T>, b: seq<T>, rest: seq<T>)
    requires a == [] || b == []
    ensures a + (b + rest) == b + (a + rest)
  {
  }

  /** Inserting `x` puts it among its own severity's findings exactly in front of them. */
  lemma {:induction false} FilterOfInsert(x: FindingRow, r: seq<FindingRow>, s: FindingSeverity)
    ensures Filter(Insert(x, r), s) == (if x.severity == s then [x] else []) + Filter(r, s)
    decreases |r|
  {
    if r == [] {
      FilterOfCons(x, [], s);
    } else if Rank(x) <= Rank(r[0]) {
      FilterOfCons(x, r, s);
    } else {
      var r0, t := r[0], Insert(x, r[1..]);
      FilterOfInsert(x, r[1..], s);
      FilterOfCons(r0, t, s);
      assert r == [r0] + r[1..];
      FilterOfCons(r0, r[1..], s);
      SameRankSameSeverity(x, r0);
      Swap(if r0.severity == s then [r0] else [], if x.severity == s then [x] else [], Filter(r[1..], s));
    }
  }

  /** Stability: the sort keeps the findings of each severity in their original order. */
  lemma {:induction false} SortKeepsSeverityOrder(fs: seq<FindingRow>, s: FindingSeverity)
    ensures Filter(SortBySeverity(fs), s) == Filter(fs, s)
    decreases |fs|
  {
    if fs != [] {
      SortKeepsSeverityOrder(fs[1..], s);
      FilterOfInsert(fs[0], SortBySeverity(fs[1..]), s);
    }
  }

  /** The severity groups from position `k` of the enumeration on, one after another. */
  function BucketsFrom(fs: seq<FindingRow>, k: nat): seq<FindingRow>
    decreases 5 - k
  {
    if k >= 5 then [] else Filter(fs, AllFindingSeverities[k]) + BucketsFrom(fs, k + 1)
  }

  /** All the severity groups, the most severe first. */
  function Buckets(fs: seq<FindingRow>): (b: seq<FindingRow>)
    ensures b == Filter(fs, Critical) + Filter(fs, High) + Filter(fs, Medium) + Filter(fs, Low) + Filter(fs, Info)
  {
    BucketsFrom(fs, 0)
  }

  lemma {:induction false} FilterOfNone(fs: seq<FindingRow>, s: FindingSeverity)
    requires forall f :: f in fs ==> f.severity != s
    ensures Filter(fs, s) == []
    decreases |fs|
  {
    if fs != [] {
      assert fs[0] in fs;
      FilterOfNone(fs[1..], s);
    }
  }

  /** The group of position `k` of a list whose head ranks no higher than the rest. */
  lemma FilterOfHead(a: FindingRow, t: seq<FindingRow>, k: nat)
    requires forall y :: y in t ==> Rank(a) <= Rank(y)
    requires k < 5
    ensures Filter([a] + t, AllFindingSeverities[k]) == (if k == Rank(a) then [a] else []) + Filter(t, AllFindingSeverities[k])
    ensures k < Rank(a) ==> Filter(t, AllFindingSeverities[k]) == []
  {
    var sev := AllFindingSeverities[k];
    assert ([a] + t)[1..] == t;
    RankIsEnumPosition(a, k);
    if k < Rank(a) {
      forall y | y in t ensures y.severity != sev {
        RankIsEnumPosition(y, k);
      }
      FilterOfNone(t, sev);
    }
  }

  /** Sequence algebra for one step of `BucketsOfCons`: `a` joins at most one of two groups. */
  lemma Regroup<T>(a: T, fr: seq<T>, ft: seq<T>, br: seq<T>, bt: seq<T>, here: bool, later: bool)
    requires fr == (if here then [a] else []) + ft
    requires br == (if later then [a] else []) + bt
    requires later ==> ft == []
    requires !(here && later)
    ensures fr + br == (if here || later then [a] else []) + (ft + bt)
  {
    if later {
      assert fr == [];
    } else if !here {
      assert fr == ft && br == bt;
    }
  }

  /** A head ranking no higher than the rest joins the group of its own severity, at its front. */
  lemma {:induction false} BucketsOfCons(a: FindingRow, t: seq<FindingRow>, k: nat)
    requires forall y :: y in t ==> Rank(a) <= Rank(y)
    ensures BucketsFrom([a] + t, k) == (if k <= Rank(a) then [a] else []) + BucketsFrom(t, k)
    decreases 5 - k
  {
    if k < 5 {
      BucketsOfCons(a, t, k + 1);
      FilterOfHead(a, t, k);
      var sev := AllFindingSeverities[k];
      Regroup(a, Filter([a] + t, sev), Filter(t, sev), BucketsFrom([a] + t, k + 1), BucketsFrom(t, k + 1),
              k == Rank(a), k + 1 <= Rank(a));
    }
  }

  /** A list in comparator order is its own severity groups, concatenated. */
  lemma {:induction false} SortedIsBuckets(r: seq<FindingRow>)
    requires Sorted(r)
    ensures r == Buckets(r)
    decreases |r|
  {
    if r != [] {
      RestSorted(r);
      SortedIsBuckets(r[1..]);
      BucketsOfCons(r[0], r[1..], 0);
      assert r == [r[0]] + r[1..];
    }
  }

  /** The sorted list is the critical findings, then the high ones, and so on, each group in list order. */
  lemma SortIsBuckets(fs: seq<FindingRow>)
    ensures SortBySeverity(fs) == Buckets(fs)
  {
    var r := SortBySeverity(fs);
    SortedIsBuckets(r);
    SortKeepsSeverityOrder(fs, Critical);
    SortKeepsSeverityOrder(fs, High);
    SortKeepsSeverityOrder(fs, Medium);
    SortKeepsSeverityOrder(fs, Low);
    SortKeepsSeverityOrder(fs, Info);
  }

  /** Sorting a list already in order changes nothing. */
  lemma SortOfSorted(fs: seq<FindingRow>)
    requires Sorted(fs)
    ensures SortBySeverity(fs) == fs
  {
    SortIsBuckets(fs);
    SortedIsBuckets(fs);
  }

  /**
   * What `{finding.cvss_score && (<span>...)}` puts beside the badges: nothing for null, the
   * bare text "0" for a score of 0 (the falsy number itself is rendered), and the CVSS tag for
   * any other score.
   */
  datatype CvssFragment = NoTag | BareZero | ScoreTag(score: real)

  function CvssTag(f: FindingRow): (frag: CvssFragment)
    ensures frag == NoTag <==> f.cvss_score.None?
    ensures frag == BareZero <==> f.cvss_score == Some(0.0)
    ensures frag.ScoreTag? <==> f.cvss_score.Some? && f.cvss_score.value != 0.0
    ensures frag.ScoreTag? ==> f.cvss_score == Some(frag.score)
  {
    match f.cvss_score
    case Some(x) => if x != 0.0 then ScoreTag(x) else BareZero
    case None => NoTag
  }

  /**
   * A finding saved from the dialog shows no fragment when the score was left blank, the bare
   * "0" when 0 was entered, and the tag with the entered score otherwise.
   */
  lemma SavedScoreTag(form: FindingForm, row: FindingRow)
    requires FindingFormValid(form)
    ensures var saved := ApplyPayload(row, ToPayload(form));
      && (CvssTag(saved) == NoTag <==> form.cvss_score.Blank?)
      && (CvssTag(saved) == BareZero <==> form.cvss_score == Numeric(0.0))
      && (CvssTag(saved).ScoreTag? <==> form.cvss_score.Numeric? && form.cvss_score.x != 0.0)
      && (CvssTag(saved).ScoreTag? ==> CvssTag(saved).score == form.cvss_score.x)
  {
  }

  /** What the tab renders. */
  datatype FindingsView = Skeletons(count: nat) | NoFindingsYet | Cards(rows: seq<FindingRow>)

  /** Loading shows three skeletons; then the empty state when the sorted list is empty, else its cards. */
  function View(findings: seq<FindingRow>, isLoading: bool): (v: FindingsView)
    ensures isLoading <==> v == Skeletons(3)
    ensures v == NoFindingsYet <==> !isLoading && findings == []
    ensures v.Cards? ==> v.rows == SortBySeverity(findings) && |v.rows| == |findings| > 0
  {
    if isLoading then Skeletons(3)
    else
      var sorted := SortBySeverity(findings);
      if |sorted| == 0 then NoFindingsYet else Cards(sorted)
  }
}

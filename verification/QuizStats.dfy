/** `getQuizStats` of `models/quiz.js` as a pure function of the submission
    table: counts, the conversion percentage and three `GROUP BY`
    breakdowns ordered by count. */
module QuizStats {
  import opened Common
  import opened Ordering
  import opened Quiz

  /** How many entries `topInterests` keeps (`LIMIT 5`). */
  const TopInterestCount := 5

  /** One row of a breakdown: a value and how many submissions carry it. */
  datatype Group = Group(value: string, count: int)

  // ---------------------------------------------------------------------------
  // GROUP BY value, COUNT(*)

  /** The count recorded for `v`, 0 when there is no group for it. */
  function CountOf(gs: seq<Group>, v: string): int {
    if |gs| == 0 then 0 else if gs[0].value == v then gs[0].count else CountOf(gs[1..], v)
  }

  predicate DistinctValues(gs: seq<Group>) {
    forall i, j :: 0 <= i < j < |gs| ==> gs[i].value != gs[j].value
  }

  predicate PositiveCounts(gs: seq<Group>) {
    forall i :: 0 <= i < |gs| ==> gs[i].count > 0
  }

  function GroupCount(g: Group): int { g.count }

  /** Count one more occurrence of `v`: bump its group, or open a new one at
      the end. */
  function Bump(gs: seq<Group>, v: string): (r: seq<Group>)
    requires DistinctValues(gs) && PositiveCounts(gs)
    ensures DistinctValues(r) && PositiveCounts(r)
    ensures forall u :: CountOf(r, u) == CountOf(gs, u) + (if u == v then 1 else 0)
    ensures forall i :: 0 <= i < |r| ==> r[i].value == v || exists j :: 0 <= j < |gs| && gs[j].value == r[i].value
    ensures Sum(r, GroupCount) == Sum(gs, GroupCount) + 1
  {
    if |gs| == 0 then [Group(v, 1)]
    else if gs[0].value == v then
      assert forall u :: u != v ==> CountOf(gs[1..], u) == CountOf(gs, u);
      assert forall i :: 0 < i < |gs| ==> gs[i] == gs[1..][i - 1];
      [Group(v, gs[0].count + 1)] + gs[1..]
    else
      assert forall i :: 0 < i < |gs| ==> gs[i] == gs[1..][i - 1];
      var t := Bump(gs[1..], v);
      assert forall i :: 0 <= i < |t| ==> t[i].value != gs[0].value;
      [gs[0]] + t
  }

  /** The groups of `values` in order of first occurrence. */
  function Tally(values: seq<string>): (r: seq<Group>)
    ensures DistinctValues(r) && PositiveCounts(r)
    ensures forall v :: CountOf(r, v) == multiset(values)[v]
    ensures Sum(r, GroupCount) == |values|
  {
    if |values| == 0 then []
    else
      var init := values[..|values| - 1];
      var last := values[|values| - 1];
      assert values == init + [last];
      Bump(Tally(init), last)
  }

  lemma {:induction false} CountOfEntry(gs: seq<Group>, i: nat)
    requires DistinctValues(gs) && i < |gs|
    ensures CountOf(gs, gs[i].value) == gs[i].count
  {
    if i > 0 {
      assert gs[1..][i - 1] == gs[i];
      CountOfEntry(gs[1..], i - 1);
    }
  }

  lemma {:induction false} CountOfFound(gs: seq<Group>, v: string)
    requires PositiveCounts(gs) && CountOf(gs, v) > 0
    ensures exists i :: 0 <= i < |gs| && gs[i].value == v
  {
    if gs[0].value != v {
      CountOfFound(gs[1..], v);
      var i :| 0 <= i < |gs[1..]| && gs[1..][i].value == v;
      assert gs[i + 1].value == v;
    }
  }

  lemma {:induction false} DistinctNoDuplicates(gs: seq<Group>, g: Group)
    requires DistinctValues(gs)
    ensures multiset(gs)[g] <= 1
  {
    if |gs| > 0 {
      assert gs == [gs[0]] + gs[1..];
      DistinctNoDuplicates(gs[1..], g);
      if gs[0] == g {
        assert forall i :: 0 <= i < |gs[1..]| ==> gs[1..][i] != g by {
          forall i | 0 <= i < |gs[1..]| ensures gs[1..][i] != g {
            assert gs[1..][i] == gs[i + 1];
          }
        }
        assert g !in gs[1..];
      }
    }
  }

  /** `gs` is exactly the `GROUP BY` of `values`: one group per distinct
      value, carrying its number of occurrences, and nothing else. */
  ghost predicate GroupsOf(gs: seq<Group>, values: seq<string>) {
    && (forall g :: g in gs ==> g.count == multiset(values)[g.value] && g.count > 0)
    && (forall v :: v in values ==> Group(v, multiset(values)[v]) in gs)
    && (forall g :: multiset(gs)[g] <= 1)
  }

  lemma TallyGroups(values: seq<string>)
    ensures GroupsOf(Tally(values), values)
  {
    var r := Tally(values);
    forall g | g in r ensures g.count == multiset(values)[g.value] && g.count > 0 {
      var i :| 0 <= i < |r| && r[i] == g;
      CountOfEntry(r, i);
    }
    forall v | v in values ensures Group(v, multiset(values)[v]) in r {
      CountOfFound(r, v);
      var i :| 0 <= i < |r| && r[i].value == v;
      CountOfEntry(r, i);
      assert r[i] == Group(v, multiset(values)[v]);
    }
    forall g ensures multiset(r)[g] <= 1 {
      DistinctNoDuplicates(r, g);
    }
  }

  /** Reordering a breakdown keeps it the breakdown of the same values. */
  lemma GroupsOfPermutation(a: seq<Group>, b: seq<Group>, values: seq<string>)
    requires GroupsOf(a, values) && multiset(a) == multiset(b)
    ensures GroupsOf(b, values)
  {
    assert forall g :: g in a <==> g in b by {
      forall g ensures g in a <==> g in b {
        assert g in a <==> g in multiset(a);
        assert g in b <==> g in multiset(b);
      }
    }
  }

  /** `ORDER BY count DESC`: the key that sorts ascending by `-count`. */
  function NegatedCount(g: Group): int { -g.count }

  predicate ByCountDescending(gs: seq<Group>) {
    Ascending(gs, NegatedCount)
  }

  /** `col IS NOT NULL`. */
  function HasColumn(col: Submission -> Text): Submission -> bool {
    (s: Submission) => col(s).Some?
  }

  /** The non-null values of one column, in table order (`WHERE col IS NOT NULL`). */
  function NonNull(subs: seq<Submission>, col: Submission -> Text): (r: seq<string>)
    ensures |r| == CountWhere(subs, HasColumn(col))
  {
    if |subs| == 0 then []
    else (if col(subs[0]).Some? then [col(subs[0]).value] else []) + NonNull(subs[1..], col)
  }

  /** `SELECT col, COUNT(*) ... WHERE col IS NOT NULL GROUP BY col ORDER BY
      count DESC`. SQLite leaves the order of equal counts open; this fixes
      one of the allowed orders. */
  function Breakdown(subs: seq<Submission>, col: Submission -> Text): (r: seq<Group>)
    ensures GroupsOf(r, NonNull(subs, col))
    ensures ByCountDescending(r)
    ensures Sum(r, GroupCount) == CountWhere(subs, HasColumn(col))
  {
    var values := NonNull(subs, col);
    var t := Tally(values);
    var r := OrderByKey(t, NegatedCount);
    TallyGroups(values);
    GroupsOfPermutation(t, r, values);
    SumPermutation(t, r, GroupCount);
    r
  }

  /** The first `n` groups of a breakdown: no more than `n`, each of them at
      least as frequent as any group left out. */
  lemma TopGroups(gs: seq<Group>, n: nat)
    requires ByCountDescending(gs)
    ensures |Page(gs, n, 0)| <= n
    ensures forall i, j :: 0 <= i < |Page(gs, n, 0)| <= j < |gs| ==> Page(gs, n, 0)[i].count >= gs[j].count
  {
  }

  // ---------------------------------------------------------------------------
  // Percentages

  /** `Math.round(part / total * 100)`, 0 for an empty table. `Math.round`
      rounds halves up, which on exact rationals is
      `floor((200 * part + total) / (2 * total))`. */
  function ConversionRate(part: nat, total: nat): (r: int)
    ensures total == 0 ==> r == 0
    ensures total > 0 ==> 200 * part - total < 2 * total * r <= 200 * part + total
  {
    if total > 0 then (200 * part + total) / (2 * total) else 0
  }

  /** A share of the table is a percentage between 0 and 100. */
  lemma ConversionRateBounded(part: nat, total: nat)
    requires part <= total
    ensures 0 <= ConversionRate(part, total) <= 100
  {
    if total > 0 {
      var r := ConversionRate(part, total);
      assert 0 <= r by {
        if r < 0 {
          MulMonotone(r, -1, 2 * total);
        }
      }
      assert r <= 100 by {
        if r > 100 {
          MulMonotone(101, r, 2 * total);
        }
      }
    }
  }

  lemma MulMonotone(a: int, b: int, c: nat)
    requires a <= b
    ensures c * a <= c * b
  {
  }

  // ---------------------------------------------------------------------------
  // getQuizStats

  datatype Stats = Stats(
    totalSubmissions: nat, submissionsWithEmail: nat, submissionsToday: nat, submissionsThisWeek: nat,
    conversionRate: int, topInterests: seq<Group>, timelineBreakdown: seq<Group>, smileTypes: seq<Group>)

  /** `email IS NOT NULL AND email != ''`. */
  predicate HasEmail(s: Submission) { Present(s.email) }

  function Interest(s: Submission): Text { s.primaryInterest }
  function Timeline(s: Submission): Text { s.timeline }
  function SmileTypeName(s: Submission): Text { s.smileTypeName }

  /** `getQuizStats` over the submission table. `today` is `date('now')`,
      `weekStart` is `date('now', '-7 days')`, and `dateOf` is SQLite's
      `date()` applied to a stored `completed_at` (NULL when it cannot read
      it). */
  function GetQuizStats(subs: seq<Submission>, today: string, weekStart: string, dateOf: string -> Text): (r: Stats)
    ensures r.totalSubmissions == |subs|
    ensures r.submissionsWithEmail == CountWhere(subs, HasEmail) <= r.totalSubmissions
    ensures r.submissionsToday == CountWhere(subs, (s: Submission) => dateOf(s.completedAt) == Some(today))
    ensures r.submissionsThisWeek == CountWhere(subs, (s: Submission) => TextLe(weekStart, s.completedAt))
    ensures 0 <= r.conversionRate <= 100
    ensures r.totalSubmissions == 0 ==> r.conversionRate == 0
    ensures r.totalSubmissions > 0 ==>
      200 * r.submissionsWithEmail - r.totalSubmissions
        < 2 * r.totalSubmissions * r.conversionRate
        <= 200 * r.submissionsWithEmail + r.totalSubmissions
    ensures r.topInterests == Page(Breakdown(subs, Interest), TopInterestCount, 0)
    ensures |r.topInterests| <= TopInterestCount
    ensures r.timelineBreakdown == Breakdown(subs, Timeline)
    ensures r.smileTypes == Breakdown(subs, SmileTypeName)
  {
    var total := |subs|;
    var withEmail := CountWhere(subs, HasEmail);
    ConversionRateBounded(withEmail, total);
    Stats(total, withEmail,
          CountWhere(subs, (s: Submission) => dateOf(s.completedAt) == Some(today)),
          CountWhere(subs, (s: Submission) => TextLe(weekStart, s.completedAt)),
          ConversionRate(withEmail, total),
          Page(Breakdown(subs, Interest), TopInterestCount, 0),
          Breakdown(subs, Timeline),
          Breakdown(subs, SmileTypeName))
  }

  /** The breakdowns count only submissions that have the column: the
      timeline and smile-type counts add up to the number of submissions
      with a timeline and a smile type, and the top interests are among the
      most frequent ones. */
  lemma StatsBreakdownsAddUp(subs: seq<Submission>, today: string, weekStart: string, dateOf: string -> Text)
    ensures var r := GetQuizStats(subs, today, weekStart, dateOf);
      && Sum(r.timelineBreakdown, GroupCount) == CountWhere(subs, HasColumn(Timeline))
      && Sum(r.smileTypes, GroupCount) == CountWhere(subs, HasColumn(SmileTypeName))
    ensures var all := Breakdown(subs, Interest); var top := GetQuizStats(subs, today, weekStart, dateOf).topInterests;
      forall i, j :: 0 <= i < |top| <= j < |all| ==> top[i].count >= all[j].count
  {
    TopGroups(Breakdown(subs, Interest), TopInterestCount);
  }
}

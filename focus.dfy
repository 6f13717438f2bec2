/**
 * Focus statistics of one purpose session: how many checks were made, how
 * many were distractions, the rounded focus percentage, and the per-app
 * breakdown the dashboard shows.
 */
module Focus {
  import opened Wrappers

  /** One recorded check: whether it was a context switch, and the app detected ("" or absent when none). */
  datatype ContextSwitch = ContextSwitch(isContextSwitch: bool, detectedApp: Option<string>)

  /** A purpose session; its `context_switches_v3` may be missing. */
  datatype Purpose = Purpose(contextSwitches: Option<seq<ContextSwitch>>)

  /** `purpose.context_switches_v3 || []` */
  function Switches(p: Purpose): seq<ContextSwitch> { p.contextSwitches.GetOr([]) }

  /** The number of checks that were distractions. */
  function Distractions(s: seq<ContextSwitch>): (r: nat)
    ensures r <= |s|
    ensures r == 0 <==> forall k :: 0 <= k < |s| ==> !s[k].isContextSwitch
    ensures r == |s| <==> forall k :: 0 <= k < |s| ==> s[k].isContextSwitch
  {
    if |s| == 0 then 0
    else Distractions(s[..|s| - 1]) + (if s[|s| - 1].isContextSwitch then 1 else 0)
  }

  /**
   * `Math.round(100 * focused / total)`, exactly: the nearest integer, halves
   * rounded up; 100 when there are no checks.
   */
  function FocusScore(total: nat, focused: nat): (r: nat)
    requires focused <= total
    ensures r <= 100
    ensures total == 0 ==> r == 100
    ensures total > 0 ==> 2 * total * r <= 200 * focused + total < 2 * total * (r + 1)
  {
    if total > 0 then
      var q := (200 * focused + total) / (2 * total);
      DivBounds(200 * focused + total, 2 * total);
      AtMostHundred(total, focused, q);
      q
    else 100
  }

  lemma DivBounds(a: nat, b: nat)
    requires b > 0
    ensures b * (a / b) <= a < b * (a / b + 1)
  {
  }

  lemma MulMonotone(a: nat, x: nat, y: nat)
    requires x <= y
    ensures a * x <= a * y
  {
  }

  lemma AtMostHundred(total: nat, focused: nat, q: nat)
    requires 0 < total && focused <= total && 2 * total * q <= 200 * focused + total
    ensures q <= 100
  {
    if q > 100 {
      MulMonotone(2 * total, 101, q);
    }
  }

  /** The quotient is the one `q` with `b * q <= a < b * (q + 1)`. */
  lemma DivUnique(a: nat, b: nat, q: nat)
    requires b > 0 && b * q <= a < b * (q + 1)
    ensures a / b == q
  {
    DivBounds(a, b);
    var d := a / b;
    if d > q { MulMonotone(b, q + 1, d); }
    if d < q { MulMonotone(b, d + 1, q); }
  }

  /** The score is the rounded percentage: within one half of 100 · focused / total. */
  lemma FocusScoreRounds(total: nat, focused: nat)
    requires 0 < total && focused <= total
    ensures (FocusScore(total, focused) as real) - 0.5 <= 100.0 * (focused as real) / (total as real)
    ensures 100.0 * (focused as real) / (total as real) < (FocusScore(total, focused) as real) + 0.5
  {
    var r := FocusScore(total, focused);
    var t, f := total as real, focused as real;
    assert 2.0 * t * (r as real) <= 200.0 * f + t < 2.0 * t * (r as real + 1.0);
    HalveBy(r as real, f, t);
  }

  lemma HalveBy(r: real, f: real, t: real)
    requires t > 0.0
    requires 2.0 * t * r <= 200.0 * f + t < 2.0 * t * (r + 1.0)
    ensures r - 0.5 <= 100.0 * f / t < r + 0.5
  {
    var q := 100.0 * f / t;
    var lo, hi := r - 0.5, r + 0.5;
    assert 2.0 * t * r == 2.0 * (r * t) && 2.0 * t * (r + 1.0) == 2.0 * (r * t) + 2.0 * t;
    assert lo * t == r * t - 0.5 * t && hi * t == r * t + 0.5 * t;
    assert lo * t <= 100.0 * f;
    assert 100.0 * f < hi * t;
    assert q * t == 100.0 * f;
    assert lo * t <= q * t && q * t < hi * t;
    CancelPositive(lo, q, t);
    CancelPositive(q, hi, t);
    assert lo <= q && q < hi;
  }

  lemma CancelPositive(x: real, y: real, t: real)
    requires t > 0.0
    ensures x * t <= y * t ==> x <= y
    ensures x * t < y * t ==> x < y
  {
    if x > y {
      assert (x - y) * t > 0.0;
    }
    if x >= y {
      assert (x - y) * t >= 0.0;
    }
  }

  /** All focused scores 100, all distracted scores 0. */
  lemma FocusScoreExtremes(total: nat)
    ensures FocusScore(total, total) == 100
    ensures total > 0 ==> FocusScore(total, 0) == 0
  {
    if total > 0 {
      DivUnique(200 * total + total, 2 * total, 100);
      DivUnique(total, 2 * total, 0);
    }
  }

  /** The four numbers both dashboards compute. */
  datatype Stats = Stats(totalChecks: nat, distractions: nat, focusedChecks: nat, focusScore: nat)

  function PurposeStats(p: Purpose): (r: Stats)
    ensures r.totalChecks == |Switches(p)| && r.distractions == Distractions(Switches(p))
    ensures r.distractions <= r.totalChecks && r.focusedChecks + r.distractions == r.totalChecks
    ensures r.focusScore <= 100
    ensures r.totalChecks == 0 ==> r.focusScore == 100
    ensures r.distractions == 0 ==> r.focusScore == 100
    ensures r.totalChecks > 0 && r.distractions == r.totalChecks ==> r.focusScore == 0
  {
    var s := Switches(p);
    var total := |s|;
    var distractions := Distractions(s);
    var focused := total - distractions;
    FocusScoreExtremes(total);
    Stats(total, distractions, focused, FocusScore(total, focused))
  }

  /** A purpose without recorded checks scores 100 with no checks. */
  lemma MissingSwitchesScoreFull()
    ensures PurposeStats(Purpose(None)) == Stats(0, 0, 0, 100)
  {
  }

  // ---- appStats ----

  /** `cs.detected_app || 'Unknown'` */
  function AppKey(app: Option<string>): (r: string)
    ensures r != ""
    ensures app.None? || app.value == "" ==> r == "Unknown"
  {
    if app.Some? && app.value != "" then app.value else "Unknown"
  }

  datatype AppStat = AppStat(total: nat, distractions: nat)

  /** The accumulator: its keys in insertion order, and the per-app counters. */
  datatype AppTable = AppTable(keys: seq<string>, stats: map<string, AppStat>)

  /** One step of the `reduce`. */
  function Record(t: AppTable, cs: ContextSwitch): AppTable {
    var app := AppKey(cs.detectedApp);
    var prev := if app in t.stats then t.stats[app] else AppStat(0, 0);
    AppTable(if app in t.stats then t.keys else t.keys + [app],
             t.stats[app := AppStat(prev.total + 1, prev.distractions + if cs.isContextSwitch then 1 else 0)])
  }

  /** The table the `reduce` builds. */
  function Tally(s: seq<ContextSwitch>): AppTable {
    if |s| == 0 then AppTable([], map[]) else Record(Tally(s[..|s| - 1]), s[|s| - 1])
  }

  /** The `reduce` callback: counts one switch into the accumulator in place. */
  method RecordSwitch(keys: seq<string>, stats: map<string, AppStat>, cs: ContextSwitch)
    returns (keys': seq<string>, stats': map<string, AppStat>)
    ensures AppTable(keys', stats') == Record(AppTable(keys, stats), cs)
  {
    var app := if cs.detectedApp.Some? && cs.detectedApp.value != "" then cs.detectedApp.value else "Unknown";
    keys', stats' := keys, stats;
    if app !in stats' {
      stats' := stats'[app := AppStat(0, 0)];
      keys' := keys' + [app];
    }
    stats' := stats'[app := AppStat(stats'[app].total + 1, stats'[app].distractions)];
    if cs.isContextSwitch {
      stats' := stats'[app := AppStat(stats'[app].total, stats'[app].distractions + 1)];
    }
  }

  /** The `reduce` over the switches, starting from an empty accumulator. */
  method AppStats(switches: seq<ContextSwitch>) returns (table: AppTable)
    ensures table == Tally(switches)
  {
    var keys: seq<string> := [];
    var stats: map<string, AppStat> := map[];
    for i := 0 to |switches|
      invariant AppTable(keys, stats) == Tally(switches[..i])
    {
      assert switches[..i + 1][..i] == switches[..i];
      keys, stats := RecordSwitch(keys, stats, switches[i]);
    }
    assert switches[..|switches|] == switches;
    table := AppTable(keys, stats);
  }

  /** Keys are distinct, are exactly the counted apps, and every counter has 1 <= total and distractions <= total. */
  ghost predicate WellFormed(t: AppTable) {
    && (forall i, j :: 0 <= i < j < |t.keys| ==> t.keys[i] != t.keys[j])
    && (forall k :: k in t.stats <==> k in t.keys)
    && (forall k :: k in t.stats ==> 1 <= t.stats[k].total && t.stats[k].distractions <= t.stats[k].total)
  }

  lemma {:induction false} TallyWellFormed(s: seq<ContextSwitch>)
    ensures WellFormed(Tally(s))
  {
    if |s| > 0 { TallyWellFormed(s[..|s| - 1]); }
  }

  /** How many switches are grouped under `app`, and how many of those are distractions. */
  function CountApp(s: seq<ContextSwitch>, app: string): nat {
    if |s| == 0 then 0
    else CountApp(s[..|s| - 1], app) + if AppKey(s[|s| - 1].detectedApp) == app then 1 else 0
  }

  function CountAppDistractions(s: seq<ContextSwitch>, app: string): nat {
    if |s| == 0 then 0
    else CountAppDistractions(s[..|s| - 1], app)
         + if AppKey(s[|s| - 1].detectedApp) == app && s[|s| - 1].isContextSwitch then 1 else 0
  }

  /** Each app's counters are its number of switches and of distractions; an app with no switch has no entry. */
  lemma {:induction false} TallyCounts(s: seq<ContextSwitch>, app: string)
    ensures app in Tally(s).stats ==> Tally(s).stats[app] == AppStat(CountApp(s, app), CountAppDistractions(s, app))
    ensures app !in Tally(s).stats ==> CountApp(s, app) == 0 && CountAppDistractions(s, app) == 0
  {
    if |s| > 0 { TallyCounts(s[..|s| - 1], app); }
  }

  function SumTotals(keys: seq<string>, stats: map<string, AppStat>): nat {
    if |keys| == 0 then 0
    else SumTotals(keys[..|keys| - 1], stats) + (if keys[|keys| - 1] in stats then stats[keys[|keys| - 1]].total else 0)
  }

  function SumDistractions(keys: seq<string>, stats: map<string, AppStat>): nat {
    if |keys| == 0 then 0
    else SumDistractions(keys[..|keys| - 1], stats)
         + (if keys[|keys| - 1] in stats then stats[keys[|keys| - 1]].distractions else 0)
  }

  /** Changing one key's counter changes the sums by the difference, when that key occurs once. */
  lemma {:induction false} SumsUpdate(keys: seq<string>, stats: map<string, AppStat>, app: string, v: AppStat)
    requires app in stats
    requires forall i, j :: 0 <= i < j < |keys| ==> keys[i] != keys[j]
    ensures app in keys ==> SumTotals(keys, stats[app := v]) + stats[app].total == SumTotals(keys, stats) + v.total
    ensures app in keys ==> SumDistractions(keys, stats[app := v]) + stats[app].distractions
                            == SumDistractions(keys, stats) + v.distractions
    ensures app !in keys ==> SumTotals(keys, stats[app := v]) == SumTotals(keys, stats)
    ensures app !in keys ==> SumDistractions(keys, stats[app := v]) == SumDistractions(keys, stats)
  {
    if |keys| > 0 {
      var init := keys[..|keys| - 1];
      assert forall i, j :: 0 <= i < j < |init| ==> init[i] != init[j];
      SumsUpdate(init, stats, app, v);
      if keys[|keys| - 1] == app {
        assert app !in init;
      } else {
        assert app in keys ==> app in init;
      }
    }
  }

  /** A key not yet in the table contributes nothing to the sums. */
  lemma {:induction false} SumsFresh(keys: seq<string>, stats: map<string, AppStat>, app: string, v: AppStat)
    requires app !in keys
    ensures SumTotals(keys, stats[app := v]) == SumTotals(keys, stats)
    ensures SumDistractions(keys, stats[app := v]) == SumDistractions(keys, stats)
  {
    if |keys| > 0 { SumsFresh(keys[..|keys| - 1], stats, app, v); }
  }

  /** Summed over the apps, the totals give the number of checks and the distractions the number of distractions. */
  lemma {:induction false} TallySums(s: seq<ContextSwitch>)
    ensures SumTotals(Tally(s).keys, Tally(s).stats) == |s|
    ensures SumDistractions(Tally(s).keys, Tally(s).stats) == Distractions(s)
  {
    if |s| > 0 {
      var init := s[..|s| - 1];
      TallySums(init);
      TallyWellFormed(init);
      RecordSums(Tally(init), s[|s| - 1]);
    }
  }

  /** One `reduce` step adds one check to the totals, and one distraction when the check is one. */
  lemma RecordSums(t: AppTable, cs: ContextSwitch)
    requires WellFormed(t)
    ensures SumTotals(Record(t, cs).keys, Record(t, cs).stats) == SumTotals(t.keys, t.stats) + 1
    ensures SumDistractions(Record(t, cs).keys, Record(t, cs).stats)
         == SumDistractions(t.keys, t.stats) + if cs.isContextSwitch then 1 else 0
  {
    var app := AppKey(cs.detectedApp);
    var d := if cs.isContextSwitch then 1 else 0;
    if app in t.stats {
      var v := AppStat(t.stats[app].total + 1, t.stats[app].distractions + d);
      assert Record(t, cs) == AppTable(t.keys, t.stats[app := v]);
      SumsUpdate(t.keys, t.stats, app, v);
    } else {
      var v := AppStat(1, d);
      var keys := t.keys + [app];
      assert Record(t, cs) == AppTable(keys, t.stats[app := v]);
      SumsFresh(t.keys, t.stats, app, v);
      assert keys[..|keys| - 1] == t.keys;
    }
  }
}

/** The main loop's risk-score state machine: every report taken off the
    anomaly queue adds points by the kind it mentions, and once the score
    exceeds the threshold an alarm is raised and the score restarts at zero.
    The queue is the sequence of reports in the order they are taken. */
module RiskScore {
  import opened Text
  import Alerts

  /** The score must exceed this (strictly) to raise the alarm. */
  const Threshold: int := 10

  /** Points per anomaly kind: Movement 1, Typing 2, AppUsage 3. */
  function KindPoints(k: Alerts.Kind): int
  {
    match k
    case MovementKind => 1
    case TypingKind => 2
    case AppUsageKind => 3
  }

  /** Points of a report as the main loop scores it: the first of "Movement",
      "Typing", "AppUsage" occurring anywhere in the text decides, and a report
      mentioning none of them scores nothing. */
  function Points(report: string): (p: int)
    ensures 0 <= p <= 3
    ensures Contains(report, "Movement") ==> p == 1
    ensures !Contains(report, "Movement") && Contains(report, "Typing") ==> p == 2
    ensures !Contains(report, "Movement") && !Contains(report, "Typing") && Contains(report, "AppUsage")
            ==> p == 3
    ensures p == 0 <==>
              !Contains(report, "Movement") && !Contains(report, "Typing") && !Contains(report, "AppUsage")
  {
    if Contains(report, Alerts.Tag(Alerts.MovementKind)) then KindPoints(Alerts.MovementKind)
    else if Contains(report, Alerts.Tag(Alerts.TypingKind)) then KindPoints(Alerts.TypingKind)
    else if Contains(report, Alerts.Tag(Alerts.AppUsageKind)) then KindPoints(Alerts.AppUsageKind)
    else 0
  }

  /** Points of a report by the kind prefix it starts with, the same test the
      dashboard's log filter applies. */
  function PointsByPrefix(report: string): (p: int)
    ensures 0 <= p <= 3
    ensures forall k :: StartsWith(report, Alerts.Prefix(k)) ==> p == KindPoints(k)
    ensures p == 0 <==> forall k :: !StartsWith(report, Alerts.Prefix(k))
  {
    forall k1, k2 | StartsWith(report, Alerts.Prefix(k1)) && StartsWith(report, Alerts.Prefix(k2))
      ensures k1 == k2
    {
      Alerts.PrefixesExclusive(report, k1, k2);
    }
    if StartsWith(report, Alerts.Prefix(Alerts.MovementKind)) then KindPoints(Alerts.MovementKind)
    else if StartsWith(report, Alerts.Prefix(Alerts.TypingKind)) then KindPoints(Alerts.TypingKind)
    else if StartsWith(report, Alerts.Prefix(Alerts.AppUsageKind)) then KindPoints(Alerts.AppUsageKind)
    else 0
  }

  /** One processed report: the score printed after adding the points, the
      score kept for the next report, and whether the alarm was raised. */
  datatype StepResult = StepResult(shown: int, score: int, alarm: bool)

  /** Add `points` to `score`; past the threshold, raise the alarm and reset. */
  function Accumulate(score: int, points: int): (r: StepResult)
    ensures r.shown == score + points
    ensures r.alarm <==> score + points > Threshold
    ensures r.alarm ==> r.score == 0
    ensures !r.alarm ==> r.score == r.shown
    ensures 0 <= score <= Threshold && 0 <= points ==> 0 <= r.score <= Threshold
  {
    var s := score + points;
    if s > Threshold then StepResult(s, 0, true) else StepResult(s, s, false)
  }

  /** The body of the main loop for one report. */
  function Step(score: int, report: string): (r: StepResult)
    ensures Contains(report, "Movement") ==> r.shown == score + 1
    ensures !Contains(report, "Movement") && Contains(report, "Typing") ==> r.shown == score + 2
    ensures !Contains(report, "Movement") && !Contains(report, "Typing") && Contains(report, "AppUsage")
            ==> r.shown == score + 3
    ensures !Contains(report, "Movement") && !Contains(report, "Typing") && !Contains(report, "AppUsage")
              && score <= Threshold
            ==> r == StepResult(score, score, false)
    ensures r.alarm <==> r.shown > Threshold
    ensures r.alarm ==> r.score == 0
    ensures !r.alarm ==> r.score == r.shown
    ensures 0 <= score <= Threshold ==> 0 <= r.score <= Threshold
  {
    Accumulate(score, Points(report))
  }

  /** The score the loop holds after the steps in `t`, starting from `score`. */
  function Final(score: int, t: seq<StepResult>): int
  {
    if |t| == 0 then score else t[|t| - 1].score
  }

  /** The steps of the main loop over `reports`, each report weighed by `weigh`. */
  function Run(score: int, reports: seq<string>, weigh: string -> int): (t: seq<StepResult>)
    ensures |t| == |reports|
  {
    if |reports| == 0 then []
    else
      var t := Run(score, reports[..|reports| - 1], weigh);
      t + [Accumulate(Final(score, t), weigh(reports[|reports| - 1]))]
  }

  /** Number of alarms raised along a run. */
  function AlarmCount(t: seq<StepResult>): nat
  {
    if |t| == 0 then 0 else AlarmCount(t[..|t| - 1]) + (if t[|t| - 1].alarm then 1 else 0)
  }

  /** Each step of a run adds the weight of its report to the score before it. */
  lemma {:induction false} RunSteps(score: int, reports: seq<string>, weigh: string -> int, i: nat)
    requires i < |reports|
    ensures Run(score, reports, weigh)[i]
            == Accumulate(Final(score, Run(score, reports, weigh)[..i]), weigh(reports[i]))
  {
    var n := |reports|;
    var t := Run(score, reports[..n - 1], weigh);
    if i < n - 1 {
      RunSteps(score, reports[..n - 1], weigh, i);
      assert Run(score, reports, weigh)[..i] == t[..i];
    } else {
      assert Run(score, reports, weigh)[..i] == t;
    }
  }

  /** Starting in range and with non-negative weights, every score along the
      run stays within 0..Threshold, and between alarms it never decreases. */
  lemma {:induction false} RunInvariant(score: int, reports: seq<string>, weigh: string -> int)
    requires 0 <= score <= Threshold
    requires forall r :: 0 <= weigh(r)
    ensures forall i :: 0 <= i < |reports| ==>
              0 <= Run(score, reports, weigh)[i].score <= Threshold
    ensures forall i :: 0 <= i < |reports| ==>
              (Run(score, reports, weigh)[i].alarm <==> Run(score, reports, weigh)[i].shown > Threshold)
    ensures forall i :: 0 < i < |reports| && !Run(score, reports, weigh)[i].alarm ==>
              Run(score, reports, weigh)[i - 1].score <= Run(score, reports, weigh)[i].score
    ensures |reports| > 0 && !Run(score, reports, weigh)[0].alarm ==> score <= Run(score, reports, weigh)[0].score
    ensures 0 <= Final(score, Run(score, reports, weigh)) <= Threshold
  {
    if |reports| > 0 {
      var n := |reports|;
      RunInvariant(score, reports[..n - 1], weigh);
    }
  }

  /** The main loop as written, consuming the queue in order from a zero score:
      returns the final score and the number of alarms raised. */
  method ProcessQueue(reports: seq<string>) returns (score: int, alarms: nat)
    ensures score == Final(0, Run(0, reports, Points))
    ensures alarms == AlarmCount(Run(0, reports, Points))
    ensures 0 <= score <= Threshold
  {
    score, alarms := 0, 0;
    var i := 0;
    while i < |reports|
      invariant 0 <= i <= |reports|
      invariant score == Final(0, Run(0, reports[..i], Points))
      invariant alarms == AlarmCount(Run(0, reports[..i], Points))
      invariant 0 <= score <= Threshold
    {
      assert reports[..i + 1][..i] == reports[..i];
      var r := Step(score, reports[i]);
      score := r.score;
      if r.alarm {
        alarms := alarms + 1;
      }
      i := i + 1;
    }
    assert reports[..i] == reports;
  }

  /** Four reports that each mention only "AppUsage" give scores 3, 6, 9 and
      then 0, with the one alarm on the fourth. */
  lemma FourAppUsageReports(r1: string, r2: string, r3: string, r4: string)
    requires forall r :: r in [r1, r2, r3, r4] ==>
               Contains(r, "AppUsage") && !Contains(r, "Movement") && !Contains(r, "Typing")
    ensures Run(0, [r1, r2, r3, r4], Points)
            == [StepResult(3, 3, false), StepResult(6, 6, false), StepResult(9, 9, false), StepResult(12, 0, true)]
    ensures AlarmCount(Run(0, [r1, r2, r3, r4], Points)) == 1
  {
    assert r1 in [r1, r2, r3, r4] && r2 in [r1, r2, r3, r4];
    assert r3 in [r1, r2, r3, r4] && r4 in [r1, r2, r3, r4];
    FourEqualWeights(r1, r2, r3, r4, Points);
  }

  /** Reports queued by the agents are scored by their own kind when weighed
      by prefix, whatever app name or number they carry. */
  lemma {:induction false} ReportScoredByKind(a: Alerts.Alert, fmt: real -> string)
    ensures PointsByPrefix(Alerts.Report(a, fmt)) == KindPoints(Alerts.KindOf(a))
  {
    var r := Alerts.Report(a, fmt);
    Alerts.ReportPrefix(a, fmt, Alerts.MovementKind);
    Alerts.ReportPrefix(a, fmt, Alerts.TypingKind);
    Alerts.ReportPrefix(a, fmt, Alerts.AppUsageKind);
  }

  /** As written, the main loop scores an "unusual app" report for an app
      whose name contains "Movement" as a movement anomaly: 1 point, not 3. */
  lemma UnusualAppNamedMovement(fmt: real -> string)
    ensures Points(Alerts.Report(Alerts.UnusualApp("MovementLab"), fmt)) == 1
    ensures PointsByPrefix(Alerts.Report(Alerts.UnusualApp("MovementLab"), fmt)) == 3
  {
    var a := Alerts.UnusualApp("MovementLab");
    assert OccursAt("MovementLab", "Movement", 0);
    ContainsInMiddle(" Anomaly: Unusual app in focus: '", "MovementLab", "'.", "Movement");
    ContainsInMiddle(Alerts.Prefix(Alerts.AppUsageKind), Alerts.Message(a, fmt), [], "Movement");
    assert Alerts.Prefix(Alerts.AppUsageKind) + Alerts.Message(a, fmt) + [] == Alerts.Report(a, fmt);
    ReportScoredByKind(Alerts.UnusualApp("MovementLab"), fmt);
  }

  /** Weighed by prefix, any four app-usage reports, whatever app or gap they
      carry, give scores 3, 6, 9 and then 0 with one alarm. */
  lemma FourAppUsageAlerts(a1: Alerts.Alert, a2: Alerts.Alert, a3: Alerts.Alert, a4: Alerts.Alert,
                           fmt: real -> string)
    requires Alerts.KindOf(a1) == Alerts.KindOf(a2) == Alerts.AppUsageKind
    requires Alerts.KindOf(a3) == Alerts.KindOf(a4) == Alerts.AppUsageKind
    ensures Run(0, [Alerts.Report(a1, fmt), Alerts.Report(a2, fmt), Alerts.Report(a3, fmt), Alerts.Report(a4, fmt)],
                PointsByPrefix)
            == [StepResult(3, 3, false), StepResult(6, 6, false), StepResult(9, 9, false), StepResult(12, 0, true)]
  {
    ReportScoredByKind(a1, fmt);
    ReportScoredByKind(a2, fmt);
    ReportScoredByKind(a3, fmt);
    ReportScoredByKind(a4, fmt);
    FourEqualWeights(Alerts.Report(a1, fmt), Alerts.Report(a2, fmt), Alerts.Report(a3, fmt),
                     Alerts.Report(a4, fmt), PointsByPrefix);
  }

  /** Four reports weighing 3 each, starting from zero. */
  lemma FourEqualWeights(r1: string, r2: string, r3: string, r4: string, weigh: string -> int)
    requires weigh(r1) == 3 && weigh(r2) == 3 && weigh(r3) == 3 && weigh(r4) == 3
    ensures Run(0, [r1, r2, r3, r4], weigh)
            == [StepResult(3, 3, false), StepResult(6, 6, false), StepResult(9, 9, false), StepResult(12, 0, true)]
    ensures AlarmCount(Run(0, [r1, r2, r3, r4], weigh)) == 1
  {
    var q := [r1, r2, r3, r4];
    assert q[..3] == [r1, r2, r3];
    assert [r1, r2, r3][..2] == [r1, r2];
    assert [r1, r2][..1] == [r1];
    assert [r1][..0] == [];
    var t1 := Run(0, [r1], weigh);
    assert t1 == [StepResult(3, 3, false)];
    var t2 := Run(0, [r1, r2], weigh);
    assert t2 == t1 + [StepResult(6, 6, false)];
    var t3 := Run(0, [r1, r2, r3], weigh);
    assert t3 == t2 + [StepResult(9, 9, false)];
    var t4 := Run(0, q, weigh);
    assert t4 == t3 + [StepResult(12, 0, true)];
    assert t4[..3] == t3 && t3[..2] == t2 && t2[..1] == t1 && t1[..0] == [];
    assert AlarmCount(t1) == 0 && AlarmCount(t2) == 0 && AlarmCount(t3) == 0;
  }
}

/** The movement agent: mouse positions are buffered with their times,
    speeds are derived from consecutive positions, a learning phase fixes the
    mean and standard deviation of those speeds, and afterwards every move
    whose latest speed lies more than three standard deviations from the mean
    is reported. The Euclidean distance, the clock and the statistics are
    parameters. */
module Movement {
  import opened Basics
  import Alerts

  /** At most this many positions are kept. */
  const PositionCap: nat := 200
  /** Consecutive positions closer in time than this (seconds) yield no speed. */
  const MinTimeDiff: real := 0.001
  /** More than this many speeds are needed to learn a profile. */
  const MinSamples: nat := 10

  datatype Position = Position(x: real, y: real, time: real)

  /** Distance between two positions. */
  type Metric = (Position, Position) -> real

  datatype Agent = Agent(
    positions: seq<Position>,   // oldest first
    isLearning: bool,
    meanSpeed: real,
    stdDevSpeed: real)

  function Init(): (a: Agent)
    ensures a.isLearning && a.positions == []
    ensures a.meanSpeed == 0.0 && a.stdDevSpeed == 0.0
  {
    Agent([], true, 0.0, 0.0)
  }

  /** Distance over elapsed time between two positions. */
  function SpeedOf(p1: Position, p2: Position, dist: Metric): real
    requires p2.time - p1.time > 0.0
  {
    dist(p1, p2) / (p2.time - p1.time)
  }

  /** The speed between two consecutive positions, if they are far enough apart in time. */
  function PairSpeed(p1: Position, p2: Position, dist: Metric): seq<real>
  {
    if p2.time - p1.time > MinTimeDiff then [SpeedOf(p1, p2, dist)] else []
  }

  /** The speeds of all consecutive pairs of positions, in order. */
  function Speeds(ps: seq<Position>, dist: Metric): (r: seq<real>)
    ensures |ps| < 2 ==> r == []
    ensures |ps| >= 2 ==> |r| <= |ps| - 1
  {
    if |ps| < 2 then []
    else Speeds(ps[..|ps| - 1], dist) + PairSpeed(ps[|ps| - 2], ps[|ps| - 1], dist)
  }

  /** The speed list computed pair by pair, as the agent does. */
  method CalculateSpeeds(ps: seq<Position>, dist: Metric) returns (speeds: seq<real>)
    ensures speeds == Speeds(ps, dist)
    ensures |ps| >= 2 ==> |speeds| <= |ps| - 1
  {
    speeds := [];
    if |ps| < 2 {
      return;
    }
    var i := 1;
    while i < |ps|
      invariant 1 <= i <= |ps|
      invariant speeds == Speeds(ps[..i], dist)
    {
      assert ps[..i + 1][..i] == ps[..i];
      var p1 := ps[i - 1];
      var p2 := ps[i];
      var timeDiff := p2.time - p1.time;
      if timeDiff > MinTimeDiff {
        speeds := speeds + [dist(p1, p2) / timeDiff];
      }
      i := i + 1;
    }
    assert ps[..i] == ps;
  }

  /** When every pair is far enough apart in time, there is one speed per pair,
      distance over elapsed time. */
  lemma {:induction false} AllPairsTimed(ps: seq<Position>, dist: Metric)
    requires |ps| >= 2
    requires forall i :: 0 < i < |ps| ==> ps[i].time - ps[i - 1].time > MinTimeDiff
    ensures |Speeds(ps, dist)| == |ps| - 1
    ensures forall i :: 0 <= i < |ps| - 1 ==> Speeds(ps, dist)[i] == SpeedOf(ps[i], ps[i + 1], dist)
  {
    var n := |ps|;
    var front := ps[..n - 1];
    var v := SpeedOf(ps[n - 2], ps[n - 1], dist);
    var sf := Speeds(front, dist);
    assert Speeds(ps, dist) == sf + [v] by {
      DropLast(ps, dist);
    }
    if n > 2 {
      forall i | 0 < i < |front|
        ensures front[i].time - front[i - 1].time > MinTimeDiff
      {
        assert front[i] == ps[i] && front[i - 1] == ps[i - 1];
      }
      AllPairsTimed(front, dist);
      AppendTimed(ps, sf, v, dist);
    } else {
      assert sf == [];
    }
  }

  /** Speeds of all but the newest pair, followed by the newest pair's speed,
      are the speeds of every pair. */
  lemma AppendTimed(ps: seq<Position>, sf: seq<real>, v: real, dist: Metric)
    requires |ps| > 2 && |sf| == |ps| - 2
    requires forall i :: 0 < i < |ps| ==> ps[i].time - ps[i - 1].time > 0.0
    requires forall i :: 0 <= i < |ps| - 2 ==> sf[i] == SpeedOf(ps[..|ps| - 1][i], ps[..|ps| - 1][i + 1], dist)
    requires v == SpeedOf(ps[|ps| - 2], ps[|ps| - 1], dist)
    ensures forall i :: 0 <= i < |ps| - 1 ==> (sf + [v])[i] == SpeedOf(ps[i], ps[i + 1], dist)
  {
    forall i | 0 <= i < |ps| - 1
      ensures (sf + [v])[i] == SpeedOf(ps[i], ps[i + 1], dist)
    {
      if i < |ps| - 2 {
        assert ps[..|ps| - 1][i] == ps[i] && ps[..|ps| - 1][i + 1] == ps[i + 1];
      }
    }
  }

  /** When no pair is far enough apart in time, there are no speeds at all. */
  lemma {:induction false} NoPairTimed(ps: seq<Position>, dist: Metric)
    requires forall i :: 0 < i < |ps| ==> ps[i].time - ps[i - 1].time <= MinTimeDiff
    ensures Speeds(ps, dist) == []
  {
    if |ps| >= 2 {
      NoPairTimed(ps[..|ps| - 1], dist);
    }
  }

  /** The speeds of a buffer are those before position `k`, then the speed of
      the pair ending at `k` if it has one, then those from `k` on. */
  lemma {:induction false} SpeedsSplit(ps: seq<Position>, dist: Metric, k: nat)
    requires 1 <= k < |ps|
    ensures Speeds(ps, dist) == Speeds(ps[..k], dist) + PairSpeed(ps[k - 1], ps[k], dist) + Speeds(ps[k..], dist)
    decreases |ps|
  {
    var n := |ps|;
    var mid := PairSpeed(ps[k - 1], ps[k], dist);
    if k == n - 1 {
      SplitAtEnd(ps, dist);
    } else {
      var front := ps[..n - 1];
      var tail := ps[k..];
      assert front[..k] == ps[..k];
      assert front[k..] == tail[..|tail| - 1];
      assert tail[|tail| - 2] == ps[n - 2] && tail[|tail| - 1] == ps[n - 1];
      var last := PairSpeed(ps[n - 2], ps[n - 1], dist);
      var x, y := Speeds(ps[..k], dist), Speeds(front[k..], dist);
      assert Speeds(front, dist) == x + mid + y by {
        SpeedsSplit(front, dist, k);
      }
      assert Speeds(ps, dist) == Speeds(front, dist) + last by {
        DropLast(ps, dist);
      }
      assert Speeds(tail, dist) == y + last by {
        DropLast(tail, dist);
      }
      ConcatAssociates(x, mid, y, last);
    }
  }

  lemma ConcatAssociates(x: seq<real>, mid: seq<real>, y: seq<real>, last: seq<real>)
    ensures (x + mid + y) + last == x + mid + (y + last)
  {
  }

  /** The speeds of a buffer are those without its newest position, then the
      speed of the newest pair if it has one. */
  lemma DropLast(ps: seq<Position>, dist: Metric)
    requires |ps| >= 2
    ensures Speeds(ps, dist) == Speeds(ps[..|ps| - 1], dist) + PairSpeed(ps[|ps| - 2], ps[|ps| - 1], dist)
  {
  }

  lemma SplitAtEnd(ps: seq<Position>, dist: Metric)
    requires |ps| >= 2
    ensures Speeds(ps, dist)
            == Speeds(ps[..|ps| - 1], dist) + PairSpeed(ps[|ps| - 2], ps[|ps| - 1], dist) + Speeds(ps[|ps| - 1..], dist)
  {
    assert Speeds(ps[|ps| - 1..], dist) == [];
    DropLast(ps, dist);
  }

  /** A pair at most 0.001 s apart contributes no speed, wherever it lies in the
      buffer; a pair further apart contributes exactly its distance over its time. */
  lemma PairContribution(ps: seq<Position>, dist: Metric, k: nat)
    requires 1 <= k < |ps|
    ensures ps[k].time - ps[k - 1].time <= MinTimeDiff ==>
              Speeds(ps, dist) == Speeds(ps[..k], dist) + Speeds(ps[k..], dist)
    ensures ps[k].time - ps[k - 1].time > MinTimeDiff ==>
              Speeds(ps, dist) == Speeds(ps[..k], dist)
                                  + [SpeedOf(ps[k - 1], ps[k], dist)]
                                  + Speeds(ps[k..], dist)
  {
    SpeedsSplit(ps, dist, k);
    if ps[k].time - ps[k - 1].time <= MinTimeDiff {
      assert Speeds(ps[..k], dist) + [] == Speeds(ps[..k], dist);
    }
  }

  /** With a non-negative distance, every speed is non-negative. */
  lemma {:induction false} SpeedsNonNegative(ps: seq<Position>, dist: Metric)
    requires forall p, q :: dist(p, q) >= 0.0
    ensures forall i :: 0 <= i < |Speeds(ps, dist)| ==> Speeds(ps, dist)[i] >= 0.0
  {
    if |ps| >= 2 {
      SpeedsNonNegative(ps[..|ps| - 1], dist);
    }
  }

  /** The detection rule: the latest speed against the learned profile. */
  function Detect(a: Agent, dist: Metric): (r: Option<Alerts.Alert>)
    ensures r.Some? <==>
              |Speeds(a.positions, dist)| > 0 && a.stdDevSpeed != 0.0
              && Abs(Speeds(a.positions, dist)[|Speeds(a.positions, dist)| - 1] - a.meanSpeed)
                 > 3.0 * a.stdDevSpeed
    ensures r.Some? ==>
              r.value == Alerts.HighSpeed(Speeds(a.positions, dist)[|Speeds(a.positions, dist)| - 1])
  {
    var speeds := Speeds(a.positions, dist);
    if |speeds| == 0 || a.stdDevSpeed == 0.0 then None
    else
      var last := speeds[|speeds| - 1];
      if Abs(last - a.meanSpeed) > 3.0 * a.stdDevSpeed then Some(Alerts.HighSpeed(last)) else None
  }

  /** When the newest pair is too close in time, the latest speed is the one
      from before that move, so detection judges the earlier speed again. */
  lemma StaleLatestSpeed(ps: seq<Position>, dist: Metric)
    requires |ps| >= 2
    requires ps[|ps| - 1].time - ps[|ps| - 2].time <= MinTimeDiff
    ensures Speeds(ps, dist) == Speeds(ps[..|ps| - 1], dist)
  {
  }

  datatype Move = Move(agent: Agent, alert: Option<Alerts.Alert>)

  /** A mouse move to (`x`, `y`) at time `now`. */
  function OnMove(a: Agent, x: real, y: real, now: real, dist: Metric): (r: Move)
    ensures |r.agent.positions| > 0 && r.agent.positions[|r.agent.positions| - 1] == Position(x, y, now)
    ensures |a.positions| < PositionCap ==> r.agent.positions == a.positions + [Position(x, y, now)]
    ensures |a.positions| == PositionCap ==> r.agent.positions == a.positions[1..] + [Position(x, y, now)]
    ensures |a.positions| <= PositionCap ==> |r.agent.positions| <= PositionCap
    ensures r.agent.isLearning == a.isLearning
    ensures r.agent.meanSpeed == a.meanSpeed && r.agent.stdDevSpeed == a.stdDevSpeed
    ensures a.isLearning ==> r.alert == None
    ensures !a.isLearning ==> r.alert == Detect(r.agent, dist)
  {
    var appended := a.positions + [Position(x, y, now)];
    var capped := if |appended| > PositionCap then appended[1..] else appended;
    var a' := a.(positions := capped);
    Move(a', if a.isLearning then None else Detect(a', dist))
  }

  /** The end of the learning phase, with the mean and standard deviation of
      the speeds given. */
  function FinishLearning(a: Agent, dist: Metric, mean: real, stdDev: real): (r: Agent)
    ensures !r.isLearning && r.positions == []
    ensures |Speeds(a.positions, dist)| > MinSamples ==> r.meanSpeed == mean && r.stdDevSpeed == stdDev
    ensures |Speeds(a.positions, dist)| <= MinSamples ==>
              r.meanSpeed == a.meanSpeed && r.stdDevSpeed == a.stdDevSpeed
  {
    var learned :=
      if |Speeds(a.positions, dist)| > MinSamples then a.(meanSpeed := mean, stdDevSpeed := stdDev) else a;
    learned.(isLearning := false, positions := [])
  }

  /** Fewer than twelve positions can never yield enough speeds to learn a profile. */
  lemma FewPositionsNoProfile(a: Agent, dist: Metric, mean: real, stdDev: real)
    requires |a.positions| <= MinSamples + 1
    ensures FinishLearning(a, dist, mean, stdDev).stdDevSpeed == a.stdDevSpeed
  {
  }

  /** The agent after a run of moves `(x, y, time)`, with the alerts raised. */
  function Moves(a: Agent, moves: seq<Position>, dist: Metric): (r: (Agent, seq<Alerts.Alert>))
    decreases |moves|
  {
    if |moves| == 0 then (a, [])
    else
      var m := OnMove(a, moves[0].x, moves[0].y, moves[0].time, dist);
      var rest := Moves(m.agent, moves[1..], dist);
      (rest.0, (if m.alert.Some? then [m.alert.value] else []) + rest.1)
  }

  /** One move keeps the position buffer within its cap, the phase and the
      profile, and puts the new position last. */
  lemma MoveAgent(a: Agent, p: Position, dist: Metric)
    requires |a.positions| <= PositionCap
    ensures var r := OnMove(a, p.x, p.y, p.time, dist).agent;
            && 0 < |r.positions| <= PositionCap
            && r.positions[|r.positions| - 1] == p
            && r.isLearning == a.isLearning
            && r.stdDevSpeed == a.stdDevSpeed
  {
  }

  /** A non-empty run of moves is its first move followed by the rest. */
  lemma MovesUnfold(a: Agent, moves: seq<Position>, dist: Metric)
    requires |moves| > 0
    ensures Moves(a, moves, dist).0
            == Moves(OnMove(a, moves[0].x, moves[0].y, moves[0].time, dist).agent, moves[1..], dist).0
  {
  }

  /** What a run of `moves` from `a` keeps in the agent `r` it leaves. */
  predicate KeptBuffer(a: Agent, moves: seq<Position>, r: Agent)
  {
    && |r.positions| <= PositionCap
    && r.isLearning == a.isLearning
    && r.stdDevSpeed == a.stdDevSpeed
    && (|moves| > 0 ==> |r.positions| > 0 && r.positions[|r.positions| - 1] == moves[|moves| - 1])
  }

  /** What the first move keeps, and what the rest of the run keeps after it,
      the whole run keeps. */
  lemma KeptBufferStep(a: Agent, next: Agent, moves: seq<Position>, r: Agent)
    requires |moves| > 0
    requires KeptBuffer(a, moves[..1], next)
    requires KeptBuffer(next, moves[1..], r)
    requires |moves| == 1 ==> r == next
    ensures KeptBuffer(a, moves, r)
  {
    if |moves| > 1 {
      assert moves[1..][|moves[1..]| - 1] == moves[|moves| - 1];
    }
  }

  /** Any run of moves keeps the position buffer within its cap and the newest
      position last, and keeps the phase and the profile. */
  lemma {:induction false} MovesKeepBuffer(a: Agent, moves: seq<Position>, dist: Metric)
    requires |a.positions| <= PositionCap
    ensures KeptBuffer(a, moves, Moves(a, moves, dist).0)
    decreases |moves|
  {
    if |moves| > 0 {
      var next := OnMove(a, moves[0].x, moves[0].y, moves[0].time, dist).agent;
      MoveAgent(a, moves[0], dist);
      assert KeptBuffer(a, moves[..1], next);
      MovesUnfold(a, moves, dist);
      MovesKeepBuffer(next, moves[1..], dist);
      KeptBufferStep(a, next, moves, Moves(next, moves[1..], dist).0);
    }
  }

  /** A learning agent, or one without a profile, raises nothing over any run of moves. */
  lemma {:induction false} MovesQuiet(a: Agent, moves: seq<Position>, dist: Metric)
    requires a.isLearning || a.stdDevSpeed == 0.0
    ensures Moves(a, moves, dist).1 == []
    decreases |moves|
  {
    if |moves| > 0 {
      var m := OnMove(a, moves[0].x, moves[0].y, moves[0].time, dist);
      assert m.alert == None;
      MovesQuiet(m.agent, moves[1..], dist);
    }
  }
}

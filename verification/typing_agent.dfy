/** The typing agent: key presses yield inter-key delays, plausible delays are
    buffered, a learning phase fixes the mean and standard deviation of the
    buffered delays, and afterwards a delay more than three standard deviations
    from the mean is reported. Clock readings are parameters; the mean and
    standard deviation of the buffer are given reals. */
module Typing {
  import opened Basics
  import Alerts

  /** A delay is a typing-rhythm sample only strictly between these bounds (seconds). */
  const MinDelay: real := 0.01
  const MaxDelay: real := 2.0
  /** At most this many delays are kept. */
  const BufferCap: nat := 500
  /** More than this many delays are needed to learn a profile. */
  const MinSamples: nat := 10

  datatype Agent = Agent(
    keyPressTimes: seq<real>,   // buffered delays, oldest first
    lastPressTime: real,
    isLearning: bool,
    meanDelay: real,
    stdDevDelay: real)

  /** A fresh agent created at time `now`. */
  function Init(now: real): (a: Agent)
    ensures a.isLearning && a.keyPressTimes == [] && a.lastPressTime == now
    ensures a.meanDelay == 0.0 && a.stdDevDelay == 0.0
    ensures forall later :: OnPress(a, later).alert == None
  {
    Agent([], now, true, 0.0, 0.0)
  }

  predicate InDomain(delay: real)
  {
    MinDelay < delay < MaxDelay
  }

  /** Every buffered delay is a plausible one and the buffer is within its cap. */
  predicate BufferOk(a: Agent)
  {
    |a.keyPressTimes| <= BufferCap
    && forall i :: 0 <= i < |a.keyPressTimes| ==> InDomain(a.keyPressTimes[i])
  }

  /** The detection rule for one delay against the learned profile. */
  function Detect(a: Agent, delay: real): (r: Option<Alerts.Alert>)
    ensures r.Some? <==>
              a.stdDevDelay != 0.0 && InDomain(delay)
              && Abs(delay - a.meanDelay) > 3.0 * a.stdDevDelay
    ensures r.Some? ==> r.value == Alerts.OddRhythm(delay * 1000.0)
  {
    if a.stdDevDelay == 0.0 || !InDomain(delay) then None
    else if Abs(delay - a.meanDelay) > 3.0 * a.stdDevDelay then Some(Alerts.OddRhythm(delay * 1000.0))
    else None
  }

  datatype Press = Press(agent: Agent, alert: Option<Alerts.Alert>)

  /** A key press at time `now`. */
  function OnPress(a: Agent, now: real): (r: Press)
    ensures r.agent.lastPressTime == now
    ensures r.agent.isLearning == a.isLearning
    ensures r.agent.meanDelay == a.meanDelay && r.agent.stdDevDelay == a.stdDevDelay
    // a plausible delay is appended, the oldest delay dropped once the cap is passed
    ensures InDomain(now - a.lastPressTime) && |a.keyPressTimes| < BufferCap ==>
              r.agent.keyPressTimes == a.keyPressTimes + [now - a.lastPressTime]
    ensures InDomain(now - a.lastPressTime) && |a.keyPressTimes| == BufferCap ==>
              r.agent.keyPressTimes == a.keyPressTimes[1..] + [now - a.lastPressTime]
    // any other delay leaves the buffer as it was
    ensures !InDomain(now - a.lastPressTime) && |a.keyPressTimes| <= BufferCap ==>
              r.agent.keyPressTimes == a.keyPressTimes
    ensures BufferOk(a) ==> BufferOk(r.agent)
    ensures a.isLearning ==> r.alert == None
    ensures !a.isLearning ==> r.alert == Detect(a, now - a.lastPressTime)
  {
    var delay := now - a.lastPressTime;
    var buffered := if InDomain(delay) then a.keyPressTimes + [delay] else a.keyPressTimes;
    var capped := if |buffered| > BufferCap then buffered[1..] else buffered;
    var a' := a.(keyPressTimes := capped, lastPressTime := now);
    Press(a', if a.isLearning then None else Detect(a', delay))
  }

  /** The end of the learning phase, with the mean and standard deviation of
      the buffered delays given. */
  function FinishLearning(a: Agent, mean: real, stdDev: real): (r: Agent)
    ensures !r.isLearning && r.keyPressTimes == []
    ensures r.lastPressTime == a.lastPressTime
    ensures |a.keyPressTimes| > MinSamples ==> r.meanDelay == mean && r.stdDevDelay == stdDev
    ensures |a.keyPressTimes| <= MinSamples ==>
              r.meanDelay == a.meanDelay && r.stdDevDelay == a.stdDevDelay
  {
    var learned :=
      if |a.keyPressTimes| > MinSamples then a.(meanDelay := mean, stdDevDelay := stdDev) else a;
    learned.(isLearning := false, keyPressTimes := [])
  }

  /** The agent after key presses at the given times, and every alert raised, in order. */
  function Presses(a: Agent, times: seq<real>): (r: (Agent, seq<Alerts.Alert>))
    ensures |r.1| <= |times|
    decreases |times|
  {
    if |times| == 0 then (a, [])
    else
      var p := OnPress(a, times[0]);
      var rest := Presses(p.agent, times[1..]);
      (rest.0, (if p.alert.Some? then [p.alert.value] else []) + rest.1)
  }

  /** Any run of key presses keeps the buffer within its cap and holding only
      plausible delays, keeps the phase and profile, and the last press time
      is the time of the last press. */
  lemma {:induction false} PressesKeepBuffer(a: Agent, times: seq<real>)
    requires BufferOk(a)
    ensures BufferOk(Presses(a, times).0)
    ensures Presses(a, times).0.isLearning == a.isLearning
    ensures Presses(a, times).0.stdDevDelay == a.stdDevDelay
    ensures |times| > 0 ==> Presses(a, times).0.lastPressTime == times[|times| - 1]
    decreases |times|
  {
    if |times| > 0 {
      var p := OnPress(a, times[0]);
      PressesKeepBuffer(p.agent, times[1..]);
      if |times| > 1 {
        assert times[1..][|times[1..]| - 1] == times[|times| - 1];
      }
    }
  }

  /** Every alert of a run of key presses reports a rhythm whose delay lies
      strictly between 10 and 2000 milliseconds. */
  lemma {:induction false} PressAlertsInRange(a: Agent, times: seq<real>)
    ensures forall i :: 0 <= i < |Presses(a, times).1| ==>
              Presses(a, times).1[i].OddRhythm?
              && 10.0 < Presses(a, times).1[i].delayMs < 2000.0
    decreases |times|
  {
    if |times| > 0 {
      var p := OnPress(a, times[0]);
      PressAlertsInRange(p.agent, times[1..]);
    }
  }

  /** While learning, no key press raises an alert. */
  lemma {:induction false} NoAlertWhileLearning(a: Agent, times: seq<real>)
    requires a.isLearning
    ensures Presses(a, times).1 == []
    decreases |times|
  {
    if |times| > 0 {
      NoAlertWhileLearning(OnPress(a, times[0]).agent, times[1..]);
    }
  }

  /** With no profile learned (standard deviation 0), no key press ever raises
      an alert. */
  lemma {:induction false} NoAlertWithoutProfile(a: Agent, times: seq<real>)
    requires a.stdDevDelay == 0.0
    ensures Presses(a, times).1 == []
    decreases |times|
  {
    if |times| > 0 {
      NoAlertWithoutProfile(OnPress(a, times[0]).agent, times[1..]);
    }
  }

  /** Learning from ten or fewer delays leaves the profile unset, so nothing is
      ever reported afterwards. */
  lemma TooFewSamplesNeverAlert(now: real, learnTimes: seq<real>, mean: real, stdDev: real, times: seq<real>)
    requires |Presses(Init(now), learnTimes).0.keyPressTimes| <= MinSamples
    ensures Presses(FinishLearning(Presses(Init(now), learnTimes).0, mean, stdDev), times).1 == []
  {
    PressesKeepBuffer(Init(now), learnTimes);
    NoAlertWithoutProfile(FinishLearning(Presses(Init(now), learnTimes).0, mean, stdDev), times);
  }
}

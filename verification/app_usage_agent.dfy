/** The app-usage agent. During a learning phase it polls the focused
    application, records each change of focus with its time and the gap since
    the previous change; at the end it keeps the apps seen more than once as
    the frequent set and, with more than one gap, the mean and standard
    deviation of the gaps (given reals). Afterwards every poll reports a focused
    app outside a non-empty frequent set, and a switch whose gap is more than
    three standard deviations below the mean gap. The window-system query and
    the clock are inputs: each poll is an `Entry` (time, app). */
module AppUsage {
  import opened Basics
  import Alerts

  /** The app name the window-system query yields when it cannot tell. */
  const Unknown: string := "unknown"
  /** The detection-phase history keeps at most this many switches. */
  const HistoryCap: nat := 10

  /** An app observed in focus at a time. */
  datatype Entry = Entry(time: real, app: string)

  datatype Profile = Profile(topApps: set<string>, avgSwitchGap: real, stdSwitchGap: real)

  /** The learning phase: the switch history, the last app seen and the gaps between switches. */
  datatype Learner = Learner(history: seq<Entry>, lastApp: Option<string>, switchGaps: seq<real>)

  /** The detection phase: the learned profile and the recent switch history. */
  datatype Monitor = Monitor(profile: Profile, history: seq<Entry>)

  const InitialProfile: Profile := Profile({}, 0.0, 0.0)

  function InitLearner(): (l: Learner)
    ensures l.history == [] && l.lastApp == None && l.switchGaps == []
  {
    Learner([], None, [])
  }

  /** Whether the query named an app: non-empty and not "unknown". */
  predicate Resolved(app: string)
  {
    app != "" && app != Unknown
  }

  function Names(h: seq<Entry>): (names: seq<string>)
    ensures |names| == |h|
    ensures forall i :: 0 <= i < |h| ==> names[i] == h[i].app
  {
    seq(|h|, i requires 0 <= i < |h| => h[i].app)
  }

  /** The learning state is consistent: the last app is that of the last entry,
      every recorded app is resolved, no two adjacent entries name the same app,
      and there is one gap per pair of adjacent entries, the difference of their times. */
  predicate WellFormed(l: Learner)
  {
    && (l.lastApp == None <==> l.history == [])
    && (l.history != [] ==> l.lastApp == Some(l.history[|l.history| - 1].app))
    && (forall i :: 0 <= i < |l.history| ==> Resolved(l.history[i].app))
    && (forall i :: 0 < i < |l.history| ==> l.history[i - 1].app != l.history[i].app)
    && |l.switchGaps| == (if l.history == [] then 0 else |l.history| - 1)
    && (forall i :: 0 <= i < |l.switchGaps| ==>
          l.switchGaps[i] == l.history[i + 1].time - l.history[i].time)
  }

  /** One learning-phase poll that found `app` in focus at time `now`. */
  function LearnPoll(l: Learner, app: string, now: real): (r: Learner)
    requires WellFormed(l)
    ensures WellFormed(r)
    ensures !Resolved(app) || l.lastApp == Some(app) ==> r == l
    ensures Resolved(app) && l.lastApp != Some(app) ==>
              r.history == l.history + [Entry(now, app)] && r.lastApp == Some(app)
  {
    if Resolved(app) && Some(app) != l.lastApp then
      var gaps := if l.lastApp.Some? then l.switchGaps + [now - l.history[|l.history| - 1].time]
                  else l.switchGaps;
      Learner(l.history + [Entry(now, app)], Some(app), gaps)
    else l
  }

  /** The learning phase over a sequence of polls. */
  function Learn(l: Learner, polls: seq<Entry>): (r: Learner)
    requires WellFormed(l)
    ensures WellFormed(r)
    decreases |polls|
  {
    if |polls| == 0 then l
    else Learn(LearnPoll(l, polls[0].app, polls[0].time), polls[1..])
  }

  /** The apps occurring more than once among `names`. */
  function TopApps(names: seq<string>): (top: set<string>)
    ensures forall app :: app in top <==> app in names && Count(names, app) > 1
  {
    set i | 0 <= i < |names| && Count(names, names[i]) > 1 :: names[i]
  }

  /** The frequent set is exactly the apps at two different positions of the
      history, and so only apps that were seen. */
  lemma TopAppsSeenTwice(names: seq<string>, app: string)
    ensures app in TopApps(names) <==>
              exists i, j :: 0 <= i < j < |names| && names[i] == app && names[j] == app
    ensures app in TopApps(names) ==> app in names
  {
    CountAtLeastTwo(names, app);
    if exists i, j :: 0 <= i < j < |names| && names[i] == app && names[j] == app {
      var i, j :| 0 <= i < j < |names| && names[i] == app && names[j] == app;
      assert Count(names, names[i]) > 1;
    }
  }

  /** The end of the learning phase, with the mean and standard deviation of
      the recorded gaps given. */
  function FinishLearning(l: Learner, gapMean: real, gapStdDev: real): (m: Monitor)
    ensures m.history == []
    ensures m.profile.topApps == TopApps(Names(l.history))
    ensures |l.switchGaps| > 1 ==>
              m.profile.avgSwitchGap == gapMean && m.profile.stdSwitchGap == gapStdDev
    ensures |l.switchGaps| <= 1 ==> m.profile.avgSwitchGap == 0.0 && m.profile.stdSwitchGap == 0.0
  {
    var top := if l.history != [] then TopApps(Names(l.history)) else InitialProfile.topApps;
    var p := if |l.switchGaps| > 1 then Profile(top, gapMean, gapStdDev)
             else InitialProfile.(topApps := top);
    Monitor(p, [])
  }

  datatype Poll = Poll(monitor: Monitor, alerts: seq<Alerts.Alert>)

  /** Whether a switch to `app` at `now` counts as rapid under profile `p`. */
  predicate RapidGap(p: Profile, h: seq<Entry>, app: string, now: real)
  {
    && h != []
    && app != h[|h| - 1].app
    && p.stdSwitchGap > 0.0
    && now - h[|h| - 1].time < p.avgSwitchGap - 3.0 * p.stdSwitchGap
  }

  /** One detection-phase poll that found `app` in focus at time `now`. */
  function DetectPoll(m: Monitor, app: string, now: real): (r: Poll)
    // an unresolved app changes nothing and raises nothing
    ensures !Resolved(app) ==> r == Poll(m, [])
    ensures r.monitor.profile == m.profile
    ensures |r.alerts| <= 2
    // at most one report of each kind
    ensures |r.alerts| == (if Resolved(app) && m.profile.topApps != {} && app !in m.profile.topApps then 1 else 0)
                        + (if Resolved(app) && RapidGap(m.profile, m.history, app, now) then 1 else 0)
    ensures Alerts.UnusualApp(app) in r.alerts <==>
              Resolved(app) && m.profile.topApps != {} && app !in m.profile.topApps
    // a rapid switch is reported, last, exactly when the gap is far below the mean
    ensures Resolved(app) && RapidGap(m.profile, m.history, app, now) <==>
              |r.alerts| > 0 && r.alerts[|r.alerts| - 1].RapidSwitch?
    ensures forall k :: 0 <= k < |r.alerts| ==>
              r.alerts[k] == Alerts.UnusualApp(app)
              || (&& k == |r.alerts| - 1
                  && RapidGap(m.profile, m.history, app, now)
                  && r.alerts[k] == Alerts.RapidSwitch(now - m.history[|m.history| - 1].time))
    // the history records a switch only, dropping the oldest past the cap
    ensures m.history != [] && app == m.history[|m.history| - 1].app && |m.history| <= HistoryCap ==>
              r.monitor.history == m.history
    ensures Resolved(app) && (m.history == [] || app != m.history[|m.history| - 1].app) ==>
              && |r.monitor.history| > 0
              && r.monitor.history[|r.monitor.history| - 1] == Entry(now, app)
              && (|m.history| < HistoryCap ==> r.monitor.history == m.history + [Entry(now, app)])
              && (|m.history| == HistoryCap ==> r.monitor.history == m.history[1..] + [Entry(now, app)])
    ensures |m.history| <= HistoryCap ==> |r.monitor.history| <= HistoryCap
  {
    if !Resolved(app) then Poll(m, [])
    else
      var p := m.profile;
      var h := m.history;
      var unusual := if p.topApps != {} && app !in p.topApps then [Alerts.UnusualApp(app)] else [];
      var rapid := if RapidGap(p, h, app, now) then [Alerts.RapidSwitch(now - h[|h| - 1].time)] else [];
      var h1 := if h == [] || app != h[|h| - 1].app then h + [Entry(now, app)] else h;
      var h2 := if |h1| > HistoryCap then h1[1..] else h1;
      Poll(Monitor(p, h2), unusual + rapid)
  }

  /** The detection phase over a sequence of polls: one result per poll. */
  function Detect(m: Monitor, polls: seq<Entry>): (t: seq<Poll>)
    ensures |t| == |polls|
    ensures |polls| > 0 ==> t[0] == DetectPoll(m, polls[0].app, polls[0].time)
    // each poll starts from the state the previous poll left
    ensures forall k :: 0 < k < |polls| ==>
              t[k] == DetectPoll(t[k - 1].monitor, polls[k].app, polls[k].time)
    decreases |polls|
  {
    if |polls| == 0 then []
    else
      var r := DetectPoll(m, polls[0].app, polls[0].time);
      [r] + Detect(r.monitor, polls[1..])
  }

  /** Over any run of polls the history stays within its cap and the profile is kept. */
  lemma {:induction false} DetectKeepsHistory(m: Monitor, polls: seq<Entry>)
    requires |m.history| <= HistoryCap
    ensures forall k :: 0 <= k < |polls| ==>
              |Detect(m, polls)[k].monitor.history| <= HistoryCap
              && Detect(m, polls)[k].monitor.profile == m.profile
    decreases |polls|
  {
    if |polls| > 0 {
      var r := DetectPoll(m, polls[0].app, polls[0].time);
      DetectKeepsHistory(r.monitor, polls[1..]);
    }
  }

  /** With a zero standard deviation of gaps, no poll of any run reports a rapid switch. */
  lemma {:induction false} NoRapidSwitchWithoutSpread(m: Monitor, polls: seq<Entry>)
    requires m.profile.stdSwitchGap == 0.0
    ensures forall k, j :: 0 <= k < |polls| && 0 <= j < |Detect(m, polls)[k].alerts| ==>
              !Detect(m, polls)[k].alerts[j].RapidSwitch?
    decreases |polls|
  {
    if |polls| > 0 {
      var r := DetectPoll(m, polls[0].app, polls[0].time);
      NoRapidSwitchWithoutSpread(r.monitor, polls[1..]);
    }
  }

  /** Learning that saw at most one gap can never lead to a rapid-switch report. */
  lemma FewSwitchesNeverRapid(l: Learner, gapMean: real, gapStdDev: real, polls: seq<Entry>)
    requires |l.switchGaps| <= 1
    ensures forall k, j :: 0 <= k < |polls| && 0 <= j < |Detect(FinishLearning(l, gapMean, gapStdDev), polls)[k].alerts| ==>
              !Detect(FinishLearning(l, gapMean, gapStdDev), polls)[k].alerts[j].RapidSwitch?
  {
    NoRapidSwitchWithoutSpread(FinishLearning(l, gapMean, gapStdDev), polls);
  }

  /** With a non-empty frequent set, every poll of a run that finds the same
      app outside it reports that app. */
  lemma {:induction false} UnusualAppEveryPoll(m: Monitor, app: string, polls: seq<Entry>)
    requires Resolved(app) && m.profile.topApps != {} && app !in m.profile.topApps
    requires forall k :: 0 <= k < |polls| ==> polls[k].app == app
    ensures forall k :: 0 <= k < |polls| ==> Alerts.UnusualApp(app) in Detect(m, polls)[k].alerts
    decreases |polls|
  {
    if |polls| > 0 {
      var r := DetectPoll(m, polls[0].app, polls[0].time);
      UnusualAppEveryPoll(r.monitor, app, polls[1..]);
    }
  }

  /** An empty frequent set never reports an unusual app. */
  lemma {:induction false} EmptyTopAppsNeverUnusual(m: Monitor, polls: seq<Entry>)
    requires m.profile.topApps == {}
    ensures forall k, j :: 0 <= k < |polls| && 0 <= j < |Detect(m, polls)[k].alerts| ==>
              !Detect(m, polls)[k].alerts[j].UnusualApp?
    decreases |polls|
  {
    if |polls| > 0 {
      var r := DetectPoll(m, polls[0].app, polls[0].time);
      EmptyTopAppsNeverUnusual(r.monitor, polls[1..]);
    }
  }

  /** Polls that find Word, Word, Chrome and Word in focus, one second apart
      from `start`. */
  function WordChromePolls(start: real): seq<Entry>
  {
    [Entry(start, "Word"), Entry(start + 1.0, "Word"), Entry(start + 2.0, "Chrome"), Entry(start + 3.0, "Word")]
  }

  /** Learning from the polls Word, Word, Chrome, Word records three
      switches, Word, Chrome and Word, with gaps 2 and 1. */
  lemma WordChromeLearning(start: real)
    ensures var l := Learn(InitLearner(), WordChromePolls(start));
            && l.history == [Entry(start, "Word"), Entry(start + 2.0, "Chrome"), Entry(start + 3.0, "Word")]
            && l.switchGaps == [2.0, 1.0]
  {
    var polls := WordChromePolls(start);
    assert polls == [polls[0]] + ([polls[1]] + ([polls[2]] + [polls[3]]));
    WordChromeFirstWord(start);
    WordChromeRepeatedWord(start);
    WordChromeChrome(start);
    WordChromeSecondWord(start);
    LearnFirst(InitLearner(), polls[0], [polls[1]] + ([polls[2]] + [polls[3]]));
    LearnFirst(AfterWord(start), polls[1], [polls[2]] + [polls[3]]);
    LearnFirst(AfterWord(start), polls[2], [polls[3]]);
    LearnFirst(AfterChrome(start), polls[3], []);
  }

  /** Learning from one poll followed by more. */
  lemma LearnFirst(l: Learner, e: Entry, rest: seq<Entry>)
    requires WellFormed(l)
    ensures Learn(l, [e] + rest) == Learn(LearnPoll(l, e.app, e.time), rest)
  {
    assert ([e] + rest)[1..] == rest;
  }

  /** The learner after Word in focus at `start`. */
  function AfterWord(start: real): Learner
  {
    Learner([Entry(start, "Word")], Some("Word"), [])
  }

  /** The learner after Word at `start` and Chrome two seconds later. */
  function AfterChrome(start: real): Learner
  {
    Learner([Entry(start, "Word"), Entry(start + 2.0, "Chrome")], Some("Chrome"), [2.0])
  }

  lemma WordChromeFirstWord(start: real)
    ensures LearnPoll(InitLearner(), "Word", start) == AfterWord(start)
  {
  }

  lemma WordChromeRepeatedWord(start: real)
    ensures WellFormed(AfterWord(start)) && LearnPoll(AfterWord(start), "Word", start + 1.0) == AfterWord(start)
  {
  }

  lemma WordChromeChrome(start: real)
    ensures WellFormed(AfterWord(start)) && LearnPoll(AfterWord(start), "Chrome", start + 2.0) == AfterChrome(start)
  {
  }

  lemma WordChromeSecondWord(start: real)
    ensures WellFormed(AfterChrome(start))
    ensures LearnPoll(AfterChrome(start), "Word", start + 3.0)
            == Learner([Entry(start, "Word"), Entry(start + 2.0, "Chrome"), Entry(start + 3.0, "Word")],
                       Some("Word"), [2.0, 1.0])
  {
  }

  /** Word, Chrome, Word has Word as its only frequent app. */
  lemma WordChromeTopApps()
    ensures TopApps(["Word", "Chrome", "Word"]) == {"Word"}
  {
    var names := ["Word", "Chrome", "Word"];
    TopAppsSeenTwice(names, "Word");
    assert names[0] == "Word" && names[2] == "Word";
    forall app | app in TopApps(names)
      ensures app == "Word"
    {
      TopAppsSeenTwice(names, app);
    }
  }

  /** After learning from Word, Word, Chrome, Word, the frequent set is {Word}. */
  lemma WordChromeProfile(start: real, gapMean: real, gapStdDev: real)
    ensures FinishLearning(Learn(InitLearner(), WordChromePolls(start)), gapMean, gapStdDev).profile.topApps
            == {"Word"}
  {
    var l := Learn(InitLearner(), WordChromePolls(start));
    WordChromeLearning(start);
    assert Names(l.history) == ["Word", "Chrome", "Word"];
    WordChromeTopApps();
  }

  /** After learning from Word, Word, Chrome, Word, the frequent set is {Word}
      and Terminal in focus is reported on every poll. */
  lemma WordChromeScenario(start: real, gapMean: real, gapStdDev: real, later: seq<Entry>)
    requires forall k :: 0 <= k < |later| ==> later[k].app == "Terminal"
    ensures var m := FinishLearning(Learn(InitLearner(), WordChromePolls(start)), gapMean, gapStdDev);
            && m.profile.topApps == {"Word"}
            && forall k :: 0 <= k < |later| ==> Alerts.UnusualApp("Terminal") in Detect(m, later)[k].alerts
  {
    var m := FinishLearning(Learn(InitLearner(), WordChromePolls(start)), gapMean, gapStdDev);
    WordChromeProfile(start, gapMean, gapStdDev);
    assert Resolved("Terminal") && "Terminal" !in m.profile.topApps;
    UnusualAppEveryPoll(m, "Terminal", later);
  }
}

# Behavioural anomaly monitor — Dafny model

This project models the decision logic of a small behavioural anomaly monitor.
Three agents watch the user. The movement agent watches mouse speed, the typing
agent watches the delay between key presses, and the app-usage agent watches
which application has focus. Each agent learns a profile and then reports
samples that fall far outside it. The main loop reads the reports off a queue
and scores them into a risk score. It raises an alarm and restarts from zero
when the score goes past 10. A dashboard shows the score, a learning countdown,
a filtered alert log and a state badge.

Modules, one per source file or concept:

- `Basics`: `Option`, `Abs` on reals, and `Count`, which is Python's `list.count`.
- `Text`: Python's `str.startswith` and `in` on strings.
- `Alerts`: the four kinds of report and the exact text each agent queues.
- `RiskScore`: the loop body of `src/main.py`. The queue is a sequence of reports, taken in order.
- `Typing`, `Movement`, `AppUsage`: the three agents. Each is a set of pure steps over an immutable state record.
- `Dashboard`: the display decisions of `src/dashboard.py`.

Clock readings, the focused-app name, mouse coordinates and key presses are
inputs to the steps. The 30-second learning wait is an explicit `FinishLearning`
step. The mean and standard deviation that numpy computes are given reals passed
to `FinishLearning`. The Euclidean distance is a parameter `dist`. The
two-decimal number formatting in the report texts is a parameter `fmt`. Python
floats are idealised as `real`.

## Model

| member | source | states |
|---|---|---|
| `RiskScore.Points` | src/main.py:35-40 | a report containing "Movement" is worth 1 even if it also contains "Typing" or "AppUsage"; "Typing" without "Movement" is worth 2; "AppUsage" without either is worth 3; a report is worth 0 iff it contains none of the three words |
| `RiskScore.PointsByPrefix` | src/main.py:35-40 | the corrected weighing: a report starting with a kind's "[ALERT] <kind>" prefix is worth that kind's points (1, 2 or 3), and it is worth 0 iff it starts with no such prefix |
| `RiskScore.Accumulate` | src/main.py:35-48 | the alarm fires iff the incremented score is strictly above 10; the score is then 0, otherwise it is the incremented score; a score in 0..10 stays in 0..10 |
| `RiskScore.Step` | src/main.py:32-48 | "Movement" anywhere adds exactly 1 even if "Typing" or "AppUsage" also occur; "Typing" without "Movement" adds 2; "AppUsage" alone adds 3; a report with none leaves a score in 0..10 unchanged; alarm iff the shown score exceeds 10, after which the kept score is 0, and otherwise the kept score is the shown score |
| `RiskScore.RunSteps` | src/main.py:30-48 | the i-th processed report adds its points to the score left by the reports before it |
| `RiskScore.RunInvariant` | src/main.py:30-48 | from a score in 0..10 and with non-negative weights, every score along the queue stays in 0..10, each alarm is exactly a shown score above 10, and between alarms the score never decreases |
| `RiskScore.ProcessQueue` | src/main.py:30-48 | the loop over the queue ends with the score and the alarm count of the run, and the score is in 0..10 |
| `RiskScore.FourAppUsageReports` | src/main.py:35-48 | any four reports that each mention only "AppUsage", from 0, give scores 3, 6, 9, 0, with exactly one alarm, on the fourth |
| `RiskScore.FourEqualWeights` | src/main.py:44-48 | any four reports worth 3 each, from 0, show 3, 6, 9, 12; the fourth raises the one alarm and resets to 0 |
| `RiskScore.UnusualAppNamedMovement` | src/main.py:35-36 | as written, the unusual-app report for an app named "MovementLab" scores 1, but scored by prefix it scores 3 |
| `RiskScore.ReportScoredByKind` | src/main.py:35-40 | weighed by prefix, every agent report scores its own kind's points (1, 2 or 3) whatever app name or number it carries |
| `RiskScore.FourAppUsageAlerts` | src/main.py:35-48 | weighed by prefix, any four app-usage reports (unusual-app or rapid-switch, any app or gap, in any order) give 3, 6, 9, 0 |
| `Alerts.PrefixesExclusive` | src/dashboard.py:204-209 | no message starts with the prefixes of two different kinds |
| `Alerts.ReportPrefix` | src/agents/app_usage_agent.py:67-74 | every report starts with "[ALERT] " and its own kind and with no other kind's prefix; this covers the two app-usage texts cited here and also the movement text (src/agents/movement_agent.py line 56) and the typing text (src/agents/typing_agent.py line 44) |
| `Typing.Init` | src/agents/typing_agent.py:7-13 | a new agent is learning with an empty buffer, a zero mean and std, and its creation time as the last press time, so the first press's delay is measured from creation; no press alerts it |
| `Typing.Detect` | src/agents/typing_agent.py:38-45 | an alert iff std is nonzero, the delay is strictly between 0.01 and 2.0, and the delay is strictly more than 3·std from the mean; at exactly 3·std there is no alert; the alert carries the delay in milliseconds |
| `Typing.OnPress` | src/agents/typing_agent.py:15-24 | the last press time becomes the current time even when the delay is rejected; a delay strictly between 0.01 and 2.0 is appended, and the oldest is dropped once 500 is passed; other delays leave the buffer alone; a buffer within the cap stays within it; no detection while learning |
| `Typing.FinishLearning` | src/agents/typing_agent.py:26-36 | the profile is set only with more than 10 delays and is unchanged otherwise; afterwards the buffer is empty and learning is over |
| `Typing.Presses` | src/agents/typing_agent.py:15-24 | a run of presses raises at most one alert per press |
| `Typing.PressAlertsInRange` | src/agents/typing_agent.py:23-45 | every alert of any run of presses is a typing-rhythm alert whose delay lies strictly between 10 and 2000 ms |
| `Typing.PressesKeepBuffer` | src/agents/typing_agent.py:15-22 | over any run of presses the buffer stays within 500 and holds only in-range delays |
| `Typing.NoAlertWhileLearning` | src/agents/typing_agent.py:23-24 | no press raises an alert while learning |
| `Typing.NoAlertWithoutProfile` | src/agents/typing_agent.py:39-40 | with std 0, no press ever raises an alert |
| `Typing.TooFewSamplesNeverAlert` | src/agents/typing_agent.py:29-40 | learning from at most 10 delays leaves the profile unset, so no later press ever alerts |
| `Movement.Init` | src/agents/movement_agent.py:8-13 | a new agent is learning with no positions, and its mean and std speed are 0, so no profile is in force |
| `Movement.Speeds` | src/agents/movement_agent.py:22-33 | fewer than 2 positions give no speeds; otherwise there are at most one fewer speeds than positions |
| `Movement.CalculateSpeeds` | src/agents/movement_agent.py:22-33 | the pair-by-pair loop computes exactly the speed list |
| `Movement.AllPairsTimed` | src/agents/movement_agent.py:26-33 | when every pair is more than 0.001 s apart, there is one speed per pair, equal to distance over elapsed time |
| `Movement.NoPairTimed` | src/agents/movement_agent.py:30-32 | a buffer whose pairs are all at most 0.001 s apart has no speeds |
| `Movement.SpeedsSplit` | src/agents/movement_agent.py:26-33 | the speeds of a buffer are the speeds before position k, then the speed of the pair ending at k if it has one, then the speeds from k on |
| `Movement.PairContribution` | src/agents/movement_agent.py:30-32 | a pair at most 0.001 s apart contributes no speed wherever it lies in the buffer; a pair further apart contributes exactly its distance over its elapsed time, in its place |
| `Movement.SpeedsNonNegative` | src/agents/movement_agent.py:29-32 | with a non-negative distance every speed is non-negative |
| `Movement.StaleLatestSpeed` | src/agents/movement_agent.py:48-52 | when the newest pair is too close in time, the "last speed" detection judges is the one from before that move |
| `Movement.Detect` | src/agents/movement_agent.py:48-57 | no alert without speeds or with std 0; otherwise one alert iff the last speed is strictly more than 3·std from the mean, and it carries that speed |
| `Movement.OnMove` | src/agents/movement_agent.py:15-20 | the new position is appended last; past 200 the oldest is dropped; a buffer within 200 stays within it; detection runs only when not learning |
| `Movement.FinishLearning` | src/agents/movement_agent.py:35-46 | the profile is set only with more than 10 speeds and is unchanged otherwise; afterwards positions are cleared and learning is over |
| `Movement.FewPositionsNoProfile` | src/agents/movement_agent.py:37-39 | with at most 11 positions no profile can be learned |
| `Movement.MovesKeepBuffer` | src/agents/movement_agent.py:15-18 | over any run of moves the buffer stays within 200 with the newest position last, and the phase and std are kept |
| `Movement.MovesQuiet` | src/agents/movement_agent.py:19-20 | a learning agent, or one with std 0, raises nothing over any run of moves |
| `AppUsage.LearnPoll` | src/agents/app_usage_agent.py:37-46 | an empty or "unknown" app, or the same app again, changes nothing; a new app is appended with its time; the state stays well formed: no adjacent duplicates, only resolved apps, and one gap per adjacent pair, the difference of their times |
| `AppUsage.Learn` | src/agents/app_usage_agent.py:37-46 | a whole learning phase keeps the learning state well formed |
| `AppUsage.TopApps` | src/agents/app_usage_agent.py:49-50 | an app is frequent iff it occurs in the history names and its count there is above 1 |
| `AppUsage.TopAppsSeenTwice` | src/agents/app_usage_agent.py:48-50 | an app is frequent iff two different history positions hold it; so every frequent app was seen |
| `AppUsage.FinishLearning` | src/agents/app_usage_agent.py:48-58 | the frequent set is that of the history; gap mean and std are set only with more than one gap and stay 0 otherwise; the history is emptied |
| `AppUsage.DetectPoll` | src/agents/app_usage_agent.py:60-80 | an empty or "unknown" app changes nothing and raises nothing; "unusual app" iff the frequent set is non-empty and lacks the app, reported at most once per poll; "rapid switch" iff the history is non-empty, the app changed, std > 0 and the gap is strictly below mean − 3·std, once and last; the number of reports is exactly the number of these two conditions that hold; the history grows only on a change, drops the oldest first and stays within 10 |
| `AppUsage.Detect` | src/agents/app_usage_agent.py:82-88 | the monitoring loop gives one result per poll; the first poll starts from the learned state, and each later poll starts from the state the previous poll left |
| `AppUsage.DetectKeepsHistory` | src/agents/app_usage_agent.py:77-80 | over any run of polls the history stays within 10 entries and the profile is unchanged |
| `AppUsage.NoRapidSwitchWithoutSpread` | src/agents/app_usage_agent.py:72-75 | with gap std 0 no poll ever reports a rapid switch |
| `AppUsage.FewSwitchesNeverRapid` | src/agents/app_usage_agent.py:52-54 | a learning phase with at most one gap never leads to a rapid-switch report |
| `AppUsage.UnusualAppEveryPoll` | src/agents/app_usage_agent.py:66-68 | an app outside a non-empty frequent set is reported on every poll that finds it |
| `AppUsage.EmptyTopAppsNeverUnusual` | src/agents/app_usage_agent.py:66-68 | an empty frequent set never reports an unusual app |
| `AppUsage.WordChromeLearning` | src/agents/app_usage_agent.py:37-46 | polls Word, Word, Chrome, Word one second apart, from any start time, record Word, Chrome, Word with gaps 2 and 1 |
| `AppUsage.WordChromeTopApps` | src/agents/app_usage_agent.py:48-50 | the history Word, Chrome, Word has {Word} as its frequent set |
| `AppUsage.WordChromeScenario` | src/agents/app_usage_agent.py:37-68 | after that learning, from any start time and with any gap statistics, the frequent set is {Word} and Terminal in focus is reported as unusual on every poll |
| `Dashboard.RiskBarValue` | src/dashboard.py:193 | the bar value is the score clamped to 0..10 |
| `Dashboard.ScoreColour` | src/dashboard.py:194-200 | danger iff score > 10, warning iff 5 < score ≤ 10, success iff score ≤ 5 |
| `Dashboard.LearningSeconds` | src/dashboard.py:186-187 | the countdown shown is never negative, and it is the remaining seconds when those are not negative |
| `Dashboard.AddLogMessage` | src/dashboard.py:202-214 | a message starting with a kind's alert prefix is dropped iff that kind's box is unchecked; every other message is appended |
| `Dashboard.ReportFiltered` | src/dashboard.py:202-212 | an agent's report reaches the log iff the box of its own kind is checked |
| `Dashboard.DefaultFiltersLogEverything` | src/dashboard.py:32-35 | with all boxes checked, as at start-up, every message is logged |
| `Dashboard.BadgeColour` | src/dashboard.py:174-180 | Learning shows the warning colour, Monitoring the success colour, and Stopped or any other state the muted colour |

## Findings

| source | as written | input that shows it | evidently intended | confidence | as-written member | corrected member |
|---|---|---|---|---|---|---|
| src/main.py:35-40 | a report is weighed by the first kind word found anywhere in its text | the unusual-app report for an app whose window class is "MovementLab" contains "Movement", so it adds 1 point instead of 3 (and a name containing "Typing" adds 2) | each report is weighed by the agent that raised it, as the dashboard's filter does by prefix | medium; not executed | `RiskScore.UnusualAppNamedMovement` | `RiskScore.ReportScoredByKind` |

`RiskScore.Step` and `RiskScore.ProcessQueue` model the loop as written.
`RiskScore.PointsByPrefix` is the corrected weighing. The score lemmas
(`RunInvariant`, `FourEqualWeights`) hold for both weighings, because `Run`
takes the weighing as a parameter.

## Left out

- Sensor capture is not modelled: the pynput listeners, the xdotool/xprop queries and the WM_CLASS parsing. The focused app, key presses and mouse positions are inputs.
- `time.time()` and `time.sleep` are not modelled, nor is the 30-second learning wait or the poll interval. Timestamps are parameters, and the end of learning is an explicit `FinishLearning` step.
- Threads, daemon threads and `queue.Queue` are not modelled. The queue is the sequence of reports in the order the main loop takes them.
- `np.mean`, `np.std` and `math.sqrt` are not modelled. Their results are given reals passed to `FinishLearning`, and distance is the parameter `dist`. NaN and other float effects are not modelled.
- The two-decimal rendering of numbers in report texts is not modelled. It is the parameter `fmt`.
- The score label text, the countdown text and its padding (`:>2`) are not modelled. Only the numbers they show are.
- Widget construction, styling, layout, `set_state`, `_clear_log`, `print` and `KeyboardInterrupt` handling are not modelled.
- The `__init__.py` files are not modelled because they hold no logic.
- Not modelled because the code does not implement them: an exponentially weighted profile, Medium/High severities, severity-based weights, and a start/stop/reset controller. The code also has no minimum-speed noise filter on mouse speeds and no warm-up count; learning is a fixed phase in every agent.
- `Typing.Detect`: Python's falsiness test on the standard deviation is modelled as `!= 0`, so a NaN standard deviation is not covered.

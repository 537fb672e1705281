/** The display decisions of the dashboard: the clamped risk bar, the colour
    of the score, the learning countdown, the alert-log filter and the colour
    of the state badge. Widgets are left out; the log is the sequence of
    lines it shows. */
module Dashboard {
  import opened Text
  import Alerts

  // Colours of the palette the decisions choose from.
  const Muted: string := "#b7bec7"
  const Success: string := "#2bd47c"
  const Warning: string := "#f7b731"
  const Danger: string := "#ff4d4f"

  /** The risk bar runs from 0 to this value. */
  const BarMaximum: int := 10
  /** Scores above this show in the warning colour. */
  const WarningScore: int := 5

  /** The value the risk bar shows for `score`. */
  function RiskBarValue(score: int): (v: int)
    ensures 0 <= v <= BarMaximum
    ensures 0 <= score <= BarMaximum ==> v == score
    ensures score < 0 ==> v == 0
    ensures score > BarMaximum ==> v == BarMaximum
  {
    if score < 0 then 0 else if score > BarMaximum then BarMaximum else score
  }

  /** The colour of the score label. */
  function ScoreColour(score: int): (c: string)
    ensures c == Danger <==> score > BarMaximum
    ensures c == Warning <==> WarningScore < score <= BarMaximum
    ensures c == Success <==> score <= WarningScore
  {
    if score > BarMaximum then Danger
    else if score > WarningScore then Warning
    else Success
  }

  /** The seconds the learning countdown shows. */
  function LearningSeconds(secondsRemaining: int): (n: int)
    ensures n >= 0 && n >= secondsRemaining
    ensures n == secondsRemaining || n == 0
  {
    if secondsRemaining > 0 then secondsRemaining else 0
  }

  /** Which kinds of alert the checkboxes let through to the log. */
  datatype Filters = Filters(movement: bool, typing: bool, appUsage: bool)

  /** The checkboxes start all selected. */
  const DefaultFilters: Filters := Filters(true, true, true)

  function Shows(f: Filters, k: Alerts.Kind): bool
  {
    match k
    case MovementKind => f.movement
    case TypingKind => f.typing
    case AppUsageKind => f.appUsage
  }

  /** The log after `message` is offered to it: an alert whose kind is
      unchecked is dropped, everything else is appended. */
  function AddLogMessage(log: seq<string>, f: Filters, message: string): (r: seq<string>)
    ensures r == log || r == log + [message]
    ensures forall k :: StartsWith(message, Alerts.Prefix(k)) ==> (r == log <==> !Shows(f, k))
    ensures (forall k :: !StartsWith(message, Alerts.Prefix(k))) ==> r == log + [message]
  {
    forall k1, k2 | StartsWith(message, Alerts.Prefix(k1)) && StartsWith(message, Alerts.Prefix(k2))
      ensures k1 == k2
    {
      Alerts.PrefixesExclusive(message, k1, k2);
    }
    if StartsWith(message, Alerts.Prefix(Alerts.MovementKind)) && !f.movement then log
    else if StartsWith(message, Alerts.Prefix(Alerts.TypingKind)) && !f.typing then log
    else if StartsWith(message, Alerts.Prefix(Alerts.AppUsageKind)) && !f.appUsage then log
    else log + [message]
  }

  /** An agent's report reaches the log exactly when its kind's box is checked. */
  lemma ReportFiltered(log: seq<string>, f: Filters, a: Alerts.Alert, fmt: real -> string)
    ensures AddLogMessage(log, f, Alerts.Report(a, fmt)) == log + [Alerts.Report(a, fmt)]
            <==> Shows(f, Alerts.KindOf(a))
  {
    Alerts.ReportPrefix(a, fmt, Alerts.KindOf(a));
    assert log + [Alerts.Report(a, fmt)] != log by {
      assert |log + [Alerts.Report(a, fmt)]| != |log|;
    }
  }

  /** With the boxes as they start, every message is logged. */
  lemma DefaultFiltersLogEverything(log: seq<string>, message: string)
    ensures AddLogMessage(log, DefaultFilters, message) == log + [message]
  {
  }

  /** The badge colour for a monitoring state. */
  function BadgeColour(state: string): (c: string)
    ensures state == "Learning" ==> c == Warning
    ensures state == "Monitoring" ==> c == Success
    ensures state != "Learning" && state != "Monitoring" ==> c == Muted
  {
    if state == "Stopped" then Muted
    else if state == "Learning" then Warning
    else if state == "Monitoring" then Success
    else Muted
  }
}

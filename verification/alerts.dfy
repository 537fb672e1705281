/** The anomaly reports the three agents put on the shared queue. Each report
    is a string that starts with "[ALERT] " followed by the agent's kind; the
    numbers inside are rendered with two decimals by a formatting routine that
    is a parameter here (`fmt`). */
module Alerts {
  import opened Text

  datatype Kind = MovementKind | TypingKind | AppUsageKind

  datatype Alert =
    | HighSpeed(speed: real)          // movement: last mouse speed off the profile
    | OddRhythm(delayMs: real)        // typing: key delay, in milliseconds, off the profile
    | UnusualApp(app: string)         // app usage: focused app not among the frequent ones
    | RapidSwitch(gap: real)          // app usage: switch gap far below the learned mean

  function KindOf(a: Alert): Kind
  {
    match a
    case HighSpeed(_) => MovementKind
    case OddRhythm(_) => TypingKind
    case UnusualApp(_) => AppUsageKind
    case RapidSwitch(_) => AppUsageKind
  }

  /** The word naming a kind inside every report of that kind. */
  function Tag(k: Kind): string
  {
    match k
    case MovementKind => "Movement"
    case TypingKind => "Typing"
    case AppUsageKind => "AppUsage"
  }

  /** The prefix every report of kind `k` starts with. */
  function Prefix(k: Kind): string
  {
    "[ALERT] " + Tag(k)
  }

  /** The report string an agent queues for `a`: its kind's prefix, then the message. */
  function Report(a: Alert, fmt: real -> string): string
  {
    Prefix(KindOf(a)) + Message(a, fmt)
  }

  /** The text of a report after its kind's prefix. */
  function Message(a: Alert, fmt: real -> string): string
  {
    match a
    case HighSpeed(speed) => " Anomaly: Unusually high mouse speed detected (" + fmt(speed) + ")."
    case OddRhythm(delayMs) => " Anomaly: Unusual typing rhythm detected (" + fmt(delayMs) + " ms)."
    case UnusualApp(app) => " Anomaly: Unusual app in focus: '" + app + "'."
    case RapidSwitch(gap) => " Anomaly: Rapid app switching detected (" + fmt(gap) + "s)."
  }

  /** No string starts with the prefixes of two different kinds. */
  lemma PrefixesExclusive(s: string, k1: Kind, k2: Kind)
    requires StartsWith(s, Prefix(k1)) && StartsWith(s, Prefix(k2))
    ensures k1 == k2
  {
    if k1 != k2 {
      DisagreeingPrefixes(s, Prefix(k1), Prefix(k2), 8);
    }
  }

  /** A report starts with the prefix of its own kind and with no other kind's prefix. */
  lemma ReportPrefix(a: Alert, fmt: real -> string, k: Kind)
    ensures StartsWith(Report(a, fmt), Prefix(k)) <==> k == KindOf(a)
  {
    var r := Report(a, fmt);
    var own := Prefix(KindOf(a));
    PrefixOfAppend(own, Message(a, fmt), own);
    if StartsWith(r, Prefix(k)) {
      PrefixesExclusive(r, k, KindOf(a));
    }
  }
}

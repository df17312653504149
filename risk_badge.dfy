/**
 * `getRiskLevelColor` (src/components/Dashboard.jsx, lines 89-96): the badge
 * style of the assessment table, chosen by the stored risk-level name.
 */
module RiskBadge {
  import opened Wrappers

  /** The three level names the table knows how to colour. */
  const KnownLevels: set<string> := {"Low", "Medium", "High"}

  const LowBadge := "text-green-600 bg-green-100"
  const MediumBadge := "text-yellow-600 bg-yellow-100"
  const HighBadge := "text-red-600 bg-red-100"
  const DefaultBadge := "text-gray-600 bg-gray-100"

  /**
   * The badge classes for a level name; any name the switch does not list
   * falls through to the grey default.
   */
  function RiskLevelColor(level: string): (badge: string)
    ensures badge in {LowBadge, MediumBadge, HighBadge, DefaultBadge}
    ensures badge == DefaultBadge <==> level !in KnownLevels
  {
    match level
    case "Low" => LowBadge
    case "Medium" => MediumBadge
    case "High" => HighBadge
    case _ => DefaultBadge
  }

  /** Which known level, if any, a badge stands for. */
  function LevelOfBadge(badge: string): (level: Option<string>)
    ensures level.Some? ==> level.value in KnownLevels
  {
    if badge == LowBadge then Some("Low")
    else if badge == MediumBadge then Some("Medium")
    else if badge == HighBadge then Some("High")
    else None
  }

  /** The badge of a known level gives that level back; every other name gets the grey badge. */
  lemma BadgeIdentifiesLevel(level: string)
    ensures LevelOfBadge(RiskLevelColor(level)) == if level in KnownLevels then Some(level) else None
  {
  }

  /** Distinct known levels never share a badge. */
  lemma KnownLevelsHaveDistinctBadges(l1: string, l2: string)
    requires l1 in KnownLevels && l2 in KnownLevels && l1 != l2
    ensures RiskLevelColor(l1) != RiskLevelColor(l2)
  {
  }
}

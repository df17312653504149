/**
 * The "Latest Risk Assessments" table (src/components/Dashboard.jsx, lines
 * 476-500): one row per site record, in the order supplied, each showing the
 * avatar letter, the site name, the score and a badge for the stored level.
 */
module SiteTable {
  import opened Wrappers
  import RiskBadge
  import SiteAvatar

  /** One element of `lastRiskAssessmentForSites`. */
  datatype SiteRecord = SiteRecord(site: string, lastAssessment: string, riskLevel: string, score: real, color: string)

  /** What a table row shows, the formatted assessment date aside. */
  datatype Row = Row(initial: string, site: string, score: real, badge: string, levelText: string)

  /** One row of the table; it throws, as line 484 does, when the site name has no space. */
  function SiteRow(rec: SiteRecord): (r: Result<Row, SiteAvatar.AvatarError>)
    ensures r.Success? <==> ' ' in rec.site
    ensures r.Success? ==> r.value.site == rec.site && r.value.score == rec.score && r.value.levelText == rec.riskLevel
    ensures r.Success? ==> r.value.initial == SiteAvatar.AvatarInitial(rec.site).value
    ensures r.Success? ==> r.value.badge == RiskBadge.RiskLevelColor(rec.riskLevel)
  {
    match SiteAvatar.AvatarInitial(rec.site)
    case Failure(e) => Failure(e)
    case Success(letter) => Success(Row(letter, rec.site, rec.score, RiskBadge.RiskLevelColor(rec.riskLevel), rec.riskLevel))
  }

  /**
   * The whole table, `sites.map(...)`: it renders when every site name has a
   * space, with row k drawn from record k; otherwise the render throws.
   */
  function SiteTable(sites: seq<SiteRecord>): (r: Result<seq<Row>, SiteAvatar.AvatarError>)
    ensures r.Success? <==> forall k :: 0 <= k < |sites| ==> ' ' in sites[k].site
    ensures r.Success? ==> |r.value| == |sites| && forall k :: 0 <= k < |sites| ==> SiteRow(sites[k]) == Success(r.value[k])
  {
    if sites == [] then Success([])
    else
      match SiteRow(sites[0])
      case Failure(e) => Failure(e)
      case Success(row) =>
        match SiteTable(sites[1..])
        case Failure(e) => Failure(e)
        case Success(rows) => Success([row] + rows)
  }

  /** The badge depends on the stored level name only: a record's score never changes it. */
  lemma BadgeIgnoresScore(rec: SiteRecord, otherScore: real)
    requires ' ' in rec.site
    ensures SiteRow(rec).value.badge == RiskBadge.RiskLevelColor(rec.riskLevel)
    ensures SiteRow(rec.(score := otherScore)).value.badge == SiteRow(rec).value.badge
  {
  }
}

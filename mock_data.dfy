/**
 * The dashboard's built-in dataset, `mockData` (src/components/Dashboard.jsx,
 * lines 21-80), and what the summary cards and the table show of it.
 */
module MockData {
  import opened Wrappers
  import MiniChart
  import RiskBadge
  import SiteAvatar
  import SiteTable

  datatype MonthlyControls = MonthlyControls(month: string, activeControls: int, criticalIssues: int)
  datatype ScoreBucket = ScoreBucket(name: string, value: int, color: string)
  datatype MonthlyProgress = MonthlyProgress(month: string, completed: int)
  datatype RiskSample = RiskSample(date: string, riskLevel: real)

  datatype ControlSafeguard = ControlSafeguard(
    total: int, active: int, inactive: int, critical: int,
    trends: seq<real>, monthlyData: seq<MonthlyControls>)

  datatype SiteAssessment = SiteAssessment(
    total: int, completed: int, pending: int, overdue: int, averageScore: real,
    scoreDistribution: seq<ScoreBucket>, monthlyProgress: seq<MonthlyProgress>)

  datatype Dataset = Dataset(
    controlSafeguard: ControlSafeguard,
    siteAssessment: SiteAssessment,
    siteRiskForAUnit: seq<RiskSample>,
    lastRiskAssessmentForSites: seq<SiteTable.SiteRecord>)

  const Controls := ControlSafeguard(
    247, 189, 58, 12,
    [65.0, 78.0, 82.0, 91.0, 89.0, 95.0, 88.0, 92.0],
    [ MonthlyControls("Jan", 165, 18), MonthlyControls("Feb", 172, 15),
      MonthlyControls("Mar", 178, 12), MonthlyControls("Apr", 185, 14),
      MonthlyControls("May", 182, 16), MonthlyControls("Jun", 189, 12),
      MonthlyControls("Jul", 186, 15), MonthlyControls("Aug", 189, 12) ])

  const Assessments := SiteAssessment(
    156, 142, 14, 3, 8.7,
    [ ScoreBucket("Excellent (9-10)", 45, "#10B981"),
      ScoreBucket("Good (7-8)", 67, "#3B82F6"),
      ScoreBucket("Fair (5-6)", 28, "#F59E0B"),
      ScoreBucket("Poor (3-4)", 12, "#EF4444"),
      ScoreBucket("Critical (0-2)", 4, "#7C2D12") ],
    [ MonthlyProgress("Jan", 22), MonthlyProgress("Feb", 28), MonthlyProgress("Mar", 25),
      MonthlyProgress("Apr", 32), MonthlyProgress("May", 29), MonthlyProgress("Jun", 35) ])

  const RiskSamples := [
    RiskSample("2024-01-01", 4.2), RiskSample("2024-01-15", 3.8),
    RiskSample("2024-02-01", 5.1), RiskSample("2024-02-15", 4.7),
    RiskSample("2024-03-01", 3.9), RiskSample("2024-03-15", 4.4),
    RiskSample("2024-04-01", 3.2), RiskSample("2024-04-15", 2.8) ]

  const Sites := [
    SiteTable.SiteRecord("Site Alpha", "2024-03-15", "Medium", 6.2, "#F59E0B"),
    SiteTable.SiteRecord("Site Beta", "2024-03-20", "Low", 3.4, "#10B981"),
    SiteTable.SiteRecord("Site Gamma", "2024-03-10", "High", 8.1, "#EF4444"),
    SiteTable.SiteRecord("Site Delta", "2024-03-25", "Low", 2.9, "#10B981"),
    SiteTable.SiteRecord("Site Epsilon", "2024-03-18", "Medium", 5.7, "#F59E0B"),
    SiteTable.SiteRecord("Site Zeta", "2024-03-22", "High", 7.8, "#EF4444"),
    SiteTable.SiteRecord("Site Eta", "2024-03-12", "Low", 2.1, "#10B981") ]

  const Mock := Dataset(Controls, Assessments, RiskSamples, Sites)

  /** The stored level names of the site list, in list order. */
  function LevelNames(sites: seq<SiteTable.SiteRecord>): (names: seq<string>)
    ensures |names| == |sites|
    ensures forall k :: 0 <= k < |sites| ==> names[k] == sites[k].riskLevel
  {
    seq(|sites|, k requires 0 <= k < |sites| => sites[k].riskLevel)
  }

  /** How many site records store the level name `level`. */
  function CountLevel(sites: seq<SiteTable.SiteRecord>, level: string): (n: nat)
    ensures n <= |sites|
    ensures n == 0 <==> forall k :: 0 <= k < |sites| ==> sites[k].riskLevel != level
    ensures n == multiset(LevelNames(sites))[level]
  {
    if sites == [] then 0
    else
      assert LevelNames(sites) == [sites[0].riskLevel] + LevelNames(sites[1..]);
      (if sites[0].riskLevel == level then 1 else 0) + CountLevel(sites[1..], level)
  }

  /** The "Active Sites" card's hard-coded "Low: 3", "Medium: 2", "High: 2" agree with the site list. */
  lemma SitesCardCountsMatchList()
    ensures CountLevel(Mock.lastRiskAssessmentForSites, "Low") == 3
    ensures CountLevel(Mock.lastRiskAssessmentForSites, "Medium") == 2
    ensures CountLevel(Mock.lastRiskAssessmentForSites, "High") == 2
  {
  }

  /** The "Total Sites" figure is the length of the site list: 7, all of them Low, Medium or High. */
  lemma TotalSitesIsListLength()
    ensures |Mock.lastRiskAssessmentForSites| == 7
    ensures CountLevel(Mock.lastRiskAssessmentForSites, "Low")
          + CountLevel(Mock.lastRiskAssessmentForSites, "Medium")
          + CountLevel(Mock.lastRiskAssessmentForSites, "High") == |Mock.lastRiskAssessmentForSites|
  {
  }

  /** The sparkline of the first card: eight bars, the lowest trend value empty, the highest full, none NaN. */
  lemma TrendsSparkline()
    ensures |MiniChart.BarHeights(Mock.controlSafeguard.trends)| == 8
    ensures MiniChart.BarHeights(Mock.controlSafeguard.trends)[0] == 0.0
    ensures MiniChart.BarHeights(Mock.controlSafeguard.trends)[5] == 100.0
    ensures forall i :: 0 <= i < 8 ==>
      MiniChart.MiniChartHeights(Mock.controlSafeguard.trends)[i]
      == MiniChart.Percent(MiniChart.BarHeights(Mock.controlSafeguard.trends)[i])
  {
    var t := Mock.controlSafeguard.trends;
    assert t[0] != t[5];
    assert forall j :: 0 <= j < |t| ==> t[j] <= t[5] by {
      assert t == [65.0, 78.0, 82.0, 91.0, 89.0, 95.0, 88.0, 92.0];
    }
    MiniChart.MinimumGetsZero(t, 0);
    MiniChart.MaximumGetsFull(t, 5);
    forall i | 0 <= i < 8 ensures MiniChart.MiniChartHeights(t)[i] == MiniChart.Percent(MiniChart.BarHeights(t)[i]) {
      MiniChart.MiniChartMatchesWhenVaried(t, i);
    }
  }

  /** The table renders every site, with the avatar letters A, B, G, D, E, Z, E and a coloured (non-grey) badge each. */
  lemma SiteTableRenders()
    ensures SiteTable.SiteTable(Mock.lastRiskAssessmentForSites).Success?
    ensures var rows := SiteTable.SiteTable(Mock.lastRiskAssessmentForSites).value;
      && |rows| == 7
      && (forall k :: 0 <= k < 7 ==> rows[k].badge != RiskBadge.DefaultBadge)
      && (forall k :: 0 <= k < 7 ==> rows[k].initial == [AvatarLetters[k]])
  {
    forall k | 0 <= k < 7
      ensures ' ' in Sites[k].site
      ensures SiteTable.SiteRow(Sites[k]).Success?
      ensures SiteTable.SiteRow(Sites[k]).value.initial == [AvatarLetters[k]]
      ensures SiteTable.SiteRow(Sites[k]).value.badge != RiskBadge.DefaultBadge
    {
      MockRow(k);
    }
  }

  /** The avatar letters of the table, row by row. */
  const AvatarLetters := "ABGDEZE"

  /** The second word of each site name, in list order. */
  const SiteWords := ["Alpha", "Beta", "Gamma", "Delta", "Epsilon", "Zeta", "Eta"]

  lemma MockRow(k: nat)
    requires k < 7
    ensures ' ' in Sites[k].site
    ensures SiteTable.SiteRow(Sites[k]).Success?
    ensures SiteTable.SiteRow(Sites[k]).value.initial == [AvatarLetters[k]]
    ensures SiteTable.SiteRow(Sites[k]).value.badge != RiskBadge.DefaultBadge
  {
    assert Sites[k].site == "Site " + SiteWords[k];
    assert Sites[k].riskLevel in RiskBadge.KnownLevels;
    assert SiteWords[k][0] == AvatarLetters[k];
    SitePrefixAvatar(SiteWords[k]);
  }

  /** The names of the dataset all read "Site <word>": their avatar letter is the word's first letter. */
  lemma SitePrefixAvatar(word: string)
    requires |word| > 0 && word[0] != ' '
    ensures SiteAvatar.AvatarInitial("Site " + word) == Success([word[0]])
  {
    var name := "Site " + word;
    assert name[..4] == "Site";
    SiteAvatar.IndexOfIsFirst(name, ' ', 4);
    SiteAvatar.AvatarIsCharAfterFirstSpace(name);
  }

  /** The hex colour stored with each site agrees with its stored level, though the two are separate literals. */
  lemma SiteColoursAgreeWithLevels()
    ensures forall k :: 0 <= k < |Mock.lastRiskAssessmentForSites| ==>
      var rec := Mock.lastRiskAssessmentForSites[k];
      rec.color == LevelHex(rec.riskLevel)
  {
  }

  /** The bar colour each level is drawn with in the source's data. */
  function LevelHex(level: string): string {
    match level
    case "Low" => "#10B981"
    case "Medium" => "#F59E0B"
    case "High" => "#EF4444"
    case _ => ""
  }

  /** Active and inactive controls add up to the total; the score buckets account for every assessed site. */
  lemma DatasetTotalsAgree()
    ensures Mock.controlSafeguard.active + Mock.controlSafeguard.inactive == Mock.controlSafeguard.total
    ensures BucketSum(Mock.siteAssessment.scoreDistribution) == Mock.siteAssessment.total
  {
  }

  /** The number of assessments the score buckets count in all. */
  function BucketSum(buckets: seq<ScoreBucket>): int {
    if buckets == [] then 0 else buckets[0].value + BucketSum(buckets[1..])
  }
}

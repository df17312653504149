# CYS risk-analytics dashboard: a Dafny model of its data-shaping core

The dashboard (`src/components/Dashboard.jsx`) is a single React view over a
fixed in-memory dataset. Almost all of it is layout. This project models the
parts that compute something:

- **MiniChart** (`mini_chart.dfy`): the sparkline of the "Control Safeguard"
  card. Each value becomes one bar, `(value - min) / (max - min) * 100`
  percent tall. Both the code as written and the corrected definition are
  modelled (see Findings).
- **getRiskLevelColor** (`risk_badge.dfy`): the badge classes for a stored
  risk-level name, with the grey default for any other name.
- **CustomTooltip / CustomPieTooltip** (`tooltip.dfy`): the text lines of the
  chart tooltips, and their colours. A tooltip that renders nothing is modelled
  as no lines.
- **Avatar letter** (`site_avatar.dfy`): `site.split(' ')[1].charAt(0)`, with
  JavaScript's `split` for a one-character separator modelled exactly. A name
  without a space throws, which is modelled as `Failure(NoSecondWord)`.
- **Assessment table** (`site_table.dfy`): one row per site record, in list
  order. When any site name lacks a space, line 484 throws inside the
  `Dashboard` component's own render and nothing catches it, so the whole
  dashboard fails to render, not only the table.
- **mockData** (`mock_data.dfy`): the dataset literal, plus lemmas tying the
  hard-coded card figures and the table to it.

JavaScript numbers are `real`. Strings are `seq<char>`. `wrappers.dfy` holds
`Option` (for `undefined`/`null`) and `Result` (for a thrown error).

Three facts about the code shape the model:

- There is no score-to-level classifier. The badge reads the stored
  `riskLevel` string, and the score plays no part (line 493).
- Empty sparkline data draws no bars (`data.map` over `[]`), so
  `BarHeights([]) == []`.
- The Medium badge uses yellow classes (line 92).

## Model

| member | source | states |
|---|---|---|
| MiniChart.Max | src/components/Dashboard.jsx:130 | `Math.max(...data)` on non-empty data is an element of the data and bounds every element from above |
| MiniChart.Min | src/components/Dashboard.jsx:131 | `Math.min(...data)` on non-empty data is an element of the data and bounds every element from below |
| MiniChart.MiniChartHeights | src/components/Dashboard.jsx:129-149 | the heights as written draw exactly one bar per input value |
| MiniChart.BarHeights | src/components/Dashboard.jsx:129-149 | corrected heights: one bar per value, every bar within [0, 100] percent, and every bar full when the data is constant |
| MiniChart.ConstantIffMaxIsMin | src/components/Dashboard.jsx:130-132 | `range` is 0 exactly when all values are equal |
| MiniChart.BarHeightsAt | src/components/Dashboard.jsx:136-146 | bar i belongs to value i, in input order; for varied data it is `(v - min) / (max - min) * 100`, with min and max over the whole sequence |
| MiniChart.MinimumGetsZero | src/components/Dashboard.jsx:130-141 | in varied data, a bar holding the smallest value has height 0 |
| MiniChart.MaximumGetsFull | src/components/Dashboard.jsx:130-141 | a bar holding the largest value has height 100 |
| MiniChart.BarHeightsPreserveOrder | src/components/Dashboard.jsx:130-141 | for varied data, v1 <= v2 iff bar(v1) <= bar(v2), and v1 < v2 iff bar(v1) < bar(v2) |
| MiniChart.MiniChartMatchesWhenVaried | src/components/Dashboard.jsx:141 | for varied data, the as-written bars are exactly the corrected percentages |
| MiniChart.MiniChartConstantIsNaN | src/components/Dashboard.jsx:132-141 | for constant non-empty data, every as-written bar is NaN; the corrected bar is 100 |
| MiniChart.SingleValueCounterexample | src/components/Dashboard.jsx:141 | the one-value sparkline [42] gets a NaN bar as written and a full bar when corrected |
| RiskBadge.RiskLevelColor | src/components/Dashboard.jsx:89-96 | total: every level name gets one of the four badges, and the grey default exactly for names other than Low, Medium and High |
| RiskBadge.BadgeIdentifiesLevel | src/components/Dashboard.jsx:89-96 | the badge of Low, Medium or High identifies that level again; any other name gets no level back |
| RiskBadge.KnownLevelsHaveDistinctBadges | src/components/Dashboard.jsx:91-93 | the three known levels get three different badges |
| Tooltip.EntryLines | src/components/Dashboard.jsx:104-108 | one line per payload entry, in payload order: `dataKey: value`, drawn in the entry's colour |
| Tooltip.LineTooltip | src/components/Dashboard.jsx:99-113 | no output iff inactive or the payload is absent or empty; otherwise the label line, then one entry line per payload entry |
| Tooltip.PieTooltip | src/components/Dashboard.jsx:115-127 | no output under the same guard; otherwise exactly the first entry's name and `Count: value` in its colour |
| Tooltip.PieTooltipUsesFirstEntryOnly | src/components/Dashboard.jsx:119-121 | two payloads with the same first entry give the same pie tooltip |
| Tooltip.PieTooltipIsLineTooltipOfFirst | src/components/Dashboard.jsx:99-127 | the pie tooltip equals the line tooltip of the first entry alone, keyed "Count" and labelled with the slice name |
| SiteAvatar.Split | src/components/Dashboard.jsx:484 | `split(' ')` gives at least one piece, no piece contains the separator, and joining the pieces gives back the name |
| SiteAvatar.SplitJoin | src/components/Dashboard.jsx:484 | splitting the join of separator-free pieces gives back those pieces |
| SiteAvatar.FirstChar | src/components/Dashboard.jsx:484 | `charAt(0)` is the first character, or the empty string for an empty string |
| SiteAvatar.AvatarInitial | src/components/Dashboard.jsx:484 | the letter expression throws exactly when the name has no space; otherwise it gives at most one character |
| SiteAvatar.AvatarIsCharAfterFirstSpace | src/components/Dashboard.jsx:484 | the letter is the character right after the first space, or empty when that is missing or is another space |
| SiteTable.SiteRow | src/components/Dashboard.jsx:481-497 | a row renders iff the site name has a space, and it then shows that record's name, score and level text, the avatar letter of line 484 and the badge of its stored level |
| SiteTable.SiteTable | src/components/Dashboard.jsx:480-498 | the table renders iff every site name has a space; row k is then drawn from record k, with no re-ordering |
| SiteTable.BadgeIgnoresScore | src/components/Dashboard.jsx:493 | a row's badge is `getRiskLevelColor` of its stored level, and changing the score never changes it |
| MockData.CountLevel | src/components/Dashboard.jsx:259-261 | the number of sites storing a level is the multiplicity of that level among the list's stored level names; it never exceeds the list length, and is 0 iff no site stores that level |
| MockData.SitesCardCountsMatchList | src/components/Dashboard.jsx:259-261 | the card's "Low: 3", "Medium: 2" and "High: 2" match the site list |
| MockData.TotalSitesIsListLength | src/components/Dashboard.jsx:253 | "Total Sites" shows 7, and the three level counts cover the whole list |
| MockData.TrendsSparkline | src/components/Dashboard.jsx:186 | the card's sparkline has 8 bars: 65 gets 0, 95 gets 100, and none is NaN |
| MockData.SiteTableRenders | src/components/Dashboard.jsx:71-79 | the site list renders all 7 rows, with letters A, B, G, D, E, Z, E and a non-grey badge each |
| MockData.SiteColoursAgreeWithLevels | src/components/Dashboard.jsx:72-78 | each site's separately written hex colour agrees with its stored level |
| MockData.DatasetTotalsAgree | src/components/Dashboard.jsx:22-51 | active plus inactive controls make the total, and the score buckets sum to the total of assessments |

## Findings

| source | as written | input that shows it | evidently intended | confidence | as-written member | corrected member |
|---|---|---|---|---|---|---|
| src/components/Dashboard.jsx:132-141 | `range` is not guarded, so constant data computes `0 / 0` = NaN and the bar style becomes `"NaN%"` | `data = [42]`, or any non-empty data whose values are all equal | a defined height for every bar; full bars when there is no range | medium, not executed | MiniChart.SingleValueCounterexample | MiniChart.BarHeights |

## Left out

- JSX layout, Tailwind classes other than the badge classes, and lucide icons (lines 2, 151-526): presentation only.
- recharts rendering (lines 277-473): a foreign library. The model covers only what the two custom tooltips render from the payload the library hands them.
- `formatDate`, the axis `tickFormatter` and the tooltip `labelFormatter` (lines 85-87, 370, 378): they depend on `Date` and the locale. For the same reason a table row carries no formatted date.
- The "Last updated" date (line 169): it reads the clock.
- `activeTab` (line 83): set once and never read.
- The `minHeight: '8px'` floor of each bar (line 142): applied by the browser's CSS, not by the code.
- Hard-coded display strings such as '+12%', '91%', '2.8' and '98.5%': literals, not computed.
- Tooltip.LineTooltip: the text of `${entry.value}` is the parameter `show`, since JavaScript's number-to-text conversion is not modelled.
- Tooltip.PieTooltip: the text of `${payload[0].value}` is the same `show` parameter.
- MiniChart.MiniChartHeights: empty data draws no bars without computing `Math.max()` of nothing (`-Infinity`), so that value is not modelled.
- MiniChart.BarHeightsPreserveOrder: floating-point rounding is not modelled; numbers are exact reals. With IEEE doubles two distinct values can round to the same bar height (for example 1.511808904526706 and 1.5118089045267062 in `[0, …, 2]` both give 75.5904452263353), so the strict and order-reflecting halves hold of exact reals only; the non-strict monotone direction, the [0, 100] bounds and the end values 0 and 100 are unaffected by rounding as long as `max - min` does not exceed `Number.MAX_VALUE` (about 1.8e308). A wider span overflows `range` to `Infinity` (for `[-1e308, 0, 1e308]` the bars are 0, 0 and NaN), which the model does not capture.
- MiniChart.MiniChartMatchesWhenVaried: the as-written heights equal the corrected ones as exact reals; the browser receives the rounded double (43.333333333333336 for the trend value 78, where the model has 130/3). When `max - min` exceeds `Number.MAX_VALUE`, `range` is `Infinity` and line 141 gives NaN for every value more than `Number.MAX_VALUE` above the minimum (and 0 for the others); the model, with exact reals, gives finite percentages there instead.
- Characters are Dafny `char`s, not UTF-16 code units; the site names in the data are plain ASCII.

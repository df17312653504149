/**
 * The two custom chart tooltips (src/components/Dashboard.jsx, lines 99-127):
 * `CustomTooltip` for the line, area and bar charts and `CustomPieTooltip`
 * for the score-distribution pie. Each renders a box of text lines or
 * nothing at all; the box is modelled as its lines, and "nothing" as no lines.
 */
module Tooltip {
  import opened Wrappers

  /**
   * One entry of the payload the chart library hands a tooltip: the series'
   * data key and display name, the hovered point's value and the series colour.
   */
  datatype Entry = Entry(dataKey: string, name: string, value: real, color: string)

  /** One paragraph of the tooltip box: its text and, for entry lines, the colour it is drawn in. */
  datatype Line = Line(text: string, color: Option<string>)

  /**
   * The guard both tooltips share: the tooltip is active and the payload is
   * present and holds at least one entry.
   */
  predicate Shows(active: bool, payload: Option<seq<Entry>>) {
    active && payload.Some? && |payload.value| > 0
  }

  /** The text `${entry.dataKey}: ${entry.value}`, with `show` as the host's number-to-text conversion. */
  function EntryText(e: Entry, show: real -> string): string {
    e.dataKey + ": " + show(e.value)
  }

  /** `payload.map(...)`: one coloured line per entry, in payload order. */
  function EntryLines(entries: seq<Entry>, show: real -> string): (lines: seq<Line>)
    ensures |lines| == |entries|
    ensures forall i :: 0 <= i < |entries| ==>
      lines[i] == Line(EntryText(entries[i], show), Some(entries[i].color))
  {
    if entries == [] then []
    else [Line(EntryText(entries[0], show), Some(entries[0].color))] + EntryLines(entries[1..], show)
  }

  /** `CustomTooltip`: the point's label, then one line per payload entry; nothing unless `Shows`. */
  function LineTooltip(active: bool, payload: Option<seq<Entry>>, pointLabel: string, show: real -> string): (lines: seq<Line>)
    ensures lines == [] <==> !Shows(active, payload)
    ensures Shows(active, payload) ==>
      && |lines| == |payload.value| + 1
      && lines[0] == Line(pointLabel, None)
      && forall i :: 0 <= i < |payload.value| ==>
           lines[i + 1] == Line(EntryText(payload.value[i], show), Some(payload.value[i].color))
  {
    if Shows(active, payload) then [Line(pointLabel, None)] + EntryLines(payload.value, show) else []
  }

  /** `CustomPieTooltip`: the first entry's name, then its count; nothing unless `Shows`. */
  function PieTooltip(active: bool, payload: Option<seq<Entry>>, show: real -> string): (lines: seq<Line>)
    ensures lines == [] <==> !Shows(active, payload)
    ensures Shows(active, payload) ==>
      var first := payload.value[0];
      lines == [Line(first.name, None), Line("Count: " + show(first.value), Some(first.color))]
  {
    if Shows(active, payload) then
      var first := payload.value[0];
      [Line(first.name, None), Line("Count: " + show(first.value), Some(first.color))]
    else []
  }

  /** The pie tooltip ignores every entry after the first. */
  lemma PieTooltipUsesFirstEntryOnly(active: bool, p: seq<Entry>, q: seq<Entry>, show: real -> string)
    requires |p| > 0 && |q| > 0 && p[0] == q[0]
    ensures PieTooltip(active, Some(p), show) == PieTooltip(active, Some(q), show)
  {
  }

  /** The pie tooltip shows exactly what the line tooltip shows of the first entry, under the slice's own name and a "Count" key. */
  lemma PieTooltipIsLineTooltipOfFirst(active: bool, p: seq<Entry>, show: real -> string)
    requires |p| > 0
    ensures var first := p[0];
      PieTooltip(active, Some(p), show)
      == LineTooltip(active, Some([first.(dataKey := "Count")]), first.name, show)
  {
    if active {
      var first := p[0];
      var line := LineTooltip(active, Some([first.(dataKey := "Count")]), first.name, show);
      assert line[1] == Line("Count" + ": " + show(first.value), Some(first.color));
      assert "Count" + ": " == "Count: ";
    }
  }
}

/**
 * The decisions of src/components/chart-renderer.tsx: the series colour
 * index arithmetic of `getColor`, the table's scroll size, the choice
 * `renderChart` makes between spinner, placeholder and chart, and the
 * chart-type lookup of `ChartRenderer`. The charts themselves, drawn by
 * library components, are not modelled; palettes are names, tones indices.
 */
module ChartRenderer {
  import opened Wrappers

  datatype Palette = Blue | Red | Green | Lime | Cyan | Purple | Magenta

  /** `colorPalettes`, in the source's order. */
  const ColorPalettes: seq<Palette> := [Blue, Red, Green, Lime, Cyan, Purple, Magenta]

  /** `selectedColorPalette[selectedToneIndex]`, as a palette and a tone index into it. */
  datatype ColorPick = ColorPick(palette: Palette, tone: nat)

  /** `getColor(i, mode)` for series index `i`; `mode` is only logged. */
  function GetColor(i: nat): (c: ColorPick)
    ensures c.tone >= 4
  {
    var selectedColorPalette := ColorPalettes[i % |ColorPalettes|];
    var selectedToneIndex := 4 + i / (|ColorPalettes| - 4);
    ColorPick(selectedColorPalette, selectedToneIndex)
  }

  /** The first seven series take the palettes in the listed order; the first three take tone 4. */
  lemma FirstSeriesFollowPaletteOrder(i: nat)
    requires i < |ColorPalettes|
    ensures GetColor(i).palette == ColorPalettes[i]
    ensures i < 3 ==> GetColor(i).tone == 4
  {
  }

  /** The palette repeats every seven series. */
  lemma PaletteRepeatsEverySeven(i: nat)
    ensures GetColor(i + 7).palette == GetColor(i).palette
  {
  }

  /** Seven consecutive series all get different palettes. */
  lemma SevenConsecutivePalettesDiffer(i: nat, j: nat)
    requires i < j < i + 7
    ensures GetColor(i).palette != GetColor(j).palette
  {
    var a, b := i % 7, j % 7;
    assert i == 7 * (i / 7) + a && j == 7 * (j / 7) + b;
    assert ColorPalettes[a] != ColorPalettes[b];
  }

  /** Later series never get a lighter tone: the tone index does not decrease. */
  lemma ToneNonDecreasing(i: nat, j: nat)
    requires i <= j
    ensures GetColor(i).tone <= GetColor(j).tone
  {
    assert 3 * (i / 3) <= i && j < 3 * (j / 3) + 3;
  }

  /** The tone index goes up by one every three series. */
  lemma ToneStepsEveryThree(i: nat)
    ensures GetColor(i + 3).tone == GetColor(i).tone + 1
  {
  }

  /**
   * A palette of `shades` tones (ten in the colour library) has the picked
   * tone exactly for the first `3 * (shades - 4)` series; later series index
   * past its end and get `undefined`.
   */
  lemma ToneWithinPalette(i: nat, shades: nat)
    requires shades >= 4
    ensures GetColor(i).tone < shades <==> i < 3 * (shades - 4)
  {
    assert 3 * (i / 3) <= i < 3 * (i / 3) + 3;
  }

  // ---------------------------------------------------------------------
  // The table's scroll size
  // ---------------------------------------------------------------------

  datatype TableScroll = TableScroll(x: nat, y: nat)

  /** `scroll={{ x: countColumn >= 6 ? 600 * countColumn : 1200, y: 280 }}`. */
  function TableScrollOf(columnCount: nat): (s: TableScroll)
    ensures s.x >= 1200 && s.y == 280
    ensures s.x >= 200 * columnCount
    ensures columnCount >= 6 ==> s.x == 600 * columnCount
    ensures columnCount < 6 ==> s.x == 1200
  {
    TableScroll(if columnCount >= 6 then 600 * columnCount else 1200, 280)
  }

  /** More columns never make the table narrower. */
  lemma TableScrollMonotone(a: nat, b: nat)
    requires a <= b
    ensures TableScrollOf(a).x <= TableScrollOf(b).x
  {
  }

  /** Up to five columns share the fixed 1200 width. */
  lemma FewColumnsShareFixedWidth(a: nat, b: nat)
    requires a < 6 && b < 6
    ensures TableScrollOf(a) == TableScrollOf(b)
  {
  }

  // ---------------------------------------------------------------------
  // renderChart and the chart-type lookup
  // ---------------------------------------------------------------------

  /** The keys of `TypeToChartComponent`. */
  datatype ChartKind = Line | Bar | Area | Pie | Number | Table

  function KindName(k: ChartKind): string {
    match k
    case Line => "line"
    case Bar => "bar"
    case Area => "area"
    case Pie => "pie"
    case Number => "number"
    case Table => "table"
  }

  /** What `renderChart(Component)(props)` returns. */
  datatype Rendered = Spinner | EmptyPlaceholder | Chart(kind: ChartKind)

  /**
   * `renderChart`: loading wins over everything; then a missing result set or
   * an error gives the placeholder; only then is the chart drawn (its own
   * `resultSet &&` guard then always holds). The three flags are the
   * truthiness of `isLoading`, `resultSet` and `error`.
   */
  function RenderChart(kind: ChartKind, isLoading: bool, hasResultSet: bool, hasError: bool): (r: Rendered)
    ensures r == Spinner <==> isLoading
    ensures r == EmptyPlaceholder <==> !isLoading && (!hasResultSet || hasError)
    ensures r.Chart? <==> !isLoading && hasResultSet && !hasError
    ensures r.Chart? ==> r.kind == kind
  {
    if isLoading then Spinner
    else if !hasResultSet || hasError then EmptyPlaceholder
    else Chart(kind)
  }

  /** `TypeToMemoChartComponent[chartType]`: a component for the six keys, `undefined` for any other. */
  function ChartKindOf(chartType: string): (r: Option<ChartKind>)
    ensures r.Some? ==> KindName(r.value) == chartType
  {
    if chartType == "line" then Some(Line)
    else if chartType == "bar" then Some(Bar)
    else if chartType == "area" then Some(Area)
    else if chartType == "pie" then Some(Pie)
    else if chartType == "number" then Some(Number)
    else if chartType == "table" then Some(Table)
    else None
  }

  /** The lookup finds every kind under its own name, and only there. */
  lemma ChartKindOfName(chartType: string, k: ChartKind)
    ensures ChartKindOf(chartType) == Some(k) <==> chartType == KindName(k)
  {
  }

  /**
   * `ChartRenderer`: `component && renderChart(component)(...)`; an unknown
   * chart type renders nothing (None).
   */
  function RenderChartType(chartType: string, isLoading: bool, hasResultSet: bool, hasError: bool): (r: Option<Rendered>)
    ensures r.Some? <==> exists k :: chartType == KindName(k)
    ensures r.Some? && r.value.Chart? ==> KindName(r.value.kind) == chartType
    ensures forall k :: chartType == KindName(k) ==> r == Some(RenderChart(k, isLoading, hasResultSet, hasError))
  {
    match ChartKindOf(chartType)
    case Some(kind) =>
      ChartKindOfName(chartType, kind);
      Some(RenderChart(kind, isLoading, hasResultSet, hasError))
    case None =>
      assert forall k :: chartType != KindName(k) by {
        forall k ensures chartType != KindName(k) {
          ChartKindOfName(chartType, k);
        }
      }
      None
  }
}

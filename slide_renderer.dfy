/** The display decisions of components/SlideRenderer.tsx: which chart is
    drawn and how, whether the placeholder image appears and from which URL,
    and which text blocks are shown. A slide is mapped to a `SlideView`, an
    abstract description of what the component passes to its drawing
    collaborators; layout and drawing are not modelled. */
module SlideRenderer {
  import opened Types

  /** The pie palette, `COLORS`. */
  const Colors: seq<string> := ["#3b82f6", "#10b981", "#f59e0b", "#ef4444", "#8b5cf6"]

  /** The placeholder image URL is `ImagePrefix + id + ImageSuffix`. */
  const ImagePrefix: string := "https://picsum.photos/seed/"
  const ImageSuffix: string := "/800/600"

  /** The chart handed to the charting collaborator, with its records. */
  datatype ChartView =
    | BarView(records: seq<ChartRecord>, secondSeries: bool)
    | LineView(records: seq<ChartRecord>)
    | PieView(records: seq<ChartRecord>, sectorColors: seq<string>)

  /** What one rendered slide shows. */
  datatype SlideView = SlideView(
    title: string,
    subtitle: Option<string>,
    bullets: seq<string>,
    chart: Option<ChartView>,
    image: Option<string>,
    footer: Option<string>)

  /** The bar chart's second `Bar` series: only the first record is looked
      at, and its `secondary` must be truthy. */
  function HasSecondSeries(data: seq<ChartRecord>): (b: bool)
    ensures b ==> |data| > 0 && data[0].secondary.Some? && data[0].secondary.value != 0
    ensures |data| > 0 && data[0].secondary.Some? && data[0].secondary.value != 0 ==> b
  {
    |data| > 0 && TruthyNumber(data[0].secondary)
  }

  /** Records after the first never decide the second series. */
  lemma SecondSeriesReadsFirstRecordOnly(d1: seq<ChartRecord>, d2: seq<ChartRecord>)
    requires |d1| > 0 && |d2| > 0 && d1[0] == d2[0]
    ensures HasSecondSeries(d1) == HasSecondSeries(d2)
  {
  }

  /** A later record with a truthy `secondary` does not add the series when
      the first record has none. */
  lemma SecondSeriesMissedWhenFirstLacksIt(a: ChartRecord, b: ChartRecord)
    requires a.secondary == None && TruthyNumber(b.secondary)
    ensures !HasSecondSeries([a, b])
  {
  }

  /** The fill of pie sector `i`: `COLORS[i % COLORS.length]`. */
  function SectorColor(i: nat): (c: string)
    ensures c in Colors
  {
    Colors[i % |Colors|]
  }

  /** One fill per record, by record position. */
  function SectorColors(n: nat): (cs: seq<string>)
    ensures |cs| == n
    ensures forall i :: 0 <= i < n ==> cs[i] == SectorColor(i)
  {
    seq(n, i requires 0 <= i < n => SectorColor(i))
  }

  /** The palette cycles with period five. */
  lemma SectorColorPeriodic(i: nat)
    ensures SectorColor(i + |Colors|) == SectorColor(i)
  {
  }

  /** Neighbouring sectors never share a colour, and neither do the first
      and the last sector of a pie with two to five sectors. */
  lemma NeighbourSectorsDiffer(n: nat, i: nat)
    requires i + 1 < n
    ensures SectorColors(n)[i] != SectorColors(n)[i + 1]
    ensures n <= |Colors| ==> SectorColors(n)[0] != SectorColors(n)[n - 1]
  {
  }

  /** `renderChart`. No chart when `chartData` is absent or `chartType` is
      `'none'`; otherwise bar for `'bar'`, line for `'line'` and pie for every
      remaining case, an absent `chartType` included. The records are handed
      over unchanged, an empty list included. */
  function RenderChart(s: SlideContent): (r: Option<ChartView>)
    ensures r.None? <==> s.chartData.None? || s.chartType == Some(NoChart)
    ensures r.Some? ==> r.value.records == s.chartData.value
    ensures r.Some? ==> (r.value.BarView? <==> s.chartType == Some(Bar))
    ensures r.Some? ==> (r.value.LineView? <==> s.chartType == Some(Line))
    ensures r.Some? ==> (r.value.PieView? <==> s.chartType == None || s.chartType == Some(Pie))
    ensures r.Some? && r.value.BarView? ==> r.value.secondSeries == HasSecondSeries(s.chartData.value)
    ensures r.Some? && r.value.PieView? ==>
              |r.value.sectorColors| == |r.value.records| &&
              forall i :: 0 <= i < |r.value.records| ==> r.value.sectorColors[i] == Colors[i % |Colors|]
  {
    if s.chartData.None? || s.chartType == Some(NoChart) then None
    else
      var data := s.chartData.value;
      match s.chartType
      case Some(Bar) => Some(BarView(data, HasSecondSeries(data)))
      case Some(Line) => Some(LineView(data))
      case _ => Some(PieView(data, SectorColors(|data|)))
  }

  /** A present but empty `chartData` still draws a chart. */
  lemma EmptyDataStillDrawsChart(s: SlideContent)
    requires s.chartData == Some([]) && s.chartType != Some(NoChart)
    ensures RenderChart(s).Some? && RenderChart(s).value.records == []
  {
  }

  /** An absent `chartType` with data present draws a pie. */
  lemma AbsentTypeDrawsPie(s: SlideContent)
    requires s.chartData.Some? && s.chartType == None
    ensures RenderChart(s).Some? && RenderChart(s).value.PieView?
  {
  }

  /** The placeholder image location for a slide id. */
  function PicsumUrl(id: string): string
  {
    ImagePrefix + id + ImageSuffix
  }

  /** Reads the seed back out of a placeholder URL. */
  function SeedOf(url: string): Option<string>
  {
    if |url| >= |ImagePrefix| + |ImageSuffix|
       && url[..|ImagePrefix|] == ImagePrefix
       && url[|url| - |ImageSuffix|..] == ImageSuffix
    then Some(url[|ImagePrefix|..|url| - |ImageSuffix|])
    else None
  }

  /** The image URL is keyed by the slide id: the id is read back from it. */
  lemma SeedRoundTrip(id: string)
    ensures SeedOf(PicsumUrl(id)) == Some(id)
  {
  }

  /** Slides with different ids get different placeholder images. */
  lemma PicsumUrlInjective(id1: string, id2: string)
    requires id1 != id2
    ensures PicsumUrl(id1) != PicsumUrl(id2)
  {
    SeedRoundTrip(id1);
    SeedRoundTrip(id2);
  }

  /** The placeholder image: shown iff `imagePrompt` is truthy and
      `chartData` is absent, at the URL seeded by the slide id. */
  function ImageUrl(s: SlideContent): (r: Option<string>)
    ensures r.Some? <==> Truthy(s.imagePrompt) && s.chartData.None?
    ensures r.Some? ==> SeedOf(r.value) == Some(s.id)
  {
    if Truthy(s.imagePrompt) && s.chartData.None? then
      SeedRoundTrip(s.id);
      Some(PicsumUrl(s.id))
    else None
  }

  /** An optional text block is shown only when its text is truthy. */
  function ShownText(t: Option<string>): (r: Option<string>)
    ensures r.Some? <==> Truthy(t)
    ensures r.Some? ==> r == t
  {
    if Truthy(t) then t else None
  }

  /** The whole slide. The title is always shown; subtitle and footer only
      when non-empty; one bullet per item, in order; and never both a chart
      and the placeholder image. */
  function Render(s: SlideContent): (v: SlideView)
    ensures v.title == s.title
    ensures v.bullets == s.bulletPoints
    ensures v.subtitle.Some? <==> Truthy(s.subtitle)
    ensures v.subtitle.Some? ==> v.subtitle == s.subtitle
    ensures v.footer.Some? <==> Truthy(s.footer)
    ensures v.footer.Some? ==> v.footer == s.footer
    ensures v.chart == RenderChart(s) && v.image == ImageUrl(s)
    ensures !(v.chart.Some? && v.image.Some?)
  {
    SlideView(s.title, ShownText(s.subtitle), s.bulletPoints, RenderChart(s), ImageUrl(s), ShownText(s.footer))
  }

  /** `chartType` `'none'` with data present shows neither a chart nor the
      image, whatever `imagePrompt` says. */
  lemma NoneTypeWithDataShowsNothing(s: SlideContent)
    requires s.chartType == Some(NoChart) && s.chartData.Some?
    ensures Render(s).chart.None? && Render(s).image.None?
  {
  }

  /** A bar slide with two records and no `secondary` gets one series of two
      categories. */
  lemma BarScenario(s: SlideContent)
    requires s.chartType == Some(Bar)
    requires s.chartData == Some([ChartRecord("1990", 450, None), ChartRecord("2019", 600, None)])
    ensures Render(s).chart.Some?
    ensures var c := Render(s).chart.value; c.BarView? && !c.secondSeries && |c.records| == 2
  {
  }

  /** A `'none'` slide with an image prompt and no data shows the image keyed
      by its id, and no chart. */
  lemma ImageScenario(s: SlideContent)
    requires s.chartType == Some(NoChart) && s.chartData.None? && Truthy(s.imagePrompt)
    ensures Render(s).chart.None? && Render(s).image == Some(PicsumUrl(s.id))
  {
  }
}

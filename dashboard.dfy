/**
 * The dashboard component: the price series built from the provider's
 * newest-first list, the chart option wrapped around it, the dropdown's
 * option labels and search filter, the prediction panel, and the component
 * state with its loading flags. Rendering and HTTP are outside.
 */
module Dashboard {
  import opened Wrappers
  import opened Text
  import opened Api

  const UpColor := "#00da3c"
  const UpBorderColor := "#008F28"
  const DownColor := "#ec0000"
  const DownBorderColor := "#8A0000"

  /** The symbol shown once the symbol list has arrived. */
  const DefaultSymbol := "AAPL"

  /** The path of the series request for a symbol. */
  function SeriesUrl(symbol: string): (url: string)
    ensures |url| == 13 + |symbol| && url[..13] == "/api/symbols/" && url[13..] == symbol
  {
    "/api/symbols/" + symbol
  }

  /** The `${name} (${symbol})` template of the chart title and the dropdown options. */
  function Caption(name: string, symbol: string): (r: string)
    ensures |r| == |name| + |symbol| + 3
    ensures r[..|name|] == name && r[|name|..|name| + 2] == " ("
    ensures r[|name| + 2..|r| - 1] == symbol && r[|r| - 1] == ')'
  {
    name + " (" + symbol + ")"
  }

  /**
   * When symbols contain no '(', a caption gives back its name and its symbol:
   * the last '(' of the caption is the one the template put there.
   */
  lemma CaptionDeterminesParts(n1: string, s1: string, n2: string, s2: string)
    requires '(' !in s1 && '(' !in s2
    requires Caption(n1, s1) == Caption(n2, s2)
    ensures n1 == n2 && s1 == s2
  {
    var c := Caption(n1, s1);
    CaptionParen(n1, s1);
    CaptionParen(n2, s2);
    assert |s1| == |s2|;
    assert s1 == c[|n1| + 2..|c| - 1];
    assert n1 == c[..|n1|];
  }

  /** The template's '(' is the last '(' of a caption whose symbol has none. */
  lemma CaptionParen(name: string, symbol: string)
    requires '(' !in symbol
    ensures var c := Caption(name, symbol);
      c[|c| - 2 - |symbol|] == '(' && forall k :: |c| - 2 - |symbol| < k < |c| ==> c[k] != '('
  {
  }

  // ---------------------------------------------------------------- series

  /** `date.slice(0, 10)`: the calendar-date part of an ISO-8601 timestamp. */
  function DateLabel(date: string): (day: string)
    ensures day <= date
    ensures |day| <= 10
    ensures |date| >= 10 ==> |day| == 10
    ensures |date| < 10 ==> day == date
  {
    date[..Min(10, |date|)]
  }

  /** The candlestick point `[adj_open, adj_close, adj_low, adj_high]` of a record. */
  function Candle(p: PriceRecord): (v: seq<real>)
    ensures |v| == 4
    ensures v[0] == p.adjOpen && v[1] == p.adjClose && v[2] == p.adjLow && v[3] == p.adjHigh
  {
    [p.adjOpen, p.adjClose, p.adjLow, p.adjHigh]
  }

  /** `{categoryData, values}`: date labels and candlestick points, in parallel. */
  datatype ChartSeries = ChartSeries(categoryData: seq<string>, values: seq<seq<real>>)

  /** The series of a newest-first list: its first record ends up last. */
  function SeriesOf(prices: seq<PriceRecord>): (s: ChartSeries)
    ensures |s.categoryData| == |s.values| == |prices|
  {
    if prices == [] then ChartSeries([], [])
    else
      var rest := SeriesOf(prices[1..]);
      ChartSeries(rest.categoryData + [DateLabel(prices[0].date)], rest.values + [Candle(prices[0])])
  }

  /** Position i of the series comes from record N-1-i of the input. */
  lemma {:induction false} SeriesOfAt(prices: seq<PriceRecord>, i: nat)
    requires i < |prices|
    ensures SeriesOf(prices).categoryData[i] == DateLabel(prices[|prices| - 1 - i].date)
    ensures SeriesOf(prices).values[i] == Candle(prices[|prices| - 1 - i])
  {
    if i < |prices| - 1 {
      SeriesOfAt(prices[1..], i);
    }
  }

  /** The series of a concatenation is the series of the second part followed by that of the first. */
  lemma {:induction false} SeriesOfAppend(a: seq<PriceRecord>, b: seq<PriceRecord>)
    ensures SeriesOf(a + b).categoryData == SeriesOf(b).categoryData + SeriesOf(a).categoryData
    ensures SeriesOf(a + b).values == SeriesOf(b).values + SeriesOf(a).values
  {
    if a == [] {
      assert a + b == b;
    } else {
      SeriesOfAppend(a[1..], b);
      assert (a + b)[1..] == a[1..] + b;
    }
  }

  /**
   * A newest-first input (dates in non-increasing string order, as ISO-8601
   * timestamps sort) gives oldest-first labels.
   */
  lemma SeriesOfChronological(prices: seq<PriceRecord>)
    requires forall i, j :: 0 <= i < j < |prices| ==> LexLe(prices[j].date, prices[i].date)
    ensures forall i, j :: 0 <= i < j < |prices| ==>
      LexLe(SeriesOf(prices).categoryData[i], SeriesOf(prices).categoryData[j])
  {
    forall i, j | 0 <= i < j < |prices|
      ensures LexLe(SeriesOf(prices).categoryData[i], SeriesOf(prices).categoryData[j])
    {
      var older, newer := |prices| - 1 - i, |prices| - 1 - j;
      assert newer < older;
      SeriesOfPairOrder(prices, i, j);
    }
  }

  /** One pair of positions of the chronological order. */
  lemma SeriesOfPairOrder(prices: seq<PriceRecord>, i: nat, j: nat)
    requires i < j < |prices|
    requires LexLe(prices[|prices| - 1 - i].date, prices[|prices| - 1 - j].date)
    ensures LexLe(SeriesOf(prices).categoryData[i], SeriesOf(prices).categoryData[j])
  {
    SeriesOfAt(prices, i);
    SeriesOfAt(prices, j);
    DateLabelOrder(prices[|prices| - 1 - i].date, prices[|prices| - 1 - j].date);
  }

  /** Cutting two timestamps to their dates keeps their order. */
  lemma DateLabelOrder(a: string, b: string)
    requires LexLe(a, b)
    ensures LexLe(DateLabel(a), DateLabel(b))
  {
    LexLePrefix(a, b, 10);
  }

  /** The `for (i = prices.length - 1; i > -1; i--)` loop of `updateData`. */
  method BuildSeries(prices: seq<PriceRecord>) returns (data: ChartSeries)
    ensures data == SeriesOf(prices)
    ensures |data.categoryData| == |data.values| == |prices|
    ensures forall i :: 0 <= i < |prices| ==>
      data.categoryData[i] == DateLabel(prices[|prices| - 1 - i].date) &&
      data.values[i] == Candle(prices[|prices| - 1 - i])
  {
    var categoryData: seq<string> := [];
    var values: seq<seq<real>> := [];
    var i: int := |prices| - 1;
    while i > -1
      invariant -1 <= i < |prices|
      invariant ChartSeries(categoryData, values) == SeriesOf(prices[i + 1..])
    {
      assert prices[i..][1..] == prices[i + 1..];
      categoryData := categoryData + [DateLabel(prices[i].date)];
      values := values + [Candle(prices[i])];
      i := i - 1;
    }
    data := ChartSeries(categoryData, values);
    forall i | 0 <= i < |prices|
      ensures data.categoryData[i] == DateLabel(prices[|prices| - 1 - i].date)
      ensures data.values[i] == Candle(prices[|prices| - 1 - i])
    {
      SeriesOfAt(prices, i);
    }
  }

  /** The worked example: two newest-first records become two oldest-first points. */
  lemma SeriesOfExample()
    ensures SeriesOf([
      PriceRecord("2024-01-02T00:00:00Z", 0.0, 0.0, 0.0, 0.0, 10.0, 13.0, 9.0, 12.0),
      PriceRecord("2024-01-01T00:00:00Z", 0.0, 0.0, 0.0, 0.0, 8.0, 11.0, 7.0, 10.0)])
      == ChartSeries(["2024-01-01", "2024-01-02"], [[8.0, 10.0, 7.0, 11.0], [10.0, 12.0, 9.0, 13.0]])
  {
    var p0 := PriceRecord("2024-01-02T00:00:00Z", 0.0, 0.0, 0.0, 0.0, 10.0, 13.0, 9.0, 12.0);
    var p1 := PriceRecord("2024-01-01T00:00:00Z", 0.0, 0.0, 0.0, 0.0, 8.0, 11.0, 7.0, 10.0);
    assert [p0, p1][1..] == [p1];
    assert [p1][1..] == [];
    assert DateLabel(p0.date) == "2024-01-02";
    assert DateLabel(p1.date) == "2024-01-01";
  }

  // ---------------------------------------------------------------- chart option

  datatype Title = Title(text: string, left: int)
  datatype Tooltip = Tooltip(trigger: string, axisPointer: string)
  datatype XAxis = XAxis(kind: string, data: seq<string>, scale: bool, boundaryGap: bool,
                         axisLineOnZero: bool, splitLineShow: bool, splitNumber: int,
                         min: string, max: string)
  datatype YAxis = YAxis(scale: bool, splitAreaShow: bool)
  datatype DataZoom = DataZoom(kind: string, show: Option<bool>, top: Option<string>, start: int, end: int)
  datatype ItemStyle = ItemStyle(color: string, color0: string, borderColor: string, borderColor0: string)
  datatype Series = Series(kind: string, data: seq<seq<real>>, itemStyle: ItemStyle)
  datatype ChartOption = ChartOption(title: Title, tooltip: Tooltip, xAxis: XAxis, yAxis: YAxis,
                                     dataZoom: seq<DataZoom>, series: seq<Series>)

  /**
   * A chart option the candlestick widget can draw as intended: one candlestick
   * series with a point per category, and two zoom controls opened on the most
   * recent half.
   */
  ghost predicate WellFormedOption(o: ChartOption)
  {
    && |o.series| == 1
    && o.series[0].kind == "candlestick"
    && |o.series[0].data| == |o.xAxis.data|
    && |o.dataZoom| == 2
    && forall z :: z in o.dataZoom ==> z.start == 50 && z.end == 100
  }

  /** `getOption(title, data0)`: the fixed chart configuration around a series. */
  function GetOption(title: string, data0: ChartSeries): (o: ChartOption)
    ensures o.title.text == title
    ensures o.xAxis.data == data0.categoryData
    ensures o.xAxis.min == "dataMin" && o.xAxis.max == "dataMax"
    ensures |o.series| == 1 && o.series[0].data == data0.values
    ensures o.series[0].itemStyle == ItemStyle(UpColor, DownColor, UpBorderColor, DownBorderColor)
    ensures |o.dataZoom| == 2 && o.dataZoom[0].kind == "inside" && o.dataZoom[1].kind == "slider"
    ensures forall z :: z in o.dataZoom ==> z.start == 50 && z.end == 100
  {
    ChartOption(
      Title(title, 0),
      Tooltip("axis", "cross"),
      XAxis("category", data0.categoryData, true, false, false, false, 20, "dataMin", "dataMax"),
      YAxis(true, true),
      [DataZoom("inside", None, None, 50, 100), DataZoom("slider", Some(true), Some("90%"), 50, 100)],
      [Series("candlestick", data0.values,
              ItemStyle(UpColor, DownColor, UpBorderColor, DownBorderColor))])
  }

  /** The option built from any price list is well formed. */
  lemma GetOptionWellFormed(title: string, prices: seq<PriceRecord>)
    ensures WellFormedOption(GetOption(title, SeriesOf(prices)))
  {
  }

  // ---------------------------------------------------------------- dropdown

  /** One dropdown option per symbol key, labelled with the caption. */
  function OptionLabels(symbols: map<string, Entry>): (labels: map<string, string>)
    ensures labels.Keys == symbols.Keys
    ensures forall k :: k in labels ==> labels[k] == Caption(symbols[k].name, k)
  {
    map k | k in symbols :: Caption(symbols[k].name, k)
  }

  /** When no symbol contains '(', two different symbols never share a label. */
  lemma OptionLabelsDistinct(symbols: map<string, Entry>, k1: string, k2: string)
    requires k1 in symbols && k2 in symbols && k1 != k2
    requires '(' !in k1 && '(' !in k2
    ensures OptionLabels(symbols)[k1] != OptionLabels(symbols)[k2]
  {
    if OptionLabels(symbols)[k1] == OptionLabels(symbols)[k2] {
      CaptionDeterminesParts(symbols[k1].name, k1, symbols[k2].name, k2);
    }
  }

  /** `filterOption`: the lower-cased input occurs in the lower-cased label. */
  function FilterOption(input: string, caption: string): (pass: bool)
    ensures pass <==> IsSubstring(Lower(input), Lower(caption))
  {
    IndexOf(Lower(caption), Lower(input)) >= 0
  }

  /** The filter ignores the ASCII case of both the input and the label. */
  lemma FilterCaseInsensitive(input: string, caption: string)
    ensures FilterOption(Lower(input), caption) == FilterOption(input, caption)
    ensures FilterOption(input, Lower(caption)) == FilterOption(input, caption)
  {
    LowerIdempotent(input);
    LowerIdempotent(caption);
  }

  /** The symbols whose option the filter lets through. */
  function VisibleOptions(symbols: map<string, Entry>, input: string): (keys: set<string>)
    ensures keys <= symbols.Keys
    ensures forall k :: k in symbols ==>
      (k in keys <==> IsSubstring(Lower(input), Lower(OptionLabels(symbols)[k])))
  {
    set k | k in symbols && FilterOption(input, OptionLabels(symbols)[k])
  }

  /** The empty search text shows every option. */
  lemma EmptyInputShowsAll(symbols: map<string, Entry>)
    ensures VisibleOptions(symbols, "") == symbols.Keys
  {
  }

  // ---------------------------------------------------------------- prediction panel

  datatype Trend = Up | Down

  /** The panel's colour, glyph and percentage (before rounding). */
  datatype PredictionView = PredictionView(color: string, trend: Trend, percent: real)

  /** The panel for a prediction: up (green, caret up) only when strictly above 0.5. */
  function ViewPrediction(p: real): (v: PredictionView)
    ensures v.trend == Up <==> p > 0.5
    ensures v.color == (if v.trend == Up then UpColor else DownColor)
    ensures v.percent >= 50.0
    ensures 0.0 <= p <= 1.0 ==> v.percent <= 100.0
    ensures v.percent == 100.0 * p || v.percent == 100.0 * (1.0 - p)
  {
    var up := p > 0.5;
    PredictionView(if up then UpColor else DownColor, if up then Up else Down,
                   (if p >= 1.0 - p then p else 1.0 - p) * 100.0)
  }

  /** A prediction and its complement show the same confidence and, except at 0.5, opposite trends. */
  lemma ViewPredictionSymmetric(p: real)
    ensures ViewPrediction(p).percent == ViewPrediction(1.0 - p).percent
    ensures p != 0.5 ==> ViewPrediction(p).trend != ViewPrediction(1.0 - p).trend
  {
  }

  // ---------------------------------------------------------------- component state

  /** The component and its `this.state`. */
  class App {
    var loadingSymbols: bool
    var symbols: map<string, Entry>
    var loadingData: bool
    var chartOption: Option<ChartOption>
    var news: seq<string>
    var prediction: real

    /**
     * The symbol list is empty until it has loaded, a finished series load
     * always left a chart behind, and every chart is well formed.
     */
    ghost predicate Valid()
      reads this
    {
      && (loadingSymbols ==> symbols == map[])
      && (!loadingData ==> chartOption.Some?)
      && (chartOption.Some? ==> WellFormedOption(chartOption.value))
    }

    /** The initial state. */
    constructor ()
      ensures Valid()
      ensures loadingSymbols && symbols == map[] && loadingData
      ensures chartOption == None && news == [] && prediction == 0.5
    {
      loadingSymbols := true;
      symbols := map[];
      loadingData := true;
      chartOption := None;
      news := [];
      prediction := 0.5;
    }

    /**
     * The handler `componentDidMount` installs for the symbol list: store it,
     * then select the default symbol; returns that selection's request path.
     */
    method SymbolsLoaded(loaded: map<string, Entry>) returns (url: string)
      requires Valid()
      modifies this
      ensures Valid()
      ensures !loadingSymbols && symbols == loaded && loadingData
      ensures chartOption == old(chartOption) && news == old(news) && prediction == old(prediction)
      ensures url == SeriesUrl(DefaultSymbol)
    {
      loadingSymbols := false;
      symbols := loaded;
      url := UpdateData(DefaultSymbol);
    }

    /** `updateData(newSymbol)` up to its request: raise the data loading flag. */
    method UpdateData(newSymbol: string) returns (url: string)
      requires Valid()
      modifies this
      ensures Valid()
      ensures loadingData
      ensures loadingSymbols == old(loadingSymbols) && symbols == old(symbols)
      ensures chartOption == old(chartOption) && news == old(news) && prediction == old(prediction)
      ensures url == SeriesUrl(newSymbol)
    {
      loadingData := true;
      url := SeriesUrl(newSymbol);
    }

    /**
     * The handler `updateData` installs for the series reply: build the series,
     * wrap it in the chart option titled with the caption, and replace news,
     * prediction and chart while clearing the data loading flag.
     */
    method SeriesLoaded(newSymbol: string, res: SeriesPayload)
      requires Valid()
      modifies this
      ensures Valid()
      ensures !loadingData
      ensures chartOption == Some(GetOption(Caption(res.name, newSymbol), SeriesOf(res.prices)))
      ensures news == res.news && prediction == res.prediction
      ensures loadingSymbols == old(loadingSymbols) && symbols == old(symbols)
    {
      var data := BuildSeries(res.prices);
      var title := Caption(res.name, newSymbol);
      news := res.news;
      prediction := res.prediction;
      loadingData := false;
      chartOption := Some(GetOption(title, data));
    }

    /** The dropdown's options for the current state. */
    function Options(): (labels: map<string, string>)
      reads this
      ensures labels.Keys == symbols.Keys
      ensures loadingSymbols && Valid() ==> labels == map[]
    {
      OptionLabels(symbols)
    }

    /** The prediction panel for the current state. */
    function Panel(): (v: PredictionView)
      reads this
      ensures v.trend == Up <==> prediction > 0.5
    {
      ViewPrediction(prediction)
    }
  }
}

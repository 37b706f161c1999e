/**
 * The chart tools the agent may call: each builds a QuickChart
 * configuration (line, bar or pie) from its arguments and returns the chart
 * URL. JSON serialisation, base64 and URI-component encoding are kept
 * abstract as the fields of a `Codec`.
 */
module ChartTools {
  import opened Wrappers
  import Text

  /** The `encoding` URL option. */
  datatype Encoding = Url | Base64

  function EncodingName(e: Encoding): string {
    match e
    case Url => "url"
    case Base64 => "base64"
  }

  /** A colour `rgba(red, green, blue, alpha)`; alpha is kept as the literal text the source writes. */
  datatype Colour = Rgba(red: int, green: int, blue: int, alpha: string)

  datatype Dataset =
    | LineDataset(datasetLabel: string, data: seq<real>, borderColor: Colour, backgroundColor: Colour, fill: bool)
    | BarDataset(datasetLabel: string, data: seq<real>, backgroundColor: Colour, borderColor: Colour, borderWidth: nat)
    | PieDataset(data: seq<real>, backgroundColors: seq<Colour>)

  datatype Title = Title(display: bool, text: string)

  /** The `options` block; `beginAtZero` is absent for a pie, whose options have no `scales`. */
  datatype ChartOptions = ChartOptions(title: Title, responsive: bool, beginAtZero: Option<bool>)

  datatype ChartConfig = ChartConfig(kind: string, labels: seq<string>, datasets: seq<Dataset>, options: ChartOptions)

  /** `JSON.stringify`, the base64 of a string's bytes, and `encodeURIComponent`. */
  datatype Codec = Codec(
    stringify: ChartConfig -> string,
    base64: string -> string,
    encodeUriComponent: string -> string)

  /** The optional settings of `generateChartUrl`; an absent one takes its default. */
  datatype UrlOptions = UrlOptions(width: Option<nat>, height: Option<nat>, format: Option<string>, encoding: Option<Encoding>)

  /** The values that end up in a chart URL, in URL order. */
  datatype UrlParams = UrlParams(chart: string, width: nat, height: nat, format: string, encoding: Encoding)

  const NoOptions: UrlOptions := UrlOptions(None, None, None, None)
  const DefaultWidth: nat := 500
  const DefaultHeight: nat := 300
  const DefaultFormat: string := "png"
  const DefaultEncoding: Encoding := Base64
  const ChartUrlPrefix: string := "https://quickchart.io/chart?chart="

  function GetOr<T>(o: Option<T>, default: T): T {
    match o
    case Some(v) => v
    case None => default
  }

  /** The `chart` parameter: the base64 of the JSON for `Base64`, its URI-component encoding otherwise. */
  function ChartParam(config: ChartConfig, encoding: Encoding, codec: Codec): (r: string)
    ensures encoding == Base64 ==> r == codec.base64(codec.stringify(config))
    ensures encoding == Url ==> r == codec.encodeUriComponent(codec.stringify(config))
  {
    if encoding == Base64 then codec.base64(codec.stringify(config))
    else codec.encodeUriComponent(codec.stringify(config))
  }

  /** Resolves the options against their defaults and encodes the configuration. */
  function ChartUrlParams(config: ChartConfig, options: UrlOptions, codec: Codec): (p: UrlParams)
    ensures options.width.None? ==> p.width == DefaultWidth
    ensures options.height.None? ==> p.height == DefaultHeight
    ensures options.format.None? ==> p.format == DefaultFormat
    ensures options.encoding.None? ==> p.encoding == DefaultEncoding
    ensures options.width.Some? ==> p.width == options.width.value
    ensures options.height.Some? ==> p.height == options.height.value
    ensures options.format.Some? ==> p.format == options.format.value
    ensures options.encoding.Some? ==> p.encoding == options.encoding.value
    ensures p.chart == ChartParam(config, p.encoding, codec)
  {
    var encoding := GetOr(options.encoding, DefaultEncoding);
    UrlParams(
      ChartParam(config, encoding, codec),
      GetOr(options.width, DefaultWidth),
      GetOr(options.height, DefaultHeight),
      GetOr(options.format, DefaultFormat),
      encoding)
  }

  /** The URL text: prefix, chart, then width, height, format and encoding. */
  function RenderChartUrl(p: UrlParams): (url: string)
    ensures ChartUrlPrefix + p.chart <= url
  {
    ChartUrlPrefix + p.chart
    + "&width=" + Text.NatToDecimal(p.width)
    + "&height=" + Text.NatToDecimal(p.height)
    + "&format=" + p.format
    + "&encoding=" + EncodingName(p.encoding)
  }

  /** The part of a default-option URL that follows the chart parameter. */
  const DefaultUrlTail: string := "&width=500&height=300&format=png&encoding=base64"

  lemma DefaultSizeDecimals()
    ensures Text.NatToDecimal(DefaultWidth) == "500"
    ensures Text.NatToDecimal(DefaultHeight) == "300"
  {
  }

  /** The URL of `chart` with the default width, height, format and encoding. */
  lemma DefaultRender(chart: string)
    ensures RenderChartUrl(UrlParams(chart, DefaultWidth, DefaultHeight, DefaultFormat, DefaultEncoding))
      == ChartUrlPrefix + chart + DefaultUrlTail
  {
    DefaultSizeDecimals();
  }

  /**
   * `generateChartUrl(chartConfig, options)`: the URL starts with the prefix
   * and the encoded configuration; with no options it is exactly the base64
   * of the JSON followed by the default width, height, format and encoding.
   */
  function GenerateChartUrl(config: ChartConfig, options: UrlOptions, codec: Codec): (url: string)
    ensures ChartUrlPrefix + ChartParam(config, GetOr(options.encoding, DefaultEncoding), codec) <= url
    ensures options == NoOptions ==> url == ChartUrlPrefix + codec.base64(codec.stringify(config)) + DefaultUrlTail
  {
    DefaultRender(codec.base64(codec.stringify(config)));
    RenderChartUrl(ChartUrlParams(config, options, codec))
  }

  /** The value of a `key=value` segment for the given `key=` text. */
  function FieldValue(segment: string, key: string): Option<string> {
    if |key| <= |segment| && segment[..|key|] == key then Some(segment[|key|..]) else None
  }

  function ParseNat(s: string): Option<nat> {
    if s != [] && Text.IsDigits(s) then Some(Text.DecimalValue(s)) else None
  }

  function ParseEncoding(s: string): Option<Encoding> {
    if s == "url" then Some(Url) else if s == "base64" then Some(Base64) else None
  }

  /** Reads the parameters back out of a chart URL. */
  function ParseChartUrl(url: string): Option<UrlParams> {
    if |url| < |ChartUrlPrefix| || url[..|ChartUrlPrefix|] != ChartUrlPrefix then None
    else
      var parts := Text.Split(url[|ChartUrlPrefix|..], '&');
      if |parts| != 5 then None
      else
        var width := FieldValue(parts[1], "width=");
        var height := FieldValue(parts[2], "height=");
        var format := FieldValue(parts[3], "format=");
        var encoding := FieldValue(parts[4], "encoding=");
        if width.None? || height.None? || format.None? || encoding.None? then None
        else
          var w := ParseNat(width.value);
          var h := ParseNat(height.value);
          var e := ParseEncoding(encoding.value);
          if w.None? || h.None? || e.None? then None
          else Some(UrlParams(parts[0], w.value, h.value, format.value, e.value))
  }

  lemma FieldValueOf(key: string, value: string)
    ensures FieldValue(key + value, key) == Some(value)
  {
  }

  lemma ParseNatOf(n: nat)
    ensures ParseNat(Text.NatToDecimal(n)) == Some(n)
  {
    Text.DecimalRoundTrip(n);
  }

  /** The five `&`-separated pieces of a chart URL after its prefix. */
  function UrlParts(p: UrlParams): seq<string> {
    [ p.chart,
      "width=" + Text.NatToDecimal(p.width),
      "height=" + Text.NatToDecimal(p.height),
      "format=" + p.format,
      "encoding=" + EncodingName(p.encoding) ]
  }

  lemma JoinOfFive(a: string, b: string, c: string, d: string, e: string)
    ensures Text.Join([a, b, c, d, e], '&') == a + "&" + b + "&" + c + "&" + d + "&" + e
  {
    var parts := [a, b, c, d, e];
    assert parts[1..] == [b, c, d, e];
    assert [b, c, d, e][1..] == [c, d, e];
    assert [c, d, e][1..] == [d, e];
    assert [d, e][1..] == [e];
    assert Text.Join([e], '&') == e;
    var j4 := Text.Join([d, e], '&');
    assert j4 == d + ['&'] + Text.Join([e], '&');
    assert j4 == d + "&" + e;
    var j3 := Text.Join([c, d, e], '&');
    assert j3 == c + "&" + j4;
    assert j3 == c + "&" + d + "&" + e;
    var j2 := Text.Join([b, c, d, e], '&');
    assert j2 == b + "&" + j3;
    assert j2 == b + "&" + c + "&" + d + "&" + e;
    assert Text.Join(parts, '&') == a + "&" + j2;
  }

  /** The URL template, with its `&key=` separators, is the `&`-join of its `key=value` pieces. */
  lemma TemplateIsJoin(chart: string, w: string, h: string, f: string, e: string)
    ensures ChartUrlPrefix + chart + "&width=" + w + "&height=" + h + "&format=" + f + "&encoding=" + e
      == ChartUrlPrefix + Text.Join([chart, "width=" + w, "height=" + h, "format=" + f, "encoding=" + e], '&')
  {
    var b, c, d, g := "width=" + w, "height=" + h, "format=" + f, "encoding=" + e;
    JoinOfFive(chart, b, c, d, g);
    var x := ChartUrlPrefix + chart;
    assert "&width=" == "&" + "width=";
    assert x + ("&" + "width=") + w == x + "&" + b;
    var r1 := x + "&" + b;
    assert "&height=" == "&" + "height=";
    assert r1 + ("&" + "height=") + h == r1 + "&" + c;
    var r2 := r1 + "&" + c;
    assert "&format=" == "&" + "format=";
    assert r2 + ("&" + "format=") + f == r2 + "&" + d;
    var r3 := r2 + "&" + d;
    assert "&encoding=" == "&" + "encoding=";
    assert r3 + ("&" + "encoding=") + e == r3 + "&" + g;
    var j1 := chart + "&" + b;
    var j2 := j1 + "&" + c;
    var j3 := j2 + "&" + d;
    assert ChartUrlPrefix + j1 == x + "&" + b;
    assert ChartUrlPrefix + j2 == ChartUrlPrefix + j1 + "&" + c;
    assert ChartUrlPrefix + j3 == ChartUrlPrefix + j2 + "&" + d;
    assert ChartUrlPrefix + (j3 + "&" + g) == ChartUrlPrefix + j3 + "&" + g;
  }

  lemma RenderIsJoin(p: UrlParams)
    ensures RenderChartUrl(p) == ChartUrlPrefix + Text.Join(UrlParts(p), '&')
  {
    TemplateIsJoin(p.chart, Text.NatToDecimal(p.width), Text.NatToDecimal(p.height), p.format, EncodingName(p.encoding));
  }

  lemma UrlPartsHaveNoAmpersand(p: UrlParams)
    requires '&' !in p.chart && '&' !in p.format
    ensures forall k :: 0 <= k < |UrlParts(p)| ==> '&' !in UrlParts(p)[k]
  {
  }

  /** Parsing a prefixed URL whose query splits into the pieces of `p` gives back `p`. */
  lemma ParseOfParts(p: UrlParams, url: string)
    requires |url| >= |ChartUrlPrefix| && url[..|ChartUrlPrefix|] == ChartUrlPrefix
    requires Text.Split(url[|ChartUrlPrefix|..], '&') == UrlParts(p)
    ensures ParseChartUrl(url) == Some(p)
  {
    FieldValueOf("width=", Text.NatToDecimal(p.width));
    FieldValueOf("height=", Text.NatToDecimal(p.height));
    FieldValueOf("format=", p.format);
    FieldValueOf("encoding=", EncodingName(p.encoding));
    ParseNatOf(p.width);
    ParseNatOf(p.height);
  }

  /**
   * The URL determines its parameters: reading it back gives the chart
   * parameter, width, height, format and encoding it was built from, as
   * long as neither the chart parameter nor the format contains '&' (base64
   * and URI-component encodings never do).
   */
  lemma ChartUrlRoundTrip(p: UrlParams)
    requires '&' !in p.chart && '&' !in p.format
    ensures ParseChartUrl(RenderChartUrl(p)) == Some(p)
  {
    var url := RenderChartUrl(p);
    RenderIsJoin(p);
    assert url[..|ChartUrlPrefix|] == ChartUrlPrefix;
    assert url[|ChartUrlPrefix|..] == Text.Join(UrlParts(p), '&');
    UrlPartsHaveNoAmpersand(p);
    Text.SplitJoin(UrlParts(p), '&');
    ParseOfParts(p, url);
  }

  /**
   * Whatever the options, the generated URL reads back as the resolved
   * parameters, as long as neither the encoded chart nor the format contains '&'.
   */
  lemma GenerateChartUrlRoundTrip(config: ChartConfig, options: UrlOptions, codec: Codec)
    requires '&' !in ChartUrlParams(config, options, codec).chart
    requires '&' !in ChartUrlParams(config, options, codec).format
    ensures ParseChartUrl(GenerateChartUrl(config, options, codec)) == Some(ChartUrlParams(config, options, codec))
  {
    ChartUrlRoundTrip(ChartUrlParams(config, options, codec));
  }

  /** With no options the URL carries width 500, height 300, format png and the base64 of the JSON. */
  lemma DefaultChartUrl(config: ChartConfig, codec: Codec)
    requires '&' !in codec.base64(codec.stringify(config))
    ensures ParseChartUrl(GenerateChartUrl(config, NoOptions, codec))
      == Some(UrlParams(codec.base64(codec.stringify(config)), 500, 300, "png", Base64))
  {
    ChartUrlRoundTrip(ChartUrlParams(config, NoOptions, codec));
  }

  /**
   * `datasetLabels[i] || 'Dataset ' + (i + 1)`: the given label when it is
   * present and non-empty, otherwise a numbered fallback.
   */
  function DatasetLabel(datasetLabels: seq<string>, i: nat): (r: string)
    ensures r != ""
    ensures i < |datasetLabels| && datasetLabels[i] != "" ==> r == datasetLabels[i]
    ensures !(i < |datasetLabels| && datasetLabels[i] != "") ==> r == "Dataset " + Text.NatToDecimal(i + 1)
  {
    if i < |datasetLabels| && datasetLabels[i] != "" then datasetLabels[i]
    else "Dataset " + Text.NatToDecimal(i + 1)
  }

  /** Two series that both fall back get different legend labels. */
  lemma FallbackLabelsDistinct(datasetLabels: seq<string>, i: nat, j: nat)
    requires i != j
    requires !(i < |datasetLabels| && datasetLabels[i] != "")
    requires !(j < |datasetLabels| && datasetLabels[j] != "")
    ensures DatasetLabel(datasetLabels, i) != DatasetLabel(datasetLabels, j)
  {
    var prefix := "Dataset ";
    if DatasetLabel(datasetLabels, i) == DatasetLabel(datasetLabels, j) {
      var a := Text.NatToDecimal(i + 1);
      var b := Text.NatToDecimal(j + 1);
      assert (prefix + a)[|prefix|..] == a;
      assert (prefix + b)[|prefix|..] == b;
      Text.NatToDecimalInjective(i + 1, j + 1);
    }
  }

  /** The arguments of the line and bar tools (`labels`/`data` or `categories`/`values`). */
  datatype SeriesArgs = SeriesArgs(
    labels: seq<string>, data: seq<seq<real>>, datasetLabels: seq<string>, title: string, isStartZero: bool)

  datatype PieArgs = PieArgs(labels: seq<string>, sizes: seq<real>, title: string)

  function SeriesOptions(args: SeriesArgs): ChartOptions {
    ChartOptions(Title(true, args.title), true, Some(args.isStartZero))
  }

  /** The line-graph configuration: one dataset per series, coloured by its index. */
  function LineConfig(args: SeriesArgs): (c: ChartConfig)
    ensures c.kind == "line" && c.labels == args.labels
    ensures |c.datasets| == |args.data|
    ensures forall i :: 0 <= i < |args.data| ==>
      && c.datasets[i].LineDataset?
      && c.datasets[i].data == args.data[i]
      && c.datasets[i].datasetLabel == DatasetLabel(args.datasetLabels, i)
      && c.datasets[i].borderColor == Rgba(i * 50, 99, 132, "1")
      && c.datasets[i].backgroundColor == Rgba(i * 50, 99, 132, "0.2")
      && !c.datasets[i].fill
    ensures c.options.title == Title(true, args.title) && c.options.responsive
    ensures c.options.beginAtZero == Some(args.isStartZero)
  {
    ChartConfig(
      "line",
      args.labels,
      seq(|args.data|, i requires 0 <= i < |args.data| =>
        LineDataset(DatasetLabel(args.datasetLabels, i), args.data[i],
                    Rgba(i * 50, 99, 132, "1"), Rgba(i * 50, 99, 132, "0.2"), false)),
      SeriesOptions(args))
  }

  /** The bar-graph configuration: one dataset per series, with a border of width 1. */
  function BarConfig(args: SeriesArgs): (c: ChartConfig)
    ensures c.kind == "bar" && c.labels == args.labels
    ensures |c.datasets| == |args.data|
    ensures forall i :: 0 <= i < |args.data| ==>
      && c.datasets[i].BarDataset?
      && c.datasets[i].data == args.data[i]
      && c.datasets[i].datasetLabel == DatasetLabel(args.datasetLabels, i)
      && c.datasets[i].backgroundColor == Rgba(i * 50 + 50, 99 + i * 20, 132 - i * 30, "0.5")
      && c.datasets[i].borderColor == Rgba(i * 50 + 50, 99 + i * 20, 132 - i * 30, "1")
      && c.datasets[i].borderWidth == 1
    ensures c.options.title == Title(true, args.title) && c.options.responsive
    ensures c.options.beginAtZero == Some(args.isStartZero)
  {
    ChartConfig(
      "bar",
      args.labels,
      seq(|args.data|, i requires 0 <= i < |args.data| =>
        BarDataset(DatasetLabel(args.datasetLabels, i), args.data[i],
                   Rgba(i * 50 + 50, 99 + i * 20, 132 - i * 30, "0.5"),
                   Rgba(i * 50 + 50, 99 + i * 20, 132 - i * 30, "1"), 1)),
      SeriesOptions(args))
  }

  /** The pie configuration: a single dataset of the sizes, with one colour per label. */
  function PieConfig(args: PieArgs): (c: ChartConfig)
    ensures c.kind == "pie" && c.labels == args.labels
    ensures |c.datasets| == 1 && c.datasets[0].PieDataset?
    ensures c.datasets[0].data == args.sizes
    ensures |c.datasets[0].backgroundColors| == |args.labels|
    ensures forall i :: 0 <= i < |args.labels| ==> c.datasets[0].backgroundColors[i] == Rgba(i * 50, 99, 132, "0.2")
    ensures c.options.title == Title(true, args.title) && c.options.responsive
    ensures c.options.beginAtZero == None
  {
    ChartConfig(
      "pie",
      args.labels,
      [PieDataset(args.sizes, seq(|args.labels|, i requires 0 <= i < |args.labels| => Rgba(i * 50, 99, 132, "0.2")))],
      ChartOptions(Title(true, args.title), true, None))
  }

  /** The three chart tools, by the name and description the agent sees and the function they run. */
  datatype ChartKind = LineChart | BarChart | PieChart
  datatype ChartTool = ChartTool(name: string, description: string, kind: ChartKind)

  /** The arguments an agent passes to a tool: series for line and bar, slices for pie. */
  datatype ToolArgs = SeriesCall(series: SeriesArgs) | PieCall(pie: PieArgs)

  /**
   * What calling `tool` with `args` returns: the URL its `func` builds, or
   * nothing when the arguments do not fit the tool's schema.
   */
  function RunTool(tool: ChartTool, args: ToolArgs, codec: Codec): Option<string> {
    match (tool.kind, args)
    case (LineChart, SeriesCall(series)) => Some(LineGraphUrl(series, codec))
    case (BarChart, SeriesCall(series)) => Some(BarGraphUrl(series, codec))
    case (PieChart, PieCall(pie)) => Some(PieGraphUrl(pie, codec))
    case _ => None
  }

  function CreateLineGraph(): (tool: ChartTool)
    ensures tool.name == "create_line_graph"
    ensures forall series, codec :: RunTool(tool, SeriesCall(series), codec) == Some(LineGraphUrl(series, codec))
    ensures forall pie, codec :: RunTool(tool, PieCall(pie), codec) == None
  {
    ChartTool("create_line_graph", "Creates a line graph using the QuickChart API.", LineChart)
  }

  function CreateBarGraph(): (tool: ChartTool)
    ensures tool.name == "create_bar_graph"
    ensures forall series, codec :: RunTool(tool, SeriesCall(series), codec) == Some(BarGraphUrl(series, codec))
    ensures forall pie, codec :: RunTool(tool, PieCall(pie), codec) == None
  {
    ChartTool("create_bar_graph", "Creates a customizable bar graph using the QuickChart API.", BarChart)
  }

  function CreatePieGraph(): (tool: ChartTool)
    ensures tool.name == "create_pie_graph"
    ensures forall pie, codec :: RunTool(tool, PieCall(pie), codec) == Some(PieGraphUrl(pie, codec))
    ensures forall series, codec :: RunTool(tool, SeriesCall(series), codec) == None
  {
    ChartTool("create_pie_graph", "Creates a pie chart using the QuickChart API.", PieChart)
  }

  /** `getAllTools`: line, bar and pie, in that order, under distinct names. */
  function GetAllTools(): (tools: seq<ChartTool>)
    ensures |tools| == 3
    ensures tools[0].kind == LineChart && tools[1].kind == BarChart && tools[2].kind == PieChart
    ensures tools[0].name == "create_line_graph" && tools[1].name == "create_bar_graph"
      && tools[2].name == "create_pie_graph"
    ensures forall i, j :: 0 <= i < j < |tools| ==> tools[i].name != tools[j].name
  {
    [CreateLineGraph(), CreateBarGraph(), CreatePieGraph()]
  }

  /** What the line tool returns: the URL of its configuration with default options. */
  function LineGraphUrl(args: SeriesArgs, codec: Codec): (url: string)
    ensures url == ChartUrlPrefix + codec.base64(codec.stringify(LineConfig(args))) + DefaultUrlTail
  {
    GenerateChartUrl(LineConfig(args), NoOptions, codec)
  }

  /** What the bar tool returns: the URL of its configuration with default options. */
  function BarGraphUrl(args: SeriesArgs, codec: Codec): (url: string)
    ensures url == ChartUrlPrefix + codec.base64(codec.stringify(BarConfig(args))) + DefaultUrlTail
  {
    GenerateChartUrl(BarConfig(args), NoOptions, codec)
  }

  /** What the pie tool returns: the URL of its configuration with default options. */
  function PieGraphUrl(args: PieArgs, codec: Codec): (url: string)
    ensures url == ChartUrlPrefix + codec.base64(codec.stringify(PieConfig(args))) + DefaultUrlTail
  {
    GenerateChartUrl(PieConfig(args), NoOptions, codec)
  }
}

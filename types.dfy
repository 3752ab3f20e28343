/** The data model of types.ts: one slide, a presentation, and the status
    of the application. Optional TypeScript fields (`field?: T`) become
    `Option` fields; a JSON `null` in the same place reads as `None` too. */
module Types {

  /** An optional value: an absent field or a nullable state variable. */
  datatype Option<T> = None | Some(value: T)

  /** How an awaited call settles: with its value, or rejected with an error. */
  datatype Result<T, E> = Ok(value: T) | Err(error: E)

  /** The literal union `'bar' | 'pie' | 'line' | 'none'` of `chartType`;
      `NoChart` is the literal `'none'`. */
  datatype ChartType = Bar | Pie | Line | NoChart

  /** The string literal each chart type is written as. */
  function ChartTypeName(t: ChartType): string
  {
    match t
    case Bar => "bar"
    case Pie => "pie"
    case Line => "line"
    case NoChart => "none"
  }

  /** The declared union of `chartType`, stated as a reading of its literals:
      the union holds exactly the four names, and each names one type. The
      program itself never checks a `chartType` string at run time. */
  function ParseChartType(s: string): (r: Option<ChartType>)
    ensures r.Some? <==> s == "bar" || s == "pie" || s == "line" || s == "none"
    ensures r.Some? ==> ChartTypeName(r.value) == s
  {
    if s == "bar" then Some(Bar)
    else if s == "pie" then Some(Pie)
    else if s == "line" then Some(Line)
    else if s == "none" then Some(NoChart)
    else None
  }

  lemma ChartTypeRoundTrip(t: ChartType)
    ensures ParseChartType(ChartTypeName(t)) == Some(t)
  {
  }

  /** One category record of `chartData`: a name, a value and an optional
      second value. The numbers are JavaScript numbers in the source; only
      their presence and truthiness matter to the display rules. */
  datatype ChartRecord = ChartRecord(name: string, value: int, secondary: Option<int>)

  /** `SlideContent`: `id`, `title` and `bulletPoints` are required, every
      other field is optional. */
  datatype SlideContent = SlideContent(
    id: string,
    title: string,
    subtitle: Option<string>,
    bulletPoints: seq<string>,
    imagePrompt: Option<string>,
    chartType: Option<ChartType>,
    chartData: Option<seq<ChartRecord>>,
    footer: Option<string>)

  /** `PresentationData`: the slides in display order. */
  datatype PresentationData = PresentationData(slides: seq<SlideContent>)

  /** `AppStatus`, a string enum with four members. */
  datatype AppStatus = Idle | Generating | Viewing | Error

  /** The string value of each enum member. */
  function StatusName(s: AppStatus): string
  {
    match s
    case Idle => "IDLE"
    case Generating => "GENERATING"
    case Viewing => "VIEWING"
    case Error => "ERROR"
  }

  /** The declared enum, stated as a reading of its string values: it has
      exactly the four members. The program never parses these strings. */
  function ParseStatus(s: string): (r: Option<AppStatus>)
    ensures r.Some? <==> s == "IDLE" || s == "GENERATING" || s == "VIEWING" || s == "ERROR"
    ensures r.Some? ==> StatusName(r.value) == s
  {
    if s == "IDLE" then Some(Idle)
    else if s == "GENERATING" then Some(Generating)
    else if s == "VIEWING" then Some(Viewing)
    else if s == "ERROR" then Some(Error)
    else None
  }

  lemma StatusRoundTrip(s: AppStatus)
    ensures ParseStatus(StatusName(s)) == Some(s)
  {
  }

  /** JavaScript truthiness of an optional string: absent and `""` are falsy. */
  predicate Truthy(s: Option<string>)
  {
    s.Some? && s.value != ""
  }

  /** JavaScript truthiness of an optional number: absent and `0` are falsy. */
  predicate TruthyNumber(n: Option<int>)
  {
    n.Some? && n.value != 0
  }
}

/** The records the dashboard passes between its services and its screens. */
module Types {
  import opened Outcomes
  import opened JsBuiltins

  /** The spot price of one bitcoin in two currencies. */
  datatype PriceData = PriceData(usd: real, brl: real)

  /** One point of a metric's chart: a day label such as "D-3" and a value. */
  datatype ChartPoint = ChartPoint(name: string, value: JsNumber)

  /** What a metric card shows as its headline: either a string or a number. */
  datatype MetricValue = Text(text: string) | Number(number: real)

  /** One indicator on the dashboard; the chart history is optional. */
  datatype Metric = Metric(
    name: string,
    value: MetricValue,
    description: string,
    tooltip: string,
    historicalData: Option<seq<ChartPoint>>)

  /** One snapshot: the price block and the ordered list of metrics. */
  datatype DashboardData = DashboardData(price: PriceData, metrics: seq<Metric>)

  /** The advisor's verdict, with the string value each variant carries. */
  datatype Recommendation = Buy | Sell | Hold | Error {
    function Value(): string {
      match this
      case Buy => "BUY"
      case Sell => "SELL"
      case Hold => "HOLD"
      case Error => "ERROR"
    }
  }

  /** The variant whose string value is `s`, if there is one: the lookup a table keyed by the enum performs. */
  function RecommendationOf(s: string): (r: Option<Recommendation>)
    ensures r.Some? <==> s in {"BUY", "SELL", "HOLD", "ERROR"}
    ensures r.Some? ==> r.value.Value() == s
  {
    if s == "BUY" then Some(Buy)
    else if s == "SELL" then Some(Sell)
    else if s == "HOLD" then Some(Hold)
    else if s == "ERROR" then Some(Error)
    else None
  }

  /** Each variant is found again from its own string value, so the four values are distinct. */
  lemma RecommendationValueRoundTrip(r: Recommendation)
    ensures RecommendationOf(r.Value()) == Some(r)
  {
  }

  /**
   * The advisor's reply as the rest of the application stores it. The
   * recommendation is any string, not only one of the four values.
   */
  datatype AIRecommendation = AIRecommendation(recommendation: string, justification: string)
}

/**
 * Assembling one dashboard snapshot from the three public feeds (spot price,
 * Fear & Greed index, hash rate), and the synthetic chart series the other
 * metrics are drawn with.
 *
 * The network is not modelled: each feed arrives as a `Response` carrying its
 * HTTP `ok` flag and its decoded JSON body (missing when decoding failed).
 * Every `Math.random()` draw arrives as an input in `[0, 1)`.
 */
module DataService {
  import opened Outcomes
  import opened JsBuiltins
  import opened Types

  /** The one message every failure of the snapshot assembly is reported with. */
  const FetchFailureMessage := "Falha ao buscar dados reais. Verifique a conexão ou tente novamente mais tarde."

  /** The feed reports GH/s; the dashboard shows EH/s. */
  const HashRateDivisor: real := 1_000_000_000.0

  /** How many points each generated history has. */
  const GeneratedPoints: nat := 30

  /** The metric names, in the order the dashboard lists them. */
  const MetricNames: seq<string> := [
    "Fear & Greed Index", "Hash Rate", "MVRV Ratio",
    "Long Term Holder Supply", "Mayer Multiple", "Puell Multiple"]

  // ---------------------------------------------------------------------------
  // Inputs
  // ---------------------------------------------------------------------------

  /** One HTTP response: its `ok` flag and its JSON body, `None` when `response.json()` rejects. */
  datatype Response<T> = Response(ok: bool, body: Option<T>)

  /** The `bitcoin` object of the price feed. */
  datatype BitcoinQuote = BitcoinQuote(usd: real, brl: real)

  /** The price feed's body; its `bitcoin` field may be missing. */
  datatype PriceBody = PriceBody(bitcoin: Option<BitcoinQuote>)

  /** One day of the Fear & Greed feed; the feed sends the value as a string. */
  datatype FngEntry = FngEntry(value: string, valueClassification: string)

  /** The Fear & Greed feed's body: its `data` array, most recent day first, which may be missing. */
  datatype FngBody = FngBody(data: Option<seq<FngEntry>>)

  /** The draws one step of a generated history may use: the move, and the reset when the move is not positive. */
  datatype Draw = Draw(step: real, reset: real)

  /** Every random draw one snapshot uses. */
  datatype Randomness = Randomness(
    mvrv: real, mayer: real, puell: real, lthSupply: real,
    hashRateWalk: seq<Draw>, mvrvWalk: seq<Draw>, lthSupplyWalk: seq<Draw>,
    mayerWalk: seq<Draw>, puellWalk: seq<Draw>)

  /** What `Math.random()` returns. */
  predicate IsRandom(r: real) {
    0.0 <= r < 1.0
  }

  predicate ValidDraws(draws: seq<Draw>) {
    forall i :: 0 <= i < |draws| ==> IsRandom(draws[i].step) && IsRandom(draws[i].reset)
  }

  /** The four single draws are `Math.random()` values, and each history gets one pair of draws per point. */
  predicate ValidRandomness(rnd: Randomness) {
    && IsRandom(rnd.mvrv) && IsRandom(rnd.mayer) && IsRandom(rnd.puell) && IsRandom(rnd.lthSupply)
    && |rnd.hashRateWalk| == GeneratedPoints && ValidDraws(rnd.hashRateWalk)
    && |rnd.mvrvWalk| == GeneratedPoints && ValidDraws(rnd.mvrvWalk)
    && |rnd.lthSupplyWalk| == GeneratedPoints && ValidDraws(rnd.lthSupplyWalk)
    && |rnd.mayerWalk| == GeneratedPoints && ValidDraws(rnd.mayerWalk)
    && |rnd.puellWalk| == GeneratedPoints && ValidDraws(rnd.puellWalk)
  }

  // ---------------------------------------------------------------------------
  // Random values and generated histories
  // ---------------------------------------------------------------------------

  /** `Math.random() * width`: a draw in `[0, 1)` scales a positive width into `[0, width)`. */
  function Scale(r: real, width: real): (s: real)
    requires IsRandom(r) && width > 0.0
    ensures 0.0 <= s < width
  {
    assert (1.0 - r) * width > 0.0;
    assert (1.0 - r) * width == width - r * width;
    assert r > 0.0 ==> r * width > 0.0;
    r * width
  }

  /** `generateRandom(min, max)` before its two-decimal rounding: a value in `[min, max)`. */
  function GenerateRandom(r: real, min: real, max: real): (v: real)
    requires IsRandom(r) && min < max
    ensures min <= v < max
  {
    Scale(r, max - min) + min
  }

  /** The chart label of the day `n` days back. */
  function DayLabel(n: nat): string {
    "D-" + DecimalString(n)
  }

  /** A day label is "D-" followed by a number that parses back to the day count. */
  lemma DayLabelParses(n: nat)
    ensures var l := DayLabel(n);
            |l| > 2 && l[..2] == "D-" && ParseInt(l[2..]) == Num(n as real)
  {
    ParseIntOfDecimal(n);
    assert DayLabel(n)[2..] == DecimalString(n);
  }

  /** Different day counts give different labels. */
  lemma DayLabelInjective(m: nat, n: nat)
    requires DayLabel(m) == DayLabel(n)
    ensures m == n
  {
    assert DecimalString(m) == DayLabel(m)[2..];
    assert DecimalString(n) == DayLabel(n)[2..];
    DigitsValueOfDecimal(m);
    DigitsValueOfDecimal(n);
  }

  /** How far one step moves: `(Math.random() - 0.5) * base * volatility`. */
  function Move(base: real, volatility: real, d: Draw): real {
    (d.step - 0.5) * base * volatility
  }

  /** Where a step restarts when its move leaves a non-positive value: `base * (Math.random() * 0.1 + 0.95)`. */
  function Reset(base: real, d: Draw): (v: real)
    ensures base > 0.0 && IsRandom(d.reset) ==> base * 0.95 <= v < base * 1.05
  {
    var factor := d.reset * 0.1 + 0.95;
    assert base > 0.0 && IsRandom(d.reset) ==> 0.95 <= factor < 1.05;
    base * factor
  }

  /**
   * One step of the random walk: move, and when that leaves a non-positive
   * value, restart near `base`. With a positive base the new value is positive.
   */
  function Step(base: real, volatility: real, current: real, d: Draw): (next: real)
    ensures base > 0.0 && IsRandom(d.reset) ==> next > 0.0
  {
    var moved := current + Move(base, volatility, d);
    if moved <= 0.0 then Reset(base, d) else moved
  }

  /** The walk's values in the order they are produced, starting from `base`. */
  function Walk(base: real, volatility: real, draws: seq<Draw>): (values: seq<real>)
    ensures |values| == |draws|
  {
    if draws == [] then []
    else
      var previous := Walk(base, volatility, draws[..|draws| - 1]);
      var current := if previous == [] then base else previous[|previous| - 1];
      previous + [Step(base, volatility, current, draws[|draws| - 1])]
  }

  /** With a positive base, every value of the walk is positive. */
  lemma {:induction false} WalkPositive(base: real, volatility: real, draws: seq<Draw>)
    requires base > 0.0 && ValidDraws(draws)
    ensures forall k :: 0 <= k < |draws| ==> Walk(base, volatility, draws)[k] > 0.0
  {
    if draws != [] {
      var init := draws[..|draws| - 1];
      assert ValidDraws(init) by {
        forall i | 0 <= i < |init| ensures IsRandom(init[i].step) && IsRandom(init[i].reset) {
          assert init[i] == draws[i];
        }
      }
      WalkPositive(base, volatility, init);
    }
  }

  /** The points in the order the loop pushes them: the `i`-th is labelled `D-(points - i)`. */
  function PushedPoints(base: real, points: nat, volatility: real, draws: seq<Draw>): (pushed: seq<ChartPoint>)
    requires |draws| == points
    ensures |pushed| == points
    ensures forall i :: 0 <= i < points ==> pushed[i].name == DayLabel(points - i)
    ensures forall i :: 0 <= i < points ==> pushed[i].value == Num(Walk(base, volatility, draws)[i])
  {
    var values := Walk(base, volatility, draws);
    seq(points, i requires 0 <= i < points => ChartPoint(DayLabel(points - i), Num(values[i])))
  }

  /**
   * The series `generateHistoricalData(base, points, volatility)` returns:
   * exactly `points` entries, the one at position `j` labelled `D-(j + 1)`
   * and holding the walk value produced at step `points - 1 - j`.
   */
  function HistoricalData(base: real, points: nat, volatility: real, draws: seq<Draw>): (h: seq<ChartPoint>)
    requires |draws| == points
    ensures |h| == points
    ensures forall j :: 0 <= j < points ==>
              h[j] == ChartPoint(DayLabel(j + 1), Num(Walk(base, volatility, draws)[points - 1 - j]))
  {
    Reversed(PushedPoints(base, points, volatility, draws))
  }

  /** With a positive base, every generated value is a positive number. */
  lemma HistoricalDataPositive(base: real, points: nat, volatility: real, draws: seq<Draw>)
    requires |draws| == points && base > 0.0 && ValidDraws(draws)
    ensures forall j :: 0 <= j < points ==>
              HistoricalData(base, points, volatility, draws)[j].value.Num?
              && HistoricalData(base, points, volatility, draws)[j].value.x > 0.0
  {
    WalkPositive(base, volatility, draws);
  }

  /**
   * `generateHistoricalData`: the loop moves `currentValue` one draw at a time
   * and stores each point in turn, then the array is reversed in place.
   */
  method GenerateHistoricalData(base: real, points: nat, volatility: real, draws: seq<Draw>)
    returns (data: seq<ChartPoint>)
    requires |draws| == points
    ensures data == HistoricalData(base, points, volatility, draws)
  {
    var a := new ChartPoint[points];
    var currentValue := base;
    ghost var values: seq<real> := [];
    var i := 0;
    while i < points
      invariant 0 <= i <= points
      invariant values == Walk(base, volatility, draws[..i])
      invariant currentValue == if i == 0 then base else values[i - 1]
      invariant forall k :: 0 <= k < i ==> a[k] == ChartPoint(DayLabel(points - k), Num(values[k]))
    {
      ghost var next := Step(base, volatility, currentValue, draws[i]);
      currentValue := currentValue + Move(base, volatility, draws[i]);
      if currentValue <= 0.0 {
        currentValue := Reset(base, draws[i]);
      }
      assert currentValue == next;
      a[i] := ChartPoint(DayLabel(points - i), Num(currentValue));
      WalkExtend(base, volatility, draws, i);
      values := values + [currentValue];
      i := i + 1;
    }
    assert draws[..points] == draws;
    assert a[..] == PushedPoints(base, points, volatility, draws);
    ReverseInPlace(a);
    data := a[..];
  }

  /** Extending the draws by one appends the next step's value to the walk. */
  lemma WalkExtend(base: real, volatility: real, draws: seq<Draw>, i: nat)
    requires i < |draws|
    ensures var previous := Walk(base, volatility, draws[..i]);
            Walk(base, volatility, draws[..i + 1])
            == previous + [Step(base, volatility, if i == 0 then base else previous[i - 1], draws[i])]
  {
    assert draws[..i + 1][..i] == draws[..i];
  }

  // ---------------------------------------------------------------------------
  // Snapshot assembly
  // ---------------------------------------------------------------------------

  /** Hash rate in EH/s from the feed's GH/s: scaling back by the divisor gives the raw figure. */
  function HashRateEhs(ghs: real): (ehs: real)
    ensures ehs * HashRateDivisor == ghs
    ensures ghs > 0.0 ==> ehs > 0.0
  {
    ghs / HashRateDivisor
  }

  /** 500,000,000 GH/s is shown as 0.5 EH/s. */
  lemma HashRateExample()
    ensures HashRateEhs(500_000_000.0) == 0.5
  {
  }

  /**
   * The Fear & Greed history: the feed's entries mapped to points labelled by
   * their position, then reversed, so that position `j` of `n` holds the label
   * `D-(n - 1 - j)` and the integer parse of entry `n - 1 - j`.
   */
  function FngHistory(entries: seq<FngEntry>): (h: seq<ChartPoint>)
    ensures |h| == |entries|
    ensures forall j :: 0 <= j < |h| ==>
              h[j] == ChartPoint(DayLabel(|h| - 1 - j), ParseInt(entries[|h| - 1 - j].value))
  {
    Reversed(seq(|entries|, i requires 0 <= i < |entries| => ChartPoint(DayLabel(i), ParseInt(entries[i].value))))
  }

  /** The last point of the Fear & Greed history is `D-0`, taken from the feed's first entry. */
  lemma FngHistoryEndsToday(entries: seq<FngEntry>)
    requires |entries| > 0
    ensures var h := FngHistory(entries);
            h[|h| - 1] == ChartPoint("D-0", ParseInt(entries[0].value))
  {
  }

  // The descriptions and tooltips of the six metrics.
  const FngTooltip := "Mede o sentimento do mercado. 0 é 'Medo Extremo', 100 é 'Ganância Extrema'."
  const HashRateDescription := "Poder computacional da rede"
  const HashRateTooltip := "A taxa de hash crescente indica uma rede forte e segura, com mais mineradores participando."
  const MvrvDescription := "Valor de Mercado / Realizado"
  const MvrvTooltip := "Compara o valor de mercado com o valor realizado. >3.7 sugere topo, <1 sugere fundo."
  const LthSupplyDescription := "Fornecimento em posse de LTHs"
  const LthSupplyTooltip := "Percentual de moedas detidas por 'holders' de longo prazo, indicando convicção."
  const MayerDescription := "Preço / Média Móvel 200d"
  const MayerTooltip := "Múltiplo do preço atual em relação à média móvel de 200 dias. >2.4 historicamente indica sobrecompra."
  const PuellDescription := "Emissão diária / Média 365d"
  const PuellTooltip := "Relação entre a emissão diária de moedas e sua média móvel de 365 dias. >4 sugere topo, <0.5 sugere fundo."

  /**
   * The six metrics, in dashboard order. The first carries the current Fear &
   * Greed entry and its history; the other five carry a 30-point generated
   * history around their current value.
   */
  function Metrics(fngCurrent: FngEntry, fngHistory: seq<ChartPoint>, hashRateEhs: real,
                   rnd: Randomness, toFixed2: real -> string): (ms: seq<Metric>)
    requires ValidRandomness(rnd)
    ensures |ms| == |MetricNames|
    ensures forall i :: 0 <= i < |ms| ==> ms[i].name == MetricNames[i] && ms[i].historicalData.Some?
    ensures ms[0].value == Text(fngCurrent.value)
    ensures ms[0].description == fngCurrent.valueClassification
    ensures ms[0].historicalData == Some(fngHistory)
    ensures ms[1].value == Text(toFixed2(hashRateEhs) + " EH/s")
    ensures ms[1].historicalData == Some(HistoricalData(hashRateEhs, GeneratedPoints, 0.05, rnd.hashRateWalk))
    ensures forall i :: 1 <= i < |ms| ==> |ms[i].historicalData.value| == GeneratedPoints
  {
    var mvrvValue := GenerateRandom(rnd.mvrv, 1.8, 2.9);
    var mayerValue := GenerateRandom(rnd.mayer, 1.3, 1.9);
    var puellValue := GenerateRandom(rnd.puell, 1.5, 2.5);
    var lthSupplyValue := GenerateRandom(rnd.lthSupply, 83.0, 86.0);
    [
      Metric(MetricNames[0], Text(fngCurrent.value), fngCurrent.valueClassification, FngTooltip,
             Some(fngHistory)),
      Metric(MetricNames[1], Text(toFixed2(hashRateEhs) + " EH/s"), HashRateDescription, HashRateTooltip,
             Some(HistoricalData(hashRateEhs, GeneratedPoints, 0.05, rnd.hashRateWalk))),
      Metric(MetricNames[2], Text(toFixed2(mvrvValue)), MvrvDescription, MvrvTooltip,
             Some(HistoricalData(mvrvValue, GeneratedPoints, 0.1, rnd.mvrvWalk))),
      Metric(MetricNames[3], Text(toFixed2(lthSupplyValue) + "%"), LthSupplyDescription, LthSupplyTooltip,
             Some(HistoricalData(lthSupplyValue, GeneratedPoints, 0.01, rnd.lthSupplyWalk))),
      Metric(MetricNames[4], Text(toFixed2(mayerValue)), MayerDescription, MayerTooltip,
             Some(HistoricalData(mayerValue, GeneratedPoints, 0.15, rnd.mayerWalk))),
      Metric(MetricNames[5], Text(toFixed2(puellValue)), PuellDescription, PuellTooltip,
             Some(HistoricalData(puellValue, GeneratedPoints, 0.2, rnd.puellWalk)))
    ]
  }

  /** The three feeds answered ok and carried every field the assembly reads, with at least one Fear & Greed entry. */
  predicate FeedsUsable(price: Response<PriceBody>, fearAndGreed: Response<FngBody>, hashRate: Response<real>) {
    && price.ok && fearAndGreed.ok && hashRate.ok
    && price.body.Some? && price.body.value.bitcoin.Some?
    && fearAndGreed.body.Some? && fearAndGreed.body.value.data.Some? && |fearAndGreed.body.value.data.value| > 0
    && hashRate.body.Some?
  }

  /**
   * `fetchDashboardData`. Any not-ok status, any body that fails to decode, a
   * missing `bitcoin` or `data` field, or an empty Fear & Greed array (its
   * first entry is dereferenced) ends in the same single error. Otherwise the
   * snapshot copies the quoted prices, lists the six metrics, and shows the
   * hash rate in EH/s.
   */
  function FetchDashboardData(price: Response<PriceBody>, fearAndGreed: Response<FngBody>,
                              hashRate: Response<real>, rnd: Randomness,
                              toFixed2: real -> string): (r: Result<DashboardData, string>)
    requires ValidRandomness(rnd)
    ensures r.Err? ==> r.error == FetchFailureMessage
    ensures r.Ok? <==> FeedsUsable(price, fearAndGreed, hashRate)
    ensures !price.ok || !fearAndGreed.ok || !hashRate.ok ==> r.Err?
    ensures r.Ok? ==>
              var quote := price.body.value.bitcoin.value;
              var entries := fearAndGreed.body.value.data.value;
              && r.value.price == PriceData(quote.usd, quote.brl)
              && |r.value.metrics| == 6
              && (forall i :: 0 <= i < 6 ==> r.value.metrics[i].name == MetricNames[i])
              && r.value.metrics[0].value == Text(entries[0].value)
              && r.value.metrics[0].historicalData == Some(FngHistory(entries))
              && r.value.metrics[1].value == Text(toFixed2(HashRateEhs(hashRate.body.value)) + " EH/s")
  {
    if !price.ok || !fearAndGreed.ok || !hashRate.ok then
      Err(FetchFailureMessage)
    else if price.body.None? || fearAndGreed.body.None? || hashRate.body.None? then
      Err(FetchFailureMessage)
    else if price.body.value.bitcoin.None? || fearAndGreed.body.value.data.None? then
      Err(FetchFailureMessage)
    else
      var quote := price.body.value.bitcoin.value;
      var entries := fearAndGreed.body.value.data.value;
      if |entries| == 0 then
        Err(FetchFailureMessage)
      else
        var btcPrice := PriceData(quote.usd, quote.brl);
        var hashRateEhs := HashRateEhs(hashRate.body.value);
        Ok(DashboardData(btcPrice, Metrics(entries[0], FngHistory(entries), hashRateEhs, rnd, toFixed2)))
  }

  /** An empty Fear & Greed array fails the whole assembly, whatever the other feeds say. */
  lemma EmptyFearAndGreedFails(price: Response<PriceBody>, fearAndGreed: Response<FngBody>,
                               hashRate: Response<real>, rnd: Randomness, toFixed2: real -> string)
    requires ValidRandomness(rnd)
    requires fearAndGreed.body == Some(FngBody(Some([])))
    ensures FetchDashboardData(price, fearAndGreed, hashRate, rnd, toFixed2) == Err(FetchFailureMessage)
  {
  }

  /** Every metric of a snapshot has a history, and the five generated ones have 30 points each. */
  lemma SnapshotHistories(price: Response<PriceBody>, fearAndGreed: Response<FngBody>,
                          hashRate: Response<real>, rnd: Randomness, toFixed2: real -> string)
    requires ValidRandomness(rnd)
    requires FetchDashboardData(price, fearAndGreed, hashRate, rnd, toFixed2).Ok?
    ensures var ms := FetchDashboardData(price, fearAndGreed, hashRate, rnd, toFixed2).value.metrics;
            && (forall i :: 0 <= i < |ms| ==> ms[i].historicalData.Some?)
            && (forall i :: 1 <= i < |ms| ==> |ms[i].historicalData.value| == GeneratedPoints)
  {
  }

  /** With a positive hash rate, the generated hash-rate history holds only positive values. */
  lemma HashRateHistoryPositive(price: Response<PriceBody>, fearAndGreed: Response<FngBody>,
                                hashRate: Response<real>, rnd: Randomness, toFixed2: real -> string)
    requires ValidRandomness(rnd)
    requires FetchDashboardData(price, fearAndGreed, hashRate, rnd, toFixed2).Ok?
    requires hashRate.body.value > 0.0
    ensures var h := FetchDashboardData(price, fearAndGreed, hashRate, rnd, toFixed2).value.metrics[1].historicalData.value;
            forall j :: 0 <= j < |h| ==> h[j].value.Num? && h[j].value.x > 0.0
  {
    HistoricalDataPositive(HashRateEhs(hashRate.body.value), GeneratedPoints, 0.05, rnd.hashRateWalk);
  }
}

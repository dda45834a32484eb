/**
 * What the dashboard does with the language model's reply: it renders the
 * metric summary that goes into the prompt, strips Markdown code fences from
 * the reply, checks the two fields it needs, and reports failures with one of
 * two messages.
 *
 * The model call and `JSON.parse` are not modelled: the call's outcome is an
 * input, and the parser is a function parameter whose outcome is either a
 * parsed object or a `SyntaxError`.
 */
module GeminiService {
  import opened Outcomes
  import opened JsBuiltins
  import opened Types

  /** Thrown when the parsed reply misses a field; it never reaches the caller. */
  const MissingFieldsMessage := "Resposta da IA em formato inválido."

  /** What the caller sees when the reply is not valid JSON. */
  const InvalidFormatMessage := "A IA retornou uma resposta em formato inválido. Tente novamente."

  /** What the caller sees for every other failure. */
  const UnavailableMessage := "Não foi possível obter a análise da IA. Por favor, tente novamente."

  // ---------------------------------------------------------------------------
  // The metric summary of the prompt
  // ---------------------------------------------------------------------------

  /** A metric's value as a template literal shows it; how a number is written is a parameter. */
  function ValueText(v: MetricValue, numberText: real -> string): string {
    match v
    case Text(s) => s
    case Number(x) => numberText(x)
  }

  /** The summary line of one metric: `- name: value (tooltip)`. */
  function SummaryLine(m: Metric, numberText: real -> string): string {
    "- " + m.name + ": " + ValueText(m.value, numberText) + " (" + m.tooltip + ")"
  }

  /** The metric summary: the metrics' lines, in order, separated by single newlines. */
  function MetricsSummary(metrics: seq<Metric>, numberText: real -> string): (r: string)
    ensures r == "" <==> |metrics| == 0
    ensures |metrics| > 0 ==> StartsWith(r, SummaryLine(metrics[0], numberText))
  {
    Join(seq(|metrics|, i requires 0 <= i < |metrics| => SummaryLine(metrics[i], numberText)), "\n")
  }

  /** True when no field a summary line shows contains a line break. */
  predicate SingleLine(m: Metric, numberText: real -> string) {
    '\n' !in m.name && '\n' !in ValueText(m.value, numberText) && '\n' !in m.tooltip
  }

  /**
   * Splitting the summary at its line breaks gives back exactly one line per
   * metric, in metric order, when no metric field contains a line break: there
   * is no trailing newline and no blank line.
   */
  lemma SummaryLines(metrics: seq<Metric>, numberText: real -> string)
    requires |metrics| > 0
    requires forall i :: 0 <= i < |metrics| ==> SingleLine(metrics[i], numberText)
    ensures var lines := Split(MetricsSummary(metrics, numberText), '\n');
            && |lines| == |metrics|
            && forall i :: 0 <= i < |metrics| ==> lines[i] == SummaryLine(metrics[i], numberText)
  {
    var lines := seq(|metrics|, i requires 0 <= i < |metrics| => SummaryLine(metrics[i], numberText));
    forall i | 0 <= i < |lines| ensures '\n' !in lines[i] {
      assert SingleLine(metrics[i], numberText);
    }
    SplitJoin(lines, '\n');
  }

  /** An empty metric list gives an empty summary. */
  lemma EmptySummary(numberText: real -> string)
    ensures MetricsSummary([], numberText) == ""
  {
  }

  // ---------------------------------------------------------------------------
  // Cleaning the reply text
  // ---------------------------------------------------------------------------

  /**
   * Removing Markdown fences from the trimmed reply. A text that starts with
   * "```json" loses 7 leading and 3 trailing characters, one that starts with
   * a bare "```" loses 3 and 3, and the rest is trimmed; the trailing three go
   * whether or not they are a fence, so a short fenced text becomes empty. Any
   * other text is left as it is.
   */
  function StripFences(text: string): (r: string)
    ensures !StartsWith(text, "```") ==> r == text
    ensures StartsWith(text, "```json") ==>
              r == if |text| > 10 then Trim(text[7..|text| - 3]) else ""
    ensures StartsWith(text, "```") && !StartsWith(text, "```json") ==>
              r == if |text| > 6 then Trim(text[3..|text| - 3]) else ""
  {
    if StartsWith(text, "```json") then
      var inner := Slice(text, 7, -3);
      assert inner == if |text| > 10 then text[7..|text| - 3] else [];
      Trim(inner)
    else if StartsWith(text, "```") then
      var inner := Slice(text, 3, -3);
      assert inner == if |text| > 6 then text[3..|text| - 3] else [];
      Trim(inner)
    else text
  }

  /** The text handed to the JSON parser: the reply trimmed, then stripped of its fences. */
  function CleanReply(reply: string): (r: string)
    ensures IsTrimmed(r)
    ensures !StartsWith(Trim(reply), "```") ==> r == Trim(reply)
  {
    StripFences(Trim(reply))
  }

  /** Whitespace around the reply does not change what reaches the parser. */
  lemma CleanReplyIgnoresSurroundingWhitespace(reply: string)
    ensures CleanReply(Trim(reply)) == CleanReply(reply)
  {
    TrimIdempotent(reply);
  }

  /** A reply wrapped in a "```json" fence comes out as its trimmed body. */
  lemma CleanJsonFenced(body: string)
    ensures CleanReply("```json" + body + "```") == Trim(body)
  {
    var t := "```json" + body + "```";
    assert t[0] == '`' && t[|t| - 1] == '`';
    assert IsTrimmed(t);
    assert t[..7] == "```json";
    assert |body| > 0 ==> t[7..|t| - 3] == body;
  }

  /** A reply wrapped in a bare "```" fence comes out as its trimmed body, when the body does not itself start with "json". */
  lemma CleanBareFenced(body: string)
    requires !StartsWith(body, "json")
    ensures CleanReply("```" + body + "```") == Trim(body)
  {
    var t := "```" + body + "```";
    assert t[0] == '`' && t[|t| - 1] == '`';
    assert IsTrimmed(t);
    assert t[..3] == "```";
    BareFenceIsNotJsonFence(body);
    assert |body| > 0 ==> t[3..|t| - 3] == body;
  }

  /** Wrapping a body that does not start with "json" in bare fences does not produce a "```json" prefix. */
  lemma BareFenceIsNotJsonFence(body: string)
    requires !StartsWith(body, "json")
    ensures !StartsWith("```" + body + "```", "```json")
  {
    var t := "```" + body + "```";
    if |body| >= 4 {
      assert t[3..7] == body[..4];
      assert t[..7][3..] == t[3..7];
    } else if |t| >= 7 {
      assert t[..7][3 + |body|] == t[3 + |body|] == '`';
    }
  }

  /** A reply that, once trimmed, does not start with a fence reaches the parser exactly as trimmed. */
  lemma CleanUnfenced(reply: string)
    requires !StartsWith(Trim(reply), "```")
    ensures CleanReply(reply) == Trim(reply)
  {
  }

  // ---------------------------------------------------------------------------
  // Validating the parsed reply
  // ---------------------------------------------------------------------------

  /** A JSON value as far as the validation looks at it; arrays and objects are `Composite`. */
  datatype JsValue = Undefined | Null | Bool(b: bool) | JsNum(x: real) | Str(s: string) | Composite

  /** JavaScript truthiness: false, 0, "", null and undefined are falsy, everything else is truthy. */
  predicate Truthy(v: JsValue) {
    match v
    case Undefined => false
    case Null => false
    case Bool(b) => b
    case JsNum(x) => x != 0.0
    case Str(s) => s != ""
    case Composite => true
  }

  /** The two fields the validation reads from the parsed reply; a missing field is `Undefined`. */
  datatype ParsedReply = ParsedReply(recommendation: JsValue, justification: JsValue)

  /** What `JSON.parse` does with the cleaned text. */
  datatype ParseOutcome = Parsed(reply: ParsedReply) | SyntaxError

  /**
   * The outcome of the model call: a failure, which may itself be a
   * `SyntaxError` (the client decoding a malformed body), or a response whose
   * `text` may be missing.
   */
  datatype ModelResponse = CallFailed(syntaxError: bool) | Responded(text: Option<string>)

  /** What the `try` block can throw. */
  datatype Thrown = ThrownSyntaxError | ThrownError(message: string)

  /** Accept a parsed reply only when both fields are truthy; the recommendation is not checked against the four values. */
  function ValidateReply(p: ParsedReply): (r: Result<ParsedReply, Thrown>)
    ensures r.Ok? <==> Truthy(p.recommendation) && Truthy(p.justification)
    ensures r.Ok? ==> r.value == p
    ensures r.Err? ==> r.error == ThrownError(MissingFieldsMessage)
  {
    if Truthy(p.recommendation) && Truthy(p.justification) then Ok(p)
    else Err(ThrownError(MissingFieldsMessage))
  }

  /** True when some step of the `try` block throws a `SyntaxError`: the model call itself, or parsing the cleaned text. */
  predicate RaisesSyntaxError(response: ModelResponse, parse: string -> ParseOutcome) {
    || (response.CallFailed? && response.syntaxError)
    || (response.Responded? && response.text.Some? && parse(CleanReply(response.text.value)).SyntaxError?)
  }

  /** The `try` block: call the model, read the text, clean it, parse it, validate it. */
  function AnalysisAttempt(response: ModelResponse, parse: string -> ParseOutcome): (r: Result<ParsedReply, Thrown>)
    ensures r == Err(ThrownSyntaxError) <==> RaisesSyntaxError(response, parse)
    ensures r.Ok? ==> response.Responded? && response.text.Some?
                      && parse(CleanReply(response.text.value)) == Parsed(r.value)
  {
    match response
    case CallFailed(true) => Err(ThrownSyntaxError)
    case CallFailed(false) => Err(ThrownError("model call failed"))
    case Responded(None) => Err(ThrownError("text is undefined"))
    case Responded(Some(text)) =>
      match parse(CleanReply(text))
      case SyntaxError => Err(ThrownSyntaxError)
      case Parsed(p) => ValidateReply(p)
  }

  /**
   * `getBitcoinAnalysis` after the model call. It succeeds exactly when the
   * cleaned reply parses to an object with two truthy fields, and returns that
   * object. A `SyntaxError` from any step of the attempt gives the
   * invalid-format message; every other failure, the missing-field one
   * included, gives the generic message.
   */
  function GetBitcoinAnalysis(response: ModelResponse, parse: string -> ParseOutcome): (r: Result<ParsedReply, string>)
    ensures r.Ok? <==>
              && response.Responded? && response.text.Some?
              && parse(CleanReply(response.text.value)).Parsed?
              && Truthy(parse(CleanReply(response.text.value)).reply.recommendation)
              && Truthy(parse(CleanReply(response.text.value)).reply.justification)
    ensures r.Ok? ==> r.value == parse(CleanReply(response.text.value)).reply
    ensures r.Err? ==> r.error in {InvalidFormatMessage, UnavailableMessage}
    ensures r.Err? ==> (r.error == InvalidFormatMessage <==> RaisesSyntaxError(response, parse))
  {
    match AnalysisAttempt(response, parse)
    case Ok(p) => Ok(p)
    case Err(ThrownSyntaxError) => Err(InvalidFormatMessage)
    case Err(ThrownError(_)) => Err(UnavailableMessage)
  }

  /** A reply missing a field surfaces as the generic message, never as the missing-field one. */
  lemma MissingFieldIsGeneric(response: ModelResponse, parse: string -> ParseOutcome)
    requires response.Responded? && response.text.Some?
    requires parse(CleanReply(response.text.value)).Parsed?
    requires !Truthy(parse(CleanReply(response.text.value)).reply.justification)
    ensures GetBitcoinAnalysis(response, parse) == Err(UnavailableMessage)
  {
  }

  /** Any non-empty recommendation string with a non-empty justification is accepted, whether or not it is BUY, SELL or HOLD. */
  lemma AnyRecommendationAccepted(recommendation: string, justification: string)
    requires recommendation != "" && justification != ""
    ensures ValidateReply(ParsedReply(Str(recommendation), Str(justification))).Ok?
  {
  }
}

/**
 * The advisor panel: which verdict, label and justification it shows for the
 * stored recommendation, and when it shows the loading placeholder instead.
 * Colours and icons follow the verdict and are not modelled separately.
 */
module AIAdvisor {
  import opened Outcomes
  import opened JsBuiltins
  import opened Types

  /** The verdict a recommendation string selects: its upper-cased form looked up among the four values, `Error` when it is none of them. */
  function Classify(recommendation: string): (r: Recommendation)
    ensures r != Error ==> r.Value() == ToUpper(recommendation)
    ensures r == Error <==> ToUpper(recommendation) !in {"BUY", "SELL", "HOLD"}
  {
    match RecommendationOf(ToUpper(recommendation))
    case Some(v) => v
    case None => Error
  }

  /** Strings that agree once upper-cased select the same verdict. */
  lemma ClassifyCaseInsensitive(a: string, b: string)
    requires ToUpper(a) == ToUpper(b)
    ensures Classify(a) == Classify(b)
  {
  }

  /** Upper-casing the string first does not change the verdict. */
  lemma ClassifyUpperCased(s: string)
    ensures Classify(ToUpper(s)) == Classify(s)
  {
    ToUpperIdempotent(s);
    ClassifyCaseInsensitive(ToUpper(s), s);
  }

  /** A string without lower-case ASCII letters is its own upper-case form. */
  lemma ToUpperOfUpper(s: string)
    requires forall i :: 0 <= i < |s| ==> !('a' <= s[i] <= 'z')
    ensures ToUpper(s) == s
  {
  }

  /** Each verdict's own value selects that verdict. */
  lemma ClassifyValue(r: Recommendation)
    ensures Classify(r.Value()) == r
  {
  }

  /** The lower-case and capitalised spellings select the same verdicts as the upper-case ones. */
  lemma ClassifyOtherSpellings()
    ensures Classify("buy") == Buy && Classify("Buy") == Buy
    ensures Classify("sell") == Sell && Classify("Sell") == Sell
    ensures Classify("hold") == Hold && Classify("Hold") == Hold
  {
  }

  /** The Portuguese word shown for each verdict. */
  function Label(r: Recommendation): string {
    match r
    case Buy => "COMPRAR"
    case Sell => "VENDER"
    case Hold => "MANTER"
    case Error => "ERRO"
  }

  /** Different verdicts show different words. */
  lemma LabelInjective(a: Recommendation, b: Recommendation)
    requires Label(a) == Label(b)
    ensures a == b
  {
  }

  /**
   * The word the panel shows for a recommendation string: the label of the
   * verdict it selects. Each of the three advice words appears exactly for
   * its value, in any letter case; everything else shows "ERRO".
   */
  function DisplayedLabel(recommendation: string): (word: string)
    ensures word == "COMPRAR" <==> ToUpper(recommendation) == "BUY"
    ensures word == "VENDER" <==> ToUpper(recommendation) == "SELL"
    ensures word == "MANTER" <==> ToUpper(recommendation) == "HOLD"
    ensures word == "ERRO" <==> ToUpper(recommendation) !in {"BUY", "SELL", "HOLD"}
  {
    Label(Classify(recommendation))
  }

  /** What the panel shows: the loading placeholder, or a card with the verdict, its label and the justification. */
  datatype AdvisorPanel =
    | LoadingPlaceholder
    | RecommendationCard(verdict: Recommendation, text: string, justification: string)

  /**
   * The panel for the stored recommendation. The placeholder is shown exactly
   * while the analysis is loading or there is no recommendation; otherwise
   * the card shows the classified verdict and the justification as received.
   */
  function Panel(recommendation: Option<AIRecommendation>, isLoading: bool): (p: AdvisorPanel)
    ensures p.LoadingPlaceholder? <==> isLoading || recommendation.None?
    ensures p.RecommendationCard? ==>
              && p.verdict == Classify(recommendation.value.recommendation)
              && p.text == DisplayedLabel(recommendation.value.recommendation)
              && p.justification == recommendation.value.justification
  {
    if isLoading || recommendation.None? then LoadingPlaceholder
    else
      var verdict := Classify(recommendation.value.recommendation);
      RecommendationCard(verdict, Label(verdict), recommendation.value.justification)
  }
}

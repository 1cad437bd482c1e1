/** The interactive form's verdict styler: a case-sensitive risk test picks one
    of two fixed HTML wrappers, and the verdict text goes between the wrapper's
    opening and closing tags unchanged. */
module Styling {
  import opened Text
  import opened Dicts

  /** Opening tag and icon of the high-risk wrapper (a warning sign, U+26A0 U+FE0F). */
  const HighPrefix: string := "<div class=\"prediction-high\">\U{26A0}\U{FE0F} "
  /** Opening tag and icon of the low-risk wrapper (a check mark, U+2705). */
  const LowPrefix: string := "<div class=\"prediction-low\">\U{2705} "
  /** Closing tag shared by both wrappers. */
  const Suffix: string := "</div>"

  /** The two markers whose presence selects the high-risk wrapper. */
  const WillChurn: string := "Will CHURN"
  const HighRiskMarker: string := "High Risk"

  /** `"Will CHURN" in result or "High Risk" in result`. */
  predicate HighRisk(result: string): (high: bool)
    ensures high <==> exists i: nat ::
                        OccursAt(result, WillChurn, i) || OccursAt(result, HighRiskMarker, i)
  {
    ContainsIff(result, WillChurn);
    ContainsIff(result, HighRiskMarker);
    Contains(result, WillChurn) || Contains(result, HighRiskMarker)
  }

  /** The body of `predict_with_styling` after the prediction: the wrapped verdict. */
  function Style(result: string): (html: string)
    ensures |html| == |result| + |Suffix| + if HighRisk(result) then |HighPrefix| else |LowPrefix|
    ensures html[|html| - |Suffix|..] == Suffix
    ensures (HighPrefix <= html) != (LowPrefix <= html)
  {
    assert HighPrefix[23] == 'h' && LowPrefix[23] == 'l';
    if HighRisk(result) then HighPrefix + result + Suffix
    else LowPrefix + result + Suffix
  }

  /** Reads a styled verdict back: which wrapper it carries (true for high
      risk) and the text between the wrapper's tags. */
  function Unstyle(html: string): Option<(bool, string)>
  {
    if |HighPrefix| + |Suffix| <= |html| && HighPrefix <= html && html[|html| - |Suffix|..] == Suffix then
      Some((true, html[|HighPrefix|..|html| - |Suffix|]))
    else if |LowPrefix| + |Suffix| <= |html| && LowPrefix <= html && html[|html| - |Suffix|..] == Suffix then
      Some((false, html[|LowPrefix|..|html| - |Suffix|]))
    else
      None
  }

  /** Styling is lossless: unwrapping the styled verdict gives back the
      verdict text exactly, together with the risk classification. */
  lemma StyleRoundTrip(result: string)
    ensures Unstyle(Style(result)) == Some((HighRisk(result), result))
  {
    var html := Style(result);
    assert html[|html| - |Suffix|..] == Suffix;
    if HighRisk(result) {
      assert html[|HighPrefix|..|html| - |Suffix|] == result;
    } else {
      // the two prefixes part at the first letter of "high" / "low"
      assert html[23] == LowPrefix[23] == 'l' != HighPrefix[23];
      assert !(HighPrefix <= html);
      assert html[|LowPrefix|..|html| - |Suffix|] == result;
    }
  }

  /** The high-risk wrapper is chosen exactly when one of the two markers
      occurs somewhere in the verdict text; otherwise the low-risk one is. */
  lemma StyleChoice(result: string)
    ensures HighPrefix <= Style(result) <==>
              exists i: nat :: OccursAt(result, WillChurn, i) || OccursAt(result, HighRiskMarker, i)
    ensures LowPrefix <= Style(result) <==> !(HighPrefix <= Style(result))
  {
    ContainsIff(result, WillChurn);
    ContainsIff(result, HighRiskMarker);
    var html := Style(result);
    assert HighPrefix[23] == 'h' && LowPrefix[23] == 'l';
    if HighRisk(result) {
      assert html[23] == 'h';
    } else {
      assert html[23] == 'l';
    }
  }

  /** Any verdict in which a marker appears, wherever it appears, gets the
      high-risk wrapper around the whole verdict. */
  lemma MarkerStyledHigh(pre: string, marker: string, post: string)
    requires marker == WillChurn || marker == HighRiskMarker
    ensures Style(pre + marker + post) == HighPrefix + (pre + marker + post) + Suffix
  {
    ContainsInfix(pre, marker, post);
  }

  /** The test is case-sensitive: the verdicts the API documents,
      "Likely to churn" and "Not likely to churn", both get the low-risk wrapper. */
  lemma DocumentedVerdictsStyledLow(result: string)
    requires result == "Likely to churn" || result == "Not likely to churn"
    ensures Style(result) == LowPrefix + result + Suffix
  {
    NoMarker(result);
  }

  /** A verdict with neither a 'W' nor an 'H' cannot contain either marker. */
  lemma NoMarker(result: string)
    requires 'W' !in result && 'H' !in result
    ensures !HighRisk(result)
  {
    if Contains(result, WillChurn) {
      ContainsFirstChar(result, WillChurn);
    }
    if Contains(result, HighRiskMarker) {
      ContainsFirstChar(result, HighRiskMarker);
    }
  }
}

/** The two pure pieces of the research tools: the clamp of the search result count,
    and summarising a text by collapsing its whitespace and truncating it. */
module Research {
  import opened JsText

  /** `Math.min(hi, Math.max(lo, x))`. */
  function Clamp(lo: int, hi: int, x: int): int
    requires lo <= hi
  {
    if x < lo then lo else if x > hi then hi else x
  }

  /** The number of results `researchSearch` asks for:
      `Math.min(20, Math.max(1, parseInt(String(numResults), 10) || 5))`. From 10^21 on,
      `String` writes an exponent and `parseInt` reads only its first digit. */
  function SearchCount(numResults: int): (r: int)
    ensures 1 <= r <= 20
    ensures numResults == 0 ==> r == 5
    ensures 1 <= numResults <= 20 ==> r == numResults
    ensures numResults < 0 ==> r == 1
    ensures 20 < numResults < ExponentFrom ==> r == 20
    ensures numResults >= ExponentFrom ==> r == LeadingDigit(numResults)
  {
    ParsedOrOfNumberToString(numResults, 5);
    Clamp(1, 20, ParsedOr(NumberToString(numResults), 5))
  }

  /** The effective summary length:
      `Math.min(2000, Math.max(100, parseInt(String(maxLength), 10) || 500))`. */
  function SummaryLimit(maxLength: int): (r: int)
    ensures 100 <= r <= 2000
    ensures maxLength == 0 ==> r == 500
    ensures 100 <= maxLength <= 2000 ==> r == maxLength
    ensures maxLength != 0 && maxLength < 100 ==> r == 100
    ensures 2000 < maxLength < ExponentFrom ==> r == 2000
    ensures maxLength >= ExponentFrom ==> r == 100
  {
    ParsedOrOfNumberToString(maxLength, 500);
    Clamp(100, 2000, ParsedOr(NumberToString(maxLength), 500))
  }

  /** `researchSummarize(text, maxLength)`: the text with every whitespace run collapsed
      to one space and trimmed, cut to the limit with "..." appended when it is longer. */
  function Summarize(text: string, maxLength: int): (r: string)
    ensures Normalized(r)
    ensures var max, cleaned := SummaryLimit(maxLength), CollapseTrim(text);
      && |r| <= max + 3
      && (|cleaned| <= max ==> r == cleaned)
      && (|cleaned| > max ==> |r| == max + 3 && r == cleaned[..max] + "...")
  {
    var max := SummaryLimit(maxLength);
    var cleaned := CollapseTrim(text);
    if |cleaned| <= max then cleaned
    else
      TruncatedIsNormalized(cleaned, max);
      cleaned[..max] + "..."
  }

  /** Cutting a normalized text after its first character and appending "..." leaves it
      normalized: no space is added next to another, and the ends are not spaces. */
  lemma TruncatedIsNormalized(cleaned: string, max: nat)
    requires Normalized(cleaned) && 0 < max < |cleaned|
    ensures Normalized(cleaned[..max] + "...")
  {
    var head, r := cleaned[..max], cleaned[..max] + "...";
    SingleSpacedSlice(cleaned, 0, max);
    assert r[0] == cleaned[0];
    forall i | 0 <= i < |r| && IsSpace(r[i]) ensures r[i] == ' ' {
      assert i < max && r[i] == head[i];
    }
    forall i | 0 <= i < |r| - 1 ensures !IsSpace(r[i]) || !IsSpace(r[i + 1]) {
      if i + 1 < max {
        assert r[i] == head[i] && r[i + 1] == head[i + 1];
      } else {
        assert r[i + 1] == '.';
      }
    }
  }

  /** Summarising a summary again with the same limit changes nothing, whether or not
      the first call truncated. */
  lemma {:induction false} SummarizeIdempotent(text: string, maxLength: int)
    ensures Summarize(Summarize(text, maxLength), maxLength) == Summarize(text, maxLength)
  {
    var max, cleaned := SummaryLimit(maxLength), CollapseTrim(text);
    var r := Summarize(text, maxLength);
    NormalizedIsFixpoint(r);
    if |cleaned| > max {
      assert r == cleaned[..max] + "...";
      assert r[..max] == cleaned[..max];
    }
  }

  /** A text that is already normalized and within the limit is returned unchanged. */
  lemma ShortNormalizedUnchanged(text: string, maxLength: int)
    requires Normalized(text) && |text| <= SummaryLimit(maxLength)
    ensures Summarize(text, maxLength) == text
  {
    NormalizedIsFixpoint(text);
  }
}

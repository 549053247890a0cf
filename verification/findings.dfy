/**
 * Findings as the scanner reports them and the client shows them, and the
 * severity tier the result list derives from a finding's recommendation text.
 */
module Findings {
  import opened Strings

  /** One reported issue. The description and the recommendation may be missing. */
  datatype Finding = Finding(name: string, description: Option<string>, recommendation: Option<string>)

  datatype Severity = High | Medium | Low

  /** The decision of the severity badge: a case-insensitive search for "high",
      then for "medium"; every other text, "" included, is Low. */
  function Classify(text: string): Severity
  {
    var t := Lower(text);
    if Includes(t, "high") then High
    else if Includes(t, "medium") then Medium
    else Low
  }

  /** The badge shown beside a finding: its recommendation, or "" when it has none. */
  function SeverityOf(v: Finding): Severity
  {
    Classify(Or(v.recommendation, ""))
  }

  /** The lower-case `word` matches `text` from position `i`, ignoring the case of `text`. */
  ghost predicate MentionsAt(text: string, word: string, i: int)
  {
    0 <= i && i + |word| <= |text| &&
    forall k :: 0 <= k < |word| ==> LowerChar(text[i + k]) == word[k]
  }

  ghost predicate Mentions(text: string, word: string)
  {
    exists i :: MentionsAt(text, word, i)
  }

  lemma MentionsIffIncludes(text: string, word: string)
    ensures Mentions(text, word) <==> Includes(Lower(text), word)
  {
    var t := Lower(text);
    IncludesIffOccurs(t, word);
    forall i | OccursAt(t, word, i)
      ensures MentionsAt(text, word, i)
    {
      forall k | 0 <= k < |word| ensures LowerChar(text[i + k]) == word[k] {
        assert t[i..i + |word|][k] == t[i + k];
      }
    }
    forall i | MentionsAt(text, word, i)
      ensures OccursAt(t, word, i)
    {
      assert forall k :: 0 <= k < |word| ==> t[i..i + |word|][k] == word[k];
    }
  }

  /** The classification, stated by position: High exactly when "high" appears
      in any case; Medium exactly when "medium" does and "high" does not; Low
      when neither does. So "high" wins when both words occur. */
  lemma ClassifyMeaning(text: string)
    ensures Classify(text) == High <==> Mentions(text, "high")
    ensures Classify(text) == Medium <==> !Mentions(text, "high") && Mentions(text, "medium")
    ensures Classify(text) == Low <==> !Mentions(text, "high") && !Mentions(text, "medium")
  {
    MentionsIffIncludes(text, "high");
    MentionsIffIncludes(text, "medium");
  }

  /** The tier does not depend on how the letters A to Z of the text are cased. */
  lemma ClassifyIgnoresCase(text: string)
    ensures Classify(Upper(text)) == Classify(text)
    ensures Classify(Lower(text)) == Classify(text)
  {
    LowerForgetsCase(text);
  }

  /** Worked case: an upper-case "HIGH" is High. */
  lemma ClassifyUpperHigh()
    ensures Classify("HIGH risk") == High
  {
    assert MentionsAt("HIGH risk", "high", 0);
    ClassifyMeaning("HIGH risk");
  }

  /** Worked case: a mixed-case "Medium" without "high" is Medium. */
  lemma ClassifyMixedMedium()
    ensures Classify("Medium risk") == Medium
  {
    var t := Lower("Medium risk");
    assert t == "medium risk";
    assert t[..6] == "medium";
    assert Includes(t, "medium");
    MissingCharExcludes(t, "high", 0);
  }

  /** Worked cases: the empty text and a missing recommendation are Low. */
  lemma ClassifyEmptyIsLow()
    ensures Classify("") == Low
    ensures SeverityOf(Finding("Missing CSP header", None, None)) == Low
  {
  }

  /** Worked case: "high" wins over "medium". */
  lemma ClassifyHighWins()
    ensures Classify("medium, maybe high") == High
  {
    assert MentionsAt("medium, maybe high", "high", 14);
    ClassifyMeaning("medium, maybe high");
  }
}

/**
 * The requests to the generative-AI service: the remediation prompt built from
 * the findings of a scan, the fix-check prompt of the playground, and the
 * extraction of the answer from the service's reply, which falls back to a
 * fixed text instead of failing.
 */
module Remediation {
  import opened Strings
  import opened Findings

  // The reply as `await res.json()` shapes it; only the path to the answer matters.
  datatype Part = Part(text: Option<string>)
  datatype Content = Content(parts: Option<seq<Part>>)
  datatype Candidate = Candidate(content: Option<Content>)

  /** The outcome of one request: the fetch or `res.json()` threw, or reading
      `.candidates` threw on a JSON `null` body; or the body parsed into a tree
      that may or may not carry candidates. The status code is never read, so a
      failing status with a JSON body is a parsed reply. */
  datatype Reply = Threw | Parsed(candidates: Option<seq<Candidate>>)

  /** `data.candidates?.[0]?.content?.parts?.[0]?.text` */
  function FirstText(reply: Reply): Option<string>
  {
    if reply.Parsed? && reply.candidates.Some? && |reply.candidates.value| > 0 then
      var content := reply.candidates.value[0].content;
      if content.Some? && content.value.parts.Some? && |content.value.parts.value| > 0 then
        content.value.parts.value[0].text
      else None
    else None
  }

  /** The text a caller receives: the first candidate's first part when that is a
      non-empty text, `noText` for any other well-formed reply, and `failed` when
      the request threw. */
  function Answer(reply: Reply, noText: string, failed: string): (r: string)
    ensures reply.Threw? ==> r == failed
    ensures reply.Parsed? ==> (r == noText <==> FirstText(reply) in {None, Some(""), Some(noText)})
    ensures reply.Parsed? && r != noText ==> FirstText(reply) == Some(r)
    ensures noText != "" && failed != "" ==> r != ""
  {
    if reply.Threw? then failed else Or(FirstText(reply), noText)
  }

  // ---------------------------------------------------------------- remediation

  const NoSuggestions := "\U{26A0}\U{FE0F} Gemini returned no suggestions."
  const SuggestionsFailed := "\U{274C} Failed to fetch Gemini response."

  /** The remediation text of a scan: never empty, whatever the service does. */
  function Suggestion(reply: Reply): (r: string)
    ensures r != ""
    ensures reply.Threw? ==> r == SuggestionsFailed
  {
    Answer(reply, NoSuggestions, SuggestionsFailed)
  }

  /** The prompt line of the `n`-th finding, counting from 1. */
  function FindingLine(n: nat, v: Finding): string
  {
    Decimal(n) + ". " + v.name + ": " + Or(v.description, "No description")
    + " \U{2014} Recommendation: " + Or(v.recommendation, "None")
  }

  function PromptLines(vs: seq<Finding>): seq<string>
  {
    seq(|vs|, i requires 0 <= i < |vs| => FindingLine(i + 1, vs[i]))
  }

  const PromptHead := "\nYou are a cybersecurity expert.\nBelow is a list of vulnerabilities:\n"
  const PromptTail := "\nGive detailed explanations, fixes, and code/config if applicable.\n"

  /** The prompt sent with the findings of a scan. */
  function SuggestionPrompt(vs: seq<Finding>): string
  {
    PromptHead + Join(PromptLines(vs), "\n") + PromptTail
  }

  /** Each line opens with its number, which reads back as the finding's
      position counted from 1, and carries the defaults for missing fields. */
  lemma FindingLineNumbered(vs: seq<Finding>, k: nat)
    requires k < |vs|
    ensures |PromptLines(vs)| == |vs|
    ensures StartsWith(PromptLines(vs)[k], Decimal(k + 1) + ". " + vs[k].name + ": ")
    ensures ParseDecimal(Decimal(k + 1)) == k + 1
    ensures vs[k].description in {None, Some("")} ==>
      Includes(PromptLines(vs)[k], "No description")
    ensures vs[k].recommendation in {None, Some("")} ==>
      StartsWith(PromptLines(vs)[k], Decimal(k + 1) + ". " + vs[k].name + ": " + Or(vs[k].description, "No description") + " \U{2014} Recommendation: None")
  {
    DecimalRoundTrip(k + 1);
    var line := PromptLines(vs)[k];
    var head := Decimal(k + 1) + ". " + vs[k].name + ": ";
    assert line[..|head|] == head;
    if vs[k].description in {None, Some("")} {
      var tail := " \U{2014} Recommendation: " + Or(vs[k].recommendation, "None");
      assert line == head + "No description" + tail;
      IncludesMiddle(head, "No description", tail);
    }
  }

  /** The prompt lists every finding on its own numbered line. */
  lemma PromptListsEveryFinding(vs: seq<Finding>, k: nat)
    requires k < |vs|
    ensures Includes(SuggestionPrompt(vs), FindingLine(k + 1, vs[k]))
  {
    var lines := PromptLines(vs);
    var i := JoinPosition(lines, "\n", k);
    OccursInside(PromptHead, Join(lines, "\n"), PromptTail, lines[k], i);
  }

  // ---------------------------------------------------------------- fix check

  const NoVerdict := "No AI response."
  const VerdictFailed := "\U{274C} Error validating fix."

  /** The playground's answer to a fix check: never empty. */
  function Verdict(reply: Reply): (r: string)
    ensures r != ""
    ensures reply.Threw? ==> r == VerdictFailed
  {
    Answer(reply, NoVerdict, VerdictFailed)
  }

  const FixHead := "You are a web security expert. A user provided the following fix for a vulnerability.\n\nVulnerability: "
  const FixTail := "\n\nIs this fix effective? Respond with:\n\U{2705} Yes - if it works, or \U{274C} No - if it does not. Add one short reason."

  /** The prompt of a fix check for finding `v` and the user's `code`. */
  function FixPrompt(v: Finding, code: string): string
  {
    FixHead + v.name + "\n\nDescription: " + Interpolate(v.description)
    + "\n\nFix Attempt:\n" + code + FixTail
  }

  /** The fix-check prompt quotes the finding's name, its description and the
      user's code verbatim. */
  lemma FixPromptQuotes(v: Finding, code: string)
    ensures Includes(FixPrompt(v, code), v.name)
    ensures Includes(FixPrompt(v, code), Interpolate(v.description))
    ensures Includes(FixPrompt(v, code), code)
  {
    QuotesSlots(FixHead, v.name, "\n\nDescription: ", Interpolate(v.description),
      "\n\nFix Attempt:\n", code, FixTail);
  }

  /** A text built from fixed pieces and three slots contains each slot. */
  lemma QuotesSlots(h: string, x: string, m1: string, y: string, m2: string, z: string, t: string)
    ensures Includes(h + x + m1 + y + m2 + z + t, x)
    ensures Includes(h + x + m1 + y + m2 + z + t, y)
    ensures Includes(h + x + m1 + y + m2 + z + t, z)
  {
    var p := h + x + m1 + y + m2 + z + t;
    assert p == h + x + (m1 + y + m2 + z + t);
    IncludesMiddle(h, x, m1 + y + m2 + z + t);
    assert p == (h + x + m1) + y + (m2 + z + t);
    IncludesMiddle(h + x + m1, y, m2 + z + t);
    assert p == (h + x + m1 + y + m2) + z + t;
    IncludesMiddle(h + x + m1 + y + m2, z, t);
  }
}

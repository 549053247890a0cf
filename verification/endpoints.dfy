/**
 * The two scan endpoints. The serverless handler (api/scan.js) answers only
 * POST requests with a URL that starts with "http" and runs a quick scan; the
 * development server's route (server/index.js) only requires a URL and runs a
 * full scan. Both normalise the scanner's findings the same way and turn a
 * scanner failure into a 500 response. The scanner itself is an input: what it
 * returned, or the error it threw.
 */
module ScanEndpoints {
  import opened Strings
  import opened Findings

  /** The options object passed to the scanner. */
  datatype ScanOptions = ScanOptions(
    scanModules: seq<string>,
    timeout: nat,
    verbose: Option<bool>,
    depth: nat,
    concurrency: nat,
    disableCrawler: bool,
    userAgent: string,
    headers: seq<(string, string)>)

  /** The serverless profile: header and TLS checks only, short timeout, no crawling. */
  const QuickProfile := ScanOptions(["headers", "ssl"], 3000, None, 1, 3, true,
    "CustomScanner/1.0", [("X-Test-Header", "demo")])

  /** The server profile: adds the XSS module, a long timeout, verbose output and crawling. */
  const FullProfile := ScanOptions(["xss", "headers", "ssl"], 30000, Some(true), 1, 5, false,
    "CustomScanner/1.0", [("X-Test-Header", "demo")])

  /** What the scanner did: threw an error (whose message may be missing), or
      returned its list of findings. */
  datatype ScanOutcome = Failed(message: Option<string>) | Returned(vulnerabilities: seq<Finding>)

  /** The JSON body of a response; a missing field is one the body does not carry. */
  datatype Body = Body(success: Option<bool>, message: Option<string>,
                       vulnerabilities: Option<seq<Finding>>, error: Option<string>)

  datatype Response = Response(status: int, body: Body)

  datatype ScanCall = ScanCall(url: string, options: ScanOptions)

  /** One request as an endpoint handles it: the scanner call it makes, if any,
      and the response it sends. */
  datatype Exchange = Exchange(call: Option<ScanCall>, response: Response)

  const NoRecommendation := "No recommendation"

  /** The finding as the endpoints send it: name and description copied, and a
      missing or empty recommendation replaced by a default. */
  function Normalise(v: Finding): (r: Finding)
    ensures r.name == v.name && r.description == v.description
    ensures r.recommendation.Some? && r.recommendation.value != ""
    ensures v.recommendation.Some? && v.recommendation.value != "" ==> r.recommendation == v.recommendation
    ensures v.recommendation in {None, Some("")} ==> r.recommendation == Some(NoRecommendation)
  {
    Finding(v.name, v.description, Some(Or(v.recommendation, NoRecommendation)))
  }

  /** `results.vulnerabilities.map(...)`: the same findings in the same order. */
  function NormaliseAll(vs: seq<Finding>): (r: seq<Finding>)
    ensures |r| == |vs|
    ensures forall i :: 0 <= i < |vs| ==> r[i] == Normalise(vs[i])
  {
    seq(|vs|, i requires 0 <= i < |vs| => Normalise(vs[i]))
  }

  /** The response to a scan that ran: 200 with the normalised findings, or 500
      with `failure` and the error's message. */
  function Respond(outcome: ScanOutcome, failure: string): Response
  {
    match outcome
    case Returned(vs) => Response(200, Body(Some(true), None, Some(NormaliseAll(vs)), None))
    case Failed(m) => Response(500, Body(Some(false), Some(failure), None, m))
  }

  const OnlyPost := "Only POST requests allowed"
  const InvalidUrl := "Invalid or missing URL"
  const QuickFailed := "Scan failed due to timeout or error"

  /** The serverless handler of api/scan.js. */
  function QuickScan(verb: string, url: Option<string>, outcome: ScanOutcome): (x: Exchange)
    ensures x.response.status == 405 <==> verb != "POST"
    ensures x.response.status == 405 ==> x.response.body == Body(None, Some(OnlyPost), None, None)
    ensures x.response.status == 400 <==>
      verb == "POST" && (url.None? || !StartsWith(url.value, "http"))
    ensures x.response.status == 400 ==> x.response.body == Body(Some(false), Some(InvalidUrl), None, None)
    ensures x.call.Some? <==> verb == "POST" && url.Some? && StartsWith(url.value, "http")
    ensures x.call.Some? ==> x.call.value == ScanCall(url.value, QuickProfile)
    ensures x.response.status == 200 <==> x.call.Some? && outcome.Returned?
    ensures x.response.status == 200 ==>
      x.response.body == Body(Some(true), None, Some(NormaliseAll(outcome.vulnerabilities)), None)
    ensures x.response.status == 500 <==> x.call.Some? && outcome.Failed?
    ensures x.response.status == 500 ==>
      x.response.body == Body(Some(false), Some(QuickFailed), None, outcome.message)
  {
    if verb != "POST" then
      Exchange(None, Response(405, Body(None, Some(OnlyPost), None, None)))
    else if url.None? || url.value == "" || !StartsWith(url.value, "http") then
      Exchange(None, Response(400, Body(Some(false), Some(InvalidUrl), None, None)))
    else
      Exchange(Some(ScanCall(url.value, QuickProfile)), Respond(outcome, QuickFailed))
  }

  const MissingUrl := "Missing URL"
  const FullFailed := "Scanner failed"

  /** The `/api/scan` route of server/index.js; it is registered for POST only. */
  function FullScan(url: Option<string>, outcome: ScanOutcome): (x: Exchange)
    ensures x.response.status == 400 <==> url in {None, Some("")}
    ensures x.response.status == 400 ==> x.response.body == Body(Some(false), Some(MissingUrl), None, None)
    ensures x.call.Some? <==> url.Some? && url.value != ""
    ensures x.call.Some? ==> x.call.value == ScanCall(url.value, FullProfile)
    ensures x.response.status == 200 <==> x.call.Some? && outcome.Returned?
    ensures x.response.status == 200 ==>
      x.response.body == Body(Some(true), None, Some(NormaliseAll(outcome.vulnerabilities)), None)
    ensures x.response.status == 500 <==> x.call.Some? && outcome.Failed?
    ensures x.response.status == 500 ==>
      x.response.body == Body(Some(false), Some(FullFailed), None, outcome.message)
  {
    if url.None? || url.value == "" then
      Exchange(None, Response(400, Body(Some(false), Some(MissingUrl), None, None)))
    else
      Exchange(Some(ScanCall(url.value, FullProfile)), Respond(outcome, FullFailed))
  }

  // ---------------------------------------------------------------- properties

  /** Normalising twice changes nothing more. */
  lemma NormaliseIdempotent(vs: seq<Finding>)
    ensures NormaliseAll(NormaliseAll(vs)) == NormaliseAll(vs)
  {
  }

  /** The default recommendation does not change the severity badge: a missing
      recommendation and "No recommendation" are both Low. */
  lemma NormaliseKeepsSeverity(v: Finding)
    ensures SeverityOf(Normalise(v)) == SeverityOf(v)
  {
    if v.recommendation in {None, Some("")} {
      DefaultRecommendationIsLow();
      ClassifyEmptyIsLow();
      assert Or(v.recommendation, "") == "";
      assert Or(Normalise(v).recommendation, "") == NoRecommendation;
    }
  }

  lemma DefaultRecommendationIsLow()
    ensures Classify(NoRecommendation) == Low
  {
    var t := Lower(NoRecommendation);
    assert 'h' !in t by {
      LowerKeepsAbsent(NoRecommendation, 'h');
    }
    assert 'u' !in t by {
      LowerKeepsAbsent(NoRecommendation, 'u');
    }
    MissingCharExcludes(t, "high", 0);
    MissingCharExcludes(t, "medium", 4);
  }

  /** The quick handler accepts any text that starts with the four letters
      "http", not only http: and https: URLs. */
  lemma QuickScanPrefixOnly(outcome: ScanOutcome)
    ensures QuickScan("POST", Some("httpx"), outcome).call == Some(ScanCall("httpx", QuickProfile))
    ensures QuickScan("POST", Some("ftp://example.com"), outcome).response.status == 400
  {
    assert "ftp://example.com"[..4][0] != "http"[0];
  }

  /** Every request the quick handler scans, the server route scans too, with
      its own profile; a URL without the prefix shows that the converse fails. */
  lemma QuickStricterThanFull(url: Option<string>, outcome: ScanOutcome)
    ensures QuickScan("POST", url, outcome).call.Some? ==>
      FullScan(url, outcome).call == Some(ScanCall(url.value, FullProfile))
    ensures FullScan(Some("example.com"), outcome).call.Some?
    ensures QuickScan("POST", Some("example.com"), outcome).call.None?
  {
    if url.Some? && StartsWith(url.value, "http") {
      assert url.value != "";
    }
    assert "example.com"[..4][0] != "http"[0];
  }

  /** When both endpoints scan and the scanner returns, they send the same
      response; when it fails, they differ only in the message. */
  lemma EndpointsAgree(url: string, outcome: ScanOutcome)
    requires StartsWith(url, "http")
    ensures outcome.Returned? ==>
      QuickScan("POST", Some(url), outcome).response == FullScan(Some(url), outcome).response
    ensures outcome.Failed? ==>
      QuickScan("POST", Some(url), outcome).response.body.(message := Some(FullFailed))
      == FullScan(Some(url), outcome).response.body
  {
  }
}

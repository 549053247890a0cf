/**
 * The scanner page (src/App.jsx) as a state machine: the URL field, the
 * loading flag, the findings and remediation text on show, the error banner,
 * the scan history and its persisted copy under the storage key "scanHistory".
 * Every setter of the page is an assignment to a field; the answers of the
 * scan endpoint and of the AI service are inputs.
 */
module ScanClient {
  import opened Strings
  import opened Findings
  import opened Remediation
  import opened HistoryList
  import opened ScanEndpoints

  /** What the page gets back from `fetch("/api/scan")`: the fetch or the body
      read threw, the body is not JSON, or it parsed into an object. */
  datatype ScanReply =
    | FetchThrew(message: Option<string>)
    | NotJson(text: string)
    | Json(success: bool, message: Option<string>, vulnerabilities: seq<Finding>)

  /** The reply the page reads from an endpoint's response. The status code is
      not looked at; only a `success` of true counts as success. */
  function FromResponse(resp: Response): ScanReply
  {
    Json(resp.body.success == Some(true), resp.body.message,
         if resp.body.vulnerabilities.Some? then resp.body.vulnerabilities.value else [])
  }

  const NonJsonPrefix := "Non-JSON response: "
  const ScanFailedText := "Scan failed"
  const ServerErrorText := "Server error"

  /** The fields a submission leaves behind, and the data it records in the
      history, if any. */
  datatype Settled = Settled(error: Option<string>, suggestions: string,
                             vulnerabilities: seq<Finding>, recorded: Option<ScanData>)

  /** The outcome of a submission: a success shows and records the findings with
      the remediation text; every other reply shows a non-empty error and
      nothing else. */
  function Settle(reply: ScanReply, ai: Reply): (s: Settled)
    ensures s.recorded.Some? <==> reply.Json? && reply.success
    ensures s.error.None? <==> s.recorded.Some?
    ensures s.error.Some? ==> s.error.value != "" && s.suggestions == "" && s.vulnerabilities == []
    ensures s.recorded.Some? ==>
      s.vulnerabilities == reply.vulnerabilities && s.suggestions == Suggestion(ai) && s.suggestions != ""
      && s.recorded.value == ScanData(Some(reply.vulnerabilities), s.suggestions)
    ensures reply.FetchThrew? ==> s.error == Some(Or(reply.message, ServerErrorText))
    ensures reply.NotJson? ==> s.error == Some(NonJsonPrefix + reply.text)
    ensures reply.Json? && !reply.success ==> s.error == Some(Or(reply.message, ScanFailedText))
  {
    match reply
    case FetchThrew(m) => Settled(Some(Or(m, ServerErrorText)), "", [], None)
    case NotJson(text) => Settled(Some(NonJsonPrefix + text), "", [], None)
    case Json(success, m, vs) =>
      if success then
        var text := Suggestion(ai);
        Settled(None, text, vs, Some(ScanData(Some(vs), text)))
      else Settled(Some(Or(m, ScanFailedText)), "", [], None)
  }

  /** The history the page shows after loading `persisted`: a missing key loads
      as the empty list, and the list is put in high-first order. */
  function Loaded(persisted: Option<seq<Entry>>): (h: seq<Entry>)
    ensures persisted.None? ==> h == []
    ensures persisted.Some? ==> multiset(h) == multiset(persisted.value)
    ensures forall i, j :: 0 <= i < j < |h| && HasHigh(h[j]) ==> HasHigh(h[i])
  {
    var h := if persisted.Some? then persisted.value else [];
    SortHighFirstPermutes(h);
    SortHighFirstOrdered(h);
    SortHighFirst(h)
  }

  class App {
    var url: string
    var loading: bool
    var vulnerabilities: seq<Finding>
    var suggestions: string
    var error: Option<string>
    var history: seq<Entry>
    /** The copy under the key "scanHistory"; None when the key is absent. */
    var stored: Option<seq<Entry>>

    /** The page as first rendered, over whatever the storage holds. */
    constructor(persisted: Option<seq<Entry>>)
      ensures url == "" && !loading && vulnerabilities == [] && suggestions == "" && error.None?
      ensures history == [] && stored == persisted
    {
      url := "";
      loading := false;
      vulnerabilities := [];
      suggestions := "";
      error := None;
      history := [];
      stored := persisted;
    }

    /** The URL input. */
    method SetUrl(u: string)
      modifies this`url
      ensures url == u
    {
      url := u;
    }

    /** The mount effect: reads the persisted list and shows it high-first. The
        sorted order is not written back. */
    method LoadHistory()
      modifies this`history
      ensures history == Loaded(stored)
      ensures stored.Some? ==> multiset(history) == multiset(stored.value)
    {
      history := Loaded(stored);
    }

    /** Puts a scan in front, drops the earlier scan of the same URL, keeps at
        most ten, and persists the new list. */
    method AddToHistory(u: string, d: ScanData, timestamp: string)
      modifies this`history, this`stored
      ensures history == Added(old(history), u, d, timestamp)
      ensures stored == Some(history)
      ensures 1 <= |history| <= Capacity && history[0] == Entry(u, Some(d), timestamp)
      ensures forall i :: 1 <= i < |history| ==> history[i].url != u
      ensures history[1..] == WithoutUrl(old(history), u)[..|history| - 1]
      ensures UniqueUrls(old(history)) ==> UniqueUrls(history)
    {
      AddedShape(history, u, d, timestamp);
      if UniqueUrls(history) {
        AddedKeepsUnique(history, u, d, timestamp);
      }
      history := Added(history, u, d, timestamp);
      stored := Some(history);
    }

    /** Drops every scan of `u`, keeps the rest in order, and persists the list. */
    method RemoveFromHistory(u: string)
      modifies this`history, this`stored
      ensures history == WithoutUrl(old(history), u)
      ensures stored == Some(history)
      ensures forall e :: e in history <==> e in old(history) && e.url != u
      ensures !HasUrl(old(history), u) ==> history == old(history)
      ensures UniqueUrls(old(history)) && HasUrl(old(history), u) ==> |history| == |old(history)| - 1
    {
      WithoutUrlMeaning(history, u);
      if UniqueUrls(history) && HasUrl(history, u) {
        WithoutListedUrl(history, u);
      }
      history := WithoutUrl(history, u);
      stored := Some(history);
    }

    /** Empties the list and removes the key, so a later load shows nothing. */
    method ClearHistory()
      modifies this`history, this`stored
      ensures history == [] && stored.None?
      ensures Loaded(stored) == []
    {
      stored := None;
      history := [];
    }

    /** One submission: resets the fields, shows the reply's outcome, records a
        success in the history, and ends with the loading flag down. Returns the
        URL it scanned and the remediation prompt it sent, if any. */
    method HandleSubmit(manualUrl: Option<string>, reply: ScanReply, ai: Reply, timestamp: string)
      returns (target: string, prompt: Option<string>)
      modifies this`loading, this`error, this`suggestions, this`vulnerabilities, this`history, this`stored
      ensures target == Or(manualUrl, old(url))
      ensures !loading
      ensures error == Settle(reply, ai).error
      ensures suggestions == Settle(reply, ai).suggestions
      ensures vulnerabilities == Settle(reply, ai).vulnerabilities
      ensures Settle(reply, ai).recorded.Some? ==>
        history == Added(old(history), target, Settle(reply, ai).recorded.value, timestamp)
        && stored == Some(history)
      ensures Settle(reply, ai).recorded.None? ==> history == old(history) && stored == old(stored)
      ensures prompt.Some? <==> reply.Json? && reply.success
      ensures prompt.Some? ==> prompt.value == SuggestionPrompt(reply.vulnerabilities)
    {
      target := Or(manualUrl, url);
      loading := true;
      error := None;
      suggestions := "";
      vulnerabilities := [];
      prompt := None;
      match reply {
        case FetchThrew(m) =>
          error := Some(Or(m, ServerErrorText));
        case NotJson(text) =>
          error := Some(Or(Some(NonJsonPrefix + text), ServerErrorText));
        case Json(success, m, vs) =>
          if success {
            prompt := Some(SuggestionPrompt(vs));
            var suggestion := Suggestion(ai);
            vulnerabilities := vs;
            suggestions := suggestion;
            AddToHistory(target, ScanData(Some(vs), suggestion), timestamp);
          } else {
            error := Some(Or(m, ScanFailedText));
          }
      }
      loading := false;
    }

    /** Clicking a history entry: an entry without data does nothing; any other
        entry is submitted again under its URL. */
    method HandleViewHistory(entry: Entry, reply: ScanReply, ai: Reply, timestamp: string)
      returns (target: Option<string>)
      modifies this`loading, this`error, this`suggestions, this`vulnerabilities, this`history, this`stored
      ensures entry.data.None? ==> target.None? && unchanged(this)
      ensures entry.data.Some? ==> target == Some(Or(Some(entry.url), old(url)))
      ensures entry.data.Some? ==> !loading && error == Settle(reply, ai).error
      ensures entry.data.Some? ==>
        suggestions == Settle(reply, ai).suggestions && vulnerabilities == Settle(reply, ai).vulnerabilities
      ensures entry.data.Some? && Settle(reply, ai).recorded.Some? ==>
        history == Added(old(history), target.value, Settle(reply, ai).recorded.value, timestamp)
        && stored == Some(history)
      ensures entry.data.Some? && Settle(reply, ai).recorded.None? ==>
        history == old(history) && stored == old(stored)
    {
      if entry.data.None? {
        return None;
      }
      var t, _ := HandleSubmit(Some(entry.url), reply, ai, timestamp);
      target := Some(t);
    }
  }

  // ---------------------------------------------------------------- end to end

  /** Against the serverless handler, the page records a scan exactly when the
      handler answered 200, and then records the normalised findings. */
  lemma QuickScanRecordedIffOk(verb: string, url: Option<string>, outcome: ScanOutcome, ai: Reply)
    ensures Settle(FromResponse(QuickScan(verb, url, outcome).response), ai).recorded.Some?
      <==> QuickScan(verb, url, outcome).response.status == 200
    ensures QuickScan(verb, url, outcome).response.status == 200 ==>
      Settle(FromResponse(QuickScan(verb, url, outcome).response), ai).recorded
      == Some(ScanData(Some(NormaliseAll(outcome.vulnerabilities)), Suggestion(ai)))
  {
  }

  /** The same against the server route. */
  lemma FullScanRecordedIffOk(url: Option<string>, outcome: ScanOutcome, ai: Reply)
    ensures Settle(FromResponse(FullScan(url, outcome).response), ai).recorded.Some?
      <==> FullScan(url, outcome).response.status == 200
    ensures FullScan(url, outcome).response.status == 200 ==>
      Settle(FromResponse(FullScan(url, outcome).response), ai).recorded
      == Some(ScanData(Some(NormaliseAll(outcome.vulnerabilities)), Suggestion(ai)))
  {
  }

  /** The message of every rejection and failure of the serverless handler
      reaches the error banner. */
  lemma QuickScanErrorsShown(verb: string, url: Option<string>, outcome: ScanOutcome, ai: Reply)
    ensures verb != "POST" ==>
      Settle(FromResponse(QuickScan(verb, url, outcome).response), ai).error == Some(OnlyPost)
    ensures verb == "POST" && (url.None? || !StartsWith(url.value, "http")) ==>
      Settle(FromResponse(QuickScan(verb, url, outcome).response), ai).error == Some(InvalidUrl)
    ensures QuickScan(verb, url, outcome).call.Some? && outcome.Failed? ==>
      Settle(FromResponse(QuickScan(verb, url, outcome).response), ai).error == Some(QuickFailed)
  {
  }
}

# Web-Scanner: a Dafny model of the scan flow

Web-Scanner is a small web application. A user enters a site's URL, a scan
endpoint runs a vulnerability scanner against it and returns the findings,
and the page shows them next to remediation advice asked of a generative-AI
service. Each successful scan is put at the front of a history, which
persists in browser storage and can be exported as CSV. Adding a scan cuts the
history to ten entries; a failed scan only shows its error, and loading shows
whatever the storage holds, high-first, without cutting it. A fix playground sends
a candidate fix for one finding to the same service and shows the verdict.

This project models that logic in Dafny and proves what it promises:

| file | module | models |
|---|---|---|
| `strings.dfy` | `Strings` | the JavaScript string operations the code relies on: `\|\|` on a possibly missing string, template interpolation, `toLowerCase`, `startsWith`, `includes`, `trim`, `join`, and the decimal rendering of a line number |
| `findings.dfy` | `Findings` | a finding, and the High/Medium/Low tier of the severity badge |
| `remediation.dfy` | `Remediation` | the remediation prompt, the fix-check prompt, and how the answer is taken out of the service's reply |
| `history.dfy` | `HistoryList` | the history list: adding a scan, removing a URL, and the high-first order applied at load |
| `csv.dfy` | `CsvExport` | the rows and text of the CSV export, and what a comma-splitting reader gets back from them |
| `endpoints.dfy` | `ScanEndpoints` | the serverless handler (`api/scan.js`) and the server route (`server/index.js`) as functions from request and scanner outcome to scanner call and response |
| `client.dfy` | `ScanClient` | the page state of `src/App.jsx` as a class, including the submit flow and the persisted copy of the history |
| `playground.dfy` | `Playground` | the fix playground's state as a class, and its check |

Parts of the code change state step by step: the page's setters, the history
mutations and the playground's check. These are methods of the classes
`ScanClient.App` and `Playground.FixPlayground`, with one field per piece of
component state. The persisted history is a second field, `stored`. Each
method's postcondition ties the new state to a specification function, such as
`HistoryList.Added`, `ScanClient.Settle` or `Remediation.Verdict`. The
properties of those functions are proved as lemmas.

The network is an input everywhere. That covers the scanner, the page's
request to the scan endpoint and the request to the AI service. Each is
given as the outcome it produced:
- a thrown error, with a message or without one;
- a body that is not JSON;
- a parsed reply.

## Model

| member | source | states |
|---|---|---|
| Strings.LowerForgetsCase | src/App.jsx:118 | Lower-casing is idempotent, and it erases any upper-casing of the letters a to z. |
| Strings.IncludesIffOccurs | src/App.jsx:119-120 | `includes` finds a word exactly when the word stands at some position of the text. |
| Strings.MissingCharExcludes | src/App.jsx:119-120 | A text lacking any one character of a word does not include the word. |
| Strings.TrimEmptyIffBlank | src/pages/FixPlayground.jsx:10 | `!code.trim()` holds exactly when every character of the code is ECMAScript white space or a line terminator. |
| Strings.JoinPosition | src/App.jsx:39 | Every part of a `join` stands in the joined text, at a returned position. |
| Strings.DecimalRoundTrip | src/App.jsx:39 | The rendering of a line number is non-empty and all digits, has no leading zero, and reads back as the number. |
| Findings.MentionsIffIncludes | src/App.jsx:118-120 | Lower-casing and then searching is the same as a case-insensitive match of the word at some position. |
| Findings.ClassifyMeaning | src/App.jsx:117-121 | The tier is High iff "high" appears in any case. It is Medium iff "medium" appears and "high" does not. It is Low iff neither word appears, so "high" wins over "medium". |
| Findings.ClassifyIgnoresCase | src/App.jsx:118 | Changing the case of the letters A to Z in the text does not change its tier. |
| Findings.ClassifyUpperHigh | src/App.jsx:118-119 | "HIGH risk" is High. |
| Findings.ClassifyMixedMedium | src/App.jsx:118-120 | "Medium risk" is Medium. |
| Findings.ClassifyEmptyIsLow | src/App.jsx:196 | The empty text is Low, and so is a finding without a recommendation, since the badge is given `''` for it. |
| Findings.ClassifyHighWins | src/App.jsx:119-120 | "medium, maybe high" is High. |
| Remediation.Answer | src/App.jsx:49-54 | A reply that threw gives the failure text. A parsed reply gives its first candidate's first part text when that is non-empty and differs from the no-text sentinel; otherwise it gives that sentinel. The result is never empty. |
| Remediation.Suggestion | src/App.jsx:49-54 | The remediation text is never empty, and it is the fetch-failure sentinel when the request threw. |
| Remediation.FindingLineNumbered | src/App.jsx:39 | The line of the k-th finding starts with the number k + 1, which reads back as k + 1, followed by ". " and the name. A missing or empty description shows "No description"; a missing or empty recommendation shows "None". |
| Remediation.PromptListsEveryFinding | src/App.jsx:36-41 | The remediation prompt contains the numbered line of every finding. |
| Remediation.Verdict | src/pages/FixPlayground.jsx:23-28 | The verdict is never empty, and it is the error sentinel when the request threw. |
| Remediation.FixPromptQuotes | src/pages/FixPlayground.jsx:14 | The fix-check prompt contains the finding's name, its interpolated description and the user's code verbatim. |
| HistoryList.FilterMembers | src/App.jsx:29 | A filter keeps exactly the elements that pass and never grows the list. |
| HistoryList.FilterOrder | src/App.jsx:29 | A filter keeps the relative order of the elements it keeps. |
| HistoryList.WithoutUrlMeaning | src/App.jsx:107 | Removing a URL keeps exactly the entries of other URLs. An absent URL leaves the list unchanged. |
| HistoryList.WithoutListedUrl | src/App.jsx:107 | In a duplicate-free history, removing a listed URL shortens the list by one. |
| HistoryList.AddedShape | src/App.jsx:27-30 | After an add, the new entry is first and the length is between 1 and 10. No other entry has the URL. The rest is the earlier list, without that URL and in its order, cut at the tail. |
| HistoryList.AddedKeepsUnique | src/App.jsx:27-30 | An add keeps the URLs of the history distinct. |
| HistoryList.ReAddKeepsLength | src/App.jsx:29-30 | Re-adding a URL already in a duplicate-free history of at most 10 entries leaves the length unchanged. |
| HistoryList.AddNewUrl | src/App.jsx:27-30 | Adding a new URL to a full history drops exactly the last entry; below capacity, it only prepends. |
| HistoryList.HasHighIffHighFinding | src/App.jsx:18-19 | An entry counts as high exactly when one of its findings has the High badge tier. |
| HistoryList.SortHighFirstPermutes | src/App.jsx:17-21 | The load-time order is a permutation of the stored list. |
| HistoryList.SortHighFirstOrdered | src/App.jsx:17-21 | Every high entry precedes every other entry. |
| HistoryList.SortHighFirstStable | src/App.jsx:17-21 | The order is stable: high entries keep their relative order, and so do the others. |
| HistoryList.SortHighFirstKeepsUnique | src/App.jsx:17-21 | Sorting keeps the URLs distinct. |
| CsvExport.RowsAppend | src/App.jsx:96 | The rows of two histories joined are the rows of the first, then the rows of the second. |
| CsvExport.RowsAt | src/App.jsx:96 | The row of the k-th finding of the j-th entry comes right after the rows of the entries before it: history order, then finding order. |
| CsvExport.RowsSkipBareEntry | src/App.jsx:96 | An entry without data or without findings adds no row wherever it stands. |
| CsvExport.CsvTextHoldsRows | src/App.jsx:95-97 | The export starts with the header line and contains every row. |
| CsvExport.SplitFieldCount | src/App.jsx:96 | Splitting at a character gives one field more than the character's occurrences. |
| CsvExport.RowReadsBack | src/App.jsx:96 | A row whose fields hold no comma splits back into exactly its four fields. |
| CsvExport.RowFieldCount | src/App.jsx:96 | A row splits into four fields plus one per comma inside its fields. |
| CsvExport.CommaInFieldShiftsColumns | src/App.jsx:96 | A comma in any field makes the row read back as more than four columns. |
| ScanEndpoints.Normalise | api/scan.js:26-30 | The sent finding copies the name and description. A non-empty recommendation is kept; a missing or empty one becomes "No recommendation". |
| ScanEndpoints.NormaliseAll | api/scan.js:26-30 | The sent list has the scanner's length and order, each finding normalised. |
| ScanEndpoints.QuickScan | api/scan.js:3-40 | A non-POST request gets 405 and no scan. A missing URL, or one not starting with "http", gets 400 and no scan. Otherwise the scanner is called with the quick profile: 200 with the normalised findings, or 500 with the failure message and the error's message. |
| ScanEndpoints.FullScan | server/index.js:14-42 | A missing or empty URL gets 400 "Missing URL" and no scan. Any other URL is scanned with the full profile: 200 with the normalised findings, or 500 "Scanner failed" with the error's message. |
| ScanEndpoints.NormaliseIdempotent | api/scan.js:29 | Normalising twice gives what normalising once gives. |
| ScanEndpoints.NormaliseKeepsSeverity | api/scan.js:29 | The default recommendation does not change a finding's badge tier. |
| ScanEndpoints.QuickScanPrefixOnly | api/scan.js:9 | "httpx" is scanned, because the test is the literal prefix "http"; "ftp://example.com" gets 400. |
| ScanEndpoints.QuickStricterThanFull | server/index.js:16 | Every URL the quick handler scans, the server route scans too. "example.com" shows that the converse fails. |
| ScanEndpoints.EndpointsAgree | server/index.js:30-41 | For a URL both accept, the two endpoints send the same success response. On failure they differ only in the message. |
| ScanClient.Settle | src/App.jsx:65-88 | A submission records exactly when the reply is JSON with success. It then shows the findings with the never-empty remediation text. Otherwise it shows a non-empty error: the server's message or "Scan failed", "Non-JSON response: " plus the body, or the thrown message or "Server error". |
| ScanClient.Loaded | src/App.jsx:16-22 | A missing key loads as the empty list. A stored list loads as a permutation of itself with every high entry first. |
| ScanClient.App.constructor | src/App.jsx:7-13 | The page starts with empty fields, no error, not loading, an empty history, and whatever the storage holds. |
| ScanClient.App.SetUrl | src/App.jsx:175 | The URL field takes the typed text. |
| ScanClient.App.LoadHistory | src/App.jsx:15-23 | The history becomes the loaded list. The stored copy is left as it was. |
| ScanClient.App.AddToHistory | src/App.jsx:25-33 | The history becomes the added list: new entry first, at most 10, the URL once, the rest in order. The stored copy equals it, and distinct URLs stay distinct. |
| ScanClient.App.RemoveFromHistory | src/App.jsx:106-110 | The history keeps exactly the entries of other URLs, in order. An absent URL changes nothing. The stored copy equals the history. |
| ScanClient.App.ClearHistory | src/App.jsx:112-115 | The history is empty, the key is removed, and a later load yields the empty list. |
| ScanClient.App.HandleSubmit | src/App.jsx:57-92 | The scanned URL is the manual one or else the field. Error, findings and text are as `Settle` says. History and stored copy change, by an add, only on success. The prompt is sent only then. Loading ends false. |
| ScanClient.App.HandleViewHistory | src/App.jsx:101-104 | An entry without data changes nothing. Any other entry is submitted again under its URL, with the outcome `HandleSubmit` states. |
| ScanClient.QuickScanRecordedIffOk | src/App.jsx:78-85 | Against the serverless handler, the page records a scan exactly when the handler answered 200, and it records the normalised findings. |
| ScanClient.FullScanRecordedIffOk | src/App.jsx:78-85 | The same against the server route. |
| ScanClient.QuickScanErrorsShown | src/App.jsx:84 | The 405, 400 and 500 messages of the serverless handler reach the error banner. |
| Playground.FixPlayground.constructor | src/pages/FixPlayground.jsx:4-7 | The playground starts with empty code, no verdict and not loading. |
| Playground.FixPlayground.SetCode | src/pages/FixPlayground.jsx:43 | The code field takes the typed text. |
| Playground.FixPlayground.StartTestFix | src/pages/FixPlayground.jsx:10-14 | Code of white space only makes no request and changes nothing. Any other code raises the loading flag, clears the verdict, and yields the fix-check prompt. |
| Playground.FixPlayground.FinishTestFix | src/pages/FixPlayground.jsx:23-30 | The verdict becomes the extracted answer or its sentinel, and loading ends false. |
| Playground.FixPlayground.TestFix | src/pages/FixPlayground.jsx:9-31 | A white-space fix changes nothing. Any other fix sends its prompt and ends with a non-empty verdict and loading false. |

## Left out

- Network calls are not performed; each is the outcome it produced, given as an input:
  - the scanner package;
  - the page's request to `/api/scan`;
  - both requests to the AI service.
- The AI service's key and the request URL built around it are not modelled.
- `console.error` logging is not modelled.
- JSON encoding of the persisted history and of HTTP bodies is not modelled. The persisted history is an `Option<seq<Entry>>` field. A stored value that fails to parse, which would throw at load, is not modelled.
- The timestamp from `new Date().toISOString()` is a parameter.
- `toLowerCase` is modelled on the letters A to Z only.
  - Full Unicode lowering gives the same tiers. Only U+0130 and U+212A lower into ASCII ('i' with a combining dot, and 'k').
  - Neither can complete "high", since the lowered U+0130 is two characters, or "medium", which has no 'k'.
- Strings.LowerForgetsCase: its upper-casing half holds for the model's `Upper`, which changes only the letters a to z. JavaScript's `toUpperCase` does more: "ß" (sharp s) upper-cases to "SS", which lowers back to "ss", not "ß". The source never upper-cases anything.
- Findings.ClassifyIgnoresCase: it covers changes of case among the letters A to Z only. JavaScript's `toUpperCase` maps dotless "ı" to "I", so "hıgh" is Low while its upper-cased form "HIGH" is High; "medıum" behaves the same way.
- HistoryList.HasHigh: an entry without data or without a findings list counts as not high. The source's comparator returns NaN for such an entry, which makes the comparison inconsistent and the engine's order unspecified. The model fixes that case as "no high".
- ScanClient.App.LoadHistory: `Array.prototype.sort` reorders the parsed array in place. The model computes the stable high-first partition as a value, since the sort is stable and the comparator only compares the high flag.
- Remediation.FixPromptQuotes: the model has no JSON `null`, since `Option` merges null with a missing value. Both endpoints copy a scanner's `null` description as is (api/scan.js:28, server/index.js:34), and `${vulnerability.description}` (src/pages/FixPlayground.jsx:14) prints it as "null". The model's `Interpolate` prints "undefined" for every missing description. The `||` defaults elsewhere treat null and missing alike, so only this prompt differs.
- A finding's name is always a string. A missing name would print as "undefined" in the prompt and the CSV; that case is not modelled.
- A scanner result without a findings list is not modelled. The endpoints would answer it with 500 and the engine's TypeError message.
- A request with no parsed body at all is not modelled. Destructuring `req.body` would throw before any check (api/scan.js:8, server/index.js:15). A body without a `url` field is modelled: it is the `None` URL, and both endpoints answer it with 400.
- ScanEndpoints.QuickScan: a `url` that is truthy but not a string is not modelled. Calling `url.startsWith` on it throws before the handler's `try` (api/scan.js:9).
- ScanEndpoints.FullScan: a `url` that is truthy but not a string is not modelled. The route passes it to the scanner inside its `try` (server/index.js:16-19), so the response depends on the scanner.
- The server route is registered for POST only. Other methods get Express's own 404, which is not modelled.
- Two page replies are not modelled:
  - the JSON text `null`, where reading `data.success` throws (src/App.jsx:78);
  - `success: true` without a findings list, where building the remediation prompt throws (src/App.jsx:39, 79).
  Both end in the submission's `catch` with an engine message. Other JSON that is not an object has no `success`, so it shows "Scan failed" like `Json(false, None, [])` (src/App.jsx:78, 84).
- ScanClient.Settle: a storage write that throws is not modelled. The model promises an error exactly when nothing is recorded, and no findings beside an error; a throwing write breaks both. In the source, `localStorage.setItem` can throw (quota exceeded, storage disabled) in `addToHistory` (src/App.jsx:31) before `setHistory`. The submission's `catch` (src/App.jsx:86-88) then shows that error together with the findings and suggestions already set at src/App.jsx:80-81, and the history stays as it was.
- ScanClient.App.HandleSubmit: storage writes are assumed to succeed, as for `ScanClient.Settle`.
- ScanClient.App.AddToHistory: storage writes are assumed to succeed. A throwing `setItem` (src/App.jsx:31) would leave both the history and the stored copy unchanged.
- ScanClient.App.RemoveFromHistory: storage writes are assumed to succeed. A throwing `setItem` (src/App.jsx:108) would leave both the history and the stored copy unchanged.
- ScanClient.App.ClearHistory: removing the key is assumed to succeed. A throwing `removeItem` (src/App.jsx:113) would leave both the history and the stored copy unchanged.
- React's asynchronous state updates are modelled as immediate assignments, one submission at a time. Not covered:
  - batching;
  - the stale `history` closure seen by overlapping submissions;
  - `handleViewHistory` not awaiting its submission.
- Rendering is not modelled:
  - the JSX;
  - the badge colours;
  - the `<br/>` replacement of the suggestions;
  - the navigation bar and skeleton components;
  - the playground's `if (!vulnerability) return null`.
- The CSV download through `Blob` and `saveAs` is not modelled; only the text it would contain is.
- Express, CORS and dotenv wiring and `app.listen` are not modelled.
- There is no risk aggregation, history pagination or separate replay path in the code. Re-viewing a history entry re-runs a full submission.

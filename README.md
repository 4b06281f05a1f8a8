# Interview-analysis service: response sanitizer and `/analyze` handler

This project models the core of a small web service. The service takes an uploaded
interview video, sends it to an external generative model, and returns a JSON report
with four sections: `soft_skills`, `integrity`, `quantitative_scores` and `summary`.
It has three parts, each in its own module:

- `Markdown` (`markdown.dfy`) models `strip_markdown`. This function makes one
  regular-expression substitution, removing every match of ```` ```json\s*|\s*``` ````,
  and then calls `str.strip()`. The substitution is written as Python's `re.sub` scan:
  - the leftmost match wins, and the first alternative is tried first;
  - `\s*` is greedy;
  - after a match the scan resumes at its end, otherwise it copies one character.

  Whitespace is Python's `str.isspace` set, which is the set both `\s` and `strip()`
  use. The module proves the following properties:
  - the result is trimmed and never longer than the input;
  - the result is obtained from the input by deleting characters only;
  - text without a closing fence is only trimmed, and cleaning such text twice is the
    same as cleaning it once;
  - a trimmed, fence-free body wrapped as ```` ```json ```` + whitespace + body +
    whitespace + ```` ``` ```` comes back exactly, provided the body does not end with
    a backtick;
  - two counterexamples: the wrapped body ``a ` `` comes back as `` a` ``, and
    cleaning is not idempotent in general.
- `Report` (`report.dfy`) models the `AnalysisReport` record and the check that
  `AnalysisReport(**analysis)` performs on a parsed JSON value. The check succeeds
  exactly when the value is an object whose four sections are all objects. The report
  then keeps those four sections and drops every other key. A failure on an object
  names every bad section.
- `Analyze` (`analyze.dfy`) models `analyze_video`, the `POST /analyze` handler. It has
  two parts:
  - `Analyze` is a function that gives one request's complete effect as a value: the
    outcome, the model requests sent, and whether the temporary file was written and
    removed.
  - `AnalyzeVideo` is a method that runs the same steps against a model client, which
    logs the requests it receives, and a temporary-file store, which is a map from
    names to bytes. It is proved to agree with `Analyze`.

  The model, `json.loads` and the video probe are parameters (oracles). The model is a
  function from a request and the number of earlier calls to a reply or a raised error.

The handler code raises 400 for a non-video upload and 422 for an object with a
missing or non-object section. A parsed value that is not an object makes
`AnalysisReport(**analysis)` raise a `TypeError`, which the `except ValueError` around
it does not catch. All of these are raised inside the outer `try ... except Exception`,
which catches them and raises a new error. So every failure the handler reports has status
500, with the detail `Analysis failed: ` followed by the caught error's text. The model
follows the code: `Analyze` ensures that every `Err` has status 500, and `Detail` gives
the detail text. The temporary file is removed only on success and is left behind after
any failure that happens once it exists.

Cleaning is proved idempotent on text without a closing fence (`FenceFreeStable`). In
general it is not: `NotIdempotent` shows that ``"` `````"`` becomes ```` "```" ````,
which then becomes `""`.

## Model

| member | source | states |
|---|---|---|
| Markdown.SpaceEnd | app/main.py:84 | A greedy `\s*` from `i`: everything it passes is whitespace, and it stops at the end of the text or at a non-whitespace character. |
| Markdown.MatchAt | app/main.py:84 | A match starts at the front exactly when the text opens with ```` ```json ```` or with whitespace followed by ```` ``` ````. A match is never shorter than a fence, so the scan always advances. |
| Markdown.ShorterRunNeverReachesFence | app/main.py:84 | A whitespace run at the front that is followed by a fence is the longest run there. So backtracking `\s*` to a shorter run never finds a fence, and the greedy reading in `MatchAt` is the regular expression's. |
| Markdown.Substitute | app/main.py:84 | The substitution never makes the text longer. |
| Markdown.TrimStart | app/main.py:85 | The result is a suffix of the input and does not start with whitespace. |
| Markdown.TrimEnd | app/main.py:85 | The result is a prefix of the input and does not end with whitespace. |
| Markdown.TrimStartDropsSpace | app/main.py:85 | Everything the leading trim drops is whitespace. |
| Markdown.TrimEndDropsSpace | app/main.py:85 | Everything the trailing trim drops is whitespace. |
| Markdown.TrimsKeepTrimmed | app/main.py:85 | Neither trim changes text that is already trimmed. |
| Markdown.Strip | app/main.py:85 | `str.strip()` returns a trimmed contiguous slice of its input, and returns already-trimmed text unchanged. |
| Markdown.StripDropsOnlySpace | app/main.py:85 | `str.strip()` removes only whitespace, and only from the two ends. |
| Markdown.StripMarkdown | app/main.py:82-85 | The cleaned text has no leading or trailing whitespace and is never longer than the input. |
| Markdown.SubstituteKeepsPrefix | app/main.py:84 | Characters before the first closing fence are copied, provided the character before the cut is not whitespace. The scan then continues from the cut. |
| Markdown.FenceFreeUnchanged | app/main.py:84 | Text with no ```` ``` ```` passes the substitution unchanged. |
| Markdown.ClosingFenceVanishes | app/main.py:84 | Whitespace followed by a closing fence is removed as one match of the second alternative, which ends right after the fence, and the scan resumes there. With no whitespace, the text must not open with ```` ```json ````. |
| Markdown.OpeningFenceVanishes | app/main.py:84 | ```` ```json ```` and the whitespace after it are removed as one match of the first alternative. |
| Markdown.ShortBacktickRunsKept | app/main.py:84 | The texts `` ` `` and ```` `` ```` on their own contain no match and pass the substitution unchanged. |
| Markdown.FenceFreeOnlyTrimmed | app/main.py:84-85 | Text with no closing fence is only trimmed, so trimmed fence-free text comes back unchanged. |
| Markdown.FenceFreeStable | app/main.py:84-85 | On text with no closing fence, cleaning twice is the same as cleaning once. |
| Markdown.FencedBodyRoundTrip | app/main.py:84-85 | ```` ```json ```` + whitespace + body + whitespace + ```` ``` ```` cleans to exactly the body. The body must be trimmed, fence-free and must not end with a backtick. |
| Markdown.WrappedBodyEndingInBacktick | app/main.py:84-85 | The backtick condition cannot be dropped: the trimmed, fence-free body ``a ` `` comes back as `` a` ``. |
| Markdown.NotIdempotent | app/main.py:84-85 | Cleaning is not idempotent: ``"` `````"`` cleans to ```` "```" ````, which cleans to `""`. |
| Markdown.SubstituteOnlyDeletes | app/main.py:84 | The substitution only deletes: its result is a subsequence of its input. |
| Markdown.StripMarkdownOnlyDeletes | app/main.py:84-85 | The cleaned text is a subsequence of the raw text. |
| Report.BadSections | app/main.py:64-68 | Lists exactly the given section names that are missing or not objects. |
| Report.ReportToJson | app/main.py:64-68 | A report serialises to an object with exactly the four section keys, each holding an object. |
| Report.CheckReport | app/main.py:324-328 | `AnalysisReport(**analysis)` succeeds exactly on objects whose four sections are all objects. The report is the input's four sections with other keys dropped. A non-object is not a mapping. Any other failure lists exactly the bad sections. |
| Report.ReportRoundTrip | app/main.py:64-68 | Checking a serialised report gives back the same report. |
| Report.ExactShapeRoundTrip | app/main.py:64-68 | A value with exactly the report's shape comes back equal to itself. |
| Analyze.Excerpt | app/main.py:321 | `text[:500]`: a prefix of the text. It is the whole text when the text has at most 500 characters, and exactly 500 characters otherwise. |
| Analyze.Detail | app/main.py:335-337 | Every error detail starts with `Analysis failed: `. The probe's message, the model error's text or the retry excerpt ends it. |
| Analyze.DetailNamesFailure | app/main.py:247-337 | Each failure's detail in full: `Analysis failed: ` and then `400: Uploaded file must be a video`, `500: Error processing video: ` and the probe's message, the model error's text, `500: Invalid response from Gemini API after retry: ` and the excerpt, `422: Invalid analysis structure: ` and the shape error, or, for a non-object value, the `TypeError` text alone. |
| Analyze.Finish | app/main.py:324-333 | After a parse, the outcome is `Ok` exactly when the value has the report shape, which is also exactly when the temporary file is removed. The report is the value's four sections. Otherwise the error is a 500 that carries the shape error. |
| Analyze.ConsultProperties | app/main.py:274-322 | `Consult` (the model stage) makes one or two model calls with the same video: first the prompt, then the prompt plus the JSON-only instruction. The retry happens exactly when the first reply arrived and its cleaned text did not parse. A success is the parse of the last cleaned reply. A `ModelCallFailed` failure is the error raised by the last call. The only other failure is an unparsable retry, quoted as its first 500 characters. Together these fix the stage's result on every input. |
| Analyze.Analyze | app/main.py:247-337 | A non-video upload fails before any write or model call. A failed probe fails before any model call and leaves the file. Otherwise the model stage runs on the uploaded bytes, and a failure there is the request's failure. Every failure has status 500, and the file is removed exactly on success. |
| Analyze.SuccessMeansReportShaped | app/main.py:324-333 | A successful request got a parsed value of report shape, returned its four sections, and removed its file. |
| Analyze.ShapedValueSucceeds | app/main.py:324-333 | The converse of the row above: a parsed value of report shape gives `Ok` with that value's four sections, and the file is removed. |
| Analyze.UnparsableRetryIsQuoted | app/main.py:293-322 | When neither cleaned reply parses, the request fails after two calls with a 500 and leaves its file. The detail ends with the first 500 characters of the cleaned retry text: exactly 500 when the text is longer, and the whole text otherwise. |
| Analyze.ShapelessValueFails | app/main.py:324-337 | A parsed value without the report shape gives a 500 with the shape error and leaves the file behind. |
| Analyze.FencedReportAcceptedFirstTime | app/main.py:274-333 | A first reply that wraps a report in a JSON fence is accepted after one call, and the file is removed. |
| Analyze.ModelClient.GenerateContent | app/main.py:274-284 | A call is appended to the client's log, and its reply is the oracle's answer for that request and call index. |
| Analyze.TempStore.CreateWith | app/main.py:255-257 | The upload is stored under a name not in use, and no other file changes. |
| Analyze.TempStore.Read | app/main.py:263-264 | Reading returns the stored bytes. |
| Analyze.TempStore.Remove | app/main.py:331 | Removal deletes that one file and nothing else. |
| Analyze.ConsultModel | app/main.py:274-322 | Against the client, the model stage gives `Consult`'s result and appends exactly `Consult`'s requests to the log. |
| Analyze.AnalyzeVideo | app/main.py:247-337 | Against the client and the store, the handler gives `Analyze`'s outcome and appends exactly its requests. It leaves the upload on disk exactly when `Analyze` wrote the file and did not remove it. |

## Left out

- FastAPI routing, the page handlers, templates and static files carry no logic and are not modelled.
- The model configuration and the network call are the `reply` oracle. A reply that cannot be read (no text) is a `CallError`.
- `process_video` (`VideoFileClip`) is the `probe` oracle: success, or failure with the library's message. The duration it computes is never used, so it is not modelled.
- `json.loads` is the `parse` oracle. JSON numbers are kept as their literal text, and no JSON parser is modelled.
- Base64 encoding of the video is not modelled. A request carries the raw bytes, which the encoding maps one to one.
- Pydantic's coercions are not modelled. A JSON section is accepted only when it is an object, which is what JSON input can give a `dict` field.
- Analyze.SchemaErrorText: the wording of pydantic's validation message and of the `TypeError` raised for a non-mapping is approximated. Only its cause (missing or non-object sections, or not a mapping) is kept.
- The `PROMPT` text is the `prompt` parameter.
- The commented-out `extract_random_segment` is dead code and is not modelled.
- The unused request and response classes (`FileData`, `Message`, `ChatRequest`, `ChatResponse`) and all logging are not modelled.
- The browser script under `app/static` is not modelled.
- A missing content type (`None`), failures while creating, writing or reading the temporary file, and a failing `os.remove` are not modelled: the store always succeeds.
- Temporary file names are random in the service. The model draws them from a counter, which keeps them fresh but not unpredictable.
- Concurrent requests are not modelled. Each run of `AnalyzeVideo` works on the client and store it is given.

/**
  The `POST /analyze` request handler (`analyze_video`).

  One request runs these steps in order: the content-type gate, writing
  the upload to a temporary file, probing that file as a video, the first
  call to the generative model, fence stripping and JSON parsing of its
  reply, at most one retry with a stricter instruction, the report-shape
  check, and removal of the temporary file. The whole body sits in one
  `try ... except Exception`, which also catches the HTTP errors raised
  inside it, so every failure leaves as status 500 with the detail
  `Analysis failed: ` followed by the caught error's text; the temporary
  file is removed only on success.

  The external parts are oracles: the model is a function from a request
  and the number of calls made before it to a reply, `json.loads` is a
  function from text to an optional JSON value, and the video probe is a
  function from the file's bytes to success or a failure message.

  `Analyze` is the specification of one request as a value; the method
  `AnalyzeVideo` runs the same steps against a model client and a store
  of temporary files whose state it changes, and is proved to agree with it.
*/
module Analyze {
  import opened Wrappers
  import opened Markdown
  import opened Report

  newtype byte = x: int | 0 <= x < 256
  type Bytes = seq<byte>

  /** An uploaded file: its declared media type and its content. */
  datatype Upload = Upload(contentType: string, content: Bytes)

  /**
    One call to the generative model: a single role-tagged message with an
    instruction text and the video inlined. The video travels base64-encoded;
    the model carries the bytes themselves.
  */
  datatype ModelRequest = ModelRequest(role: string, text: string, mimeType: string, data: Bytes)

  /** What reading a reply's text gives: the text, or the error the call raised. */
  datatype ModelReply = Reply(text: string) | CallError(message: string)

  /** The video probe succeeds, or fails with a message. */
  datatype ProbeResult = Decodable | Undecodable(message: string)

  /** The error caught by the handler's outer `except Exception`. */
  datatype AnalysisError =
    | NotAVideo                            // the 400 raised by the content-type gate
    | VideoUnreadable(message: string)     // the 500 raised by the video probe
    | ModelCallFailed(message: string)     // whatever the model call raised
    | UnparsableAfterRetry(excerpt: string)  // the 500 raised when the retry does not parse either
    | InvalidStructure(error: SchemaError) // the 422 for a value of the wrong shape, or the error of unpacking a non-object

  /** The HTTP answer: the report with status 200, or an error status and its cause. */
  datatype Outcome = Ok(report: AnalysisReport) | Err(status: int, failure: AnalysisError)

  /** Everything one request does: its answer, the model calls it made, and what it did to its temporary file. */
  datatype Run = Run(outcome: Outcome, requests: seq<ModelRequest>, tempWritten: bool, tempRemoved: bool)

  const VideoPrefix: string := "video/"
  /** The media type sent with the inlined video, whatever type was uploaded. */
  const InlineMimeType: string := "video/mp4"
  const RetryInstruction: string :=
    "\n\nReturn only the JSON analysis as specified. Do NOT include markdown, transcripts, or any non-JSON text."
  /** How much of the unparsable retry text an error detail quotes. */
  const ExcerptLimit: nat := 500
  const FailurePrefix: string := "Analysis failed: "
  /** The details of the errors the handler raises and then catches itself. */
  const NotAVideoDetail: string := "Uploaded file must be a video"
  const ProbeFailureLead: string := "Error processing video: "
  const RetryFailureLead: string := "Invalid response from Gemini API after retry: "
  const StructureFailureLead: string := "Invalid analysis structure: "

  function FirstRequest(prompt: string, data: Bytes): ModelRequest {
    ModelRequest("user", prompt, InlineMimeType, data)
  }

  function RetryRequest(prompt: string, data: Bytes): ModelRequest {
    ModelRequest("user", prompt + RetryInstruction, InlineMimeType, data)
  }

  /** `text[:500]`. */
  function Excerpt(text: string): (e: string)
    ensures |e| <= ExcerptLimit && e <= text
    ensures |text| <= ExcerptLimit ==> e == text
    ensures |text| > ExcerptLimit ==> |e| == ExcerptLimit
  {
    if |text| <= ExcerptLimit then text else text[..ExcerptLimit]
  }

  /** The section names, comma-separated. */
  function JoinNames(names: seq<string>): string {
    if names == [] then ""
    else if |names| == 1 then names[0]
    else names[0] + ", " + JoinNames(names[1..])
  }

  /** The text of a report-shape error. */
  function SchemaErrorText(e: SchemaError): string {
    match e
    case NotAMapping => "AnalysisReport() argument after ** must be a mapping"
    case InvalidSections(sections) => "missing or not a dictionary: " + JoinNames(sections)
  }

  /** `lead` followed by a quoted error text, which closes it. */
  function Quote(lead: string, text: string): (d: string)
    ensures lead <= d && |text| <= |d| && d[|d| - |text|..] == text
  {
    lead + text
  }

  /** A text leads any text it is followed by. */
  lemma LeadsConcat(lead: string, text: string)
    ensures lead <= lead + text
  {
  }

  /** A text closes any text it follows. */
  lemma ClosesConcat(lead: string, text: string)
    ensures |text| <= |lead + text| && (lead + text)[|lead + text| - |text|..] == text
  {
  }

  /** A prefix of `t` stays a prefix once both are led by `lead`. */
  lemma PrefixUnderLead(lead: string, a: string, t: string)
    requires a <= t
    ensures lead + a <= lead + t
  {
  }

  /** A suffix of `t` stays a suffix once `t` is led by `lead`. */
  lemma SuffixUnderLead(lead: string, x: string, t: string)
    requires |x| <= |t| && t[|t| - |x|..] == x
    ensures |x| <= |lead + t| && (lead + t)[|lead + t| - |x|..] == x
  {
    assert (lead + t)[|lead + t| - |x|..] == t[|t| - |x|..];
  }

  /**
    `str(e)` for the error the outer handler catches. An HTTP error prints
    as its status, a colon and its detail, and any other error as its
    message.
  */
  function CaughtText(f: AnalysisError): string {
    match f
    case NotAVideo => "400: " + NotAVideoDetail
    case VideoUnreadable(m) => "500: " + ProbeFailureLead + m
    case ModelCallFailed(m) => m
    case UnparsableAfterRetry(e) => "500: " + RetryFailureLead + e
    case InvalidStructure(e) =>
      if e.NotAMapping? then SchemaErrorText(e)
      else "422: " + StructureFailureLead + SchemaErrorText(e)
  }

  /** The `detail` of the error response: `Analysis failed: ` and the caught error's text. */
  function Detail(f: AnalysisError): (d: string)
    ensures FailurePrefix <= d
    // the caught error's own text closes the detail
    ensures f.VideoUnreadable? || f.ModelCallFailed? ==> |f.message| <= |d| && d[|d| - |f.message|..] == f.message
    ensures f.UnparsableAfterRetry? ==> |f.excerpt| <= |d| && d[|d| - |f.excerpt|..] == f.excerpt
  {
    var t := CaughtText(f);
    LeadsConcat(FailurePrefix, t);
    if f.VideoUnreadable? || f.ModelCallFailed? then
      ClosesConcat(t[..|t| - |f.message|], f.message);
      assert t == t[..|t| - |f.message|] + f.message;
      SuffixUnderLead(FailurePrefix, f.message, t);
      FailurePrefix + t
    else if f.UnparsableAfterRetry? then
      ClosesConcat("500: " + RetryFailureLead, f.excerpt);
      SuffixUnderLead(FailurePrefix, f.excerpt, t);
      FailurePrefix + t
    else
      FailurePrefix + t
  }

  /**
    Which failure a detail reports: the status and detail of the HTTP error
    the handler raised, or the model error's own text.
  */
  lemma DetailNamesFailure(f: AnalysisError)
    ensures f.NotAVideo? ==> Detail(f) == FailurePrefix + ("400: " + NotAVideoDetail)
    ensures f.VideoUnreadable? ==> Detail(f) == FailurePrefix + ("500: " + ProbeFailureLead + f.message)
    ensures f.ModelCallFailed? ==> Detail(f) == FailurePrefix + f.message
    ensures f.UnparsableAfterRetry? ==> Detail(f) == FailurePrefix + ("500: " + RetryFailureLead + f.excerpt)
    ensures f.InvalidStructure? && f.error.InvalidSections? ==>
      Detail(f) == FailurePrefix + ("422: " + StructureFailureLead + SchemaErrorText(f.error))
    ensures f.InvalidStructure? && f.error.NotAMapping? ==> Detail(f) == FailurePrefix + SchemaErrorText(f.error)
  {
  }

  /** The tail of the handler, once a JSON value has been parsed: the report-shape check and the clean-up. */
  function Finish(analysis: Json, requests: seq<ModelRequest>): (run: Run)
    ensures run.requests == requests && run.tempWritten
    ensures run.outcome.Ok? <==> IsReportShaped(analysis)
    ensures run.tempRemoved <==> run.outcome.Ok?
    ensures run.outcome.Ok? ==> ReportToJson(run.outcome.report) == JObject(SectionsOf(analysis.fields))
    ensures run.outcome.Err? ==> run.outcome == Err(500, InvalidStructure(CheckReport(analysis).error))
  {
    match CheckReport(analysis)
    case Success(report) => Run(Ok(report), requests, true, true)
    case Failure(e) => Run(Err(500, InvalidStructure(e)), requests, true, false)
  }

  /** The model stage's result: the parsed value or the failure, and the requests it sent. */
  datatype Consulted = Consulted(result: Result<Json, AnalysisError>, requests: seq<ModelRequest>)

  /**
    The model stage: the first call, fence stripping and parsing of its
    reply, and the single retry with the JSON-only instruction when that
    does not parse. `reply(q, k)` is the model's answer to request `q` when
    `k` calls were made before it.
  */
  function Consult(
    prompt: string, data: Bytes, parse: string -> Option<Json>,
    reply: (ModelRequest, nat) -> ModelReply, before: nat): Consulted
  {
    var first := FirstRequest(prompt, data);
    match reply(first, before)
    case CallError(m) => Consulted(Failure(ModelCallFailed(m)), [first])
    case Reply(text) =>
      match parse(StripMarkdown(text))
      case Some(analysis) => Consulted(Success(analysis), [first])
      case None =>
        var retry := RetryRequest(prompt, data);
        match reply(retry, before + 1)
        case CallError(m) => Consulted(Failure(ModelCallFailed(m)), [first, retry])
        case Reply(retryText) =>
          var cleaned := StripMarkdown(retryText);
          match parse(cleaned)
          case Some(analysis) => Consulted(Success(analysis), [first, retry])
          case None => Consulted(Failure(UnparsableAfterRetry(Excerpt(cleaned))), [first, retry])
  }

  /**
    What the model stage does: one or two calls, the retry exactly when the
    first reply arrived and did not parse once cleaned, success carrying the
    parse of the last cleaned reply, and failure only from a call that
    raised or a retry that did not parse, quoted in at most 500 characters.
  */
  lemma ConsultProperties(
    prompt: string, data: Bytes, parse: string -> Option<Json>,
    reply: (ModelRequest, nat) -> ModelReply, before: nat)
    // one or two calls: the prompt first, then the prompt with the JSON-only instruction, both with the same video
    ensures var c := Consult(prompt, data, parse, reply, before);
      1 <= |c.requests| <= 2 && c.requests[0] == FirstRequest(prompt, data) &&
      (|c.requests| == 2 ==> c.requests[1] == RetryRequest(prompt, data))
    // the retry happens exactly when the first reply arrived and its cleaned text did not parse
    ensures var c := Consult(prompt, data, parse, reply, before);
      var first := reply(FirstRequest(prompt, data), before);
      |c.requests| == 2 <==> first.Reply? && parse(StripMarkdown(first.text)).None?
    // a parsed value is the parse of the last reply's cleaned text
    ensures var c := Consult(prompt, data, parse, reply, before);
      var first := reply(FirstRequest(prompt, data), before);
      c.result.Success? && |c.requests| == 1 ==>
        first.Reply? && parse(StripMarkdown(first.text)) == Some(c.result.value)
    ensures var c := Consult(prompt, data, parse, reply, before);
      var second := reply(RetryRequest(prompt, data), before + 1);
      c.result.Success? && |c.requests| == 2 ==>
        second.Reply? && parse(StripMarkdown(second.text)) == Some(c.result.value)
    // the only failures: a call that raised, or a retry that did not parse, quoted in at most 500 characters
    ensures var c := Consult(prompt, data, parse, reply, before);
      c.result.Failure? ==> c.result.error.ModelCallFailed? || c.result.error.UnparsableAfterRetry?
    ensures var c := Consult(prompt, data, parse, reply, before);
      c.result.Failure? && c.result.error.ModelCallFailed? ==>
        (|c.requests| == 1 ==> reply(FirstRequest(prompt, data), before) == CallError(c.result.error.message)) &&
        (|c.requests| == 2 ==> reply(RetryRequest(prompt, data), before + 1) == CallError(c.result.error.message))
    ensures var c := Consult(prompt, data, parse, reply, before);
      var second := reply(RetryRequest(prompt, data), before + 1);
      c.result.Failure? && c.result.error.UnparsableAfterRetry? ==>
        |c.requests| == 2 && second.Reply? && parse(StripMarkdown(second.text)).None? &&
        c.result.error.excerpt == Excerpt(StripMarkdown(second.text)) &&
        |c.result.error.excerpt| <= ExcerptLimit && c.result.error.excerpt <= StripMarkdown(second.text)
  {
  }

  /**
    One `/analyze` request; `before` is the number of model calls made
    before it.
  */
  function Analyze(
    upload: Upload, prompt: string,
    probe: Bytes -> ProbeResult, parse: string -> Option<Json>,
    reply: (ModelRequest, nat) -> ModelReply, before: nat): (run: Run)
    // the gate: nothing is written and no model call is made for a non-video upload
    ensures !(VideoPrefix <= upload.contentType) ==> run == Run(Err(500, NotAVideo), [], false, false)
    // a video that does not probe fails before any model call, leaving its temporary file behind
    ensures VideoPrefix <= upload.contentType && probe(upload.content).Undecodable? ==>
      run == Run(Err(500, VideoUnreadable(probe(upload.content).message)), [], true, false)
    // otherwise the file is written and the model stage runs on the uploaded bytes
    ensures VideoPrefix <= upload.contentType && probe(upload.content).Decodable? ==>
      run.tempWritten && run.requests == Consult(prompt, upload.content, parse, reply, before).requests
    // a failed model stage is the request's failure
    ensures (VideoPrefix <= upload.contentType && probe(upload.content).Decodable? &&
             Consult(prompt, upload.content, parse, reply, before).result.Failure?) ==>
      run.outcome == Err(500, Consult(prompt, upload.content, parse, reply, before).result.error)
    // every failure is reported as 500
    ensures run.outcome.Err? ==> run.outcome.status == 500
    // the temporary file is removed exactly on success
    ensures run.tempRemoved <==> run.outcome.Ok?
    ensures run.tempRemoved ==> run.tempWritten
  {
    if !(VideoPrefix <= upload.contentType) then
      Run(Err(500, NotAVideo), [], false, false)
    else if probe(upload.content).Undecodable? then
      Run(Err(500, VideoUnreadable(probe(upload.content).message)), [], true, false)
    else
      var c := Consult(prompt, upload.content, parse, reply, before);
      match c.result
      case Failure(f) => Run(Err(500, f), c.requests, true, false)
      case Success(analysis) => Finish(analysis, c.requests)
  }

  // -----------------------------------------------------------------------
  // Properties of one request
  // -----------------------------------------------------------------------

  /**
    Success is all-or-nothing: it happens exactly when the parsed value of
    the last reply has the report shape, and the report is that value's four
    sections with every other key dropped; the temporary file is then gone.
  */
  lemma SuccessMeansReportShaped(
    upload: Upload, prompt: string,
    probe: Bytes -> ProbeResult, parse: string -> Option<Json>,
    reply: (ModelRequest, nat) -> ModelReply, before: nat)
    requires Analyze(upload, prompt, probe, parse, reply, before).outcome.Ok?
    ensures var run := Analyze(upload, prompt, probe, parse, reply, before);
      var c := Consult(prompt, upload.content, parse, reply, before);
      run.requests == c.requests && c.result.Success? &&
      IsReportShaped(c.result.value) && run.tempWritten && run.tempRemoved &&
      ReportToJson(run.outcome.report) == JObject(SectionsOf(c.result.value.fields))
  {
    var c := Consult(prompt, upload.content, parse, reply, before);
    assert VideoPrefix <= upload.contentType && probe(upload.content).Decodable?;
    assert c.result.Success?;
    assert Analyze(upload, prompt, probe, parse, reply, before) == Finish(c.result.value, c.requests);
  }

  /**
    The converse: a parsed value of the report shape makes the request
    succeed with that value's four sections, and the temporary file is gone.
  */
  lemma ShapedValueSucceeds(
    upload: Upload, prompt: string,
    probe: Bytes -> ProbeResult, parse: string -> Option<Json>,
    reply: (ModelRequest, nat) -> ModelReply, before: nat)
    requires VideoPrefix <= upload.contentType && probe(upload.content).Decodable?
    requires Consult(prompt, upload.content, parse, reply, before).result.Success?
    requires IsReportShaped(Consult(prompt, upload.content, parse, reply, before).result.value)
    ensures var run := Analyze(upload, prompt, probe, parse, reply, before);
      var analysis := Consult(prompt, upload.content, parse, reply, before).result.value;
      run.outcome == Ok(CheckReport(analysis).value) && run.tempRemoved &&
      ReportToJson(run.outcome.report) == JObject(SectionsOf(analysis.fields))
  {
    var c := Consult(prompt, upload.content, parse, reply, before);
    assert Analyze(upload, prompt, probe, parse, reply, before) == Finish(c.result.value, c.requests);
  }

  /**
    When the retry does not parse either, the request fails after two
    calls with a 500 whose detail quotes at most the first 500 characters
    of the cleaned retry text, and the temporary file stays behind.
  */
  lemma UnparsableRetryIsQuoted(
    upload: Upload, prompt: string,
    probe: Bytes -> ProbeResult, parse: string -> Option<Json>,
    reply: (ModelRequest, nat) -> ModelReply, before: nat)
    requires VideoPrefix <= upload.contentType && probe(upload.content).Decodable?
    requires reply(FirstRequest(prompt, upload.content), before).Reply?
    requires parse(StripMarkdown(reply(FirstRequest(prompt, upload.content), before).text)).None?
    requires reply(RetryRequest(prompt, upload.content), before + 1).Reply?
    requires parse(StripMarkdown(reply(RetryRequest(prompt, upload.content), before + 1).text)).None?
    ensures var run := Analyze(upload, prompt, probe, parse, reply, before);
      var cleaned := StripMarkdown(reply(RetryRequest(prompt, upload.content), before + 1).text);
      |run.requests| == 2 && run.tempWritten && !run.tempRemoved &&
      run.outcome.Err? && run.outcome.status == 500 && run.outcome.failure.UnparsableAfterRetry? &&
      var e := run.outcome.failure.excerpt;
      |e| <= ExcerptLimit && e <= cleaned && (|cleaned| > ExcerptLimit ==> |e| == ExcerptLimit) &&
      (|cleaned| <= ExcerptLimit ==> e == cleaned) &&
      var d := Detail(run.outcome.failure);
      d[|d| - |e|..] == e
  {
    var c := Consult(prompt, upload.content, parse, reply, before);
    assert c.result.Failure? && c.result.error.UnparsableAfterRetry?;
  }

  /**
    A parsed value without the report shape fails the request even though
    the model answered, and the temporary file stays behind.
  */
  lemma ShapelessValueFails(
    upload: Upload, prompt: string,
    probe: Bytes -> ProbeResult, parse: string -> Option<Json>,
    reply: (ModelRequest, nat) -> ModelReply, before: nat)
    requires VideoPrefix <= upload.contentType && probe(upload.content).Decodable?
    requires Consult(prompt, upload.content, parse, reply, before).result.Success?
    requires !IsReportShaped(Consult(prompt, upload.content, parse, reply, before).result.value)
    ensures var run := Analyze(upload, prompt, probe, parse, reply, before);
      var analysis := Consult(prompt, upload.content, parse, reply, before).result.value;
      run.outcome == Err(500, InvalidStructure(CheckReport(analysis).error)) &&
      run.tempWritten && !run.tempRemoved
  {
    var c := Consult(prompt, upload.content, parse, reply, before);
    assert Analyze(upload, prompt, probe, parse, reply, before) == Finish(c.result.value, c.requests);
  }

  /**
    A model reply that wraps a report in a JSON fence is accepted on the
    first call: the fence comes off, the body parses, and the report is
    returned with the temporary file removed.
  */
  lemma FencedReportAcceptedFirstTime(
    upload: Upload, prompt: string,
    probe: Bytes -> ProbeResult, parse: string -> Option<Json>,
    reply: (ModelRequest, nat) -> ModelReply, before: nat,
    w1: string, body: string, w2: string, report: AnalysisReport)
    requires VideoPrefix <= upload.contentType && probe(upload.content).Decodable?
    requires reply(FirstRequest(prompt, upload.content), before) == Reply(JsonFence + w1 + body + w2 + Fence)
    requires AllSpace(w1) && AllSpace(w2) && Trimmed(body) && FenceFree(body)
    requires body == [] || body[|body| - 1] != '`'
    requires parse(body) == Some(ReportToJson(report))
    ensures Analyze(upload, prompt, probe, parse, reply, before) ==
      Run(Ok(report), [FirstRequest(prompt, upload.content)], true, true)
  {
    FencedBodyRoundTrip(w1, body, w2);
    ReportRoundTrip(report);
  }

  // -----------------------------------------------------------------------
  // The handler against its environment
  // -----------------------------------------------------------------------

  /** The generative-model client: an oracle for replies, and the log of the requests sent to it. */
  class ModelClient {
    const reply: (ModelRequest, nat) -> ModelReply
    var sent: seq<ModelRequest>

    constructor (reply: (ModelRequest, nat) -> ModelReply)
      ensures this.reply == reply && sent == []
    {
      this.reply := reply;
      sent := [];
    }

    /** `model.generate_content(...)` followed by reading `.text`. */
    method GenerateContent(request: ModelRequest) returns (r: ModelReply)
      modifies this
      ensures sent == old(sent) + [request]
      ensures r == reply(request, |old(sent)|)
    {
      r := reply(request, |sent|);
      sent := sent + [request];
    }
  }

  /** The temporary files on disk, by name; fresh names are drawn from a counter. */
  class TempStore {
    var files: map<nat, Bytes>
    var nextName: nat

    ghost predicate Valid()
      reads this
    {
      forall name | name in files :: name < nextName
    }

    constructor ()
      ensures Valid() && files == map[] && nextName == 0
    {
      files := map[];
      nextName := 0;
    }

    /** `NamedTemporaryFile(delete=False)` then `write`: a new file under a name not in use. */
    method CreateWith(content: Bytes) returns (name: nat)
      requires Valid()
      modifies this
      ensures Valid()
      ensures name == old(nextName) && name !in old(files)
      ensures files == old(files)[name := content] && nextName == old(nextName) + 1
    {
      name := nextName;
      files := files[name := content];
      nextName := nextName + 1;
    }

    /** `open(name, "rb").read()`. */
    method Read(name: nat) returns (content: Bytes)
      requires name in files
      ensures content == files[name]
    {
      content := files[name];
    }

    /** `os.remove(name)`. */
    method Remove(name: nat)
      requires Valid() && name in files
      modifies this
      ensures Valid()
      ensures files == old(files) - {name} && nextName == old(nextName)
    {
      files := files - {name};
    }
  }

  lemma RemovingWhatWasAddedRestores(files: map<nat, Bytes>, name: nat, content: Bytes)
    requires name !in files
    ensures files[name := content] - {name} == files
  {
  }

  /**
    The model stage of `analyze_video` against the client: the answer and
    the requests added to the client's log are those `Consult` gives.
  */
  method ConsultModel(prompt: string, data: Bytes, parse: string -> Option<Json>, client: ModelClient)
    returns (result: Result<Json, AnalysisError>)
    modifies client
    ensures var c := Consult(prompt, data, parse, client.reply, |old(client.sent)|);
      result == c.result && client.sent == old(client.sent) + c.requests
  {
    ghost var before := |client.sent|;
    ghost var c := Consult(prompt, data, parse, client.reply, before);
    var first := client.GenerateContent(FirstRequest(prompt, data));
    if first.CallError? {
      assert c == Consulted(Failure(ModelCallFailed(first.message)), [FirstRequest(prompt, data)]);
      return Failure(ModelCallFailed(first.message));
    }
    var analysis := parse(StripMarkdown(first.text));
    if analysis.Some? {
      assert c == Consulted(Success(analysis.value), [FirstRequest(prompt, data)]);
      return Success(analysis.value);
    }

    var retry := client.GenerateContent(RetryRequest(prompt, data));
    assert client.sent == old(client.sent) + [FirstRequest(prompt, data), RetryRequest(prompt, data)];
    assert c.requests == [FirstRequest(prompt, data), RetryRequest(prompt, data)];
    if retry.CallError? {
      assert c.result == Failure(ModelCallFailed(retry.message));
      return Failure(ModelCallFailed(retry.message));
    }
    var cleanedRetry := StripMarkdown(retry.text);
    analysis := parse(cleanedRetry);
    if analysis.None? {
      assert c.result == Failure(UnparsableAfterRetry(Excerpt(cleanedRetry)));
      return Failure(UnparsableAfterRetry(Excerpt(cleanedRetry)));
    }
    result := Success(analysis.value);
  }

  /**
    `analyze_video`: the same steps as `Analyze`, run against the model
    client and the temporary-file store. The answer, the requests added to
    the client's log and the files left behind are those `Analyze` gives.
  */
  method AnalyzeVideo(
    upload: Upload, prompt: string,
    probe: Bytes -> ProbeResult, parse: string -> Option<Json>,
    client: ModelClient, store: TempStore) returns (outcome: Outcome)
    requires store.Valid()
    modifies client, store
    ensures store.Valid()
    ensures var run := Analyze(upload, prompt, probe, parse, client.reply, |old(client.sent)|);
      outcome == run.outcome &&
      client.sent == old(client.sent) + run.requests &&
      store.nextName == old(store.nextName) + (if run.tempWritten then 1 else 0) &&
      store.files == if run.tempWritten && !run.tempRemoved
                     then old(store.files)[old(store.nextName) := upload.content]
                     else old(store.files)
  {
    ghost var before := |client.sent|;
    if !(VideoPrefix <= upload.contentType) {
      return Err(500, NotAVideo);
    }

    var path := store.CreateWith(upload.content);

    var stored := store.Read(path);
    var probed := probe(stored);
    if probed.Undecodable? {
      return Err(500, VideoUnreadable(probed.message));
    }

    var data := store.Read(path);
    var analysis := ConsultModel(prompt, data, parse, client);
    ghost var c := Consult(prompt, upload.content, parse, client.reply, before);
    assert analysis == c.result && client.sent == old(client.sent) + c.requests;
    if analysis.Failure? {
      assert Analyze(upload, prompt, probe, parse, client.reply, before) == Run(Err(500, analysis.error), c.requests, true, false);
      return Err(500, analysis.error);
    }

    var checked := CheckReport(analysis.value);
    assert Analyze(upload, prompt, probe, parse, client.reply, before) == Finish(analysis.value, c.requests);
    if checked.Failure? {
      assert Finish(analysis.value, c.requests) == Run(Err(500, InvalidStructure(checked.error)), c.requests, true, false);
      return Err(500, InvalidStructure(checked.error));
    }

    assert Finish(analysis.value, c.requests) == Run(Ok(checked.value), c.requests, true, true);
    store.Remove(path);
    RemovingWhatWasAddedRestores(old(store.files), path, upload.content);
    outcome := Ok(checked.value);
  }
}

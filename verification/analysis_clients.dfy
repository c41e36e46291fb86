/**
 * The two clients of the analysis services (`musicprocessing/F0.py` and
 * `musicprocessing/volume.py`).  Each filters its argument dictionary down to
 * the stems its service analyses, posts them as JSON, and turns every failure
 * of the exchange into an `{"error": …}` dictionary.  The exchange itself (the
 * POST, `raise_for_status` and `response.json()`) is an input of the model.
 */
module AnalysisClients {
  import opened Wrappers
  import opened Text

  // ---------------------------------------------------------------------------
  // Arguments and payloads

  /** A value of the argument dictionary: a string, or anything else. */
  datatype PathValue = Str(s: String) | NotAString

  /** The argument: something that is not a dictionary, or a dictionary's items
      in iteration order. */
  datatype StemArgument = NotADict | Dict(items: seq<(String, PathValue)>)

  /** `path and isinstance(path, str)` */
  predicate IsUsablePath(p: PathValue) {
    p.Str? && p.s != []
  }

  /** The dictionary a filter loop builds: every kept item, a later item with the
      same key replacing an earlier one. */
  function Filtered(items: seq<(String, PathValue)>, keep: ((String, PathValue)) -> bool): map<String, String> {
    if items == [] then map[]
    else
      var payload := Filtered(items[..|items| - 1], keep);
      var item := items[|items| - 1];
      if keep(item) && item.1.Str? then payload[item.0 := item.1.s] else payload
  }

  /** A key is in the payload exactly when some kept item has it, and its value
      is the path of such an item. */
  lemma {:induction false} FilteredExactly(items: seq<(String, PathValue)>, keep: ((String, PathValue)) -> bool, k: String)
    ensures k in Filtered(items, keep) <==> exists i :: 0 <= i < |items| && items[i].0 == k && keep(items[i]) && items[i].1.Str?
    ensures k in Filtered(items, keep) ==> exists i :: 0 <= i < |items| && items[i] == (k, Str(Filtered(items, keep)[k])) && keep(items[i])
  {
    if items != [] {
      var n := |items| - 1;
      FilteredExactly(items[..n], keep, k);
      var item := items[n];
      if keep(item) && item.1.Str? && item.0 == k {
        assert items[n] == (k, Str(Filtered(items, keep)[k]));
      } else {
        assert k in Filtered(items, keep) <==> k in Filtered(items[..n], keep);
        assert k in Filtered(items, keep) ==> Filtered(items, keep)[k] == Filtered(items[..n], keep)[k];
        forall i | 0 <= i < n
          ensures items[..n][i] == items[i]
        {
        }
      }
    }
  }

  /** The instruments the F0 service analyses. */
  predicate IsF0Instrument(name: String) {
    name in {"vocals", "bass", "guitar", "piano", "other"}
  }

  /** The tracks the volume service analyses: the whole song and every stem. */
  predicate IsVolumeTrack(name: String) {
    name in {"song", "bass", "drums", "guitar", "other", "piano", "vocals"}
  }

  /** The F0 filter: drums are skipped first, then a relevant instrument with a
      usable path is kept under its original key. */
  predicate F0Keeps(item: (String, PathValue)) {
    Lower(item.0) != "drums" && IsUsablePath(item.1) && IsF0Instrument(Lower(item.0))
  }

  predicate VolumeKeeps(item: (String, PathValue)) {
    IsUsablePath(item.1) && IsVolumeTrack(Lower(item.0))
  }

  /** The loop building `payload_stems`. */
  method FilterF0Stems(items: seq<(String, PathValue)>) returns (payloadStems: map<String, String>)
    ensures payloadStems == Filtered(items, F0Keeps)
  {
    payloadStems := map[];
    for i := 0 to |items|
      invariant payloadStems == Filtered(items[..i], F0Keeps)
    {
      assert items[..i + 1][..i] == items[..i];
      var (instrument, path) := items[i];
      var instrumentLower := Lower(instrument);
      if instrumentLower == "drums" {
        continue;
      }
      if path.Str? && path.s != [] && IsF0Instrument(instrumentLower) {
        payloadStems := payloadStems[instrument := path.s];
      }
    }
    assert items[..|items|] == items;
  }

  /** The loop building `payload_data`. */
  method FilterVolumeTracks(items: seq<(String, PathValue)>) returns (payloadData: map<String, String>)
    ensures payloadData == Filtered(items, VolumeKeeps)
  {
    payloadData := map[];
    for i := 0 to |items|
      invariant payloadData == Filtered(items[..i], VolumeKeeps)
    {
      assert items[..i + 1][..i] == items[..i];
      var (audioFile, path) := items[i];
      if path.Str? && path.s != [] && IsVolumeTrack(Lower(audioFile)) {
        payloadData := payloadData[audioFile := path.s];
      }
    }
    assert items[..|items|] == items;
  }

  /** No key that lower-cases to `drums` ever reaches the F0 service, and every
      key that does names one of its five instruments and carries a non-empty path. */
  lemma F0PayloadHasNoDrums(items: seq<(String, PathValue)>, k: String)
    requires k in Filtered(items, F0Keeps)
    ensures Lower(k) != "drums" && IsF0Instrument(Lower(k)) && Filtered(items, F0Keeps)[k] != []
  {
    FilteredExactly(items, F0Keeps, k);
  }

  /** A usable drums stem, wherever it sits in the argument (whose keys, as a
      dictionary's, are distinct), reaches the volume service with its path but
      never the F0 service. */
  lemma DrumsOnlyForVolume(items: seq<(String, PathValue)>, j: int, p: String)
    requires 0 <= j < |items| && items[j] == ("drums", Str(p)) && p != []
    requires forall a, b :: 0 <= a < b < |items| ==> items[a].0 != items[b].0
    ensures "drums" in Filtered(items, VolumeKeeps)
    ensures Filtered(items, VolumeKeeps)["drums"] == p
    ensures "drums" !in Filtered(items, F0Keeps)
  {
    assert Lower("drums") == "drums";
    assert VolumeKeeps(items[j]);
    FilteredExactly(items, VolumeKeeps, "drums");
    var i :| 0 <= i < |items| && items[i] == ("drums", Str(Filtered(items, VolumeKeeps)["drums"])) && VolumeKeeps(items[i]);
    assert i == j;
    if "drums" in Filtered(items, F0Keeps) {
      F0PayloadHasNoDrums(items, "drums");
    }
  }

  // ---------------------------------------------------------------------------
  // The exchange with the service

  /** The handled exception classes, in the order of the `except` clauses. */
  datatype ErrorClass = HTTPError | ConnectionError | Timeout | RequestException | ValueError

  /** A response as an exception may carry it. */
  datatype HttpResponse = HttpResponse(status: int, text: String)

  /** An exception raised inside the `try`: the handled classes it is an instance
      of (none for any other exception), its `str()`, and the response it carries. */
  datatype Raised = Raised(classes: set<ErrorClass>, text: String, response: Option<HttpResponse>)

  /** The decoded JSON body, kept as the document the service sent. */
  datatype Document = Document(json: String)

  /** What `response.json()` does. */
  datatype DecodeOutcome = Parsed(doc: Document) | DecodeRaised(exc: Raised)

  /** What the POST does: it raises, or it yields a response (its status and
      body text) whose status `raise_for_status` checks, raising an exception
      whose `str()` is `statusError`, and whose body is then decoded. */
  datatype Exchange = PostRaised(exc: Raised) | Responded(status: int, text: String, statusError: String, body: DecodeOutcome)

  /** `raise_for_status` raises for the client and server error ranges. */
  predicate IsErrorStatus(status: int) {
    400 <= status < 600
  }

  /** A `requests` response is truthy exactly when its status is below 400. */
  predicate IsTruthy(r: HttpResponse) {
    r.status < 400
  }

  /** The exception `raise_for_status` raises: an `HTTPError` (a kind of
      `RequestException`) that carries the response. */
  function StatusError(exchange: Exchange): Raised
    requires exchange.Responded?
  {
    Raised({HTTPError, RequestException}, exchange.statusError, Some(HttpResponse(exchange.status, exchange.text)))
  }

  /** The message texts of one client, one per `except` clause. */
  datatype ServiceMessages = ServiceMessages(httpError: String, connection: String, timeout: String, request: String, decode: String)

  const F0Messages := ServiceMessages(
    "HTTP error occurred calling F0 service: ",
    "Connection error calling F0 service: ",
    "Timeout calling F0 service: ",
    "Request exception calling F0 service: ",
    "Error decoding JSON response from F0 service: ")

  const VolumeMessages := ServiceMessages(
    "HTTP Error occurred while calling Volume service: ",
    "Connection error calling Volume service: ",
    "Timeout calling Volume service: ",
    "Request exception calling Volume service: ",
    "Error decoding JSON response from Volume service: ")

  /** The response part of an HTTP error message as the code writes it: the
      response text only when the response is truthy. */
  function HttpErrorDetailAsWritten(exc: Raised): String {
    if exc.response.Some? && IsTruthy(exc.response.value) then exc.response.value.text else "No response text"
  }

  /** A response that failed `raise_for_status` is never truthy, so as written
      the message of a status error never shows the response text. */
  lemma StatusErrorHidesResponseText(status: int, text: String)
    requires IsErrorStatus(status)
    ensures HttpErrorDetailAsWritten(Raised({HTTPError, RequestException}, [], Some(HttpResponse(status, text)))) == "No response text"
  {
  }

  /** The response part as intended: the response text whenever the exception
      carries a response. */
  function HttpErrorDetail(exc: Raised): (r: String)
    ensures exc.response.Some? ==> r == exc.response.value.text
    ensures exc.response.None? ==> r == "No response text"
  {
    if exc.response.Some? then exc.response.value.text else "No response text"
  }

  /** A 500 response with a body: the code as written drops the body, the
      intended detail is the body. */
  lemma StatusErrorDetailExample()
    ensures var exc := Raised({HTTPError, RequestException}, [], Some(HttpResponse(500, "Internal Server Error")));
      HttpErrorDetailAsWritten(exc) == "No response text" && HttpErrorDetail(exc) == "Internal Server Error"
  {
  }

  /** The result of a client call. */
  datatype AnalysisResult =
    | ErrorDict(error: String)
    | InfoDict(info: String)
    | ServiceResult(doc: Document)
    | Propagates(exc: Raised)

  /** Which response detail an HTTP error message carries: the code as written
      or the evident intention. */
  datatype DetailRule = AsWritten | AsIntended

  function Detail(rule: DetailRule, exc: Raised): String {
    if rule.AsWritten? then HttpErrorDetailAsWritten(exc) else HttpErrorDetail(exc)
  }

  /** The `except` clauses: the first clause whose class the exception belongs to
      produces the error dictionary; an exception of no handled class propagates. */
  function Handle(exc: Raised, m: ServiceMessages, rule: DetailRule): AnalysisResult {
    if HTTPError in exc.classes then ErrorDict(m.httpError + exc.text + " - Response: " + Detail(rule, exc))
    else if ConnectionError in exc.classes then ErrorDict(m.connection + exc.text)
    else if Timeout in exc.classes then ErrorDict(m.timeout + exc.text)
    else if RequestException in exc.classes then ErrorDict(m.request + exc.text)
    else if ValueError in exc.classes then ErrorDict(m.decode + exc.text)
    else Propagates(exc)
  }

  /** Exactly the exceptions of a handled class become an error dictionary. */
  lemma HandleCatchesExactly(exc: Raised, m: ServiceMessages, rule: DetailRule)
    ensures Handle(exc, m, rule).ErrorDict? <==> exc.classes != {}
    ensures Handle(exc, m, rule).Propagates? <==> exc.classes == {}
  {
    if exc.classes != {} {
      var c :| c in exc.classes;
      assert c.HTTPError? || c.ConnectionError? || c.Timeout? || c.RequestException? || c.ValueError?;
    }
  }

  /** Clause order decides for exceptions of several classes: a connect timeout
      (both a `ConnectionError` and a `Timeout`) is reported as a connection
      error, and a decoding error that is also a `RequestException` (as the
      `JSONDecodeError` of recent `requests` releases is) as a request exception. */
  lemma ClauseOrderDecides(text: String, m: ServiceMessages, rule: DetailRule)
    ensures Handle(Raised({ConnectionError, Timeout, RequestException}, text, None), m, rule) == ErrorDict(m.connection + text)
    ensures Handle(Raised({RequestException, ValueError}, text, None), m, rule) == ErrorDict(m.request + text)
  {
  }

  /** The `try` block: post, `raise_for_status`, `response.json()`. */
  function Reply(exchange: Exchange, m: ServiceMessages, rule: DetailRule): AnalysisResult {
    match exchange
    case PostRaised(exc) => Handle(exc, m, rule)
    case Responded(status, _, _, body) =>
      if IsErrorStatus(status) then Handle(StatusError(exchange), m, rule)
      else
        match body
        case Parsed(doc) => ServiceResult(doc)
        case DecodeRaised(exc) => Handle(exc, m, rule)
  }

  /** The service's document is returned unchanged exactly when the POST
      succeeds, the status is not an error and the body decodes. */
  lemma ReplyReturnsDocument(exchange: Exchange, m: ServiceMessages, rule: DetailRule, doc: Document)
    ensures Reply(exchange, m, rule) == ServiceResult(doc) <==>
      exchange.Responded? && !IsErrorStatus(exchange.status) && exchange.body == Parsed(doc)
  {
    match exchange
    case PostRaised(exc) =>
      HandleCatchesExactly(exc, m, rule);
    case Responded(status, _, _, body) =>
      if IsErrorStatus(status) {
        HandleCatchesExactly(StatusError(exchange), m, rule);
      } else if body.DecodeRaised? {
        HandleCatchesExactly(body.exc, m, rule);
      }
  }

  /** As written, every 4xx or 5xx reply reports "No response text", whatever
      body the service sent. */
  lemma ErrorStatusMessageAsWritten(exchange: Exchange, m: ServiceMessages)
    requires exchange.Responded? && IsErrorStatus(exchange.status)
    ensures Reply(exchange, m, AsWritten) == ErrorDict(m.httpError + exchange.statusError + " - Response: No response text")
  {
    StatusErrorHidesResponseText(exchange.status, exchange.text);
  }

  /** As intended, an error status yields the HTTP error message with the
      response's text. */
  lemma ErrorStatusMessage(exchange: Exchange, m: ServiceMessages)
    requires exchange.Responded? && IsErrorStatus(exchange.status)
    ensures Reply(exchange, m, AsIntended) == ErrorDict(m.httpError + exchange.statusError + " - Response: " + exchange.text)
  {
  }

  /** The JSON body the client posts: the filtered dictionary under one key. */
  datatype RequestBody = RequestBody(key: String, paths: map<String, String>)

  /** `request_f0_analysis`.  `sent` is the body posted to the F0 service, `None`
      when no request is made. */
  method RequestF0Analysis(stemPaths: StemArgument, exchange: Exchange)
    returns (sent: Option<RequestBody>, result: AnalysisResult)
    ensures (stemPaths.NotADict? || stemPaths.items == []) ==>
      sent == None && result == ErrorDict("No stem paths provided for F0 analysis.")
    ensures stemPaths.Dict? && stemPaths.items != [] && Filtered(stemPaths.items, F0Keeps) == map[] ==>
      sent == None && result == InfoDict("No relevant stems were submitted for F0 analysis.")
    ensures stemPaths.Dict? && stemPaths.items != [] && Filtered(stemPaths.items, F0Keeps) != map[] ==>
      sent == Some(RequestBody("stem_paths", Filtered(stemPaths.items, F0Keeps))) && result == Reply(exchange, F0Messages, AsWritten)
    ensures stemPaths.Dict? && Filtered(stemPaths.items, F0Keeps) != map[] && exchange.Responded? && IsErrorStatus(exchange.status) ==>
      result == ErrorDict(F0Messages.httpError + exchange.statusError + " - Response: No response text")
  {
    if stemPaths.NotADict? || stemPaths.items == [] {
      return None, ErrorDict("No stem paths provided for F0 analysis.");
    }
    var payloadStems := FilterF0Stems(stemPaths.items);
    if payloadStems == map[] {
      return None, InfoDict("No relevant stems were submitted for F0 analysis.");
    }
    sent := Some(RequestBody("stem_paths", payloadStems));
    result := Reply(exchange, F0Messages, AsWritten);
    if exchange.Responded? && IsErrorStatus(exchange.status) {
      ErrorStatusMessageAsWritten(exchange, F0Messages);
    }
  }

  /** `request_volume_analysis`.  Unlike the F0 client, an argument with nothing
      to analyse is an error, not information. */
  method RequestVolumeAnalysis(audioData: StemArgument, exchange: Exchange)
    returns (sent: Option<RequestBody>, result: AnalysisResult)
    ensures (audioData.NotADict? || audioData.items == []) ==>
      sent == None && result == ErrorDict("No audio or stems provided for Volume analysis")
    ensures audioData.Dict? && audioData.items != [] && Filtered(audioData.items, VolumeKeeps) == map[] ==>
      sent == None && result == ErrorDict("No audio was submitted for volume analysis!")
    ensures audioData.Dict? && audioData.items != [] && Filtered(audioData.items, VolumeKeeps) != map[] ==>
      sent == Some(RequestBody("audio_paths", Filtered(audioData.items, VolumeKeeps))) && result == Reply(exchange, VolumeMessages, AsWritten)
    ensures audioData.Dict? && Filtered(audioData.items, VolumeKeeps) != map[] && exchange.Responded? && IsErrorStatus(exchange.status) ==>
      result == ErrorDict(VolumeMessages.httpError + exchange.statusError + " - Response: No response text")
  {
    if audioData.NotADict? || audioData.items == [] {
      return None, ErrorDict("No audio or stems provided for Volume analysis");
    }
    var payloadData := FilterVolumeTracks(audioData.items);
    if payloadData == map[] {
      return None, ErrorDict("No audio was submitted for volume analysis!");
    }
    sent := Some(RequestBody("audio_paths", payloadData));
    result := Reply(exchange, VolumeMessages, AsWritten);
    if exchange.Responded? && IsErrorStatus(exchange.status) {
      ErrorStatusMessageAsWritten(exchange, VolumeMessages);
    }
  }
}

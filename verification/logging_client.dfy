/** `RAGLoggingClient`: the enable gate, session-id derivation, normalisation of
    retrieved contexts into log rows, the capped log record and the result of
    posting it. The HTTP client, clock, MD5 and uuid are oracles. */
module RagLogging {
  import opened Wrappers
  import opened PyText
  import opened PyValues

  // ---------------------------------------------------------------------------
  // Enable gate (__init__)
  // ---------------------------------------------------------------------------

  /** `ENABLE_LOGGING` (default "true"), lower-cased, must be "true", and httpx
      must be importable. ASCII lowering decides this comparison exactly: no
      non-ASCII character lowers to one of "t", "r", "u", "e". */
  function Enabled(enableLogging: Option<string>, httpxAvailable: bool): (e: bool)
    ensures e ==> httpxAvailable
    ensures enableLogging.None? ==> e == httpxAvailable
  {
    AsciiLower(enableLogging.GetOr("true")) == "true" && httpxAvailable
  }

  /** The spellings that switch logging on: "true" in any mix of letter cases. */
  predicate CaseOfTrue(v: string) {
    |v| == 4
    && v[0] in {'t', 'T'} && v[1] in {'r', 'R'} && v[2] in {'u', 'U'} && v[3] in {'e', 'E'}
  }

  lemma EnabledSpellings(v: string)
    ensures Enabled(Some(v), true) <==> CaseOfTrue(v)
  {
    if Enabled(Some(v), true) {
      assert AsciiLower(v) == "true";
      assert AsciiLower(v)[0] == 't' && AsciiLower(v)[1] == 'r';
      assert AsciiLower(v)[2] == 'u' && AsciiLower(v)[3] == 'e';
    }
    if CaseOfTrue(v) {
      assert AsciiLower(v) == "true";
    }
  }

  // ---------------------------------------------------------------------------
  // Session ids (_extract_session_id)
  // ---------------------------------------------------------------------------

  /** `d and d.get(key)`: the dict is non-empty and holds a non-empty value at `key`. */
  predicate HasValue(info: Option<map<string, string>>, key: string) {
    info.Some? && |info.value| > 0 && key in info.value && info.value[key] != ""
  }

  /** A supplied session id wins; else "ip_" + 12 characters of the MD5 digest of
      "<ip>_<YYYYMMDD>"; else "temp_" + 12 characters of a fresh uuid. */
  function ExtractSessionId(
    info: Option<map<string, string>>, md5Hex: string -> string, today: string, uuidHex: string): (r: string)
    ensures HasValue(info, "session_id") ==> r == info.value["session_id"]
    ensures !HasValue(info, "session_id") && HasValue(info, "user_ip") ==>
      r == "ip_" + Prefix(md5Hex(info.value["user_ip"] + "_" + today), 12)
    ensures !HasValue(info, "session_id") && !HasValue(info, "user_ip") ==>
      r == "temp_" + Prefix(uuidHex, 12)
  {
    if HasValue(info, "session_id") then info.value["session_id"]
    else if HasValue(info, "user_ip") then
      "ip_" + Prefix(md5Hex(info.value["user_ip"] + "_" + today), 12)
    else "temp_" + Prefix(uuidHex, 12)
  }

  /** With 32-character digests, a generated id is its prefix plus exactly 12
      characters, and a non-empty supplied id is returned untouched. */
  lemma GeneratedSessionIdShape(
    info: Option<map<string, string>>, md5Hex: string -> string, today: string, uuidHex: string)
    requires forall s :: |md5Hex(s)| == 32
    requires |uuidHex| == 32
    ensures var r := ExtractSessionId(info, md5Hex, today, uuidHex);
      (HasValue(info, "session_id") && r != "")
      || (StartsWith(r, "ip_") && |r| == 15)
      || (StartsWith(r, "temp_") && |r| == 17)
  {
  }

  // ---------------------------------------------------------------------------
  // Context normalisation (_convert_contexts_to_log_format)
  // ---------------------------------------------------------------------------

  /** A retrieved context: a LangChain Document, an already converted dict, or any
      other object, given by its `str()`. */
  datatype Context =
    | DocContext(doc: Document)
    | DictContext(entries: map<string, Value>)
    | OtherContext(text: string)

  /** Retrieved Documents as contexts, in order. */
  function DocContexts(docs: seq<Document>): (cs: seq<Context>)
    ensures |cs| == |docs|
    ensures forall i :: 0 <= i < |docs| ==> cs[i] == DocContext(docs[i])
  {
    seq(|docs|, i requires 0 <= i < |docs| => DocContext(docs[i]))
  }

  /** One context row as the log server stores it. */
  datatype LogContext = LogContext(
    content: string,
    sourceDocument: string,
    header1: string,
    header2: string,
    similarityScore: Option<real>,
    chunkMetadata: Value)

  /** The keys a Document's metadata shares with the row's own columns. */
  const ColumnKeys: set<string> := {"source", "Header 1", "Header 2", "score"}

  /** A string value capped at 500 characters; other values as they are. */
  function CapValue(v: Value): (r: Value)
    ensures v.Str? ==> r == Str(Prefix(v.s, 500))
    ensures !v.Str? ==> r == v
  {
    if v.Str? then Str(Prefix(v.s, 500)) else v
  }

  /** `chunk_metadata` of a Document: the remaining keys with non-None values. */
  function ChunkMetadata(md: Metadata): (r: map<string, Value>)
    ensures forall k :: k in r <==> k in md && k !in ColumnKeys && md[k] != NoneValue
    ensures forall k :: k in r ==> r[k] == CapValue(md[k])
    ensures forall k :: k in r && r[k].Str? ==> |r[k].s| <= 500
  {
    map k | k in md && k !in ColumnKeys && md[k] != NoneValue :: CapValue(md[k])
  }

  /** `float(d.get(key, 0.0)) if d.get(key) else None`; `float` may raise. */
  function Score(d: map<string, Value>, key: string, toFloat: Value -> Result<real, PyError>)
    : (r: Result<Option<real>, PyError>)
    ensures !(key in d && Truthy(d[key])) ==> r == Ok(None)
    ensures key in d && Truthy(d[key]) ==>
      (toFloat(d[key]).Ok? ==> r == Ok(Some(toFloat(d[key]).value)))
      && (toFloat(d[key]).Err? ==> r == Err(toFloat(d[key]).error))
  {
    if key in d && Truthy(d[key]) then
      match toFloat(d[key])
      case Ok(f) => Ok(Some(f))
      case Err(e) => Err(e)
    else Ok(None)
  }

  /** `str(d.get(key, ""))[:n]`. */
  function Field(d: map<string, Value>, key: string, n: nat, render: Value -> string): (r: string)
    ensures |r| <= n
    ensures key !in d ==> r == ""
    ensures key in d && d[key].Str? ==> r == Prefix(d[key].s, n)
  {
    Prefix(ToStr(Get(d, key, Str("")), render), n)
  }

  /** One context as a log row; raises only when a truthy score is not a number. */
  function ConvertContext(c: Context, render: Value -> string, toFloat: Value -> Result<real, PyError>)
    : (r: Result<LogContext, PyError>)
    ensures r.Ok? ==> |r.value.content| <= 5000 && |r.value.sourceDocument| <= 255
    ensures r.Ok? ==> |r.value.header1| <= 255 && |r.value.header2| <= 255
    ensures c.OtherContext? ==>
      r == Ok(LogContext(Prefix(c.text, 5000), "unknown", "", "", None, Dict(map[])))
    ensures c.DocContext? && r.Ok? ==>
      r.value.content == Prefix(c.doc.pageContent, 5000)
      && r.value.chunkMetadata == Dict(ChunkMetadata(c.doc.metadata))
    ensures c.DocContext? ==> (r.Ok? <==> Score(c.doc.metadata, "score", toFloat).Ok?)
    ensures c.DictContext? ==> (r.Ok? <==> Score(c.entries, "similarity_score", toFloat).Ok?)
    ensures c.DocContext? && r.Ok? ==>
      && r.value.sourceDocument == Field(c.doc.metadata, "source", 255, render)
      && r.value.header1 == Field(c.doc.metadata, "Header 1", 255, render)
      && r.value.header2 == Field(c.doc.metadata, "Header 2", 255, render)
      && r.value.similarityScore == Score(c.doc.metadata, "score", toFloat).value
    ensures c.DictContext? && r.Ok? ==>
      && r.value.content == Field(c.entries, "content", 5000, render)
      && r.value.sourceDocument == Field(c.entries, "source_document", 255, render)
      && r.value.header1 == Field(c.entries, "header1", 255, render)
      && r.value.header2 == Field(c.entries, "header2", 255, render)
      && r.value.similarityScore == Score(c.entries, "similarity_score", toFloat).value
      && r.value.chunkMetadata == Get(c.entries, "chunk_metadata", Dict(map[]))
  {
    match c
    case DocContext(doc) =>
      var md := doc.metadata;
      (match Score(md, "score", toFloat)
       case Err(e) => Err(e)
       case Ok(score) =>
         Ok(LogContext(
           Prefix(doc.pageContent, 5000),
           Field(md, "source", 255, render),
           Field(md, "Header 1", 255, render),
           Field(md, "Header 2", 255, render),
           score,
           Dict(ChunkMetadata(md)))))
    case DictContext(d) =>
      (match Score(d, "similarity_score", toFloat)
       case Err(e) => Err(e)
       case Ok(score) =>
         Ok(LogContext(
           Field(d, "content", 5000, render),
           Field(d, "source_document", 255, render),
           Field(d, "header1", 255, render),
           Field(d, "header2", 255, render),
           score,
           Get(d, "chunk_metadata", Dict(map[])))))
    case OtherContext(text) =>
      Ok(LogContext(Prefix(text, 5000), "unknown", "", "", None, Dict(map[])))
  }

  /** A log row as the dict `_convert_contexts_to_log_format` builds for it. */
  function LogEntries(lc: LogContext): map<string, Value> {
    map[
      "content" := Str(lc.content),
      "source_document" := Str(lc.sourceDocument),
      "header1" := Str(lc.header1),
      "header2" := Str(lc.header2),
      "similarity_score" := (if lc.similarityScore.Some? then Float(lc.similarityScore.value) else NoneValue),
      "chunk_metadata" := lc.chunkMetadata]
  }

  /** The log format is a fixed point of the conversion: a row within the length
      caps, handed back in as a dict, converts to itself, except that a score of
      0.0 is falsy and is logged as None. Python's `float` of a float is that float. */
  lemma LogFormatStable(lc: LogContext, render: Value -> string, toFloat: Value -> Result<real, PyError>)
    requires |lc.content| <= 5000 && |lc.sourceDocument| <= 255
    requires |lc.header1| <= 255 && |lc.header2| <= 255
    requires lc.similarityScore.Some? ==>
      toFloat(Float(lc.similarityScore.value)) == Ok(lc.similarityScore.value)
    ensures ConvertContext(DictContext(LogEntries(lc)), render, toFloat)
      == Ok(lc.(similarityScore := if lc.similarityScore == Some(0.0) then None else lc.similarityScore))
  {
    var d := LogEntries(lc);
    assert Field(d, "content", 5000, render) == lc.content;
    assert Field(d, "source_document", 255, render) == lc.sourceDocument;
    assert Field(d, "header1", 255, render) == lc.header1;
    assert Field(d, "header2", 255, render) == lc.header2;
  }

  /** Every context in order, or the first conversion error. */
  function ConvertContexts(cs: seq<Context>, render: Value -> string, toFloat: Value -> Result<real, PyError>)
    : (r: Result<seq<LogContext>, PyError>)
    ensures r.Ok? <==> forall i :: 0 <= i < |cs| ==> ConvertContext(cs[i], render, toFloat).Ok?
    ensures r.Ok? ==> |r.value| == |cs|
    ensures r.Ok? ==> forall i :: 0 <= i < |cs| ==> r.value[i] == ConvertContext(cs[i], render, toFloat).value
  {
    if |cs| == 0 then Ok([])
    else match ConvertContext(cs[0], render, toFloat)
      case Err(e) => Err(e)
      case Ok(c) =>
        match ConvertContexts(cs[1..], render, toFloat)
        case Err(e) => Err(e)
        case Ok(rest) => Ok([c] + rest)
  }

  // ---------------------------------------------------------------------------
  // Records and sending (log_conversation, log_conversation_background)
  // ---------------------------------------------------------------------------

  /** The arguments of one `log_conversation` call. */
  datatype LogCall = LogCall(
    sessionId: string,
    userQuestion: string,
    contexts: seq<Context>,
    ragResponse: string,
    modelUsed: string,
    responseTimeMs: int,
    questionLanguage: string,
    responseLanguage: string,
    userIp: Option<string>,
    userAgent: Option<string>)

  /** The JSON body posted to "<server>/api/log". */
  datatype LogRecord = LogRecord(
    sessionId: string,
    userQuestion: string,
    contexts: seq<LogContext>,
    ragResponse: string,
    modelUsed: string,
    responseTimeMs: int,
    questionLanguage: string,
    responseLanguage: string,
    userIp: Option<string>,
    userAgent: Option<string>,
    contextsCount: nat,
    loggedAt: string,
    ragServer: string)

  const RagServerName := "cheeseade-rag-server"

  /** `s[:n] if s else None`. */
  function CapOptional(s: Option<string>, n: nat): (r: Option<string>)
    ensures r.Some? <==> s.Some? && s.value != ""
    ensures r.Some? ==> r.value == Prefix(s.value, n) && |r.value| <= n
  {
    if s.Some? && s.value != "" then Some(Prefix(s.value, n)) else None
  }

  /** The record for a call whose contexts converted to `converted`. */
  function BuildRecord(call: LogCall, converted: seq<LogContext>, loggedAt: string): (r: LogRecord)
    ensures |r.sessionId| <= 255 && |r.userQuestion| <= 2000 && |r.ragResponse| <= 5000
    ensures |r.modelUsed| <= 100 && |r.questionLanguage| <= 10 && |r.responseLanguage| <= 10
    ensures r.userIp.Some? ==> |r.userIp.value| <= 45
    ensures r.userAgent.Some? ==> |r.userAgent.value| <= 500
    ensures r.contexts == converted && r.contextsCount == |converted|
    ensures r.sessionId == Prefix(call.sessionId, 255) && r.userQuestion == Prefix(call.userQuestion, 2000)
    ensures r.ragResponse == Prefix(call.ragResponse, 5000) && r.modelUsed == Prefix(call.modelUsed, 100)
    ensures r.questionLanguage == Prefix(call.questionLanguage, 10)
    ensures r.responseLanguage == Prefix(call.responseLanguage, 10)
    ensures r.userIp == CapOptional(call.userIp, 45) && r.userAgent == CapOptional(call.userAgent, 500)
    ensures StartsWith(call.sessionId, r.sessionId) && StartsWith(call.userQuestion, r.userQuestion)
    ensures StartsWith(call.ragResponse, r.ragResponse) && StartsWith(call.modelUsed, r.modelUsed)
    ensures r.responseTimeMs == call.responseTimeMs && r.loggedAt == loggedAt && r.ragServer == RagServerName
  {
    LogRecord(
      Prefix(call.sessionId, 255),
      Prefix(call.userQuestion, 2000),
      converted,
      Prefix(call.ragResponse, 5000),
      Prefix(call.modelUsed, 100),
      call.responseTimeMs,
      Prefix(call.questionLanguage, 10),
      Prefix(call.responseLanguage, 10),
      CapOptional(call.userIp, 45),
      CapOptional(call.userAgent, 500),
      |converted|,
      loggedAt,
      RagServerName)
  }

  /** What the POST produced: a status and whether its body parsed as a JSON
      object (only an object has the `get` that reads `conversation_id`; any other
      body raises there), a timeout, or another exception. */
  datatype PostOutcome = Response(status: int, jsonObject: bool) | TimedOut | PostFailed(error: PyError)

  /** One `log_conversation`: the record sent, if any, and the returned flag. */
  datatype LogAttempt = LogAttempt(sent: Option<LogRecord>, ok: bool)

  /** `log_conversation`: returns a flag and never raises. The flag is True only
      for a sent record answered with status 200 and a JSON-object body. */
  function LogConversation(
    enabled: bool, call: LogCall, render: Value -> string,
    toFloat: Value -> Result<real, PyError>, loggedAt: string,
    post: LogRecord -> PostOutcome): (r: LogAttempt)
    ensures !enabled ==> r == LogAttempt(None, false)
    ensures r.sent.Some? <==> enabled && ConvertContexts(call.contexts, render, toFloat).Ok?
    ensures r.sent.Some? ==>
      r.sent.value == BuildRecord(call, ConvertContexts(call.contexts, render, toFloat).value, loggedAt)
    ensures r.ok <==> r.sent.Some? && post(r.sent.value) == Response(200, true)
  {
    if !enabled then LogAttempt(None, false)
    else match ConvertContexts(call.contexts, render, toFloat)
      case Err(_) => LogAttempt(None, false)
      case Ok(converted) =>
        var record := BuildRecord(call, converted, loggedAt);
        LogAttempt(Some(record), post(record) == Response(200, true))
  }

  /** Every other answer to a sent record gives False: a non-200 status, a body
      that is not a JSON object, a timeout or any other exception. */
  lemma LogFailuresReturnFalse(
    enabled: bool, call: LogCall, render: Value -> string,
    toFloat: Value -> Result<real, PyError>, loggedAt: string, post: LogRecord -> PostOutcome)
    ensures var r := LogConversation(enabled, call, render, toFloat, loggedAt, post);
      r.sent.Some? ==>
        match post(r.sent.value)
        case Response(status, jsonObject) => r.ok <==> status == 200 && jsonObject
        case TimedOut => !r.ok
        case PostFailed(_) => !r.ok
  {
  }

  /** `log_conversation_background`: schedules the call when enabled, else nothing. */
  function LogConversationBackground(enabled: bool, call: LogCall): (r: Option<LogCall>)
    ensures r.Some? <==> enabled
    ensures r.Some? ==> r.value == call
  {
    if enabled then Some(call) else None
  }

  /** A call scheduled in the background is exactly the call a direct
      `log_conversation` would have made, and nothing is ever scheduled or sent
      while logging is off. */
  lemma BackgroundAgreesWithDirect(
    enabled: bool, call: LogCall, render: Value -> string,
    toFloat: Value -> Result<real, PyError>, loggedAt: string, post: LogRecord -> PostOutcome)
    ensures LogConversationBackground(enabled, call).None? ==>
      LogConversation(enabled, call, render, toFloat, loggedAt, post).sent.None?
    ensures LogConversationBackground(enabled, call).Some? ==>
      LogConversation(enabled, LogConversationBackground(enabled, call).value, render, toFloat, loggedAt, post)
        == LogConversation(enabled, call, render, toFloat, loggedAt, post)
  {
  }
}

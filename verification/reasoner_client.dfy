/**
 The request and response handling of the deep-model client
 (internal/clients/reasoner.go): the disabled-parameter filter, model-name
 defaulting, the endpoint address, and the normalisation of a decoded reply
 or stream chunk into a one-choice response.

 The filter round-trips the request through JSON. JSON values are modelled as
 a tree; the field names and `omitempty` rules are those of the struct tags
 in internal/models/types.go. Decoding follows Go's documented rules: a key
 absent from the object leaves the field as it was, a value of the wrong
 kind leaves the field as it was, and an array decoded into a slice reuses
 the existing elements and ends with the array's length.

 The HTTP exchange is a parameter: given the address and the request, it
 yields the decoded choices (or, for a stream, the decoded chunks in order)
 or an error.
 */
module ReasonerClient {
  import opened Outcomes
  import opened Models
  import opened ModelBridge

  datatype Json =
    | JBool(b: bool)
    | JNum(n: real)
    | JStr(s: string)
    | JArr(items: seq<Json>)
    | JObj(fields: map<string, Json>)

  type Object = map<string, Json>

  // ---------------------------------------------------------------- encoding

  function EncodeStrings(ss: seq<string>): (js: seq<Json>)
    ensures |js| == |ss|
    ensures forall i :: 0 <= i < |ss| ==> js[i] == JStr(ss[i])
  {
    seq(|ss|, i requires 0 <= i < |ss| => JStr(ss[i]))
  }

  /** A message as `json.Marshal` writes it; `reasoning_content` is omitted when empty. */
  function EncodeMessage(m: Message): Json
  {
    JObj(map["role" := JStr(m.role), "content" := JStr(m.content)]
         + (if |m.reasoning| > 0 then map["reasoning_content" := JArr(EncodeStrings(m.reasoning))] else map[]))
  }

  function EncodeMessages(ms: seq<Message>): (js: seq<Json>)
    ensures |js| == |ms|
    ensures forall i :: 0 <= i < |ms| ==> js[i] == EncodeMessage(ms[i])
  {
    seq(|ms|, i requires 0 <= i < |ms| => EncodeMessage(ms[i]))
  }

  /** A request as `json.Marshal` writes it: `stream`, `temperature` and `max_tokens` are omitted when zero. */
  function EncodeRequest(r: Request): (o: Object)
    ensures "model" in o && "messages" in o && "request_id" in o
    ensures "stream" in o <==> r.stream
    ensures "temperature" in o <==> r.temperature != 0.0
    ensures "max_tokens" in o <==> r.maxTokens != 0
  {
    map["model" := JStr(r.model),
        "messages" := JArr(EncodeMessages(r.messages)),
        "request_id" := JStr(r.requestId)]
    + (if r.stream then map["stream" := JBool(true)] else map[])
    + (if r.temperature != 0.0 then map["temperature" := JNum(r.temperature)] else map[])
    + (if r.maxTokens != 0 then map["max_tokens" := JNum(r.maxTokens as real)] else map[])
  }

  // ---------------------------------------------------------------- decoding

  function StringField(o: Object, key: string, prior: string): string
  {
    if key in o && o[key].JStr? then o[key].s else prior
  }

  function DecodeStringsInto(prior: seq<string>, js: seq<Json>): (r: seq<string>)
    ensures |r| == |js|
  {
    seq(|js|, i requires 0 <= i < |js| =>
      if js[i].JStr? then js[i].s else if i < |prior| then prior[i] else "")
  }

  function DecodeMessageInto(prior: Message, j: Json): Message
  {
    if !j.JObj? then prior
    else
      var o := j.fields;
      Message(
        StringField(o, "role", prior.role),
        StringField(o, "content", prior.content),
        if "reasoning_content" in o && o["reasoning_content"].JArr?
        then DecodeStringsInto(prior.reasoning, o["reasoning_content"].items)
        else prior.reasoning)
  }

  const ZeroMessage: Message := Message("", "", [])

  function DecodeMessagesInto(prior: seq<Message>, js: seq<Json>): (r: seq<Message>)
    ensures |r| == |js|
  {
    seq(|js|, i requires 0 <= i < |js| =>
      DecodeMessageInto(if i < |prior| then prior[i] else ZeroMessage, js[i]))
  }

  /** `json.Unmarshal` of an object into an existing request. */
  function DecodeRequestInto(prior: Request, o: Object): Request
  {
    Request(
      StringField(o, "model", prior.model),
      if "messages" in o && o["messages"].JArr?
      then DecodeMessagesInto(prior.messages, o["messages"].items)
      else prior.messages,
      if "stream" in o && o["stream"].JBool? then o["stream"].b else prior.stream,
      StringField(o, "request_id", prior.requestId),
      if "temperature" in o && o["temperature"].JNum? then o["temperature"].n else prior.temperature,
      if "max_tokens" in o && o["max_tokens"].JNum? && o["max_tokens"].n == o["max_tokens"].n.Floor as real
      then o["max_tokens"].n.Floor
      else prior.maxTokens)
  }

  const ZeroRequest: Request := Request("", [], false, "", 0.0, 0)

  lemma DecodeEncodedMessage(prior: Message, m: Message)
    requires prior == m || prior == ZeroMessage
    ensures DecodeMessageInto(prior, EncodeMessage(m)) == m
  {
    var o := EncodeMessage(m).fields;
    if |m.reasoning| > 0 {
      assert o["reasoning_content"] == JArr(EncodeStrings(m.reasoning));
      assert DecodeStringsInto(prior.reasoning, EncodeStrings(m.reasoning)) == m.reasoning;
    } else {
      assert "reasoning_content" !in o;
    }
  }

  lemma DecodeEncodedMessages(prior: seq<Message>, ms: seq<Message>)
    requires prior == ms || prior == []
    ensures DecodeMessagesInto(prior, EncodeMessages(ms)) == ms
  {
    var r := DecodeMessagesInto(prior, EncodeMessages(ms));
    forall i | 0 <= i < |ms| ensures r[i] == ms[i] {
      DecodeEncodedMessage(if i < |prior| then prior[i] else ZeroMessage, ms[i]);
    }
  }

  /** Round trip: decoding the encoding of a request into a zero request gives the request back. */
  lemma EncodeDecodeRoundTrip(r: Request)
    ensures DecodeRequestInto(ZeroRequest, EncodeRequest(r)) == r
  {
    DecodeEncodedMessages([], r.messages);
  }

  // ---------------------------------------------------------------- filterDisabledParams

  function KeySet(keys: seq<string>): set<string>
  {
    set k | k in keys
  }

  /** The generic map after the delete loop: the request's object without the disabled keys. */
  function StrippedObject(disabled: seq<string>, r: Request): (o: Object)
    ensures forall k :: k in disabled ==> k !in o
    ensures forall k :: k in EncodeRequest(r) && k !in disabled ==> k in o && o[k] == EncodeRequest(r)[k]
    ensures forall k :: k in o ==> k in EncodeRequest(r)
  {
    EncodeRequest(r) - KeySet(disabled)
  }

  /** `filterDisabledParams`: marshal, delete the disabled keys, and unmarshal back into the same request. */
  function FilterDisabledParams(disabled: seq<string>, r: Request): (out: Request)
    ensures out == r
  {
    StrippedDecodesToSelf(disabled, r);
    DecodeRequestInto(r, StrippedObject(disabled, r))
  }

  /** Decoding the stripped map into the request it came from gives that request back. */
  lemma StrippedDecodesToSelf(disabled: seq<string>, r: Request)
    ensures DecodeRequestInto(r, StrippedObject(disabled, r)) == r
  {
    var o := StrippedObject(disabled, r);
    if "messages" in o {
      DecodeEncodedMessages(r.messages, r.messages);
    }
  }

  /**
   Every key either survives with the field's own encoding, which decodes to
   the same value, or is gone, which leaves the field untouched: the filter
   changes nothing, whatever parameters are disabled.
   */
  lemma FilterDisabledParamsIsIdentity(disabled: seq<string>, r: Request)
    ensures FilterDisabledParams(disabled, r) == r
  {
    StrippedDecodesToSelf(disabled, r);
  }

  /** The marshalled body therefore still carries a disabled parameter the caller set. */
  lemma DisabledParamStillSent(disabled: seq<string>, r: Request)
    requires "temperature" in disabled && r.temperature != 0.0
    ensures "temperature" in EncodeRequest(FilterDisabledParams(disabled, r))
    ensures EncodeRequest(FilterDisabledParams(disabled, r))["temperature"] == JNum(r.temperature)
  {
    FilterDisabledParamsIsIdentity(disabled, r);
  }

  /** The client test's case: temperature 0.7 with "temperature" disabled is still sent. */
  lemma TemperatureSurvivesFilter()
    ensures var r := Request("test-model", [Message(User, "test message", [])], false, "", 0.7, 0);
            "temperature" in EncodeRequest(FilterDisabledParams(["temperature"], r))
  {
    var r := Request("test-model", [Message(User, "test message", [])], false, "", 0.7, 0);
    DisabledParamStillSent(["temperature"], r);
  }

  // ---------------------------------------------------------------- request preparation

  /** An empty model name is replaced by the configured one; a non-empty one is kept. */
  function ResolveModel(cfg: ClientConfig, r: Request): (out: Request)
    ensures out.model == if r.model == "" then cfg.model else r.model
    ensures out == r.(model := out.model)
  {
    if r.model == "" then r.(model := cfg.model) else r
  }

  /** The request `Complete` marshals: filtered, then model-defaulted. */
  function PrepareComplete(cfg: ClientConfig, r: Request): (out: Request)
    ensures out.model == if r.model == "" then cfg.model else r.model
    ensures out == r.(model := out.model)
  {
    FilterDisabledParamsIsIdentity(cfg.disabledParams, r);
    ResolveModel(cfg, FilterDisabledParams(cfg.disabledParams, r))
  }

  /** The request `CompleteStream` marshals: as for `Complete`, with `Stream` forced on. */
  function PrepareStream(cfg: ClientConfig, r: Request): (out: Request)
    ensures out.stream
    ensures out.model == if r.model == "" then cfg.model else r.model
    ensures out == r.(model := out.model, stream := true)
  {
    PrepareComplete(cfg, r).(stream := true)
  }

  /** The body the client sends: the marshalled prepared request. */
  function SentBody(cfg: ClientConfig, r: Request): Object
  {
    EncodeRequest(PrepareComplete(cfg, r))
  }

  /** The body with the disabled keys actually removed, as the filter's name and the client test intend. */
  function IntendedBody(cfg: ClientConfig, r: Request): (o: Object)
    ensures forall k :: k in cfg.disabledParams ==> k !in o
    ensures forall k :: k in SentBody(cfg, r) && k !in cfg.disabledParams ==> k in o && o[k] == SentBody(cfg, r)[k]
  {
    StrippedObject(cfg.disabledParams, PrepareComplete(cfg, r))
  }

  /** Where the two bodies differ: exactly on the disabled keys the sent body carries. */
  lemma SentAndIntendedBodiesDiffer(cfg: ClientConfig, r: Request)
    ensures IntendedBody(cfg, r) == SentBody(cfg, r) <==> forall k :: k in cfg.disabledParams ==> k !in SentBody(cfg, r)
  {
    var s := SentBody(cfg, r);
    var i := IntendedBody(cfg, r);
    if forall k :: k in cfg.disabledParams ==> k !in s {
      assert i.Keys == s.Keys;
    }
  }

  // ---------------------------------------------------------------- endpoint address

  const ChatCompletionsPath: string := "/chat/completions"
  const HttpScheme: string := "http://"
  const HttpsScheme: string := "https://"

  predicate HasPrefix(s: string, p: string)
  {
    |p| <= |s| && s[..|p|] == p
  }

  predicate HasSuffix(s: string, p: string)
  {
    |p| <= |s| && s[|s| - |p|..] == p
  }

  predicate HasScheme(s: string)
  {
    HasPrefix(s, HttpScheme) || HasPrefix(s, HttpsScheme)
  }

  lemma PrefixSurvivesAppend(a: string, b: string, p: string)
    ensures HasPrefix(a, p) ==> HasPrefix(a + b, p)
  {
    if HasPrefix(a, p) {
      assert (a + b)[..|p|] == a[..|p|];
    }
  }

  /** `APIBase + "/chat/completions"`, prefixed with "http://" when it does not already start with a scheme. */
  function ChatCompletionsUrl(apiBase: string): (url: string)
    ensures HasSuffix(url, ChatCompletionsPath)
    ensures HasScheme(url)
    ensures url == apiBase + ChatCompletionsPath || url == HttpScheme + apiBase + ChatCompletionsPath
    ensures url == HttpScheme + apiBase + ChatCompletionsPath <==> !HasScheme(apiBase + ChatCompletionsPath)
    ensures HasScheme(apiBase) ==> url == apiBase + ChatCompletionsPath
  {
    var u := apiBase + ChatCompletionsPath;
    PrefixSurvivesAppend(apiBase, ChatCompletionsPath, HttpScheme);
    PrefixSurvivesAppend(apiBase, ChatCompletionsPath, HttpsScheme);
    if !HasScheme(u) then
      assert (HttpScheme + u)[..|HttpScheme|] == HttpScheme;
      HttpScheme + u
    else u
  }

  /** The check is made after the path is appended, so "http:/" counts as carrying a scheme. */
  lemma UrlOfSchemeFragment()
    ensures ChatCompletionsUrl("http:/") == "http:/" + ChatCompletionsPath
  {
    var u := "http:/" + ChatCompletionsPath;
    assert u[..|HttpScheme|] == HttpScheme;
  }

  /** An empty base still yields a scheme: "http:///chat/completions". */
  lemma UrlOfEmptyBase()
    ensures ChatCompletionsUrl("") == HttpScheme + ChatCompletionsPath
  {
    var u := "" + ChatCompletionsPath;
    assert u[..|HttpScheme|][0] == '/';
    assert u[..|HttpsScheme|][0] == '/';
  }

  /** A bare host and port gets "http://" in front. */
  lemma UrlOfBareHost()
    ensures ChatCompletionsUrl("localhost:8080") == HttpScheme + "localhost:8080" + ChatCompletionsPath
  {
    var u := "localhost:8080" + ChatCompletionsPath;
    assert u[..|HttpScheme|][0] == 'l';
    assert u[..|HttpsScheme|][0] == 'l';
  }

  // ---------------------------------------------------------------- reply normalisation

  /** One choice as the client's private result struct decodes it: only content and reasoning are read. */
  datatype DecodedChoice = DecodedChoice(content: string, reasoning: seq<string>)

  /**
   The reply built from the decoded choices: one assistant choice with the
   first decoded choice's content and reasoning, finish reason "stop". The
   first choice is indexed without a check, so an empty list panics.
   */
  function Normalize(decoded: seq<DecodedChoice>): (r: Result<Response>)
    ensures r.Panic? <==> |decoded| == 0
    ensures r.Panic? ==> r.reason == IndexZeroOfEmpty
    ensures r.Ok? ==> |r.value.choices| == 1
    ensures r.Ok? ==> r.value.choices[0].message.role == Assistant && r.value.choices[0].finishReason == Stop
    ensures r.Ok? ==> r.value.choices[0].message.content == decoded[0].content
    ensures r.Ok? ==> r.value.choices[0].message.reasoning == decoded[0].reasoning
  {
    if |decoded| == 0 then Panic(IndexZeroOfEmpty)
    else Ok(AssistantReply(decoded[0].content, decoded[0].reasoning))
  }

  /** What the client's result struct reads back from a response. */
  function Redecode(resp: Response): (d: seq<DecodedChoice>)
    ensures |d| == |resp.choices|
  {
    seq(|resp.choices|, i requires 0 <= i < |resp.choices| =>
      DecodedChoice(resp.choices[i].message.content, resp.choices[i].message.reasoning))
  }

  /** Normalising is idempotent, and only the first decoded choice matters. */
  lemma NormalizeIdempotent(decoded: seq<DecodedChoice>)
    requires |decoded| > 0
    ensures Normalize(decoded).Ok?
    ensures Normalize(Redecode(Normalize(decoded).value)) == Normalize(decoded)
    ensures Normalize(decoded) == Normalize(decoded[..1])
  {
  }

  /** `Complete` without the wire: prepare, exchange at the endpoint, normalise. */
  function Complete(cfg: ClientConfig, exchange: (string, Request) -> Result<seq<DecodedChoice>>, r: Request): (out: Result<Response>)
    ensures var sent := exchange(ChatCompletionsUrl(cfg.apiBase), PrepareComplete(cfg, r));
      && (sent.Err? ==> out == Err(sent.error))
      && (sent.Panic? ==> out == Panic(sent.reason))
      && (sent.Ok? ==> out == Normalize(sent.value))
  {
    match exchange(ChatCompletionsUrl(cfg.apiBase), PrepareComplete(cfg, r))
    case Err(e) => Err(e)
    case Panic(v) => Panic(v)
    case Ok(decoded) => Normalize(decoded)
  }

  /**
   The producer goroutine: every decoded chunk normalised and sent in order.
   A chunk without choices panics in the goroutine, which ends the process.
   */
  function Produce(chunks: seq<seq<DecodedChoice>>): (r: Result<seq<Option<Response>>>)
    ensures r.Ok? <==> forall i :: 0 <= i < |chunks| ==> |chunks[i]| > 0
    ensures r.Panic? ==> r.reason == IndexZeroOfEmpty
    ensures r.Ok? ==> |r.value| == |chunks|
    ensures r.Ok? ==> forall i :: 0 <= i < |chunks| ==> r.value[i].Some? && Normalize(chunks[i]) == Ok(r.value[i].value)
    ensures !r.Err?
  {
    if chunks == [] then Ok([])
    else
      match Normalize(chunks[0])
      case Ok(first) =>
        var rest := Produce(chunks[1..]);
        if rest.Ok? then
          Ok([Some(first)] + rest.value)
        else
          assert exists i :: 1 <= i < |chunks| && |chunks[i]| == 0 by {
            var j :| 0 <= j < |chunks[1..]| && |chunks[1..][j]| == 0;
            assert chunks[j + 1] == chunks[1..][j];
          }
          rest
      case _ => Panic(IndexZeroOfEmpty)
  }

  /** `CompleteStream` without the wire: prepare with `Stream` on, open the stream at the endpoint, produce. */
  function CompleteStream(cfg: ClientConfig, open: (string, Request) -> Result<seq<seq<DecodedChoice>>>, r: Request): (out: Result<seq<Option<Response>>>)
    ensures var started := open(ChatCompletionsUrl(cfg.apiBase), PrepareStream(cfg, r));
      && (started.Err? ==> out == Err(started.error))
      && (started.Panic? ==> out == Panic(started.reason))
      && (started.Ok? ==> out == Produce(started.value))
  {
    match open(ChatCompletionsUrl(cfg.apiBase), PrepareStream(cfg, r))
    case Err(e) => Err(e)
    case Panic(v) => Panic(v)
    case Ok(chunks) => Produce(chunks)
  }

  // ---------------------------------------------------------------- a reply without choices

  /** The error the client tests expect for a reply without choices. */
  const NoChoicesText: string := "no choices in response"

  /**
   A reply without choices makes `Complete` panic; behind the bridge's
   `recover` the caller sees the doubled runtime-error text, never the
   "no choices in response" error the client test expects.
   */
  lemma EmptyReplyPanics(cfg: ClientConfig, exchange: (string, Request) -> Result<seq<DecodedChoice>>, r: Request)
    requires exchange(ChatCompletionsUrl(cfg.apiBase), PrepareComplete(cfg, r)) == Ok([])
    ensures Complete(cfg, exchange, r) == Panic(IndexZeroOfEmpty)
    ensures var b := Bridge(_ => Err(Fault("unused")), q => Complete(cfg, exchange, q), _ => Err(Fault("unused")));
      && CallReasoner(b, r).Err?
      && ErrorText(CallReasoner(b, r).error) == RuntimeErrorPrefix + IndexZeroOfEmpty
      && ErrorText(CallReasoner(b, r).error) != NoChoicesText
  {
    var b := Bridge(_ => Err(Fault("unused")), q => Complete(cfg, exchange, q), _ => Err(Fault("unused")));
    assert (RuntimeErrorPrefix + IndexZeroOfEmpty)[0] != NoChoicesText[0];
  }

  /** Normalisation with the length check the client test expects: an error, not a panic, when there is no choice. */
  function NormalizeChecked(decoded: seq<DecodedChoice>): (r: Result<Response>)
    ensures !r.Panic?
    ensures r.Err? <==> |decoded| == 0
    ensures r.Err? ==> ErrorText(r.error) == NoChoicesText
    ensures r.Ok? ==> Normalize(decoded) == r
  {
    if |decoded| == 0 then Err(Fault(NoChoicesText)) else Normalize(decoded)
  }

  /** `Complete` with the checked normalisation. */
  function CompleteChecked(cfg: ClientConfig, exchange: (string, Request) -> Result<seq<DecodedChoice>>, r: Request): (out: Result<Response>)
    ensures var sent := exchange(ChatCompletionsUrl(cfg.apiBase), PrepareComplete(cfg, r));
      && (sent.Err? ==> out == Err(sent.error))
      && (sent.Panic? ==> out == Panic(sent.reason))
      && (sent.Ok? ==> !out.Panic?)
      && (sent.Ok? ==> (out.Err? <==> |sent.value| == 0))
  {
    match exchange(ChatCompletionsUrl(cfg.apiBase), PrepareComplete(cfg, r))
    case Err(e) => Err(e)
    case Panic(v) => Panic(v)
    case Ok(decoded) => NormalizeChecked(decoded)
  }

  /**
   The checked client answers a reply without choices with the expected
   error and otherwise agrees with `Complete`.
   */
  lemma CompleteCheckedAgrees(cfg: ClientConfig, exchange: (string, Request) -> Result<seq<DecodedChoice>>, r: Request)
    ensures var sent := exchange(ChatCompletionsUrl(cfg.apiBase), PrepareComplete(cfg, r));
      && (sent.Ok? && |sent.value| == 0 ==> CompleteChecked(cfg, exchange, r) == Err(Fault(NoChoicesText)))
      && (!(sent.Ok? && |sent.value| == 0) ==> CompleteChecked(cfg, exchange, r) == Complete(cfg, exchange, r))
  {
  }
}

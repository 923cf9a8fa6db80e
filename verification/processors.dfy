/**
 The three pipeline stages (internal/orchestrator/processors.go). Each one
 parses its prompt template, executes it against the payload fields it
 reads, sends a two-message request through the model bridge with the model
 name its constructor pins, and writes back the one payload field it owns.

 The template library is a parameter: parsing a template text either
 succeeds or yields an error, and executing a parsed template against the
 stage's bindings yields the rendered text or an error.
 */
module Processors {
  import opened Outcomes
  import opened Models
  import opened ModelBridge
  import opened Pipeline

  const PreprocessorName: string := "normal_preprocessor"
  const ReasonerName: string := "reasoner_engine"
  const PostprocessorName: string := "normal_postprocessor"

  /** The model names the constructors pin, whatever the original request asked for. */
  const FastModel: string := "gpt-3.5-turbo"
  const DeepModel: string := "gpt-4"

  /** The values each stage's template sees, under the names the templates use. */
  datatype Bindings =
    | UserInput(userInput: string)
    | StructuredInput(structuredInput: string)
    | ChainAndResult(reasoningChain: seq<string>, intermediateResult: string)

  datatype Templates = Templates(parse: string -> Option<Error>, execute: (string, Bindings) -> Result<string>)

  datatype Kind = NormalPreprocessor | ReasonerEngine | NormalPostprocessor

  datatype Processor = Processor(kind: Kind, promptTemplate: string, bridge: Bridge, model: string)

  /** The `Name()` methods. */
  function Name(k: Kind): string
  {
    match k
    case NormalPreprocessor => PreprocessorName
    case ReasonerEngine => ReasonerName
    case NormalPostprocessor => PostprocessorName
  }

  lemma NamesDistinct(a: Kind, b: Kind)
    ensures Name(a) == Name(b) <==> a == b
  {
  }

  function NewNormalPreprocessor(prompt: string, bridge: Bridge): (p: Processor)
    ensures p.kind == NormalPreprocessor && p.model == FastModel
  {
    Processor(NormalPreprocessor, prompt, bridge, FastModel)
  }

  function NewReasonerEngine(prompt: string, bridge: Bridge): (p: Processor)
    ensures p.kind == ReasonerEngine && p.model == DeepModel
  {
    Processor(ReasonerEngine, prompt, bridge, DeepModel)
  }

  function NewNormalPostprocessor(prompt: string, bridge: Bridge): (p: Processor)
    ensures p.kind == NormalPostprocessor && p.model == FastModel
  {
    Processor(NormalPostprocessor, prompt, bridge, FastModel)
  }

  // ---------------------------------------------------------------- steps shared by the stages

  const ParseContext: string := "parse template"
  const ExecuteContext: string := "execute template"
  const CallContext: string := "model call"

  /** The three contexts a stage puts in front of the errors it returns. */
  predicate StageContext(e: Error)
  {
    e.Wrapped? && e.context in {ParseContext, ExecuteContext, CallContext}
  }

  function ParseTemplate(t: Templates, text: string): (r: Result<string>)
    ensures r.Ok? <==> t.parse(text).None?
    ensures r.Err? ==> r.error == Wrapped(ParseContext, t.parse(text).value)
    ensures !r.Panic?
  {
    match t.parse(text)
    case None => Ok(text)
    case Some(e) => Err(Wrapped(ParseContext, e))
  }

  function ExecuteTemplate(t: Templates, text: string, b: Bindings): (r: Result<string>)
    ensures t.execute(text, b).Ok? ==> r == t.execute(text, b)
    ensures t.execute(text, b).Err? ==> r == Err(Wrapped(ExecuteContext, t.execute(text, b).error))
    ensures t.execute(text, b).Panic? ==> r == t.execute(text, b)
  {
    match t.execute(text, b)
    case Ok(s) => Ok(s)
    case Err(e) => Err(Wrapped(ExecuteContext, e))
    case Panic(v) => Panic(v)
  }

  function ModelCall<T>(r: Result<T>): (out: Result<T>)
    ensures r.Ok? ==> out == r
    ensures r.Err? ==> out == Err(Wrapped(CallContext, r.error))
    ensures r.Panic? ==> out == r
  {
    match r
    case Ok(v) => Ok(v)
    case Err(e) => Err(Wrapped(CallContext, e))
    case Panic(v) => Panic(v)
  }

  /** `Messages[len(Messages)-1].Content`, which panics on an empty list. */
  function LastMessageContent(req: Request): (r: Result<string>)
    ensures r.Ok? <==> |req.messages| > 0
    ensures r.Ok? ==> r.value == req.messages[|req.messages| - 1].content
    ensures r.Panic? ==> r.reason == IndexMinusOne
  {
    if |req.messages| == 0 then Panic(IndexMinusOne)
    else Ok(req.messages[|req.messages| - 1].content)
  }

  /** `resp.Choices[0].Message.Content`, which panics on a response without choices. */
  function FirstContent(resp: Response): (r: Result<string>)
    ensures r.Ok? <==> |resp.choices| > 0
    ensures r.Ok? ==> r.value == resp.choices[0].message.content
    ensures r.Panic? ==> r.reason == IndexZeroOfEmpty
  {
    if |resp.choices| == 0 then Panic(IndexZeroOfEmpty)
    else Ok(resp.choices[0].message.content)
  }

  // ---------------------------------------------------------------- the Reasoner's stream loop

  /** What the loop over the filtered channel carries: the growing chain and the last content seen. */
  datatype StreamState = StreamState(chain: seq<string>, last: string)

  /** One iteration of the loop. */
  function Absorb(s: StreamState, resp: Response): StreamState
  {
    if |resp.choices| > 0 then
      var m := resp.choices[0].message;
      StreamState(if |m.reasoning| > 0 then s.chain + m.reasoning else s.chain, m.content)
    else s
  }

  /** The loop over a stream, in arrival order. */
  function Consume(items: seq<Response>, s: StreamState): (r: StreamState)
    ensures |s.chain| <= |r.chain| && r.chain[..|s.chain|] == s.chain
    ensures (forall k :: 0 <= k < |items| ==> |items[k].choices| == 0) ==> r == s
  {
    if items == [] then s else Consume(items[1..], Absorb(s, items[0]))
  }

  /** The reasoning an item contributes: its first choice's list, or nothing. */
  function Contribution(resp: Response): seq<string>
  {
    if |resp.choices| > 0 then resp.choices[0].message.reasoning else []
  }

  /** The concatenation, in order, of every item's contribution. */
  function ReasoningOf(items: seq<Response>): seq<string>
  {
    if items == [] then [] else Contribution(items[0]) + ReasoningOf(items[1..])
  }

  /** The chain is append-only: the old chain followed by every item's reasoning in arrival order. */
  lemma {:induction false} ConsumeChain(items: seq<Response>, s: StreamState)
    ensures Consume(items, s).chain == s.chain + ReasoningOf(items)
  {
    if items != [] {
      var next := Absorb(s, items[0]);
      ConsumeChain(items[1..], next);
      assert next.chain == s.chain + Contribution(items[0]);
    }
  }

  /** Items without choices leave the loop's state as it was. */
  lemma {:induction false} ConsumeNoChoices(items: seq<Response>, s: StreamState)
    requires forall j :: 0 <= j < |items| ==> |items[j].choices| == 0
    ensures Consume(items, s) == s
  {
    if items != [] {
      assert |items[0].choices| == 0;
      ConsumeNoChoices(items[1..], s);
    }
  }

  /** The loop over a concatenation is the loop over the second part, started where the first part ended. */
  lemma {:induction false} ConsumeAppend(a: seq<Response>, b: seq<Response>, s: StreamState)
    ensures Consume(a + b, s) == Consume(b, Consume(a, s))
  {
    if a != [] {
      assert (a + b)[0] == a[0];
      assert (a + b)[1..] == a[1..] + b;
      ConsumeAppend(a[1..], b, Absorb(s, a[0]));
    } else {
      assert a + b == b;
    }
  }

  /** Last write wins: the content is that of the last item with a choice. */
  lemma ConsumeLastAt(items: seq<Response>, s: StreamState, i: nat)
    requires i < |items| && |items[i].choices| > 0
    requires forall j :: i < j < |items| ==> |items[j].choices| == 0
    ensures Consume(items, s).last == items[i].choices[0].message.content
  {
    var before := items[..i];
    var after := items[i + 1..];
    assert items == before + ([items[i]] + after);
    ConsumeAppend(before, [items[i]] + after, s);
    var mid := Consume(before, s);
    ConsumeAppend([items[i]], after, mid);
    assert Consume([items[i]], mid) == Absorb(mid, items[i]) by {
      assert [items[i]][1..] == [];
    }
    ConsumeNoChoices(after, Absorb(mid, items[i]));
  }

  /** The non-nil items of a raw stream. */
  function Present(raw: seq<Option<Response>>): seq<Response>
  {
    if raw == [] then []
    else (if raw[0].Some? then [raw[0].value] else []) + Present(raw[1..])
  }

  lemma {:induction false} ReasoningOfAppend(a: seq<Response>, b: seq<Response>)
    ensures ReasoningOf(a + b) == ReasoningOf(a) + ReasoningOf(b)
  {
    if a != [] {
      ReasoningOfAppend(a[1..], b);
      assert (a + b)[0] == a[0];
      assert (a + b)[1..] == a[1..] + b;
    } else {
      assert a + b == b;
    }
  }

  /** Filtering the stream does not change the chain: every dropped non-nil item contributes nothing. */
  lemma {:induction false} ForwardKeepsReasoning(raw: seq<Option<Response>>)
    ensures ReasoningOf(Forward(raw)) == ReasoningOf(Present(raw))
  {
    if raw != [] {
      ForwardKeepsReasoning(raw[1..]);
      var head := if Forwardable(raw[0]) then [raw[0].value] else [];
      var headP := if raw[0].Some? then [raw[0].value] else [];
      ReasoningOfAppend(head, Forward(raw[1..]));
      ReasoningOfAppend(headP, Present(raw[1..]));
      assert ReasoningOf(head) == ReasoningOf(headP) by {
        if raw[0].Some? && !Forwardable(raw[0]) {
          assert ReasoningOf(headP) == Contribution(raw[0].value) + ReasoningOf([]);
        }
      }
    }
  }

  // ---------------------------------------------------------------- the stages

  /** The request the Preprocessor sends: pinned model, the rendered prompt, and the last original message. */
  function PreprocessorRequest(proc: Processor, prompt: string, input: string): (r: Request)
    ensures r.model == proc.model
    ensures r.messages == [Message(System, prompt, []), Message(User, input, [])]
    ensures !r.stream && r.requestId == "" && r.temperature == 0.0 && r.maxTokens == 0
  {
    TwoMessageRequest(proc.model, prompt, input, false)
  }

  /** The request the Reasoner sends: streaming, the rendered prompt, and the intermediate content. */
  function ReasonerRequest(proc: Processor, prompt: string, p: Payload): (r: Request)
    ensures r.model == proc.model
    ensures r.messages == [Message(System, prompt, []), Message(User, p.intermContent, [])]
    ensures r.stream && r.requestId == "" && r.temperature == 0.0 && r.maxTokens == 0
  {
    TwoMessageRequest(proc.model, prompt, p.intermContent, true)
  }

  /** The request the Postprocessor sends: the rendered prompt and the intermediate content. */
  function PostprocessorRequest(proc: Processor, prompt: string, p: Payload): (r: Request)
    ensures r.model == proc.model
    ensures r.messages == [Message(System, prompt, []), Message(User, p.intermContent, [])]
    ensures !r.stream && r.requestId == "" && r.temperature == 0.0 && r.maxTokens == 0
  {
    TwoMessageRequest(proc.model, prompt, p.intermContent, false)
  }

  /** `NormalPreprocessor.Execute`: writes the fast model's reply into the intermediate content. */
  function Preprocess(t: Templates, proc: Processor, p: Payload): (r: Result<Payload>)
    ensures r.Ok? ==> r.value == p.(intermContent := r.value.intermContent)
    ensures r.Err? ==> StageContext(r.error)
  {
    var _ :- ParseTemplate(t, proc.promptTemplate);
    var input :- LastMessageContent(p.original);
    var prompt :- ExecuteTemplate(t, proc.promptTemplate, UserInput(input));
    var resp :- ModelCall(CallNormal(proc.bridge, PreprocessorRequest(proc, prompt, input)));
    var content :- FirstContent(resp);
    Ok(p.(intermContent := content))
  }

  /** `ReasonerEngine.Execute`: folds the filtered stream into the chain and the intermediate content. */
  function Reason(t: Templates, proc: Processor, p: Payload): (r: Result<Payload>)
    ensures r.Ok? ==> r.value == p.(reasoningChain := r.value.reasoningChain, intermContent := r.value.intermContent)
    ensures r.Ok? ==> |p.reasoningChain| <= |r.value.reasoningChain|
                      && r.value.reasoningChain[..|p.reasoningChain|] == p.reasoningChain
    ensures r.Err? ==> StageContext(r.error)
  {
    var _ :- ParseTemplate(t, proc.promptTemplate);
    var prompt :- ExecuteTemplate(t, proc.promptTemplate, StructuredInput(p.intermContent));
    var items :- ModelCall(CallReasonerStream(proc.bridge, ReasonerRequest(proc, prompt, p)));
    var s := Consume(items, StreamState(p.reasoningChain, ""));
    ConsumeChain(items, StreamState(p.reasoningChain, ""));
    Ok(p.(reasoningChain := s.chain, intermContent := s.last))
  }

  /** `NormalPostprocessor.Execute`: writes the fast model's reply into the final content. */
  function Postprocess(t: Templates, proc: Processor, p: Payload): (r: Result<Payload>)
    ensures r.Ok? ==> r.value == p.(finalContent := r.value.finalContent)
    ensures r.Err? ==> StageContext(r.error)
  {
    var _ :- ParseTemplate(t, proc.promptTemplate);
    var prompt :- ExecuteTemplate(t, proc.promptTemplate, ChainAndResult(p.reasoningChain, p.intermContent));
    var resp :- ModelCall(CallNormal(proc.bridge, PostprocessorRequest(proc, prompt, p)));
    var content :- FirstContent(resp);
    Ok(p.(finalContent := content))
  }

  /** A stage's `Execute`, by kind. */
  function ExecuteStage(t: Templates, proc: Processor, p: Payload): Result<Payload>
  {
    match proc.kind
    case NormalPreprocessor => Preprocess(t, proc, p)
    case ReasonerEngine => Reason(t, proc, p)
    case NormalPostprocessor => Postprocess(t, proc, p)
  }

  /** A processor as a stage of the engine. */
  function AsStage(t: Templates, proc: Processor): (s: Stage)
    ensures s.name == Name(proc.kind)
  {
    Stage(Name(proc.kind), p => ExecuteStage(t, proc, p))
  }

  // ---------------------------------------------------------------- what each stage does with a rendered prompt

  /**
   Once the template renders to `prompt`, the Preprocessor's outcome is the fast
   client's answer to exactly [system: prompt, user: last message] with the
   pinned model: its first choice's content, its error behind "model call",
   a recovered panic, or a panic on a reply without choices.
   */
  lemma PreprocessorCallsFastModel(t: Templates, proc: Processor, p: Payload, prompt: string)
    requires t.parse(proc.promptTemplate).None?
    requires |p.original.messages| > 0
    requires t.execute(proc.promptTemplate, UserInput(p.original.messages[|p.original.messages| - 1].content)) == Ok(prompt)
    ensures var input := p.original.messages[|p.original.messages| - 1].content;
      var reply := proc.bridge.normal(TwoMessageRequest(proc.model, prompt, input, false));
      var r := Preprocess(t, proc, p);
      && (reply.Ok? && |reply.value.choices| > 0 ==> r == Ok(p.(intermContent := reply.value.choices[0].message.content)))
      && (reply.Ok? && |reply.value.choices| == 0 ==> r == Panic(IndexZeroOfEmpty))
      && (reply.Err? ==> r == Err(Wrapped(CallContext, reply.error)))
      && (reply.Panic? ==> r == Err(Wrapped(CallContext, Fault(RuntimeErrorPrefix + reply.reason))))
  {
  }

  /**
   Before any call, the Preprocessor fails with the parse error, panics on an
   empty message list, or fails with (or panics in) the template's execution.
   */
  lemma PreprocessorEarlyExits(t: Templates, proc: Processor, p: Payload)
    ensures t.parse(proc.promptTemplate).Some? ==>
      Preprocess(t, proc, p) == Err(Wrapped(ParseContext, t.parse(proc.promptTemplate).value))
    ensures t.parse(proc.promptTemplate).None? && |p.original.messages| == 0 ==>
      Preprocess(t, proc, p) == Panic(IndexMinusOne)
    ensures t.parse(proc.promptTemplate).None? && |p.original.messages| > 0 ==>
      var rendered := t.execute(proc.promptTemplate, UserInput(p.original.messages[|p.original.messages| - 1].content));
      && (rendered.Err? ==> Preprocess(t, proc, p) == Err(Wrapped(ExecuteContext, rendered.error)))
      && (rendered.Panic? ==> Preprocess(t, proc, p) == Panic(rendered.reason))
  {
  }

  /** Before the stream opens, the Reasoner fails with the parse error or with (or panics in) the template's execution. */
  lemma ReasonerEarlyExits(t: Templates, proc: Processor, p: Payload)
    ensures t.parse(proc.promptTemplate).Some? ==>
      Reason(t, proc, p) == Err(Wrapped(ParseContext, t.parse(proc.promptTemplate).value))
    ensures t.parse(proc.promptTemplate).None? ==>
      var rendered := t.execute(proc.promptTemplate, StructuredInput(p.intermContent));
      && (rendered.Err? ==> Reason(t, proc, p) == Err(Wrapped(ExecuteContext, rendered.error)))
      && (rendered.Panic? ==> Reason(t, proc, p) == Panic(rendered.reason))
  {
  }

  /** Before any call, the Postprocessor fails with the parse error or with (or panics in) the template's execution. */
  lemma PostprocessorEarlyExits(t: Templates, proc: Processor, p: Payload)
    ensures t.parse(proc.promptTemplate).Some? ==>
      Postprocess(t, proc, p) == Err(Wrapped(ParseContext, t.parse(proc.promptTemplate).value))
    ensures t.parse(proc.promptTemplate).None? ==>
      var rendered := t.execute(proc.promptTemplate, ChainAndResult(p.reasoningChain, p.intermContent));
      && (rendered.Err? ==> Postprocess(t, proc, p) == Err(Wrapped(ExecuteContext, rendered.error)))
      && (rendered.Panic? ==> Postprocess(t, proc, p) == Panic(rendered.reason))
  {
  }

  /**
   Once the template renders to `prompt`, the Reasoner sends [system: prompt,
   user: intermediate content] with Stream set; a start failure comes back
   behind "model call"; an started stream is filtered and folded so that the
   chain grows by the reasoning of every non-nil item, in order.
   */
  lemma ReasonerFoldsStream(t: Templates, proc: Processor, p: Payload, prompt: string)
    requires t.parse(proc.promptTemplate).None?
    requires t.execute(proc.promptTemplate, StructuredInput(p.intermContent)) == Ok(prompt)
    ensures var started := proc.bridge.reasonerStream(TwoMessageRequest(proc.model, prompt, p.intermContent, true));
      var r := Reason(t, proc, p);
      && (started.Err? ==> r == Err(Wrapped(CallContext, started.error)))
      && (started.Panic? ==> r == Panic(started.reason))
      && (started.Ok? ==>
           && r.Ok?
           && r.value.reasoningChain == p.reasoningChain + ReasoningOf(Present(started.value))
           && var items := Forward(started.value);
              && (|items| == 0 ==> r.value.intermContent == "")
              && (|items| > 0 ==>
                    && Forwardable(Some(items[|items| - 1]))
                    && r.value.intermContent == items[|items| - 1].choices[0].message.content))
  {
    var req := TwoMessageRequest(proc.model, prompt, p.intermContent, true);
    assert req.(stream := true) == req;
    var started := proc.bridge.reasonerStream(req);
    if started.Ok? {
      var items := Forward(started.value);
      ConsumeChain(items, StreamState(p.reasoningChain, ""));
      ForwardKeepsReasoning(started.value);
      LastIgnoresChain(items, p.reasoningChain, []);
      if |items| > 0 {
        assert items[|items| - 1] in items;
      }
      ReasonerContentIsLastForwarded(items);
    }
  }

  /** The last content seen does not depend on the chain the loop started with. */
  lemma {:induction false} LastIgnoresChain(items: seq<Response>, c1: seq<string>, c2: seq<string>)
    ensures Consume(items, StreamState(c1, "")).last == Consume(items, StreamState(c2, "")).last
  {
    LastIgnoresChainFrom(items, c1, c2, "");
  }

  lemma {:induction false} LastIgnoresChainFrom(items: seq<Response>, c1: seq<string>, c2: seq<string>, last: string)
    ensures Consume(items, StreamState(c1, last)).last == Consume(items, StreamState(c2, last)).last
  {
    if items != [] {
      var a := Absorb(StreamState(c1, last), items[0]);
      var b := Absorb(StreamState(c2, last), items[0]);
      LastIgnoresChainFrom(items[1..], a.chain, b.chain, a.last);
    }
  }

  /** The stream's content decides the intermediate content: the last forwarded item's, or "" when nothing was forwarded. */
  lemma ReasonerContentIsLastForwarded(items: seq<Response>)
    ensures |items| == 0 ==> Consume(items, StreamState([], "")).last == ""
    ensures |items| > 0 && |items[|items| - 1].choices| > 0 ==>
      Consume(items, StreamState([], "")).last == items[|items| - 1].choices[0].message.content
  {
    if |items| > 0 && |items[|items| - 1].choices| > 0 {
      ConsumeLastAt(items, StreamState([], ""), |items| - 1);
    }
  }

  /**
   Once the template renders to `prompt`, the Postprocessor's outcome is the
   fast client's answer to [system: prompt, user: intermediate content].
   */
  lemma PostprocessorCallsFastModel(t: Templates, proc: Processor, p: Payload, prompt: string)
    requires t.parse(proc.promptTemplate).None?
    requires t.execute(proc.promptTemplate, ChainAndResult(p.reasoningChain, p.intermContent)) == Ok(prompt)
    ensures var reply := proc.bridge.normal(TwoMessageRequest(proc.model, prompt, p.intermContent, false));
      var r := Postprocess(t, proc, p);
      && (reply.Ok? && |reply.value.choices| > 0 ==> r == Ok(p.(finalContent := reply.value.choices[0].message.content)))
      && (reply.Ok? && |reply.value.choices| == 0 ==> r == Panic(IndexZeroOfEmpty))
      && (reply.Err? ==> r == Err(Wrapped(CallContext, reply.error)))
      && (reply.Panic? ==> r == Err(Wrapped(CallContext, Fault(RuntimeErrorPrefix + reply.reason))))
  {
  }

  // ---------------------------------------------------------------- the unit test's stream

  function TextReply(content: string, reasoning: seq<string>): Response
  {
    Response("", "", 0, "", [Choice(Message("", content, reasoning), "")])
  }

  /** The Reasoner test (processors_test.go): two steps leave "step 2" and the chain ["reasoning 1", "reasoning 2"]. */
  lemma ReasonerUnitTestExample()
    ensures var t := Templates(_ => None, (_, _) => Ok("template"));
      var items := [Some(TextReply("step 1", ["reasoning 1"])), Some(TextReply("step 2", ["reasoning 2"]))];
      var b := Bridge(_ => Err(Fault("unused")), _ => Err(Fault("unused")), _ => Ok(items));
      var p := Payload(Request("gpt-4", [Message(User, "test", [])], false, "", 0.0, 0), [], "preprocessed", "");
      Reason(t, NewReasonerEngine("template ${input}", b), p)
        == Ok(p.(reasoningChain := ["reasoning 1", "reasoning 2"], intermContent := "step 2"))
  {
    var r1 := TextReply("step 1", ["reasoning 1"]);
    var r2 := TextReply("step 2", ["reasoning 2"]);
    var items := [Some(r1), Some(r2)];
    assert items[1..] == [Some(r2)];
    assert Forward(items) == [r1, r2];
    var s0 := StreamState([], "");
    assert Consume([r1, r2], s0) == Consume([r2], Absorb(s0, r1)) by {
      assert [r1, r2][1..] == [r2];
    }
    assert Absorb(s0, r1) == StreamState(["reasoning 1"], "step 1");
    assert Absorb(StreamState(["reasoning 1"], "step 1"), r2) == StreamState(["reasoning 1", "reasoning 2"], "step 2");
    assert Consume([r2], StreamState(["reasoning 1"], "step 1")) == StreamState(["reasoning 1", "reasoning 2"], "step 2") by {
      assert [r2][1..] == [];
    }
  }
}

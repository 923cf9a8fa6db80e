/**
 The hybrid pipeline as `NewHybridPipeline` wires it
 (internal/orchestrator/pipeline.go): Preprocessor, Reasoner and
 Postprocessor in that order over one model bridge, run by the engine.
 */
module Hybrid {
  import opened Outcomes
  import opened Models
  import opened ModelBridge
  import opened Pipeline
  import opened Processors

  /** The three prompt templates of the configuration. */
  datatype Prompts = Prompts(preProcess: string, reasoning: string, postProcess: string)

  /** The stage list of `NewHybridPipeline`: each stage runs its processor's `Execute` over the one bridge. */
  function HybridStages(t: Templates, prompts: Prompts, b: Bridge): (stages: seq<Stage>)
    ensures |stages| == 3
    ensures stages[0].name == PreprocessorName
    ensures stages[1].name == ReasonerName
    ensures stages[2].name == PostprocessorName
    ensures forall p :: stages[0].exec(p) == Preprocess(t, NewNormalPreprocessor(prompts.preProcess, b), p)
    ensures forall p :: stages[1].exec(p) == Reason(t, NewReasonerEngine(prompts.reasoning, b), p)
    ensures forall p :: stages[2].exec(p) == Postprocess(t, NewNormalPostprocessor(prompts.postProcess, b), p)
  {
    [AsStage(t, NewNormalPreprocessor(prompts.preProcess, b)),
     AsStage(t, NewReasonerEngine(prompts.reasoning, b)),
     AsStage(t, NewNormalPostprocessor(prompts.postProcess, b))]
  }

  /** `Execute` of the hybrid pipeline. */
  function RunHybrid(t: Templates, prompts: Prompts, b: Bridge, ctx: Context, clock: nat, req: Request): (x: Execution)
    ensures forall j :: 0 <= j < |x.ran| ==> x.ran[j] == j
    ensures |x.ran| <= 3
    ensures x.response.Ok? ==> x.ran == [0, 1, 2]
  {
    Execute(HybridStages(t, prompts, b), ctx, clock, req)
  }

  /**
   A context done before the Reasoner: neither the Reasoner nor the
   Postprocessor executes, so the deep client and the Postprocessor's call to
   the fast client never happen, and no response comes back. When the
   Preprocessor did succeed, the result is the context's own error.
   */
  lemma CancelBeforeReasonerSkipsPostprocessor(t: Templates, prompts: Prompts, b: Bridge, ctx: Context, clock: nat, req: Request)
    requires DoneAt(ctx, 1)
    ensures var x := RunHybrid(t, prompts, b, ctx, clock, req);
      && 1 !in x.ran && 2 !in x.ran
      && !x.response.Ok?
    ensures var x := RunHybrid(t, prompts, b, ctx, clock, req);
      var stages := HybridStages(t, prompts, b);
      DoneAt(ctx, 0) || Prefix(stages, NewPayload(x.request), 1).Ok? ==> x.response == Err(ctx.err)
  {
    var stages := HybridStages(t, prompts, b);
    var x := RunHybrid(t, prompts, b, ctx, clock, req);
    CancelledStopsLaterStages(stages, ctx, clock, req, 1);
    ExecuteCharacterised(stages, ctx, clock, req);
    if DoneAt(ctx, 0) {
      CancelledReturnsContextError(stages, ctx, clock, req, 0);
    } else if Prefix(stages, NewPayload(x.request), 1).Ok? {
      CancelledReturnsContextError(stages, ctx, clock, req, 1);
    }
  }

  /**
   A successful run answers with one assistant choice whose reasoning is the
   reasoning of every non-nil item the deep model streamed in answer to the
   Reasoner's request, in order, and whose content is the Postprocessor's;
   the original request is untouched by the stages.
   */
  lemma SuccessfulRunCarriesStreamReasoning(t: Templates, prompts: Prompts, b: Bridge, ctx: Context, clock: nat, req: Request)
    requires RunHybrid(t, prompts, b, ctx, clock, req).response.Ok?
    ensures RunHybrid(t, prompts, b, ctx, clock, req).ran == [0, 1, 2]
    ensures var x := RunHybrid(t, prompts, b, ctx, clock, req);
      var stages := HybridStages(t, prompts, b);
      var p0 := NewPayload(x.request);
      && Prefix(stages, p0, 1).Ok? && Prefix(stages, p0, 3).Ok?
      && Prefix(stages, p0, 3).value.original == x.request
      && var p1 := Prefix(stages, p0, 1).value;
         var rendered := t.execute(prompts.reasoning, StructuredInput(p1.intermContent));
         && rendered.Ok?
         && var started := b.reasonerStream(TwoMessageRequest(DeepModel, rendered.value, p1.intermContent, true));
            && started.Ok?
            && x.response.value.choices
               == [Choice(Message(Assistant, Prefix(stages, p0, 3).value.finalContent, ReasoningOf(Present(started.value))), Stop)]
  {
    var x := RunHybrid(t, prompts, b, ctx, clock, req);
    var stages := HybridStages(t, prompts, b);
    var p0 := NewPayload(x.request);
    ExecuteCharacterised(stages, ctx, clock, req);
    PrefixOkBelow(stages, p0, 3);
    var p1 := Prefix(stages, p0, 1).value;
    var p2 := Prefix(stages, p0, 2).value;
    var p3 := Prefix(stages, p0, 3).value;
    assert Prefix(stages, p0, 1) == Preprocess(t, NewNormalPreprocessor(prompts.preProcess, b), p0);
    assert Prefix(stages, p0, 2) == Reason(t, NewReasonerEngine(prompts.reasoning, b), p1);
    assert Prefix(stages, p0, 3) == Postprocess(t, NewNormalPostprocessor(prompts.postProcess, b), p2);
    var proc := NewReasonerEngine(prompts.reasoning, b);
    assert t.parse(prompts.reasoning).None?;
    var rendered := t.execute(prompts.reasoning, StructuredInput(p1.intermContent));
    assert rendered.Ok?;
    ReasonerFoldsStream(t, proc, p1, rendered.value);
    assert x.ran == [0, 1, 2];
  }

  /**
   A fast client that fails makes the run fail in the Preprocessor, with the
   client's error behind "model call" and the stage's name, and nothing after
   it executes. `errors.Is` on the run's error still finds the client's error.
   */
  lemma FastClientErrorSurfaces(t: Templates, prompts: Prompts, b: Bridge, ctx: Context, clock: nat, req: Request, e: Error)
    requires !DoneAt(ctx, 0)
    requires t.parse(prompts.preProcess).None?
    requires |req.messages| > 0
    requires t.execute(prompts.preProcess, UserInput(req.messages[|req.messages| - 1].content)).Ok?
    requires forall q :: b.normal(q) == Err(e)
    ensures var x := RunHybrid(t, prompts, b, ctx, clock, req);
      && x.ran == [0]
      && x.response == Err(StageError(PreprocessorName, Wrapped(CallContext, e)))
      && ErrorText(x.response.error) == "stage " + PreprocessorName + " failed: model call: " + ErrorText(e)
      && Is(x.response.error, e)
  {
    var stages := HybridStages(t, prompts, b);
    var p0 := NewPayload(AssignRequestId(req, clock));
    var input := req.messages[|req.messages| - 1].content;
    var prompt := t.execute(prompts.preProcess, UserInput(input)).value;
    PreprocessorCallsFastModel(t, NewNormalPreprocessor(prompts.preProcess, b), p0, prompt);
    assert stages[0].exec(p0) == Err(Wrapped(CallContext, e));
    assert Prefix(stages, p0, 0) == Ok(p0);
    FirstFailureAborts(stages, ctx, clock, req, 0);
    var x := Execute(stages, ctx, clock, req);
    assert x == RunHybrid(t, prompts, b, ctx, clock, req);
    assert |x.ran| == 1;
    StagesRunOnceInOrder(stages, ctx, clock, req);
    assert 0 in x.ran;
    StageErrorText(PreprocessorName, e);
    IsTransitive(StageError(PreprocessorName, Wrapped(CallContext, e)), Wrapped(CallContext, e), e);
  }

  /**
   A deep client that cannot start its stream, after a successful
   Preprocessor, makes the run fail in the Reasoner with the client's error
   behind "model call" (the bridge adds no layer of its own), and the
   Postprocessor never executes. `errors.Is` still finds the client's error.
   */
  lemma DeepClientErrorSurfaces(t: Templates, prompts: Prompts, b: Bridge, ctx: Context, clock: nat, req: Request, e: Error)
    requires !DoneAt(ctx, 0) && !DoneAt(ctx, 1)
    requires var stages := HybridStages(t, prompts, b);
      Prefix(stages, NewPayload(AssignRequestId(req, clock)), 1).Ok?
    requires t.parse(prompts.reasoning).None?
    requires forall s :: t.execute(prompts.reasoning, StructuredInput(s)).Ok?
    requires forall q :: b.reasonerStream(q) == Err(e)
    ensures var x := RunHybrid(t, prompts, b, ctx, clock, req);
      && x.ran == [0, 1]
      && x.response == Err(StageError(ReasonerName, Wrapped(CallContext, e)))
      && ErrorText(x.response.error) == "stage " + ReasonerName + " failed: model call: " + ErrorText(e)
      && Is(x.response.error, e)
  {
    var stages := HybridStages(t, prompts, b);
    var p0 := NewPayload(AssignRequestId(req, clock));
    var p1 := Prefix(stages, p0, 1).value;
    var prompt := t.execute(prompts.reasoning, StructuredInput(p1.intermContent)).value;
    ReasonerFoldsStream(t, NewReasonerEngine(prompts.reasoning, b), p1, prompt);
    assert stages[1].exec(p1) == Err(Wrapped(CallContext, e));
    FirstFailureAborts(stages, ctx, clock, req, 1);
    var x := Execute(stages, ctx, clock, req);
    assert x == RunHybrid(t, prompts, b, ctx, clock, req);
    assert |x.ran| == 2;
    StagesRunOnceInOrder(stages, ctx, clock, req);
    assert 0 in x.ran && 1 in x.ran;
    assert x.ran[0] < x.ran[1];
    StageErrorText(ReasonerName, e);
    IsTransitive(StageError(ReasonerName, Wrapped(CallContext, e)), Wrapped(CallContext, e), e);
  }

  /** The text of a model-call failure behind a stage's name. */
  lemma StageErrorText(name: string, e: Error)
    ensures ErrorText(StageError(name, Wrapped(CallContext, e))) == "stage " + name + " failed: model call: " + ErrorText(e)
  {
    assert ErrorText(Wrapped(CallContext, e)) == "model call: " + ErrorText(e);
  }

  // ---------------------------------------------------------------- a worked run

  /** A fast model that answers "structured:" or "final:" followed by the user turn, depending on the system prompt. */
  function FastEcho(req: Request): Result<Response>
  {
    if |req.messages| < 2 then Err(Fault("unexpected request"))
    else if req.messages[0].content == "pre" then Ok(AssistantReply("structured:" + req.messages[1].content, []))
    else Ok(AssistantReply("final:" + req.messages[1].content, []))
  }

  function Delta(content: string, reasoning: seq<string>): Response
  {
    Response("", "", 0, "", [Choice(Message(Assistant, content, reasoning), "")])
  }

  function ExampleBridge(): Bridge
  {
    Bridge(FastEcho, _ => Err(Fault("unused")),
           _ => Ok([Some(Delta("r1", ["s1"])), Some(Delta("r2", ["s2"]))]))
  }

  /** Templates that parse and render to the name of the stage's binding. */
  function ExampleTemplates(): Templates
  {
    Templates(_ => None, (text, _) => Ok(text))
  }

  /**
   Input "What is 2+2?", a fast model answering "structured:<input>" and then
   "final:<input>", and a deep stream of {r1, [s1]} then {r2, [s2]}: the
   answer's reasoning is ["s1", "s2"], and its content is "final:r2", because
   the Reasoner overwrites the intermediate content with the last streamed
   content before the Postprocessor reads it.
   */
  lemma WorkedRun(clock: nat)
    ensures var x := RunHybrid(ExampleTemplates(), Prompts("pre", "reason", "post"), ExampleBridge(),
                               Context([], Fault("context canceled")), clock,
                               Request("", [Message(User, "What is 2+2?", [])], false, "", 0.0, 0));
      && x.response.Ok?
      && x.response.value.choices == [Choice(Message(Assistant, "final:r2", ["s1", "s2"]), Stop)]
  {
    var t := ExampleTemplates();
    var prompts := Prompts("pre", "reason", "post");
    var b := ExampleBridge();
    var ctx := Context([], Fault("context canceled"));
    var req := Request("", [Message(User, "What is 2+2?", [])], false, "", 0.0, 0);
    var stages := HybridStages(t, prompts, b);
    var x := RunHybrid(t, prompts, b, ctx, clock, req);
    var p0 := NewPayload(x.request);

    var p1 := p0.(intermContent := "structured:What is 2+2?");
    assert Preprocess(t, NewNormalPreprocessor("pre", b), p0) == Ok(p1) by {
      var q := TwoMessageRequest(FastModel, "pre", "What is 2+2?", false);
      assert q.messages[0].content == "pre" && q.messages[1].content == "What is 2+2?";
      assert "structured:" + "What is 2+2?" == "structured:What is 2+2?";
      assert FastEcho(q) == Ok(AssistantReply("structured:What is 2+2?", []));
    }
    assert Prefix(stages, p0, 1) == Ok(p1);

    var d1 := Delta("r1", ["s1"]);
    var d2 := Delta("r2", ["s2"]);
    var p2 := p1.(reasoningChain := ["s1", "s2"], intermContent := "r2");
    assert Reason(t, NewReasonerEngine("reason", b), p1) == Ok(p2) by {
      var raw := [Some(d1), Some(d2)];
      assert raw[1..] == [Some(d2)];
      assert Forward(raw) == [d1, d2];
      var s0 := StreamState([], "");
      assert Consume([d1, d2], s0) == Consume([d2], Absorb(s0, d1)) by {
        assert [d1, d2][1..] == [d2];
      }
      assert Absorb(s0, d1) == StreamState(["s1"], "r1");
      assert Absorb(StreamState(["s1"], "r1"), d2) == StreamState(["s1", "s2"], "r2");
      assert Consume([d2], StreamState(["s1"], "r1")) == StreamState(["s1", "s2"], "r2") by {
        assert [d2][1..] == [];
      }
    }
    assert Prefix(stages, p0, 2) == Ok(p2);

    var p3 := p2.(finalContent := "final:r2");
    assert Postprocess(t, NewNormalPostprocessor("post", b), p2) == Ok(p3) by {
      var q := TwoMessageRequest(FastModel, "post", "r2", false);
      assert "post"[1] != "pre"[1];
      assert q.messages[0].content == "post" && q.messages[1].content == "r2";
      assert "final:" + "r2" == "final:r2";
      assert FastEcho(q) == Ok(AssistantReply("final:r2", []));
    }
    assert Prefix(stages, p0, 3) == Ok(p3);
    ExecuteCharacterised(stages, ctx, clock, req);
    PrefixOkBelow(stages, p0, 3);
  }
}

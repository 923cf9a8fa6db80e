/**
 The pipeline engine (internal/orchestrator/pipeline.go): the payload that
 flows between stages, request-id assignment, the stage loop with its
 per-stage cancellation check and error wrapping, and the final response.

 A stage is its name and a function from the payload it receives to its
 outcome. The context is the sequence of answers `ctx.Done()` gives on entry
 to each stage (an index past the end reads "not done") together with the
 error `ctx.Err()` returns once it is done. The clock reading that makes a
 fresh request id is a parameter.
 */
module Pipeline {
  import opened Outcomes
  import opened Models

  datatype Payload = Payload(
    original: Request,
    reasoningChain: seq<string>,
    intermContent: string,
    finalContent: string)

  datatype Stage = Stage(name: string, exec: Payload -> Result<Payload>)

  datatype Context = Context(done: seq<bool>, err: Error)

  predicate DoneAt(ctx: Context, i: nat)
  {
    i < |ctx.done| && ctx.done[i]
  }

  // ---------------------------------------------------------------- request id

  const RequestIdPrefix: string := "req_"

  predicate IsDigit(c: char)
  {
    '0' <= c <= '9'
  }

  predicate AllDigits(s: string)
  {
    forall i :: 0 <= i < |s| ==> IsDigit(s[i])
  }

  /** `%d` of a non-negative number. */
  function Decimal(n: nat): (s: string)
    ensures |s| > 0 && AllDigits(s)
  {
    var last := ['0' + (n % 10) as char];
    if n < 10 then last else Decimal(n / 10) + last
  }

  /** Reads a string of decimal digits back as a number. */
  function ParseDecimal(s: string): nat
    requires AllDigits(s)
  {
    if s == [] then 0
    else ParseDecimal(s[..|s| - 1]) * 10 + (s[|s| - 1] - '0') as nat
  }

  lemma {:induction false} DecimalRoundTrip(n: nat)
    ensures ParseDecimal(Decimal(n)) == n
  {
    var s := Decimal(n);
    if n >= 10 {
      DecimalRoundTrip(n / 10);
      assert s[..|s| - 1] == Decimal(n / 10);
    }
  }

  /** Fresh ids read different clocks as different ids. */
  lemma FreshIdsDiffer(a: nat, b: nat)
    requires a != b
    ensures RequestIdPrefix + Decimal(a) != RequestIdPrefix + Decimal(b)
  {
    DecimalRoundTrip(a);
    DecimalRoundTrip(b);
    assert (RequestIdPrefix + Decimal(a))[|RequestIdPrefix|..] == Decimal(a);
    assert (RequestIdPrefix + Decimal(b))[|RequestIdPrefix|..] == Decimal(b);
  }

  /** A caller's id is kept; an empty one becomes "req_" followed by the clock reading in decimal. */
  function AssignRequestId(req: Request, clock: nat): (r: Request)
    ensures req.requestId != "" ==> r == req
    ensures req.requestId == "" ==> r == req.(requestId := r.requestId)
    ensures r.requestId != ""
    ensures req.requestId == "" ==>
      && |r.requestId| > |RequestIdPrefix|
      && r.requestId[..|RequestIdPrefix|] == RequestIdPrefix
      && AllDigits(r.requestId[|RequestIdPrefix|..])
      && ParseDecimal(r.requestId[|RequestIdPrefix|..]) == clock
  {
    if req.requestId == "" then
      var id := RequestIdPrefix + Decimal(clock);
      assert id[|RequestIdPrefix|..] == Decimal(clock);
      assert id[..|RequestIdPrefix|] == RequestIdPrefix;
      DecimalRoundTrip(clock);
      req.(requestId := id)
    else req
  }

  /** The payload a run starts from: the request, no reasoning, no intermediate or final content. */
  function NewPayload(req: Request): (p: Payload)
    ensures p.original == req
    ensures p.reasoningChain == [] && p.intermContent == "" && p.finalContent == ""
  {
    Payload(req, [], "", "")
  }

  // ---------------------------------------------------------------- stage loop

  /** `fmt.Errorf("stage %s failed: %w", name, err)`. */
  function StageError(name: string, e: Error): (w: Error)
    ensures Is(w, e) && w != e
    ensures ErrorText(w) == "stage " + name + " failed: " + ErrorText(e)
  {
    Wrapped("stage " + name + " failed", e)
  }

  /** The outcome of the loop (the final payload or why it stopped) and the indices of the stages it executed. */
  datatype Run = Run(result: Result<Payload>, ran: seq<nat>)

  /** The loop from stage i on, holding payload p. */
  function RunFrom(stages: seq<Stage>, ctx: Context, i: nat, p: Payload): (run: Run)
    requires i <= |stages|
    ensures |run.ran| <= |stages| - i
    ensures forall j :: 0 <= j < |run.ran| ==> run.ran[j] == i + j
    ensures run.result.Ok? ==> |run.ran| == |stages| - i
    decreases |stages| - i
  {
    if i == |stages| then Run(Ok(p), [])
    else if DoneAt(ctx, i) then Run(Err(ctx.err), [])
    else
      match stages[i].exec(p)
      case Err(e) => Run(Err(StageError(stages[i].name, e)), [i])
      case Panic(v) => Run(Panic(v), [i])
      case Ok(next) =>
        var rest := RunFrom(stages, ctx, i + 1, next);
        Run(rest.result, [i] + rest.ran)
  }

  /** `buildResponse`. */
  function BuildResponse(p: Payload): (r: Response)
    ensures |r.choices| == 1
    ensures r.choices[0] == Choice(Message(Assistant, p.finalContent, p.reasoningChain), Stop)
  {
    AssistantReply(p.finalContent, p.reasoningChain)
  }

  /** What `Execute` leaves behind: the request (with its id), the response or failure, and the stages it executed. */
  datatype Execution = Execution(request: Request, response: Result<Response>, ran: seq<nat>)

  /** `HybridPipeline.Execute`. */
  function Execute(stages: seq<Stage>, ctx: Context, clock: nat, req: Request): (x: Execution)
    ensures x.request.requestId != ""
    ensures x.request == req.(requestId := x.request.requestId)
    ensures req.requestId != "" ==> x.request == req
    ensures forall j :: 0 <= j < |x.ran| ==> x.ran[j] == j
    ensures x.response.Ok? ==> |x.ran| == |stages| && |x.response.value.choices| == 1
  {
    var request := AssignRequestId(req, clock);
    var run := RunFrom(stages, ctx, 0, NewPayload(request));
    Execution(request,
              match run.result
              case Ok(p) => Ok(BuildResponse(p))
              case Err(e) => Err(e)
              case Panic(v) => Panic(v),
              run.ran)
  }

  // ---------------------------------------------------------------- reference semantics

  /** The outcome of the first n stages run back to back from p, ignoring cancellation, stopping at the first failure. */
  function Prefix(stages: seq<Stage>, p: Payload, n: nat): Result<Payload>
    requires n <= |stages|
  {
    if n == 0 then Ok(p)
    else
      match Prefix(stages, p, n - 1)
      case Ok(q) => stages[n - 1].exec(q)
      case Err(e) => Err(e)
      case Panic(v) => Panic(v)
  }

  function Range(lo: nat, hi: nat): (r: seq<nat>)
    requires lo <= hi
    ensures |r| == hi - lo
    ensures forall k :: 0 <= k < |r| ==> r[k] == lo + k
  {
    seq(hi - lo, k requires 0 <= k < hi - lo => lo + k)
  }

  /**
   Why a loop that executed exactly the stages before k stopped: all stages
   done; the context was done on entry to stage k; or stage k-1 returned an
   error (wrapped with its name) or panicked.
   */
  predicate StoppedAt(stages: seq<Stage>, ctx: Context, p0: Payload, k: nat, result: Result<Payload>)
    requires k <= |stages|
  {
    || (k == |stages| && Prefix(stages, p0, k).Ok? && result == Prefix(stages, p0, k))
    || (k < |stages| && Prefix(stages, p0, k).Ok? && DoneAt(ctx, k) && result == Err(ctx.err))
    || (0 < k && Prefix(stages, p0, k).Err?
        && result == Err(StageError(stages[k - 1].name, Prefix(stages, p0, k).error)))
    || (0 < k && Prefix(stages, p0, k).Panic? && result == Panic(Prefix(stages, p0, k).reason))
  }

  /** The loop from stage i, entered with the payload the first i stages produced. */
  lemma {:induction false} RunFromCharacterised(stages: seq<Stage>, ctx: Context, p0: Payload, i: nat, p: Payload)
    requires i <= |stages|
    requires Prefix(stages, p0, i) == Ok(p)
    ensures var run := RunFrom(stages, ctx, i, p);
      && i + |run.ran| <= |stages|
      && run.ran == Range(i, i + |run.ran|)
      && (forall j :: i <= j < i + |run.ran| ==> !DoneAt(ctx, j) && Prefix(stages, p0, j).Ok?)
      && StoppedAt(stages, ctx, p0, i + |run.ran|, run.result)
    decreases |stages| - i
  {
    if i < |stages| && !DoneAt(ctx, i) {
      var out := stages[i].exec(p);
      assert Prefix(stages, p0, i + 1) == out;
      if out.Ok? {
        var rest := RunFrom(stages, ctx, i + 1, out.value);
        RunFromCharacterised(stages, ctx, p0, i + 1, out.value);
        assert RunFrom(stages, ctx, i, p).ran == [i] + rest.ran;
      }
    }
  }

  /**
   The whole engine: the executed stages are 0, 1, ..., k-1 in that order,
   each once; each executed stage found the context not done and all earlier
   stages successful; and the run stopped for exactly one of the reasons of
   `StoppedAt`. A response exists only when every stage ran and succeeded.
   */
  lemma ExecuteCharacterised(stages: seq<Stage>, ctx: Context, clock: nat, req: Request)
    ensures var x := Execute(stages, ctx, clock, req);
      var p0 := NewPayload(x.request);
      && |x.ran| <= |stages|
      && x.ran == Range(0, |x.ran|)
      && (forall j :: 0 <= j < |x.ran| ==> !DoneAt(ctx, j) && Prefix(stages, p0, j).Ok?)
      && (x.response.Ok? <==> |x.ran| == |stages| && Prefix(stages, p0, |stages|).Ok?)
      && (x.response.Ok? ==> x.response.value == BuildResponse(Prefix(stages, p0, |stages|).value))
      && (|x.ran| < |stages| && Prefix(stages, p0, |x.ran|).Ok? ==> DoneAt(ctx, |x.ran|) && x.response == Err(ctx.err))
      && (0 < |x.ran| && Prefix(stages, p0, |x.ran|).Err? ==>
            x.response == Err(StageError(stages[|x.ran| - 1].name, Prefix(stages, p0, |x.ran|).error)))
      && (0 < |x.ran| && Prefix(stages, p0, |x.ran|).Panic? ==> x.response == Panic(Prefix(stages, p0, |x.ran|).reason))
  {
    var x := Execute(stages, ctx, clock, req);
    var p0 := NewPayload(x.request);
    RunFromCharacterised(stages, ctx, p0, 0, p0);
  }

  /** No retry: every stage is executed at most once, and in list order. */
  lemma StagesRunOnceInOrder(stages: seq<Stage>, ctx: Context, clock: nat, req: Request)
    ensures var ran := Execute(stages, ctx, clock, req).ran;
      && (forall a, b :: 0 <= a < b < |ran| ==> ran[a] < ran[b])
      && (forall j: nat :: j in ran <==> j < |ran|)
  {
    ExecuteCharacterised(stages, ctx, clock, req);
    var ran := Execute(stages, ctx, clock, req).ran;
    forall j: nat | j < |ran| ensures j in ran {
      assert ran[j] == j;
    }
    forall j: nat | j in ran ensures j < |ran| {
      var a :| 0 <= a < |ran| && ran[a] == j;
    }
  }

  /** Stage k+1 executes only if stage k executed and succeeded and the context was not done on entry to k+1. */
  lemma NextStageNeedsSuccess(stages: seq<Stage>, ctx: Context, clock: nat, req: Request, k: nat)
    requires k + 1 < |stages|
    ensures var x := Execute(stages, ctx, clock, req);
      var p0 := NewPayload(x.request);
      k + 1 in x.ran ==>
        && k in x.ran
        && !DoneAt(ctx, k + 1)
        && Prefix(stages, p0, k).Ok?
        && stages[k].exec(Prefix(stages, p0, k).value).Ok?
  {
    ExecuteCharacterised(stages, ctx, clock, req);
    StagesRunOnceInOrder(stages, ctx, clock, req);
  }

  /** A context done on entry to stage k keeps stage k and every later stage from executing. */
  lemma CancelledStopsLaterStages(stages: seq<Stage>, ctx: Context, clock: nat, req: Request, k: nat)
    requires DoneAt(ctx, k)
    ensures forall j :: j in Execute(stages, ctx, clock, req).ran ==> j < k
  {
    ExecuteCharacterised(stages, ctx, clock, req);
    StagesRunOnceInOrder(stages, ctx, clock, req);
  }

  /** Cancellation returns the context's own error, not wrapped, and no response. */
  lemma CancelledReturnsContextError(stages: seq<Stage>, ctx: Context, clock: nat, req: Request, k: nat)
    requires k < |stages| && DoneAt(ctx, k)
    requires forall j :: 0 <= j < k ==> !DoneAt(ctx, j)
    requires Prefix(stages, NewPayload(AssignRequestId(req, clock)), k).Ok?
    ensures Execute(stages, ctx, clock, req).response == Err(ctx.err)
    ensures |Execute(stages, ctx, clock, req).ran| == k
  {
    var x := Execute(stages, ctx, clock, req);
    var p0 := NewPayload(x.request);
    ExecuteCharacterised(stages, ctx, clock, req);
    StagesRunOnceInOrder(stages, ctx, clock, req);
    PrefixOkBelow(stages, p0, k);
  }

  /** A successful prefix was successful at every shorter length. */
  lemma {:induction false} PrefixOkBelow(stages: seq<Stage>, p0: Payload, n: nat)
    requires n <= |stages| && Prefix(stages, p0, n).Ok?
    ensures forall j :: 0 <= j <= n ==> Prefix(stages, p0, j).Ok?
  {
    if n > 0 {
      PrefixOkBelow(stages, p0, n - 1);
    }
  }

  /** The first failing stage aborts the run with its error wrapped in its name; later stages never execute. */
  lemma FirstFailureAborts(stages: seq<Stage>, ctx: Context, clock: nat, req: Request, k: nat)
    requires k < |stages|
    requires forall j :: 0 <= j <= k ==> !DoneAt(ctx, j)
    requires var p0 := NewPayload(AssignRequestId(req, clock));
      Prefix(stages, p0, k).Ok? && stages[k].exec(Prefix(stages, p0, k).value).Err?
    ensures var x := Execute(stages, ctx, clock, req);
      var p0 := NewPayload(x.request);
      && |x.ran| == k + 1
      && x.response == Err(StageError(stages[k].name, stages[k].exec(Prefix(stages, p0, k).value).error))
  {
    var x := Execute(stages, ctx, clock, req);
    var p0 := NewPayload(x.request);
    ExecuteCharacterised(stages, ctx, clock, req);
    assert Prefix(stages, p0, k + 1).Err?;
    PrefixOkBelow(stages, p0, k);
    PrefixFailsAbove(stages, p0, k + 1);
  }

  /**
   The `%w` wrap keeps the failing stage's error reachable: `errors.Is` on the
   run's error finds every error on the failing stage's own chain, such as
   the client error a stage wrapped in turn.
   */
  lemma FailureKeepsCause(stages: seq<Stage>, ctx: Context, clock: nat, req: Request, k: nat, cause: Error)
    requires k < |stages|
    requires forall j :: 0 <= j <= k ==> !DoneAt(ctx, j)
    requires var p0 := NewPayload(AssignRequestId(req, clock));
      && Prefix(stages, p0, k).Ok?
      && stages[k].exec(Prefix(stages, p0, k).value).Err?
      && Is(stages[k].exec(Prefix(stages, p0, k).value).error, cause)
    ensures Execute(stages, ctx, clock, req).response.Err?
    ensures Is(Execute(stages, ctx, clock, req).response.error, cause)
  {
    var p0 := NewPayload(AssignRequestId(req, clock));
    var own := stages[k].exec(Prefix(stages, p0, k).value).error;
    FirstFailureAborts(stages, ctx, clock, req, k);
    IsTransitive(StageError(stages[k].name, own), own, cause);
  }

  /** Once a prefix fails, every longer prefix fails the same way. */
  lemma {:induction false} PrefixFailsAbove(stages: seq<Stage>, p0: Payload, n: nat)
    requires n <= |stages| && !Prefix(stages, p0, n).Ok?
    ensures forall j :: n <= j <= |stages| ==> Prefix(stages, p0, j) == Prefix(stages, p0, n)
    decreases |stages| - n
  {
    if n < |stages| {
      PrefixFailsAbove(stages, p0, n + 1);
    }
  }
}

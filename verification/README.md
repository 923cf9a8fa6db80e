# deepempower: the hybrid reasoning pipeline, in Dafny

deepempower answers an OpenAI-style chat-completion request in three stages.

1. A fast model ("gpt-3.5-turbo") turns the user's last message into structured input.
2. A deep model ("gpt-4") streams a chain of reasoning steps and an intermediate answer.
3. The fast model turns that intermediate answer into the final reply.

The engine runs the stages in order over a shared payload. It checks for cancellation before each stage. It wraps a stage's failure with the stage's name. It builds a one-choice response from the payload.

A model bridge sits between the stages and the HTTP clients. It turns panics in the blocking client calls into errors; the streaming call passes a panic through. It filters the deep model's stream, dropping empty items. The deep-model client prepares the request: it runs `filterDisabledParams`, which leaves the request unchanged (see "## Findings"), and it fills in the configured model name when the request names none. It also builds the endpoint address and normalises each reply or stream chunk into a one-choice response.

This project models that core as pure functions over immutable datatypes and proves what the code promises.

| file | module | models |
|---|---|---|
| `outcomes.dfy` | `Outcomes` | Go's `(value, error)` plus panics as `Result`, `%w` wrapping, `err.Error()` |
| `models.dfy` | `Models` | request, message, choice, response and client configuration records |
| `bridge.dfy` | `ModelBridge` | `CallNormal`, `CallReasoner` (with `recover`), the `CallReasonerStream` relay filter |
| `reasoner_client.dfy` | `ReasonerClient` | `filterDisabledParams` over a JSON tree, model defaulting, URL, normalisation, `Complete`/`CompleteStream` without the wire |
| `pipeline.dfy` | `Pipeline` | `Payload`, request-id assignment, the stage loop of `Execute`, `buildResponse` |
| `processors.dfy` | `Processors` | the three stages' `Execute` and `Name`, and the Reasoner's stream fold |
| `hybrid.dfy` | `Hybrid` | the stage list of `NewHybridPipeline` and end-to-end properties |

Modelling choices:
- **Outcomes.** A Go call ends in one of three ways, and `Result<T>` has one constructor for each: `Ok`, `Err` or `Panic`.
  - An index out of range is a `Panic` carrying Go's run-time message. This covers the last message of an empty list and the first choice of an empty reply. No precondition rules these cases out.
  - The bridge's `recover` turns a client's `Panic(v)` into the error `runtime error: v`.
- **Collaborators as parameters.** Everything the code only calls is a function parameter: the two clients, the template engine (parse and execute) and the HTTP exchange.
- **Cancellation.** A context is one "done" observation per stage entry, plus the error `ctx.Err()` returns.
- **Request id.** The clock reading is a natural number. A fresh id is "req_" followed by its decimal digits.
- **Streams.** A stream is the finite sequence of items its channel delivers. `None` stands for a nil item.
- **Reference semantics.** `Pipeline.Prefix` runs the first n stages back to back and ignores cancellation. The engine is characterised against it.

## Model

| member | source | states |
|---|---|---|
| Models.TwoMessageRequest | internal/orchestrator/processors.go:54-60 | a stage request carries exactly a system turn with the rendered prompt, then a user turn, with the given model and Stream flag and no other parameter set |
| Models.AssistantReply | internal/orchestrator/pipeline.go:145-155 | a reply has exactly one choice, with role assistant, the given content and reasoning, and finish reason "stop"; the id, object type, creation time and model are left empty, so the request id is not echoed |
| ModelBridge.Recover | internal/modelbridge/bridge.go:43-49 | the deferred recover never lets a panic escape; a client panic with value v becomes the error "runtime error: v"; results and errors pass unchanged |
| ModelBridge.CallNormal | internal/modelbridge/bridge.go:38-61 | succeeds exactly when the fast client does, with its response; a client error is returned unchanged; a client panic becomes the "runtime error: " error |
| ModelBridge.CallReasoner | internal/modelbridge/bridge.go:64-87 | the same contract for the deep client's blocking call |
| ModelBridge.CallReasonerStream | internal/modelbridge/bridge.go:90-140 | the client is asked with Stream forced on; a start failure comes back unchanged and unwrapped; an opened stream is relayed through the filter |
| ModelBridge.Forward | internal/modelbridge/bridge.go:115-133 | the relay never emits more items than it receives, and everything it emits passes the test |
| ModelBridge.Forwardable | internal/modelbridge/bridge.go:118-129 | the relay's test (non-nil, a choice, content or a non-empty reasoning list); what passing it means for the relay is stated by `ModelBridge.ForwardOne` and `ModelBridge.ForwardMembership` |
| ModelBridge.ForwardOne | internal/modelbridge/bridge.go:118-131 | a single raw item comes out, unchanged, exactly when it passes the test, and otherwise nothing comes out |
| ModelBridge.ForwardAppend | internal/modelbridge/bridge.go:115-133 | the relay decides each item on its own: the output for two stream pieces is the first piece's output followed by the second's, so repeated items are all forwarded |
| ModelBridge.RepeatedItemForwardedTwice | internal/modelbridge/bridge.go:115-133 | a passing item that arrives twice, with a nil item between, is forwarded twice |
| ModelBridge.ForwardMembership | internal/modelbridge/bridge.go:118-131 | an item is forwarded iff it is non-nil, has a choice, and its first choice has content or a non-empty reasoning list |
| ModelBridge.ForwardIsSubsequence | internal/modelbridge/bridge.go:115-133 | the forwarded items, unchanged, form an order-preserving subsequence of the raw items |
| ModelBridge.ForwardLength | internal/modelbridge/bridge.go:115-133 | the relay drops nothing iff every raw item passes, and emits strictly fewer items iff some raw item fails |
| ModelBridge.ForwardAllPass | internal/modelbridge/bridge.go:129-131 | a stream whose every item passes is relayed exactly |
| ModelBridge.ForwardIdempotent | internal/modelbridge/bridge.go:129-131 | filtering an already filtered stream changes nothing |
| ModelBridge.ContentOnlyAndReasoningOnlyForwarded | internal/modelbridge/bridge_test.go:87-94 | a content-only item and a reasoning-only item are both forwarded, in order |
| ModelBridge.DroppedAndKeptItems | internal/modelbridge/bridge.go:118-129 | a nil item, a reply without choices and a role-only delta are dropped; a reasoning list holding only "" counts as reasoning |
| ReasonerClient.EncodeRequest | internal/models/types.go:4-11 | the marshalled request always has model, messages and request_id; stream, temperature and max_tokens appear iff they are non-zero |
| ReasonerClient.EncodeDecodeRoundTrip | internal/clients/reasoner.go:41-42 | unmarshalling a marshalled request into a zero request gives the request back |
| ReasonerClient.FilterDisabledParams | internal/clients/reasoner.go:29-43 | the request comes back unchanged, whatever parameters are disabled (proved through `ReasonerClient.StrippedDecodesToSelf`; see "## Findings") |
| ReasonerClient.StrippedDecodesToSelf | internal/clients/reasoner.go:41-42 | unmarshalling the stripped map into the request it came from leaves every field as it was |
| ReasonerClient.StrippedObject | internal/clients/reasoner.go:35-38 | after the delete loop no disabled key is present, and every other key keeps its marshalled value |
| ReasonerClient.FilterDisabledParamsIsIdentity | internal/clients/reasoner.go:29-43 | unmarshalling the stripped map back into the same request changes nothing, whatever is disabled |
| ReasonerClient.DisabledParamStillSent | internal/clients/reasoner.go:29-43 | a disabled temperature that the caller set is still marshalled into the body, with its value |
| ReasonerClient.TemperatureSurvivesFilter | internal/clients/reasoner_test.go:95-99 | with "temperature" disabled, a request with temperature 0.7 still sends the temperature key |
| ReasonerClient.ResolveModel | internal/clients/reasoner.go:50-52 | an empty model name becomes the configured one; a non-empty one is kept; no other field changes |
| ReasonerClient.PrepareComplete | internal/clients/reasoner.go:46-52 | the request `Complete` sends differs from the caller's in the model name at most, and only when that name was empty |
| ReasonerClient.PrepareStream | internal/clients/reasoner.go:113-124 | the streamed request always has Stream on and differs from the caller's only in Stream and a defaulted model name |
| ReasonerClient.IntendedBody | internal/clients/reasoner.go:29-43 | corrected filter: no disabled key is in the body, and every other key of the sent body is kept with its value |
| ReasonerClient.SentAndIntendedBodiesDiffer | internal/clients/reasoner.go:29-43 | the sent body and the corrected body are equal iff the sent body carries none of the disabled keys |
| ReasonerClient.ChatCompletionsUrl | internal/clients/reasoner.go:61-65 | the address ends with "/chat/completions" and starts with http:// or https://; "http://" is added iff the appended address has no scheme, so a base that has one is kept |
| ReasonerClient.UrlOfSchemeFragment | internal/clients/reasoner.go:61-65 | the scheme test looks at the appended address, so the base "http:/" gets no prefix |
| ReasonerClient.UrlOfEmptyBase | internal/clients/reasoner.go:61-65 | an empty base gives "http:///chat/completions" |
| ReasonerClient.UrlOfBareHost | internal/clients/reasoner.go:133-137 | a bare host and port gets "http://" in front |
| ReasonerClient.Normalize | internal/clients/reasoner.go:98-109 | it panics iff there is no decoded choice; otherwise one assistant choice with finish reason "stop" copies the first decoded choice's content and reasoning |
| ReasonerClient.NormalizeIdempotent | internal/clients/reasoner.go:98-109 | normalising a normalised reply gives it back, and only the first decoded choice matters |
| ReasonerClient.Complete | internal/clients/reasoner.go:45-110 | the prepared request is sent to the built address; an exchange error or panic passes through; a reply is normalised |
| ReasonerClient.Produce | internal/clients/reasoner.go:152-190 | the stream succeeds iff every chunk has a choice, and then it carries one normalised response per chunk, in order; a chunk without choices panics |
| ReasonerClient.CompleteStream | internal/clients/reasoner.go:112-193 | the Stream-forced request is sent to the built address; a start failure passes through; opened chunks are produced in order |
| ReasonerClient.EmptyReplyPanics | internal/clients/reasoner.go:103 | a reply without choices panics, and behind the bridge it surfaces as "runtime error: runtime error: index out of range [0] with length 0", never as "no choices in response" |
| ReasonerClient.NormalizeChecked | internal/clients/reasoner_test.go:64-79 | corrected normalisation never panics: it fails iff there is no choice, with the text "no choices in response", and otherwise agrees with `Normalize` |
| ReasonerClient.CompleteChecked | internal/clients/reasoner_test.go:64-79 | the corrected client never panics on a decoded reply; it fails on a reply iff the reply has no choice |
| ReasonerClient.CompleteCheckedAgrees | internal/clients/reasoner_test.go:64-79 | the corrected client gives the expected error on an empty reply and otherwise returns exactly what `Complete` returns |
| Pipeline.RunFrom | internal/orchestrator/pipeline.go:120-135 | the stage loop from stage i executes at most the remaining stages, as consecutive indices from i, and finishes with a payload only after executing all of them; `Pipeline.RunFromCharacterised` states the rest |
| Pipeline.Execute | internal/orchestrator/pipeline.go:106-139 | the request leaves with a non-empty id and nothing else changed; stages execute as 0, 1, 2, … in order; a response means every stage executed and holds one choice; `Pipeline.ExecuteCharacterised` states the whole outcome against the reference semantics |
| Pipeline.AssignRequestId | internal/orchestrator/pipeline.go:108-110 | a non-empty id is kept; an empty one becomes "req_" followed by decimal digits that read back as the clock; nothing else changes |
| Pipeline.DecimalRoundTrip | internal/orchestrator/pipeline.go:109 | the digits of a clock reading are all digits and parse back to the reading |
| Pipeline.FreshIdsDiffer | internal/orchestrator/pipeline.go:109 | two different clock readings give two different ids |
| Pipeline.NewPayload | internal/orchestrator/pipeline.go:115-118 | the payload starts with the request, an empty reasoning chain, and empty intermediate and final content |
| Pipeline.StageError | internal/orchestrator/pipeline.go:131 | the stage error wraps the cause, so `errors.Is` still finds it, and reads "stage <name> failed: <cause>" |
| Pipeline.BuildResponse | internal/orchestrator/pipeline.go:142-156 | the response has exactly one choice: assistant, the final content, the reasoning chain, "stop" |
| Pipeline.RunFromCharacterised | internal/orchestrator/pipeline.go:120-135 | the loop from stage i executes consecutive stages from i, each on a live context after successful predecessors, and stops for exactly one of four reasons |
| Pipeline.ExecuteCharacterised | internal/orchestrator/pipeline.go:106-139 | stages 0..k-1 execute in order; a response exists iff every stage executed and succeeded, and it is built from their payload; otherwise the result is the context error unwrapped, the failing stage's error wrapped in its name, or its panic |
| Pipeline.StagesRunOnceInOrder | internal/orchestrator/pipeline.go:120-135 | no retry: executed stage indices strictly increase and are exactly 0..k-1 |
| Pipeline.NextStageNeedsSuccess | internal/orchestrator/pipeline.go:120-135 | stage k+1 executes only if stage k executed and succeeded and the context was live on entry to k+1 |
| Pipeline.CancelledStopsLaterStages | internal/orchestrator/pipeline.go:124-127 | a context done on entry to stage k keeps stage k and every later stage from executing |
| Pipeline.CancelledReturnsContextError | internal/orchestrator/pipeline.go:124-127 | when cancellation is what stops the run at k, the result is the context's own error, unwrapped, after exactly k stages |
| Pipeline.FirstFailureAborts | internal/orchestrator/pipeline.go:129-131 | the first failing stage ends the run after it, with its error wrapped in its name and no response |
| Pipeline.FailureKeepsCause | internal/orchestrator/pipeline.go:129-131 | because the stage error wraps with `%w`, `errors.Is` on the run's error finds every error on the failing stage's own chain |
| Pipeline.PrefixFailsAbove | internal/orchestrator/pipeline.go:129-131 | once a stage fails, running more stages cannot change the failure |
| Processors.NamesDistinct | internal/orchestrator/processors.go:32-171 | the three `Name()` methods (lines 32-34, 92-94 and 169-171) give "normal_preprocessor", "reasoner_engine" and "normal_postprocessor", and two kinds share a name only if they are the same kind |
| Processors.Name | internal/orchestrator/processors.go:32-171 | the three `Name()` methods (lines 32-34, 92-94 and 169-171); `Processors.NamesDistinct` states that no two stages share a name |
| Processors.NewNormalPreprocessor | internal/orchestrator/processors.go:23-30 | the Preprocessor is pinned to "gpt-3.5-turbo" |
| Processors.NewReasonerEngine | internal/orchestrator/processors.go:83-90 | the Reasoner is pinned to "gpt-4" |
| Processors.NewNormalPostprocessor | internal/orchestrator/processors.go:160-167 | the Postprocessor is pinned to "gpt-3.5-turbo" |
| Processors.ParseTemplate | internal/orchestrator/processors.go:38-42 | a parse succeeds iff the template engine reports no error; a parse error comes back behind "parse template" |
| Processors.ExecuteTemplate | internal/orchestrator/processors.go:45-51 | an execute error comes back behind "execute template"; a rendering passes through |
| Processors.ModelCall | internal/orchestrator/processors.go:63-67 | a bridge error comes back behind "model call"; a response passes through |
| Processors.LastMessageContent | internal/orchestrator/processors.go:47 | the last message's content when there is one; an empty list panics with index -1 |
| Processors.FirstContent | internal/orchestrator/processors.go:70 | the first choice's content when there is one; a reply without choices panics with index 0 |
| Processors.Consume | internal/orchestrator/processors.go:131-144 | the Reasoner's loop over the stream only ever appends to the chain, and a stream whose items have no choice leaves the state as it was; `Processors.ConsumeChain` and `Processors.ConsumeLastAt` state the rest |
| Processors.ConsumeChain | internal/orchestrator/processors.go:133-140 | the chain after the loop is the chain before, followed by the first-choice reasoning of every item with a choice, in arrival order |
| Processors.ConsumeNoChoices | internal/orchestrator/processors.go:133-134 | items without choices change neither the chain nor the last content |
| Processors.ConsumeAppend | internal/orchestrator/processors.go:133-144 | consuming two stream pieces in turn is consuming their concatenation |
| Processors.ConsumeLastAt | internal/orchestrator/processors.go:142 | the last content is the content of the last item that has a choice, even a reasoning-only one |
| Processors.ForwardKeepsReasoning | internal/modelbridge/bridge.go:118-131 | the relay's filter never changes the reasoning the Reasoner collects, because every dropped item contributes none |
| Processors.PreprocessorRequest | internal/orchestrator/processors.go:54-60 | the processor's model; exactly the messages [system: the rendered prompt, user: the last original message]; Stream off; no id, temperature or token limit |
| Processors.ReasonerRequest | internal/orchestrator/processors.go:114-121 | the processor's model; exactly [system: the rendered prompt, user: the intermediate content]; Stream on; no id, temperature or token limit |
| Processors.PostprocessorRequest | internal/orchestrator/processors.go:192-198 | the processor's model; exactly [system: the rendered prompt, user: the intermediate content]; Stream off; no id, temperature or token limit |
| Processors.Preprocess | internal/orchestrator/processors.go:36-73 | on success only the intermediate content changes; every error is one of the stage's prefixed errors |
| Processors.Reason | internal/orchestrator/processors.go:96-150 | on success only the chain and the intermediate content change, and the chain only grows at its end; every error is prefixed |
| Processors.Postprocess | internal/orchestrator/processors.go:173-211 | on success only the final content changes; every error is prefixed |
| Processors.PreprocessorCallsFastModel | internal/orchestrator/processors.go:54-72 | with a rendered prompt, the fast client is asked exactly [system: prompt, user: last message]; its first content, its error behind "model call", its recovered panic, or the index panic decides the outcome |
| Processors.PreprocessorEarlyExits | internal/orchestrator/processors.go:38-51 | before any call: a parse error fails the stage behind "parse template"; a request without messages panics; an execute error fails it behind "execute template", and a panic in the template passes through |
| Processors.ReasonerEarlyExits | internal/orchestrator/processors.go:98-111 | before the stream opens: a parse error fails the stage behind "parse template"; an execute error fails it behind "execute template", and a panic in the template passes through |
| Processors.PostprocessorEarlyExits | internal/orchestrator/processors.go:175-189 | before any call: a parse error fails the stage behind "parse template"; an execute error fails it behind "execute template", and a panic in the template passes through |
| Processors.ReasonerFoldsStream | internal/orchestrator/processors.go:113-147 | with a rendered prompt, a start failure comes back behind "model call"; an opened stream extends the chain by the reasoning of its non-nil items in order and sets the intermediate content to the content of the last forwarded item, or "" when nothing is forwarded |
| Processors.LastIgnoresChain | internal/orchestrator/processors.go:131-147 | the content the loop ends with does not depend on the chain it started with |
| Processors.ReasonerContentIsLastForwarded | internal/orchestrator/processors.go:131-147 | an empty forwarded stream leaves "" in the intermediate content; otherwise it holds the last forwarded item's content |
| Processors.PostprocessorCallsFastModel | internal/orchestrator/processors.go:191-210 | with a rendered prompt, the fast client is asked exactly [system: prompt, user: intermediate content], and its reply decides the final content |
| Processors.ReasonerUnitTestExample | internal/orchestrator/processors_test.go:50-106 | two streamed steps leave "step 2" and the chain ["reasoning 1", "reasoning 2"] |
| Hybrid.RunHybrid | internal/orchestrator/pipeline.go:106-139 | the hybrid pipeline executes its stages in order, at most three of them, and answers only after executing all three |
| Hybrid.HybridStages | internal/orchestrator/pipeline.go:69-73 | the pipeline has three stages, named and executing as the Preprocessor, the Reasoner and the Postprocessor over the one bridge, in that order |
| Hybrid.CancelBeforeReasonerSkipsPostprocessor | internal/orchestrator/pipeline.go:124-127 | a context done before the Reasoner keeps the Reasoner and the Postprocessor from executing and yields no response; when the context is done before the Preprocessor, or the Preprocessor succeeded, the result is the context's error |
| Hybrid.SuccessfulRunCarriesStreamReasoning | internal/orchestrator/pipeline.go:120-156 | a successful run executes all three stages once; its single choice has the Postprocessor's content and, as reasoning, that of every non-nil item the deep model streamed for the Reasoner's request |
| Hybrid.FastClientErrorSurfaces | internal/orchestrator/pipeline_test.go:100-108 | a failing fast client fails the run after the Preprocessor alone, with the text "stage normal_preprocessor failed: model call: <error>", and `errors.Is` still finds the client's error |
| Hybrid.DeepClientErrorSurfaces | internal/orchestrator/pipeline_test.go:110-127 | a deep client that cannot start its stream fails the run after two stages, with the text "stage reasoner_engine failed: model call: <error>", and `errors.Is` still finds the client's error |
| Hybrid.WorkedRun | internal/orchestrator/processors.go:142-147 | for "What is 2+2?" with echoing fast models and a two-delta stream, the answer is "final:r2" with reasoning ["s1", "s2"], because the Reasoner overwrites the intermediate content |

## Left out

- HTTP transport: request creation, headers, `client.Do`, the status check and body decoding. The exchange is a parameter that yields decoded choices or an error, so "send request", "unexpected status code" and "decode response" are just errors it may return.
- Marshalling failures are left out. A NaN or infinite `float32` temperature makes `json.Marshal` fail. `filterDisabledParams` ignores that failure and leaves the request as it was. `Complete` then returns "marshal request: json: unsupported value: NaN" (or +Inf/-Inf). Temperature is a `real` here, and a `real` cannot hold those values.
- Strings are modelled as sequences of Unicode characters. Go strings are bytes, and `json.Marshal` rewrites invalid UTF-8 as U+FFFD.
- ReasonerClient.FilterDisabledParams: its identity contract holds for requests whose strings are valid UTF-8, for the reason on the next line.
- ReasonerClient.FilterDisabledParamsIsIdentity: holds for requests whose strings are valid UTF-8. In Go, the filter's JSON round trip replaces invalid bytes in the model, the messages or the id with U+FFFD, so on such a request it is not the identity.
- Goroutines and channels: the producer in `CompleteStream` and the relay in `CallReasonerStream`. A stream is the finite sequence its channel delivers, so the model covers neither blocking nor a consumer that stops reading.
- `ctx.Done()` polling inside the stream producer is left out. It can only cut a stream short, and a shorter sequence is just another stream.
- Cancellation between stages is modelled. Cancellation during a client call is the client's business and surfaces as that call's error.
- A panic in the producer goroutine is modelled only as far as the exchange goes. A chunk without choices crashes the whole process, and `Produce` reports that as `Panic`.
- `text/template` rendering is modelled as a parse function and an execute function supplied by the caller. Their errors are modelled; the template language is not.
- The logger, configuration loading, the HTTP server, the mock server and the test mocks are left out. They are side effects or wiring.
- `NewHybridPipeline` with a nil configuration is left out: it has no stages. The engine over an empty stage list covers that case.
- The `NormalClient` and the bridge constructor are left out; the clients are parameters of the bridge.
- `SetBridge` is left out. Re-pointing the stages at a new bridge gives the same stage list that `Hybrid.HybridStages` builds over that bridge.
- The text of `time.Now().UnixNano()` is left out. The clock is a natural-number parameter.
- The unused `Payload.Error` field and the read-write mutexes are left out. Nothing reads the field, and the model has no concurrency.
- Go's mutation of the caller's request (id assignment, Stream forcing, model defaulting) is modelled as returning the changed copy. `Execution.request` is that copy.
- A client that returns a nil response with a nil error is left out. The stage's `resp.Choices` would panic on it.
- A client that returns a nil stream with a nil error is left out. Ranging over a nil channel blocks forever, so the relay never closes its output, and the Reasoner waits on it forever. Neither loop selects on the context, so cancellation does not end the wait. A finite sequence cannot express that hang.
- Temperature is a `float32` in the source and a `real` here. The JSON round trip of a `float32` is exact, so nothing is lost. `max_tokens` above 2^53 would round through `float64` in the generic map; that is not modelled.
- No retry. The stage loop executes each stage at most once (`Pipeline.StagesRunOnceInOrder`), although test/integration/pipeline_test.go:155-196 expects one Preprocessor retry.
- Default-parameter injection is left out: the normal client never reads `DefaultParams`.
- The Postprocessor reads the Reasoner's last streamed content, not the Preprocessor's output. With fast models that echo their input as "final:<input>" and a stream of "r1" then "r2", the answer is therefore "final:r2" (`Hybrid.WorkedRun`). The end-to-end case at test/integration/pipeline_test.go:104-112 ("What is 2+2?") only asks for non-empty content.

## Findings

| source | as written | input that shows it | evidently intended | confidence | as-written member | corrected member |
|---|---|---|---|---|---|---|
| internal/clients/reasoner.go:29-43 | `filterDisabledParams` deletes the disabled keys from a generic map, then unmarshals that map back into the same request. A missing key leaves its field as it was, so the request is unchanged. | a config disabling "temperature", and a request with temperature 0.7 | the sent body carries no disabled parameter, as internal/clients/reasoner_test.go:95-99 asserts | high, not executed | ReasonerClient.DisabledParamStillSent | ReasonerClient.IntendedBody |
| internal/clients/reasoner.go:103 | `result.Choices[0]` is read without a length check. A reply without choices panics, and through the bridge it becomes "runtime error: runtime error: index out of range [0] with length 0". | a reply `{"choices": []}` | the error "no choices in response", as internal/clients/reasoner_test.go:78 expects | high, not executed | ReasonerClient.EmptyReplyPanics | ReasonerClient.CompleteChecked |

`Complete`, `Normalize` and `FilterDisabledParams` model the code as written. `IntendedBody`, `NormalizeChecked` and `CompleteChecked` are the corrected definitions. The pipeline takes its clients as parameters, so `Hybrid` holds with either client.

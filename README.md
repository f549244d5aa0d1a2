# vLLM model worker: request path

A Dafny model of the request path of the vLLM model worker
(`llm-ops/llm_ops/app/vllm_worker.py`). The worker receives chat requests, builds
a prompt from the conversation template, takes a permit from a lazily created
admission semaphore, runs the request on the vLLM engine and answers in one of two ways:

- as a stream of NUL-terminated JSON frames (`/worker_generate_stream`);
- as the last frame's payload (`/worker_generate`).

Modules, one per component:

- `Wrappers` (wrappers.dfy): `Option`, used for Python's `None` and for absent keys.
  Where an explicit `null` behaves differently from an absent key ("echo", "max_new_tokens"), `Sampling.Field` keeps the two apart.
- `Seqs` (seqs.dfy): joining, splitting and terminator framing of sequences, with their round-trip lemmas.
- `Sampling` (sampling.dfy): the parameter defaults, the stop set and the `top_p` clamp of `generate_stream`.
- `TextAssembly` (assembly.dfy): the echo rule and the `" ".join` of an engine output's completions.
- `Framing` (framing.dfy): frames (`json.dumps(ret) + "\0"`, encoded), the payload of a frame, and a client-side decoder of the byte stream.
- `Conversation` (conversation.dfy): `get_conversation_prompt`'s mapping from chat messages to template turns.
- `Worker` (worker.dfy): the class `VLLMWorker`. It holds `call_ct` and the semaphore, and its methods are `generate_stream`, `generate`, acquire and release, the background tasks, and the two endpoints' acquire/generate/release/abort order.

Some collaborators are stated as functions, not modelled:

- the engine: `(prompt, sampling params, request id) -> (outputs, raises)`;
- `tokenizer.decode`;
- the JSON encoder and decoder;
- the conversation-template lookup and its `get_prompt`.

The request id (`random_uuid()`) is a parameter. `engine.abort` is recorded as an event in a ghost trace of the worker.

JSON is a pair of functions. The predicate `Framing.Sound` states two assumptions about it:

- encoding never emits byte 0;
- decoding inverts encoding.

Section 7 of RFC 8259 requires control characters inside strings to be escaped, and `json.dumps` escapes them, so the first assumption holds.

Lemmas and contracts that need these assumptions take `Sound(json)` as a hypothesis. The worker class does not require it.

The semaphore field is `None` before the first acquire and afterwards holds the number of available permits. The ghost trace records every permit taken and returned. `Valid()` states that the available permits plus the permits held (taken minus returned, over the trace) equal `limit_worker_concurrency`.

The model assumes how the web framework serves a streaming response. It sends every frame of the generator first and then runs the background tasks in the order they were added. A generator that raises ends the response before the tasks run.

Everything is sequential. When asyncio would suspend an acquire because no permit is left, the model's acquire returns `WouldWait` and the endpoint returns `Waiting`.

The model follows the code as written:

- `top_p` has no upper clamp.
- No parameter is validated before a permit is taken.
- `api_generate` does not release its permit when `generate` raises, and neither does a streaming response whose generator raises. See Findings.

## Model

| member | source | states |
|---|---|---|
| `Sampling.BuildStopSet` | llm-ops/llm_ops/app/vllm_worker.py:81-90 | building the stop set step by step yields exactly the stop strings of the "stop" key plus the decodings of the token ids that are not None |
| `Sampling.EmptyStopsAddNothing` | llm-ops/llm_ops/app/vllm_worker.py:75-86 | an absent or None stop, `""`, `[]` and any other value contribute no stop string |
| `Sampling.StringAsSingletonList` | llm-ops/llm_ops/app/vllm_worker.py:83-86 | a non-empty string `s` and the list `[s]` give the same stop strings, namely `{s}` |
| `Sampling.ListContributesElements` | llm-ops/llm_ops/app/vllm_worker.py:85-86 | a non-empty list contributes exactly its elements |
| `Sampling.EosAlwaysStops` | llm-ops/llm_ops/app/vllm_worker.py:76-78 | whenever the tokenizer has an EOS id, its decoding is in the final stop set, whatever the caller sent |
| `Sampling.StopSetMembers` | llm-ops/llm_ops/app/vllm_worker.py:82-90 | a string is in the stop set iff it comes from the "stop" key or is the decoding of a token id that is not None (both directions) |
| `Sampling.NoneIdsSkipped` | llm-ops/llm_ops/app/vllm_worker.py:88-90 | a None token id adds nothing to the stop set, wherever it stands in the list |
| `Sampling.ClampTopP` | llm-ops/llm_ops/app/vllm_worker.py:93-95 | the clamped `top_p` is never below 1e-5 |
| `Sampling.GreedyForcesTopPOne` | llm-ops/llm_ops/app/vllm_worker.py:94-95 | a temperature of at most 1e-5 forces `top_p` to exactly 1.0 |
| `Sampling.TopPFloorOnly` | llm-ops/llm_ops/app/vllm_worker.py:93 | above that temperature `top_p` is `max(top_p, 1e-5)` and values above 1 are kept (no upper clamp) |
| `Sampling.ClampExamples` | llm-ops/llm_ops/app/vllm_worker.py:93-95 | temperature 0 with `top_p` 0.3 gives 1.0; temperature 0.7 with `top_p` 0 gives 1e-5, which is positive |
| `Sampling.NormalizeDefaults` | llm-ops/llm_ops/app/vllm_worker.py:72-74 | each key on its own: a missing temperature gives 1.0 and a given one passes through. A missing `top_p` gives 1.0, and a given one of at least 1e-5 passes through when the temperature is above 1e-5. A missing `max_new_tokens` gives 256, `null` gives `max_tokens=None`, and a given value passes through. One sample, no beam search, and `top_p >= 1e-5` |
| `Sampling.EchoDefault` | llm-ops/llm_ops/app/vllm_worker.py:79 | echo is on exactly when the key is absent or `true`; an explicit `null` turns it off |
| `TextAssembly.OutputTexts` | llm-ops/llm_ops/app/vllm_worker.py:107-113 | one contribution per completion, in order: prompt plus text with echo, the text alone without |
| `TextAssembly.SingleOutput` | llm-ops/llm_ops/app/vllm_worker.py:114 | a single completion is assembled with no separator |
| `TextAssembly.NoOutputs` | llm-ops/llm_ops/app/vllm_worker.py:114 | no completions give the empty text |
| `TextAssembly.AssembledLength` | llm-ops/llm_ops/app/vllm_worker.py:114 | the assembled text is the contributions plus exactly one space between neighbours |
| `TextAssembly.AssembledSplits` | llm-ops/llm_ops/app/vllm_worker.py:109-114 | when no contribution holds a space, splitting the text on spaces returns the contributions in order |
| `Seqs.SplitJoin` | llm-ops/llm_ops/app/vllm_worker.py:114 | splitting a join of delimiter-free parts returns the parts |
| `Seqs.JoinSplit` | llm-ops/llm_ops/app/vllm_worker.py:114 | joining the pieces of a split returns the original text |
| `Seqs.UnframeFramed` | llm-ops/llm_ops/app/vllm_worker.py:117 | unframing NUL-terminated, NUL-free parts recovers exactly those parts |
| `Framing.Frame` | llm-ops/llm_ops/app/vllm_worker.py:117 | a frame is the encoded payload followed by exactly one trailing NUL byte |
| `Framing.FrameRoundTrip` | llm-ops/llm_ops/app/vllm_worker.py:117-122 | stripping a frame's last byte and decoding returns its payload |
| `Framing.StreamRoundTrip` | llm-ops/llm_ops/app/vllm_worker.py:106-117 | splitting the concatenated frames on NUL and decoding each recovers the payloads in order |
| `Framing.TruncatedStreamRejected` | llm-ops/llm_ops/app/vllm_worker.py:117 | a byte stream cut off inside a frame is a framing error |
| `Conversation.Conversation.constructor` | llm-ops/llm_ops/app/vllm_worker.py:146 | a conversation handed out by a template has the template's roles and renderer and no turns |
| `Conversation.Conversation.SetSystemMessage` | llm-ops/llm_ops/app/vllm_worker.py:147 | sets the system message |
| `Conversation.Conversation.AppendMessage` | llm-ops/llm_ops/app/vllm_worker.py:150-153 | appends one turn and keeps the earlier ones |
| `Conversation.GetConversationPrompt` | llm-ops/llm_ops/app/vllm_worker.py:145-155 | the prompt is the template's rendering of the system message and the mapped turns, followed by an open assistant turn |
| `Conversation.MappedTurnsWellFormed` | llm-ops/llm_ops/app/vllm_worker.py:148-152 | every mapped turn has role `roles[0]` or `roles[1]` and a text |
| `Conversation.MappedTurnsAppend` | llm-ops/llm_ops/app/vllm_worker.py:148-152 | the turns of two message lists in a row are the turns of the first followed by the turns of the second |
| `Conversation.OtherRolesDropped` | llm-ops/llm_ops/app/vllm_worker.py:148-152 | a message whose role is neither "human" nor "ai" produces no turn, wherever it stands in the list |
| `Conversation.ChatMapsOneToOne` | llm-ops/llm_ops/app/vllm_worker.py:148-152 | when every role is "human" or "ai", turn i is message i, with "human" mapped to `roles[0]` and "ai" to `roles[1]` |
| `Conversation.EndsWithOpenAssistantTurn` | llm-ops/llm_ops/app/vllm_worker.py:153 | the last turn is always `(roles[1], None)` |
| `Worker.StreamUnits` | llm-ops/llm_ops/app/vllm_worker.py:106-116 | one unit per engine output, in engine order, each with error code 0 and empty usage |
| `Worker.CreateBackgroundTasks` | llm-ops/llm_ops/app/vllm_worker.py:135-142 | running the tasks returns one permit and then aborts the request id |
| `Worker.VLLMWorker.constructor` | llm-ops/llm_ops/app/vllm_worker.py:36-62 | a new worker has no semaphore, `call_ct` 0 and an empty trace |
| `Worker.VLLMWorker.PermitsWithinLimit` | llm-ops/llm_ops/app/vllm_worker.py:125-132 | held permits never exceed the limit; while releases do not outnumber acquires, available permits do not exceed it either |
| `Worker.VLLMWorker.Acquire` | llm-ops/llm_ops/app/vllm_worker.py:129-132 | the semaphore is created with `limit_worker_concurrency` permits only when absent, and reused afterwards; a permit is taken only when one is available; a negative limit raises |
| `Worker.VLLMWorker.Release` | llm-ops/llm_ops/app/vllm_worker.py:125-126 | returns one permit; raises and changes nothing while no semaphore exists |
| `Worker.VLLMWorker.EngineAbort` | llm-ops/llm_ops/app/vllm_worker.py:136-137 | records one abort of the request id |
| `Worker.VLLMWorker.GenerateStream` | llm-ops/llm_ops/app/vllm_worker.py:67-117 | `call_ct` grows by exactly 1 and the engine receives the normalised parameters; exactly one frame per engine output, in engine order; an engine error is propagated |
| `Worker.VLLMWorker.Generate` | llm-ops/llm_ops/app/vllm_worker.py:119-122 | the result is the decoding of the last frame without its final byte; an empty stream gives no result; an engine error propagates |
| `Worker.VLLMWorker.RunTasks` | llm-ops/llm_ops/app/vllm_worker.py:139-141 | background tasks run in the order they were added |
| `Worker.VLLMWorker.ApiGenerate` | llm-ops/llm_ops/app/vllm_worker.py:171-183 | on its normal path: one acquire, one submission, then one release, then one abort; when `generate` raises, the permit stays taken and nothing is released or aborted |
| `Worker.VLLMWorker.ApiGenerateScoped` | llm-ops/llm_ops/app/vllm_worker.py:176-182 | with release and abort in a `finally`, every admitted request returns its permit and aborts once |
| `Worker.VLLMWorker.ApiGenerateStream` | llm-ops/llm_ops/app/vllm_worker.py:158-168 | one acquire; the generator is not started; the background tasks are release followed by `abort(request_id)` |
| `Worker.VLLMWorker.StreamResponse` | llm-ops/llm_ops/app/vllm_worker.py:166-168 | the frames are sent first and the background tasks run afterwards; a raising generator skips them |
| `Worker.VLLMWorker.ServeGenerateStream` | llm-ops/llm_ops/app/vllm_worker.py:158-168 | when the engine does not raise, a served streaming request acquires, submits, releases and aborts once each, in that order, and returns its permit. When the engine raises, the background tasks are skipped and the permit stays taken. Without a permit available it waits; a negative limit fails |
| `Worker.VLLMWorker.StreamResponseScoped` | llm-ops/llm_ops/app/vllm_worker.py:166-168 | with the background tasks run on every exit of the body, the tasks run after the frames whether or not the generator raises |
| `Worker.VLLMWorker.ServeGenerateStreamScoped` | llm-ops/llm_ops/app/vllm_worker.py:158-168 | through the scoped response, every admitted streaming request acquires, submits, releases and aborts once each, and returns its permit, whether or not the engine raises |
| `Worker.StreamingAgreesWithGenerate` | llm-ops/llm_ops/app/vllm_worker.py:104-122 | the stream decodes to every unit in order, and `generate` returns its last unit |
| `Worker.GenerateOutcomeCases` | llm-ops/llm_ops/app/vllm_worker.py:119-122 | with a sound codec, `generate` has a result iff the engine neither raises nor yields nothing |
| `Worker.RequestPathBalanced` | llm-ops/llm_ops/app/vllm_worker.py:176-182 | a complete request path leaves the held permits unchanged; an interrupted one keeps one more |
| `Worker.LeakedPermitExample` | llm-ops/llm_ops/app/vllm_worker.py:176-182 | with one permit and an empty engine stream, the first request fails and keeps the permit, and the second waits |
| `Worker.ScopedPermitExample` | llm-ops/llm_ops/app/vllm_worker.py:176-182 | the same requests through the scoped path both run, and the permit is available afterwards |
| `Worker.StreamLeakExample` | llm-ops/llm_ops/app/vllm_worker.py:163-168 | with one permit and an engine that raises, the first streaming request keeps the permit, and the second waits |
| `Worker.StreamScopedExample` | llm-ops/llm_ops/app/vllm_worker.py:163-168 | the same requests through the scoped response both stream, and the permit is available afterwards |

## Left out

- HTTP transport (lines 158-266), not modelled: FastAPI routing, `StreamingResponse`/`JSONResponse` objects, CORS, `get_app`, and argument parsing and start-up. The endpoints are methods taking the already parsed request.
- Client disconnect, not modelled: what the web framework does when a client disconnects mid-stream lies outside this file.
- vLLM, not modelled: `AsyncLLMEngine.generate`/`abort` are the abstract `engine` function and a trace event, `SamplingParams` is a record of its arguments, and `random_uuid` is the `requestId` parameter.
- asyncio scheduling, not modelled: nothing is concurrent, and a blocked acquire is the outcome `WouldWait`.
- `BaseModelWorker` (heartbeat, registration, `count_token`, `get_status`, `get_conv_template`) is not part of this model. Its file is not available. The constructor assumes that the base class starts `call_ct` at 0 and the semaphore at None.
- `model_details` (line 204), not modelled: it returns a constant.
- `get_conversation_template`, `set_system_message`'s effect on rendering, and `get_prompt`: external string formatting, stated as the abstract `templates` function and the template's `render` function.
- JSON serialisation and `bytes.decode`: stated as an abstract codec, the `Sound` assumptions above.
- Floating point, not modelled: `float(...)` is taken as exact, and temperatures and `top_p` are `real`.
- Sampling.Normalize: an explicit `null` for "temperature" or "top_p" (where `float(None)` raises) cannot be expressed, because `None` in the model means an absent key. For "echo" and "max_new_tokens", `null` is modelled on its own.
- Missing keys, not modelled: a request without "prompt", "messages", "model_identifier", "role" or "text" raises `KeyError`; the model's request records always have these fields.
- Non-string list elements in "stop", not modelled: they would be added to the set as they are, and the model's list holds strings only.
- Sampling.BuildStopSet: does not model that the EOS id is appended to the caller's own `stop_token_ids` list, which mutates the request dictionary. The model builds a new sequence.
- The model keeps the stop set as a set; the order in which `list(stop)` hands it to vLLM is unspecified.
- `echo` is checked for truthiness in the source. The model takes a given value as a boolean and treats `null` as false; other falsy values such as `0` or `""` are not modelled.

## Findings

| source | as written | input that shows it | evidently intended | confidence | as-written member | corrected member |
|---|---|---|---|---|---|---|
| llm-ops/llm_ops/app/vllm_worker.py:176-182 | `api_generate` releases the semaphore and aborts only after `generate` returns. No `try/finally` surrounds it, so when the engine raises, or yields nothing (so `x` is unbound), the permit is never returned | `limit_worker_concurrency = 1` and an engine that yields no output: the first request fails and keeps the only permit, and every later request waits forever | release the permit and abort the request on every exit path once a permit is taken | not executed; high that the leak happens as written, medium that it is unintended | `Worker.VLLMWorker.ApiGenerate`, `Worker.LeakedPermitExample` | `Worker.VLLMWorker.ApiGenerateScoped`, `Worker.ScopedPermitExample` |
| llm-ops/llm_ops/app/vllm_worker.py:163-168 | the permit of a streaming request is returned only by a background task. The web framework runs the background tasks after the body has been sent completely, so when the engine raises inside the generator, the tasks never run and the permit is never returned, nor is the request aborted | `limit_worker_concurrency = 1` and an engine that raises: the first streaming request ends with an error and keeps the only permit, and every later request waits forever | return the permit and abort the request however the body ends | not executed; medium, because it depends on the web framework skipping background tasks when the body raises | `Worker.VLLMWorker.ServeGenerateStream`, `Worker.StreamLeakExample` | `Worker.VLLMWorker.ServeGenerateStreamScoped`, `Worker.StreamScopedExample` |

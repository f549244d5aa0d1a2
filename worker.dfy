/**
 * The vLLM model worker's request path: `generate_stream` and `generate`, the lazily
 * created admission semaphore with its acquire and release, the background tasks of a
 * streaming response, and the order in which the two endpoints acquire, generate,
 * release and abort.
 *
 * Everything is sequential. Acquiring with no permit left, where asyncio would suspend
 * the request, is the outcome `WouldWait`. The engine is a function from the prompt,
 * the sampling parameters and the request id to the outputs it yields and whether it
 * raises after them; `engine.abort` is an event in the ghost trace.
 */
module Worker {
  import opened Wrappers
  import opened Sampling
  import opened TextAssembly
  import opened Framing
  import Seqs
  import Conversation

  /** What the engine yields for one request: its outputs in generation order, then whether it raises. */
  datatype EngineRun = EngineRun(outputs: seq<RequestOutput>, raises: bool)

  /** `engine.generate(context, sampling_params, request_id)`. */
  type Engine = (string, SamplingParams, string) -> EngineRun

  /** What the worker does to shared state: semaphore permits taken and given back, engine submissions and aborts. */
  datatype Event = PermitTaken | PermitReturned | Submit(requestId: string) | Abort(requestId: string)

  /** A background task of a streaming response. */
  datatype Task = ReleaseSemaphore | AbortRequest(requestId: string)

  datatype AcquireResult =
    | Acquired
    | WouldWait      // no permit left: asyncio suspends the caller
    | InvalidLimit   // asyncio.Semaphore refuses a negative limit (ValueError)

  /** The outcome of `generate`. */
  datatype GenerateResult =
    | Generated(payload: Payload)
    | EngineFailed   // the engine raised; `generate` propagates it
    | NoOutput       // the engine yielded nothing: `x` is unbound after the loop
    | Undecodable    // `json.loads` refused the last frame

  datatype Failure = BadLimit | EngineError | EmptyStream | BadJson

  /** The outcome of the non-streaming endpoint. */
  datatype ApiResult = Responded(payload: Payload) | Waiting | Failed(reason: Failure)

  /** The outcome of the streaming endpoint before the body is sent. */
  datatype StreamStart = Streaming(params: Params, tasks: seq<Task>) | StreamWaiting | StreamFailed

  /** The unit streamed for one engine output. */
  function StreamUnit(ro: RequestOutput, echo: bool): Payload
  {
    Unit(AssembleText(ro, echo))
  }

  /** The units streamed for a sequence of engine outputs, one per output, in order. */
  function StreamUnits(outputs: seq<RequestOutput>, echo: bool): (units: seq<Payload>)
    ensures |units| == |outputs|
    ensures forall k :: 0 <= k < |outputs| ==> units[k] == StreamUnit(outputs[k], echo)
  {
    if outputs == [] then [] else [StreamUnit(outputs[0], echo)] + StreamUnits(outputs[1..], echo)
  }

  /** What `generate` returns for an engine run: its last frame, decoded. */
  function GenerateOutcome(j: Json, run: EngineRun, echo: bool): GenerateResult
  {
    if run.raises then EngineFailed
    else if run.outputs == [] then NoOutput
    else match DecodeFrame(j, Frame(j, StreamUnit(run.outputs[|run.outputs| - 1], echo)))
      case Some(p) => Generated(p)
      case None => Undecodable
  }

  function FailureOf(g: GenerateResult): Failure
  {
    match g
    case EngineFailed => EngineError
    case NoOutput => EmptyStream
    case _ => BadJson
  }

  /** The semaphore after the lazy creation: kept if present, else `limit` permits, else None when creation raises. */
  function Created(semaphore: Option<int>, limit: int): Option<int>
  {
    if semaphore.Some? then semaphore else if limit >= 0 then Some(limit) else None
  }

  /** Permits taken minus permits given back, over a trace. */
  function Balance(events: seq<Event>): int
  {
    if events == [] then 0
    else
      var last := events[|events| - 1];
      Balance(events[..|events| - 1]) + (if last == PermitTaken then 1 else if last == PermitReturned then -1 else 0)
  }

  lemma BalanceSnoc(events: seq<Event>, e: Event)
    ensures Balance(events + [e]) == Balance(events) + (if e == PermitTaken then 1 else if e == PermitReturned then -1 else 0)
  {
  }

  /** The events a task produces when it runs. */
  function EventOf(t: Task): Event
  {
    match t
    case ReleaseSemaphore => PermitReturned
    case AbortRequest(id) => Abort(id)
  }

  /** The events of running a list of tasks in order. */
  function TaskEvents(tasks: seq<Task>): (events: seq<Event>)
    ensures |events| == |tasks|
  {
    if tasks == [] then [] else TaskEvents(tasks[..|tasks| - 1]) + [EventOf(tasks[|tasks| - 1])]
  }

  /** How many tasks give a permit back. */
  function Releases(tasks: seq<Task>): nat
  {
    if tasks == [] then 0
    else Releases(tasks[..|tasks| - 1]) + (if tasks[|tasks| - 1] == ReleaseSemaphore then 1 else 0)
  }

  /** `create_background_tasks`: the tasks a streaming response runs once its body is sent. */
  function CreateBackgroundTasks(requestId: string): (tasks: seq<Task>)
    ensures TaskEvents(tasks) == [PermitReturned, Abort(requestId)] && Releases(tasks) == 1
  {
    var tasks := [ReleaseSemaphore, AbortRequest(requestId)];
    assert tasks[..1] == [ReleaseSemaphore] && tasks[..1][..0] == [];
    assert Releases(tasks[..1]) == 1;
    tasks
  }

  class VLLMWorker {
    /** `limit_worker_concurrency`. */
    const limit: int
    /** `tokenizer.eos_token_id` and `tokenizer.decode`. */
    const eosTokenId: Option<int>
    const decode: int -> string
    const json: Json
    const engine: Engine
    /** `get_conversation_template`. */
    const templates: string -> Conversation.Template

    var callCt: int
    /** None until the first acquire; afterwards the semaphore's available permits. */
    var semaphore: Option<int>
    /** Every acquire, release, submission and abort so far. */
    ghost var trace: seq<Event>

    /** Permits currently held: acquires minus releases. */
    ghost function Held(): int
      reads this
    {
      Balance(trace)
    }

    /** The semaphore's permits and the held permits always add up to the limit. */
    ghost predicate Valid()
      reads this
    {
      && (semaphore.None? ==> Held() == 0)
      && (semaphore.Some? ==> 0 <= semaphore.value && semaphore.value + Held() == limit)
    }

    constructor (limit: int, eosTokenId: Option<int>, decode: int -> string, json: Json,
                 engine: Engine, templates: string -> Conversation.Template)
      ensures Valid()
      ensures this.limit == limit && this.eosTokenId == eosTokenId && this.decode == decode
      ensures this.json == json && this.engine == engine && this.templates == templates
      ensures callCt == 0 && semaphore == None && trace == []
    {
      this.limit, this.eosTokenId, this.decode := limit, eosTokenId, decode;
      this.json, this.engine, this.templates := json, engine, templates;
      callCt, semaphore, trace := 0, None, [];
    }

    /** Held permits never exceed the limit; while no release outruns its acquire, the free permits do not either. */
    lemma PermitsWithinLimit()
      requires Valid() && semaphore.Some?
      ensures Held() <= limit
      ensures Held() >= 0 ==> semaphore.value <= limit
    {
    }

    /** `acquire_worker_semaphore`: create the semaphore on first use, then take a permit if one is free. */
    method Acquire() returns (r: AcquireResult)
      requires Valid()
      modifies this`semaphore, this`trace
      ensures Valid()
      ensures var s := Created(old(semaphore), limit);
        && (r == InvalidLimit <==> s.None?)
        && (r == Acquired <==> s.Some? && s.value > 0)
        && (r == Acquired ==> semaphore == Some(s.value - 1) && trace == old(trace) + [PermitTaken])
        && (r != Acquired ==> semaphore == s && trace == old(trace))
    {
      if semaphore.None? {
        if limit < 0 {
          return InvalidLimit;
        }
        semaphore := Some(limit);
      }
      if semaphore.value > 0 {
        BalanceSnoc(trace, PermitTaken);
        semaphore := Some(semaphore.value - 1);
        trace := trace + [PermitTaken];
        r := Acquired;
      } else {
        r := WouldWait;
      }
    }

    /** `release_worker_semaphore`: give one permit back; raises (ok false) while no semaphore exists. */
    method Release() returns (ok: bool)
      requires Valid()
      modifies this`semaphore, this`trace
      ensures Valid()
      ensures ok == old(semaphore).Some?
      ensures ok ==> semaphore == Some(old(semaphore).value + 1) && trace == old(trace) + [PermitReturned]
      ensures !ok ==> semaphore == old(semaphore) && trace == old(trace)
    {
      ok := semaphore.Some?;
      if ok {
        BalanceSnoc(trace, PermitReturned);
        semaphore := Some(semaphore.value + 1);
        trace := trace + [PermitReturned];
      }
    }

    /** `engine.abort(request_id)`. */
    method EngineAbort(requestId: string)
      requires Valid()
      modifies this`trace
      ensures Valid() && trace == old(trace) + [Abort(requestId)]
    {
      BalanceSnoc(trace, Abort(requestId));
      trace := trace + [Abort(requestId)];
    }

    /**
     * `generate_stream`: normalise the parameters, submit to the engine, and turn each
     * engine output into one frame, in engine order.
     */
    method GenerateStream(p: Params, requestId: string) returns (sampling: SamplingParams, frames: seq<seq<Byte>>, raised: bool)
      requires Valid()
      modifies this`callCt, this`trace
      ensures Valid() && callCt == old(callCt) + 1
      ensures trace == old(trace) + [Submit(requestId)]
      ensures sampling == Normalize(p, eosTokenId, decode)
      ensures var run := engine(p.prompt, sampling, requestId);
        && raised == run.raises
        && |frames| == |run.outputs|
        && forall k :: 0 <= k < |frames| ==> frames[k] == Frame(json, StreamUnit(run.outputs[k], EchoOf(p)))
    {
      callCt := callCt + 1;
      var context := p.prompt;
      var temperature := p.temperature.GetOr(DefaultTemperature);
      var topP := p.topP.GetOr(DefaultTopP);
      var maxNewTokens := MaxTokensOf(p);
      var stopTokenIds := p.stopTokenIds.GetOr([]);
      if eosTokenId.Some? {
        stopTokenIds := stopTokenIds + [eosTokenId];
      }
      assert stopTokenIds == StopTokenIds(p.stopTokenIds, eosTokenId);
      var echo := EchoOf(p);
      var stop := BuildStopSet(p.stop, stopTokenIds, decode);
      topP := Max(topP, Eps);
      if temperature <= Eps {
        topP := 1.0;
      }
      sampling := SamplingParams(1, temperature, topP, false, stop, maxNewTokens);
      var run := engine(context, sampling, requestId);
      BalanceSnoc(trace, Submit(requestId));
      trace := trace + [Submit(requestId)];
      frames := [];
      var i := 0;
      while i < |run.outputs|
        invariant 0 <= i <= |run.outputs|
        invariant |frames| == i
        invariant forall k :: 0 <= k < i ==> frames[k] == Frame(json, StreamUnit(run.outputs[k], echo))
      {
        var requestOutput := run.outputs[i];
        var textOutputs := OutputTexts(requestOutput.prompt, requestOutput.outputs, echo);
        var ret := Unit(Seqs.Join(textOutputs, ' '));
        frames := frames + [Frame(json, ret)];
        i := i + 1;
      }
      raised := run.raises;
    }

    /** `generate`: drain the stream and decode its last frame without the delimiter. */
    method Generate(p: Params, requestId: string) returns (r: GenerateResult)
      requires Valid()
      modifies this`callCt, this`trace
      ensures Valid() && callCt == old(callCt) + 1
      ensures trace == old(trace) + [Submit(requestId)]
      ensures r == GenerateOutcome(json, engine(p.prompt, Normalize(p, eosTokenId, decode), requestId), EchoOf(p))
    {
      var sampling, frames, raised := GenerateStream(p, requestId);
      if raised {
        return EngineFailed;
      }
      var x: Option<seq<Byte>> := None;
      var i := 0;
      while i < |frames|
        invariant 0 <= i <= |frames|
        invariant if i == 0 then x == None else x == Some(frames[i - 1])
      {
        x := Some(frames[i]);
        i := i + 1;
      }
      match x {
        case None =>
          r := NoOutput;
        case Some(last) =>
          match DecodeFrame(json, last) {
            case Some(payload) => r := Generated(payload);
            case None => r := Undecodable;
          }
      }
    }

    /** Runs the tasks in the order they were added. */
    method RunTasks(tasks: seq<Task>)
      requires Valid() && semaphore.Some?
      modifies this`semaphore, this`trace
      ensures Valid() && semaphore.Some?
      ensures trace == old(trace) + TaskEvents(tasks)
      ensures semaphore.value == old(semaphore).value + Releases(tasks)
    {
      var i := 0;
      while i < |tasks|
        invariant 0 <= i <= |tasks|
        invariant Valid() && semaphore.Some?
        invariant trace == old(trace) + TaskEvents(tasks[..i])
        invariant semaphore.value == old(semaphore).value + Releases(tasks[..i])
      {
        assert tasks[..i + 1][..i] == tasks[..i];
        match tasks[i] {
          case ReleaseSemaphore =>
            var _ := Release();
          case AbortRequest(id) =>
            EngineAbort(id);
        }
        i := i + 1;
      }
      assert tasks[..i] == tasks;
    }

    /**
     * `api_generate` as written: prompt, acquire, generate, release, abort. There is no
     * `finally`, so a `generate` that raises leaves its permit taken.
     */
    method ApiGenerate(req: Conversation.ChatRequest, p: Params, requestId: string) returns (r: ApiResult)
      requires Valid()
      modifies this`callCt, this`semaphore, this`trace
      ensures Valid()
      ensures var s := Created(old(semaphore), limit);
        var q := p.(prompt := Conversation.PromptFor(templates, req));
        var g := GenerateOutcome(json, engine(q.prompt, Normalize(q, eosTokenId, decode), requestId), EchoOf(q));
        && (s.None? ==> r == Failed(BadLimit) && semaphore == None && trace == old(trace) && callCt == old(callCt))
        && (s == Some(0) ==> r == Waiting && semaphore == s && trace == old(trace) && callCt == old(callCt))
        && (s.Some? && s.value > 0 && g.Generated? ==>
              && r == Responded(g.payload) && semaphore == s && callCt == old(callCt) + 1
              && trace == old(trace) + [PermitTaken, Submit(requestId), PermitReturned, Abort(requestId)])
        && (s.Some? && s.value > 0 && !g.Generated? ==>
              && r == Failed(FailureOf(g)) && semaphore == Some(s.value - 1) && callCt == old(callCt) + 1
              && trace == old(trace) + [PermitTaken, Submit(requestId)])
    {
      var prompt := Conversation.GetConversationPrompt(templates, req);
      var q := p.(prompt := prompt);
      var a := Acquire();
      if a == InvalidLimit {
        return Failed(BadLimit);
      } else if a == WouldWait {
        return Waiting;
      }
      var g := Generate(q, requestId);
      if !g.Generated? {
        return Failed(FailureOf(g));
      }
      var _ := Release();
      EngineAbort(requestId);
      r := Responded(g.payload);
    }

    /** `api_generate` with release and abort in a `finally`: every admitted request gives its permit back. */
    method ApiGenerateScoped(req: Conversation.ChatRequest, p: Params, requestId: string) returns (r: ApiResult)
      requires Valid()
      modifies this`callCt, this`semaphore, this`trace
      ensures Valid()
      ensures var s := Created(old(semaphore), limit);
        var q := p.(prompt := Conversation.PromptFor(templates, req));
        var g := GenerateOutcome(json, engine(q.prompt, Normalize(q, eosTokenId, decode), requestId), EchoOf(q));
        && (s.None? ==> r == Failed(BadLimit) && semaphore == None && trace == old(trace) && callCt == old(callCt))
        && (s == Some(0) ==> r == Waiting && semaphore == s && trace == old(trace) && callCt == old(callCt))
        && (s.Some? && s.value > 0 ==>
              && r == (if g.Generated? then Responded(g.payload) else Failed(FailureOf(g)))
              && semaphore == s && callCt == old(callCt) + 1
              && trace == old(trace) + [PermitTaken, Submit(requestId), PermitReturned, Abort(requestId)])
    {
      var prompt := Conversation.GetConversationPrompt(templates, req);
      var q := p.(prompt := prompt);
      var a := Acquire();
      if a == InvalidLimit {
        return Failed(BadLimit);
      } else if a == WouldWait {
        return Waiting;
      }
      ghost var admitted := trace;
      var g := Generate(q, requestId);
      var _ := Release();
      EngineAbort(requestId);
      assert trace == admitted + [Submit(requestId), PermitReturned, Abort(requestId)];
      r := if g.Generated? then Responded(g.payload) else Failed(FailureOf(g));
    }

    /**
     * `api_generate_stream`: prompt, acquire, then hand back the (not yet started)
     * generator's parameters and the background tasks release-then-abort.
     */
    method ApiGenerateStream(req: Conversation.ChatRequest, p: Params, requestId: string) returns (r: StreamStart)
      requires Valid()
      modifies this`semaphore, this`trace
      ensures Valid()
      ensures var s := Created(old(semaphore), limit);
        && (s.None? ==> r == StreamFailed && semaphore == None && trace == old(trace))
        && (s == Some(0) ==> r == StreamWaiting && semaphore == s && trace == old(trace))
        && (s.Some? && s.value > 0 ==>
              && r == Streaming(p.(prompt := Conversation.PromptFor(templates, req)), CreateBackgroundTasks(requestId))
              && semaphore == Some(s.value - 1) && trace == old(trace) + [PermitTaken])
    {
      var prompt := Conversation.GetConversationPrompt(templates, req);
      var q := p.(prompt := prompt);
      var a := Acquire();
      if a == InvalidLimit {
        return StreamFailed;
      } else if a == WouldWait {
        return StreamWaiting;
      }
      r := Streaming(q, CreateBackgroundTasks(requestId));
    }

    /**
     * The streaming response: send every frame of the generator, then run the background
     * tasks. A generator that raises ends the response before the tasks run.
     */
    method StreamResponse(p: Params, requestId: string, tasks: seq<Task>) returns (frames: seq<seq<Byte>>, raised: bool)
      requires Valid() && semaphore.Some?
      modifies this`callCt, this`semaphore, this`trace
      ensures Valid() && semaphore.Some? && callCt == old(callCt) + 1
      ensures var run := engine(p.prompt, Normalize(p, eosTokenId, decode), requestId);
        && raised == run.raises
        && |frames| == |run.outputs|
        && forall k :: 0 <= k < |frames| ==> frames[k] == Frame(json, StreamUnit(run.outputs[k], EchoOf(p)))
      ensures !raised ==> (trace == old(trace) + [Submit(requestId)] + TaskEvents(tasks)
                           && semaphore.value == old(semaphore).value + Releases(tasks))
      ensures raised ==> (trace == old(trace) + [Submit(requestId)] && semaphore == old(semaphore))
    {
      var sampling;
      sampling, frames, raised := GenerateStream(p, requestId);
      if !raised {
        RunTasks(tasks);
      }
    }

    /** A whole streaming request: admission, the response body, then the background tasks. */
    method ServeGenerateStream(req: Conversation.ChatRequest, p: Params, requestId: string) returns (start: StreamStart, frames: seq<seq<Byte>>, raised: bool)
      requires Valid()
      modifies this`callCt, this`semaphore, this`trace
      ensures Valid()
      ensures var s := Created(old(semaphore), limit);
        var q := p.(prompt := Conversation.PromptFor(templates, req));
        var run := engine(q.prompt, Normalize(q, eosTokenId, decode), requestId);
        && (s.Some? && s.value > 0 <==> start.Streaming?)
        && (s.None? ==> start == StreamFailed) && (s == Some(0) ==> start == StreamWaiting)
        && (!start.Streaming? ==> frames == [] && semaphore == s && trace == old(trace) && callCt == old(callCt))
        && (start.Streaming? ==>
              && raised == run.raises && callCt == old(callCt) + 1
              && |frames| == |run.outputs|
              && (forall k :: 0 <= k < |frames| ==> frames[k] == Frame(json, StreamUnit(run.outputs[k], EchoOf(q))))
              && (!raised ==> semaphore == s && trace == old(trace) + [PermitTaken, Submit(requestId), PermitReturned, Abort(requestId)])
              && (raised ==> semaphore == Some(s.value - 1) && trace == old(trace) + [PermitTaken, Submit(requestId)]))
    {
      frames, raised := [], false;
      start := ApiGenerateStream(req, p, requestId);
      if start.Streaming? {
        frames, raised := StreamResponse(start.params, requestId, start.tasks);
      }
    }

    /** The streaming response with its background tasks in a `finally`: they run whether or not the generator raises. */
    method StreamResponseScoped(p: Params, requestId: string, tasks: seq<Task>) returns (frames: seq<seq<Byte>>, raised: bool)
      requires Valid() && semaphore.Some?
      modifies this`callCt, this`semaphore, this`trace
      ensures Valid() && semaphore.Some? && callCt == old(callCt) + 1
      ensures var run := engine(p.prompt, Normalize(p, eosTokenId, decode), requestId);
        && raised == run.raises
        && |frames| == |run.outputs|
        && forall k :: 0 <= k < |frames| ==> frames[k] == Frame(json, StreamUnit(run.outputs[k], EchoOf(p)))
      ensures trace == old(trace) + [Submit(requestId)] + TaskEvents(tasks)
      ensures semaphore.value == old(semaphore).value + Releases(tasks)
    {
      var sampling;
      sampling, frames, raised := GenerateStream(p, requestId);
      RunTasks(tasks);
    }

    /** A whole streaming request through the scoped response: every admitted request returns its permit and aborts once. */
    method ServeGenerateStreamScoped(req: Conversation.ChatRequest, p: Params, requestId: string) returns (start: StreamStart, frames: seq<seq<Byte>>, raised: bool)
      requires Valid()
      modifies this`callCt, this`semaphore, this`trace
      ensures Valid()
      ensures var s := Created(old(semaphore), limit);
        var q := p.(prompt := Conversation.PromptFor(templates, req));
        var run := engine(q.prompt, Normalize(q, eosTokenId, decode), requestId);
        && (s.Some? && s.value > 0 <==> start.Streaming?)
        && (s.None? ==> start == StreamFailed) && (s == Some(0) ==> start == StreamWaiting)
        && (!start.Streaming? ==> frames == [] && semaphore == s && trace == old(trace) && callCt == old(callCt))
        && (start.Streaming? ==>
              && raised == run.raises && callCt == old(callCt) + 1
              && |frames| == |run.outputs|
              && (forall k :: 0 <= k < |frames| ==> frames[k] == Frame(json, StreamUnit(run.outputs[k], EchoOf(q))))
              && semaphore == s
              && trace == old(trace) + [PermitTaken, Submit(requestId), PermitReturned, Abort(requestId)])
    {
      frames, raised := [], false;
      start := ApiGenerateStream(req, p, requestId);
      if start.Streaming? {
        frames, raised := StreamResponseScoped(start.params, requestId, start.tasks);
      }
    }
  }

  /** Streaming and non-streaming agree: `generate` returns the last unit the stream carries, and the stream carries every unit in order. */
  lemma StreamingAgreesWithGenerate(j: Json, run: EngineRun, echo: bool, frames: seq<seq<Byte>>)
    requires Sound(j) && !run.raises && run.outputs != []
    requires |frames| == |run.outputs|
    requires forall k :: 0 <= k < |frames| ==> frames[k] == Frame(j, StreamUnit(run.outputs[k], echo))
    ensures DecodeStream(j, Seqs.Flatten(frames)) == Some(StreamUnits(run.outputs, echo))
    ensures GenerateOutcome(j, run, echo) == Generated(StreamUnits(run.outputs, echo)[|run.outputs| - 1])
  {
    var units := StreamUnits(run.outputs, echo);
    StreamRoundTrip(j, units, frames);
    FrameRoundTrip(j, units[|units| - 1]);
  }

  /** With a sound codec, `generate` fails exactly when the engine raises or yields nothing. */
  lemma GenerateOutcomeCases(j: Json, run: EngineRun, echo: bool)
    requires Sound(j)
    ensures GenerateOutcome(j, run, echo).Generated? <==> !run.raises && run.outputs != []
    ensures run.raises ==> GenerateOutcome(j, run, echo) == EngineFailed
    ensures !run.raises && run.outputs == [] ==> GenerateOutcome(j, run, echo) == NoOutput
  {
  }

  /** A complete request path leaves the held permits where they were: one acquire, one release. */
  lemma RequestPathBalanced(t: seq<Event>, id: string)
    ensures Balance(t + [PermitTaken, Submit(id), PermitReturned, Abort(id)]) == Balance(t)
    ensures Balance(t + [PermitTaken, Submit(id)]) == Balance(t) + 1
  {
    BalanceSnoc(t, PermitTaken);
    BalanceSnoc(t + [PermitTaken], Submit(id));
    BalanceSnoc(t + [PermitTaken] + [Submit(id)], PermitReturned);
    BalanceSnoc(t + [PermitTaken] + [Submit(id)] + [PermitReturned], Abort(id));
    assert t + [PermitTaken] + [Submit(id)] == t + [PermitTaken, Submit(id)];
    assert t + [PermitTaken] + [Submit(id)] + [PermitReturned] + [Abort(id)] == t + [PermitTaken, Submit(id), PermitReturned, Abort(id)];
  }

  function NoOutputEngine(): Engine
  {
    (prompt: string, s: SamplingParams, id: string) => EngineRun([], false)
  }

  function PlainTemplates(): string -> Conversation.Template
  {
    (m: string) => Conversation.Template(("USER", "ASSISTANT"), (sys: string, ts: seq<Conversation.Turn>) => "")
  }

  /**
   * With one permit and an engine that yields nothing, the first `api_generate` raises
   * and keeps its permit, so every later request waits forever.
   */
  method LeakedPermitExample() returns (first: ApiResult, second: ApiResult, available: int)
    ensures first == Failed(EmptyStream) && second == Waiting && available == 0
  {
    var w := new VLLMWorker(1, None, (t: int) => "", Json((p: Payload) => [], (b: seq<Byte>) => None),
                            NoOutputEngine(), PlainTemplates());
    var req := Conversation.ChatRequest("model", "", []);
    var p := Params("", None, None, Absent, NoStop, None, Absent);
    first := w.ApiGenerate(req, p, "a");
    second := w.ApiGenerate(req, p, "b");
    available := w.semaphore.GetOr(-1);
  }

  /** The same requests through the scoped path: the permit comes back and the second request is served. */
  method ScopedPermitExample() returns (first: ApiResult, second: ApiResult, available: int)
    ensures first == Failed(EmptyStream) && second == Failed(EmptyStream) && available == 1
  {
    var w := new VLLMWorker(1, None, (t: int) => "", Json((p: Payload) => [], (b: seq<Byte>) => None),
                            NoOutputEngine(), PlainTemplates());
    var req := Conversation.ChatRequest("model", "", []);
    var p := Params("", None, None, Absent, NoStop, None, Absent);
    first := w.ApiGenerateScoped(req, p, "a");
    second := w.ApiGenerateScoped(req, p, "b");
    available := w.semaphore.GetOr(-1);
  }

  function RaisingEngine(): Engine
  {
    (prompt: string, s: SamplingParams, id: string) => EngineRun([], true)
  }

  /**
   * With one permit and an engine that raises, the first streaming response ends before
   * its background tasks run, so the permit stays taken and the next request waits.
   */
  method StreamLeakExample() returns (first: StreamStart, firstRaised: bool, second: StreamStart, available: int)
    ensures first.Streaming? && firstRaised && second == StreamWaiting && available == 0
  {
    var w := new VLLMWorker(1, None, (t: int) => "", Json((p: Payload) => [], (b: seq<Byte>) => None),
                            RaisingEngine(), PlainTemplates());
    var req := Conversation.ChatRequest("model", "", []);
    var p := Params("", None, None, Absent, NoStop, None, Absent);
    var frames, secondRaised;
    first, frames, firstRaised := w.ServeGenerateStream(req, p, "a");
    second, frames, secondRaised := w.ServeGenerateStream(req, p, "b");
    available := w.semaphore.GetOr(-1);
  }

  /** The same requests through the scoped response: the permit comes back and the second request streams. */
  method StreamScopedExample() returns (first: StreamStart, firstRaised: bool, second: StreamStart, available: int)
    ensures first.Streaming? && firstRaised && second.Streaming? && available == 1
  {
    var w := new VLLMWorker(1, None, (t: int) => "", Json((p: Payload) => [], (b: seq<Byte>) => None),
                            RaisingEngine(), PlainTemplates());
    var req := Conversation.ChatRequest("model", "", []);
    var p := Params("", None, None, Absent, NoStop, None, Absent);
    var frames, secondRaised;
    first, frames, firstRaised := w.ServeGenerateStreamScoped(req, p, "a");
    second, frames, secondRaised := w.ServeGenerateStreamScoped(req, p, "b");
    available := w.semaphore.GetOr(-1);
  }
}

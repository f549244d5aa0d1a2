/**
 * Normalisation of the request's sampling parameters, as `VLLMWorker.generate_stream`
 * does it before building vLLM's `SamplingParams`: defaults for missing keys, the
 * stop set (stop strings plus decoded stop token ids, with the tokenizer's
 * end-of-sequence id appended), and the `top_p` clamp.
 */
module Sampling {
  import opened Wrappers

  /** The value of the request's "stop" key, by the cases the worker distinguishes. */
  datatype StopArg =
    | NoStop                      // absent or None
    | StopStr(s: string)          // a single string
    | StopList(items: seq<string>)
    | StopOther                   // any other JSON value: ignored

  /** A request key whose JSON `null` behaves differently from its absence. */
  datatype Field<T> = Absent | Null | Given(value: T)

  /** The keys of the request dictionary that generation reads. */
  datatype Params = Params(
    prompt: string,
    temperature: Option<real>,
    topP: Option<real>,
    maxNewTokens: Field<int>,
    stop: StopArg,
    stopTokenIds: Option<seq<Option<int>>>,
    echo: Field<bool>)

  /** The arguments of vLLM's `SamplingParams`; the stop list is kept as the set it is built from. */
  datatype SamplingParams = SamplingParams(
    n: nat,
    temperature: real,
    topP: real,
    useBeamSearch: bool,
    stop: set<string>,
    maxTokens: Option<int>)   // None: `max_tokens=None`

  /** The floor of `top_p`, and the temperature at or below which sampling is greedy (1e-5). */
  const Eps: real := 0.00001
  const DefaultTemperature: real := 1.0
  const DefaultTopP: real := 1.0
  const DefaultMaxNewTokens: int := 256
  const DefaultEcho: bool := true

  /** `params.get("echo", True)` tested for truth: absent is true, `null` is false. */
  function EchoOf(p: Params): bool
  {
    match p.echo
    case Absent => DefaultEcho
    case Null => false
    case Given(b) => b
  }

  /** `params.get("max_new_tokens", 256)`: absent is 256, `null` is passed on as None. */
  function MaxTokensOf(p: Params): Option<int>
  {
    match p.maxNewTokens
    case Absent => Some(DefaultMaxNewTokens)
    case Null => None
    case Given(n) => Some(n)
  }

  /** The stop strings the "stop" key contributes. */
  function StopStrings(arg: StopArg): set<string>
  {
    match arg
    case StopStr(s) => if s != "" then {s} else {}
    case StopList(items) => if items != [] then set x | x in items else {}
    case _ => {}
  }

  /** The stop token ids actually used: the given list (none or empty gives `[]`), then the EOS id if known. */
  function StopTokenIds(given: Option<seq<Option<int>>>, eos: Option<int>): (ids: seq<Option<int>>)
  {
    given.GetOr([]) + (if eos.Some? then [eos] else [])
  }

  /** The decodings of the ids that are not None. */
  function DecodedIds(ids: seq<Option<int>>, decode: int -> string): set<string>
  {
    set i | 0 <= i < |ids| && ids[i].Some? :: decode(ids[i].value)
  }

  /** The full stop set handed to the engine. */
  function StopSet(arg: StopArg, given: Option<seq<Option<int>>>, eos: Option<int>, decode: int -> string): set<string>
  {
    StopStrings(arg) + DecodedIds(StopTokenIds(given, eos), decode)
  }

  function Max(a: real, b: real): real { if a >= b then a else b }

  /** `top_p` after the clamp: floored at Eps, and forced to 1.0 when the temperature is at most Eps. */
  function ClampTopP(temperature: real, topP: real): (r: real)
    ensures r >= Eps
  {
    var floored := Max(topP, Eps);
    if temperature <= Eps then 1.0 else floored
  }

  /** The sampling parameters `generate_stream` passes to the engine for request `p`. */
  function Normalize(p: Params, eos: Option<int>, decode: int -> string): SamplingParams
  {
    var temperature := p.temperature.GetOr(DefaultTemperature);
    var topP := p.topP.GetOr(DefaultTopP);
    SamplingParams(1, temperature, ClampTopP(temperature, topP), false,
                   StopSet(p.stop, p.stopTokenIds, eos, decode),
                   MaxTokensOf(p))
  }

  /**
   * The stop-set construction as the worker performs it: the "stop" key first, then one
   * `add` per token id that is not None.
   */
  method BuildStopSet(arg: StopArg, tokenIds: seq<Option<int>>, decode: int -> string) returns (stop: set<string>)
    ensures stop == StopStrings(arg) + DecodedIds(tokenIds, decode)
  {
    stop := {};
    match arg {
      case StopStr(s) =>
        if s != "" { stop := stop + {s}; }
      case StopList(items) =>
        if items != [] { stop := stop + set x | x in items; }
      case _ =>
    }
    var i := 0;
    while i < |tokenIds|
      invariant 0 <= i <= |tokenIds|
      invariant stop == StopStrings(arg) + DecodedIds(tokenIds[..i], decode)
    {
      var tid := tokenIds[i];
      if tid.Some? {
        stop := stop + {decode(tid.value)};
      }
      i := i + 1;
    }
    assert tokenIds[..i] == tokenIds;
  }

  // ----- stop strings -----

  /** None, "" and [] contribute nothing. */
  lemma EmptyStopsAddNothing()
    ensures StopStrings(NoStop) == {}
    ensures StopStrings(StopStr("")) == {}
    ensures StopStrings(StopList([])) == {}
    ensures StopStrings(StopOther) == {}
  {
  }

  /** A non-empty string and the one-element list holding it give the same stop strings, namely that string. */
  lemma StringAsSingletonList(s: string)
    requires s != ""
    ensures StopStrings(StopStr(s)) == StopStrings(StopList([s])) == {s}
  {
  }

  /** A non-empty list contributes exactly its elements. */
  lemma ListContributesElements(items: seq<string>, x: string)
    requires items != []
    ensures x in StopStrings(StopList(items)) <==> x in items
  {
  }

  // ----- stop token ids -----

  /** Whenever the tokenizer knows an EOS id, its decoding is a stop string. */
  lemma EosAlwaysStops(arg: StopArg, given: Option<seq<Option<int>>>, eos: Option<int>, decode: int -> string)
    requires eos.Some?
    ensures decode(eos.value) in StopSet(arg, given, eos, decode)
  {
    var ids := StopTokenIds(given, eos);
    assert ids[|ids| - 1] == eos;
  }

  /** Every stop string comes from the "stop" key or from decoding a token id that is not None, and conversely. */
  lemma StopSetMembers(arg: StopArg, given: Option<seq<Option<int>>>, eos: Option<int>, decode: int -> string, x: string)
    ensures x in StopSet(arg, given, eos, decode)
        <==> x in StopStrings(arg) || exists i :: 0 <= i < |StopTokenIds(given, eos)| && StopTokenIds(given, eos)[i].Some? && x == decode(StopTokenIds(given, eos)[i].value)
  {
  }

  /** A None entry, wherever it stands among the token ids, adds nothing. */
  lemma NoneIdsSkipped(a: seq<Option<int>>, b: seq<Option<int>>, decode: int -> string)
    ensures DecodedIds(a + [None] + b, decode) == DecodedIds(a + b, decode)
  {
    var with, without := a + [None] + b, a + b;
    forall x | x in DecodedIds(with, decode) ensures x in DecodedIds(without, decode) {
      var j :| 0 <= j < |with| && with[j].Some? && x == decode(with[j].value);
      if j < |a| {
        assert with[j] == without[j];
      } else {
        assert j > |a| && with[j] == without[j - 1];
      }
    }
    forall x | x in DecodedIds(without, decode) ensures x in DecodedIds(with, decode) {
      var j :| 0 <= j < |without| && without[j].Some? && x == decode(without[j].value);
      if j < |a| {
        assert with[j] == without[j];
      } else {
        assert with[j + 1] == without[j];
      }
    }
  }

  // ----- top_p clamp -----

  /** Near-zero temperature makes nucleus sampling moot: `top_p` is exactly 1.0. */
  lemma GreedyForcesTopPOne(temperature: real, topP: real)
    requires temperature <= Eps
    ensures ClampTopP(temperature, topP) == 1.0
  {
  }

  /** Otherwise `top_p` is floored at Eps and never clamped from above. */
  lemma TopPFloorOnly(temperature: real, topP: real)
    requires temperature > Eps
    ensures ClampTopP(temperature, topP) == (if topP >= Eps then topP else Eps)
    ensures topP > 1.0 ==> ClampTopP(temperature, topP) > 1.0
  {
  }

  /** `temperature = 0, top_p = 0.3` gives 1.0; `temperature = 0.7, top_p = 0` gives Eps, never 0. */
  lemma ClampExamples()
    ensures ClampTopP(0.0, 0.3) == 1.0
    ensures ClampTopP(0.7, 0.0) == Eps && Eps > 0.0
  {
  }

  // ----- defaults -----

  /**
   * Missing keys take the documented defaults, each on its own; values in the request
   * pass through; a request always asks for one beam-free sample.
   */
  lemma NormalizeDefaults(p: Params, eos: Option<int>, decode: int -> string)
    ensures var s := Normalize(p, eos, decode);
      && s.n == 1 && !s.useBeamSearch
      && (p.temperature.None? ==> s.temperature == 1.0)
      && (p.temperature.Some? ==> s.temperature == p.temperature.value)
      && (p.topP.None? ==> s.topP == 1.0)
      && (p.topP.Some? && s.temperature > Eps && p.topP.value >= Eps ==> s.topP == p.topP.value)
      && (p.maxNewTokens.Absent? ==> s.maxTokens == Some(256))
      && (p.maxNewTokens.Null? ==> s.maxTokens == None)
      && (p.maxNewTokens.Given? ==> s.maxTokens == Some(p.maxNewTokens.value))
      && s.topP >= Eps
  {
  }

  /** Echo is on unless the request turns it off, and a `null` turns it off. */
  lemma EchoDefault(p: Params)
    ensures EchoOf(p) <==> p.echo.Absent? || p.echo == Given(true)
  {
  }
}

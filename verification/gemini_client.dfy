/** The generative-AI client of the back end: configuration, the choice of a model,
    quota-error classification, the fallback model, the bounded retry loop shared by
    text and JSON generation, and the recovery of JSON from a reply.

    The provider, the model constructor, the clock, the regex that reads a retry delay
    out of an error message, and the JSON decoder are parameters. */
module GeminiClient {
  import opened Base
  import opened Strings
  import opened Seqs
  import opened Json

  /** Model names tried, in this order, when a model has to be chosen or replaced. */
  const Preferred: seq<string> := ["gemini-1.5-flash", "gemini-1.5-pro", "gemini-pro", "gemini-2.0-flash-exp"]

  /** What the model listing reports for one model. */
  datatype ModelInfo = ModelInfo(name: string, methods: seq<string>)

  /** The client after initialisation: the configured key, the recorded model name, and the
      name the model handle was created with (`None` when there is no handle). The recorded
      name and the handle can drift apart: a fallback switch updates only the name. */
  datatype Client = Client(apiKey: Option<string>, modelName: Option<string>, handle: Option<string>)

  /** One provider request: model, prompt, token budget and sampling temperature. */
  datatype Request = Request(model: string, prompt: string, maxTokens: nat, temperature: real)

  /** What one provider call yields: the reply text, or the text of the exception raised. */
  datatype Reply = Success(text: string) | Failure(msg: string)

  // ---------------------------------------------------------------------------
  // Model choice and configuration

  /** A listed model that supports content generation. */
  predicate SupportsGeneration(m: ModelInfo) { "generateContent" in m.methods }

  /** A model's name with every "models/" removed. */
  function ShortName(m: ModelInfo): string { ReplaceAll(m.name, "models/", "") }

  /** The listed models that support content generation, in listing order, with every
      "models/" removed from their names: the short names of exactly the supporting models. */
  function UsableNames(listed: seq<ModelInfo>): (r: seq<string>)
    ensures r == MapSeq(Filter(listed, SupportsGeneration), ShortName)
    ensures |r| <= |listed|
  {
    if |listed| == 0 then []
    else
      var init := UsableNames(listed[..|listed| - 1]);
      var m := listed[|listed| - 1];
      if "generateContent" in m.methods then init + [ReplaceAll(m.name, "models/", "")] else init
  }

  /** The experimental-model test as written: the lower-cased name contains 'exp' or 'experimental'. */
  predicate IsExperimental(name: string) {
    Contains(Lower(name), "exp") || Contains(Lower(name), "experimental")
  }

  /** The 'experimental' test adds nothing: every name containing it contains 'exp'. */
  lemma ExperimentalIsExp(name: string)
    ensures IsExperimental(name) <==> Contains(Lower(name), "exp")
  {
    var l := Lower(name);
    if Contains(l, "experimental") {
      var i: nat :| i <= |l| && OccursAt(l, "experimental", i);
      assert l[i..i + 3] == "experimental"[..3];
      assert OccursAt(l, "exp", i);
    }
  }

  /** The model picked from the usable names: the first preferred name that is available,
      else the first non-experimental name, else the first name. */
  function ChooseModel(names: seq<string>): Option<string> {
    match FirstWhere(Preferred, (p: string) => p in names)
    case Some(p) => Some(p)
    case None =>
      match FirstWhere(names, (n: string) => !IsExperimental(n))
      case Some(n) => Some(n)
      case None => if |names| > 0 then Some(names[0]) else None
  }

  /** The available-model lookup: `None` when the listing raised or nothing is usable. */
  function SelectModel(listed: Option<seq<ModelInfo>>): Option<string> {
    match listed
    case None => None
    case Some(ms) => ChooseModel(UsableNames(ms))
  }

  /** The choice is always one of the usable names, it exists exactly when there is a
      usable name, and it is ranked as documented. */
  lemma ChooseModelSpec(names: seq<string>)
    ensures ChooseModel(names).None? <==> |names| == 0
    ensures ChooseModel(names).Some? ==> ChooseModel(names).value in names
    ensures (exists k :: 0 <= k < |Preferred| && Preferred[k] in names) ==>
              exists k :: 0 <= k < |Preferred| && ChooseModel(names) == Some(Preferred[k])
                          && forall j :: 0 <= j < k ==> Preferred[j] !in names
    ensures (forall k :: 0 <= k < |Preferred| ==> Preferred[k] !in names)
            && (exists i :: 0 <= i < |names| && !IsExperimental(names[i])) ==>
              exists i :: 0 <= i < |names| && ChooseModel(names) == Some(names[i])
                          && !IsExperimental(names[i])
                          && forall j :: 0 <= j < i ==> IsExperimental(names[j])
    ensures (forall k :: 0 <= k < |Preferred| ==> Preferred[k] !in names)
            && |names| > 0 && (forall i :: 0 <= i < |names| ==> IsExperimental(names[i])) ==>
              ChooseModel(names) == Some(names[0])
  {
    var fp := FirstIndex(Preferred, (p: string) => p in names);
    if fp.None? {
      var fn := FirstIndex(names, (n: string) => !IsExperimental(n));
      if fn.Some? {
        assert ChooseModel(names) == Some(names[fn.value]);
      }
    } else {
      assert ChooseModel(names) == Some(Preferred[fp.value]);
    }
  }

  /** The client state `_initialize` leaves behind. `key` is the configured key,
      `configureOk` whether configuring the SDK succeeded, `listed` the model listing
      (`None` when listing raised), `canInstantiate` whether a model handle can be
      created for a name. */
  function Initialize(key: Option<string>, configureOk: bool, listed: Option<seq<ModelInfo>>,
                      canInstantiate: string -> bool): Client
  {
    if key.None? || |key.value| == 0 then Client(key, None, None)
    else if !configureOk then Client(key, None, None)
    else
      match SelectModel(listed)
      case Some(m) =>
        if canInstantiate(m) then Client(key, Some(m), Some(m))
        else Client(key, Some(m), None)   // creating the handle raised after the name was recorded
      case None =>
        match FirstWhere(Preferred, canInstantiate)
        case Some(p) => Client(key, Some(p), Some(p))
        case None => Client(key, None, None)
  }

  /** `is_configured`: a non-empty key and a model handle. */
  predicate IsConfigured(c: Client) {
    c.apiKey.Some? && |c.apiKey.value| > 0 && c.handle.Some?
  }

  /** Initialisation yields a configured client exactly when the key is non-empty, the SDK
      accepted it, and a handle could be made for the selected model or, when none was
      selected, for some preferred model. A handle is always recorded under its own name. */
  lemma InitializeConfigured(key: Option<string>, configureOk: bool, listed: Option<seq<ModelInfo>>,
                             canInstantiate: string -> bool)
    ensures var c := Initialize(key, configureOk, listed, canInstantiate);
      IsConfigured(c) <==>
        key.Some? && |key.value| > 0 && configureOk &&
        (match SelectModel(listed)
         case Some(m) => canInstantiate(m)
         case None => exists k :: 0 <= k < |Preferred| && canInstantiate(Preferred[k]))
    ensures var c := Initialize(key, configureOk, listed, canInstantiate);
      c.handle.Some? ==> c.modelName == c.handle
  {
    if key.Some? && |key.value| > 0 && configureOk && SelectModel(listed).None? {
      var fp := FirstIndex(Preferred, canInstantiate);
      if fp.Some? {
        assert FirstWhere(Preferred, canInstantiate) == Some(Preferred[fp.value]);
      }
    }
  }

  // ---------------------------------------------------------------------------
  // Quota errors and the fallback model

  /** The indicators, matched case-insensitively against the error text. */
  const QuotaIndicators: seq<string> := ["429", "quota", "rate limit", "exceeded", "RESOURCE_EXHAUSTED"]

  predicate IsQuotaText(msg: string) {
    exists k :: 0 <= k < |QuotaIndicators| && Contains(Lower(msg), Lower(QuotaIndicators[k]))
  }

  /** `_is_quota_error`: whether the error is a quota or rate-limit error, and the delay to wait.
      `delayOf` stands for the delay patterns searched in the message. */
  function ClassifyError(msg: string, delayOf: string -> Option<real>): (r: (bool, Option<real>))
    ensures r.0 <==> IsQuotaText(msg)
    ensures !r.0 ==> r.1 == None
    ensures r.0 ==> r.1.Some? && (delayOf(msg).Some? ==> r.1 == delayOf(msg))
    ensures r.0 && delayOf(msg).None? ==> r.1 == Some(60.0)
  {
    if !IsQuotaText(msg) then (false, None)
    else (true, Some(delayOf(msg).GetOr(60.0)))
  }

  /** "RESOURCE_EXHAUSTED" is recognised in any letter case. */
  lemma ResourceExhaustedAnyCase(msg: string)
    requires Contains(Lower(msg), "resource_exhausted")
    ensures IsQuotaText(msg)
  {
    assert Lower(QuotaIndicators[4]) == "resource_exhausted";
  }

  /** The name a fallback must differ from: the given current name, else the recorded one, else "". */
  function FallbackCurrent(c: Client, current: Option<string>): string {
    if current.Some? && |current.value| > 0 then current.value
    else if c.modelName.Some? then c.modelName.value
    else ""
  }

  /** `_try_fallback_model`: the first preferred model, other than the current one, for which a
      handle can be made; the client records its name. */
  function TryFallback(c: Client, current: Option<string>, canInstantiate: string -> bool): (r: (Client, Option<string>))
    ensures r.1.Some? ==>
              r.1.value != FallbackCurrent(c, current) && canInstantiate(r.1.value)
              && r.0 == c.(modelName := r.1)
              && exists k :: 0 <= k < |Preferred| && Preferred[k] == r.1.value
                             && forall j :: 0 <= j < k ==>
                                  Preferred[j] == FallbackCurrent(c, current) || !canInstantiate(Preferred[j])
    ensures r.1.None? ==>
              r.0 == c
              && forall k :: 0 <= k < |Preferred| ==>
                   Preferred[k] == FallbackCurrent(c, current) || !canInstantiate(Preferred[k])
  {
    var cur := FallbackCurrent(c, current);
    var i := FirstIndex(Preferred, (p: string) => p != cur && canInstantiate(p));
    match i
    case Some(k) => (c.(modelName := Some(Preferred[k])), Some(Preferred[k]))
    case None => (c, None)
  }

  // ---------------------------------------------------------------------------
  // The retry loop

  /** What one attempt produced: a value, or the text of the exception it raised. */
  datatype Attempt<T> = Returned(value: T) | Raised(msg: string)

  /** What the loop did at one attempt. */
  datatype StepKind<T> =
    | Done(value: T)                      // the attempt returned: the loop returns it
    | Failed(msg: string)                 // a non-quota error: returned at once
    | Switched(to: string, msg: string)   // quota error at attempt 0, fallback found: next attempt
    | Slept(seconds: real, msg: string)   // quota error before the last attempt: back off
    | GaveUp(msg: string)                 // quota error at the last attempt

  /** One attempt: the model it used and what the loop did. */
  datatype Step<T> = Step(model: string, kind: StepKind<T>)

  /** How the loop ended. `RanOut` is the exit after the range is exhausted, which only a
      fallback switch at the single attempt of `max_retries = 0` reaches. */
  datatype LoopResult<T> = Finished(value: T) | NonQuota(msg: string) | Exhausted(msg: string) | RanOut(last: string)

  predicate Continues<T>(k: StepKind<T>) { k.Switched? || k.Slept? }

  /** The sleep before the next attempt after a quota error at `attempt`: the reported delay,
      or 60 s per attempt made when that delay is zero (Python's `or`), capped at 120 s. */
  function Backoff(delay: real, attempt: nat): (r: real)
    ensures r <= 120.0
    ensures delay != 0.0 ==> r <= delay && (r == delay || r == 120.0)
    ensures 0.0 < delay ==> 0.0 < r
    ensures delay == 0.0 ==> r == (if attempt == 0 then 60.0 else 120.0)
  {
    var wait := if delay != 0.0 then delay else 60.0 * (attempt + 1) as real;
    MinReal(wait, 120.0)
  }

  /** The decision the loop takes at attempt `attempt`, given that attempt's outcome and the
      fallback model `_try_fallback_model` would find. */
  function Decide<T>(attempt: nat, maxRetries: nat, outcome: Attempt<T>, fallback: Option<string>,
                     delayOf: string -> Option<real>): (r: StepKind<T>)
    ensures r.Done? <==> outcome.Returned?
    ensures r.Failed? <==> outcome.Raised? && !IsQuotaText(outcome.msg)
    ensures r.Switched? <==> outcome.Raised? && IsQuotaText(outcome.msg) && attempt == 0 && fallback.Some?
    ensures r.Switched? ==> r.to == fallback.value
    ensures r.Slept? ==> attempt < maxRetries && outcome.Raised? && IsQuotaText(outcome.msg)
                         && r.seconds == Backoff(ClassifyError(outcome.msg, delayOf).1.value, attempt)
    ensures r.GaveUp? ==> attempt >= maxRetries
    ensures outcome.Raised? && !r.Done? ==> r.msg == outcome.msg
  {
    match outcome
    case Returned(v) => Done(v)
    case Raised(msg) =>
      var (quota, delay) := ClassifyError(msg, delayOf);
      if !quota then Failed(msg)
      else if attempt == 0 && fallback.Some? then Switched(fallback.value, msg)
      else if attempt < maxRetries then Slept(Backoff(delay.value, attempt), msg)
      else GaveUp(msg)
  }

  /** The model the next attempt uses. */
  function NextModel<T>(s: Step<T>): string {
    if s.kind.Switched? then s.kind.to else s.model
  }

  /** How the loop ends after a step that does not continue, or after the last attempt. */
  function Outcome<T>(k: StepKind<T>): LoopResult<T> {
    match k
    case Done(v) => Finished(v)
    case Failed(m) => NonQuota(m)
    case GaveUp(m) => Exhausted(m)
    case Switched(_, m) => RanOut(m)
    case Slept(_, m) => RanOut(m)
  }

  /** The loop of `generate_text` and `generate_json`, over attempts 0..maxRetries.
      `attempt(model, i)` is what attempt `i` on `model` yields; `fallback` is what
      `_try_fallback_model` would return. The loop stops at the first step that does not
      continue; a sleep never happens after the last attempt, and `RanOut` is reached only
      through a fallback switch when there is a single attempt. */
  method RetryLoop<T>(model0: string, maxRetries: nat, attempt: (string, nat) -> Attempt<T>,
                      fallback: Option<string>, delayOf: string -> Option<real>)
    returns (res: LoopResult<T>, trace: seq<Step<T>>)
    ensures 1 <= |trace| <= maxRetries + 1
    ensures trace[0].model == model0
    ensures forall i :: 0 <= i < |trace| - 1 ==> trace[i + 1].model == NextModel(trace[i])
    ensures forall i :: 0 <= i < |trace| ==>
              trace[i].kind == Decide(i, maxRetries, attempt(trace[i].model, i), fallback, delayOf)
    ensures forall i :: 0 <= i < |trace| - 1 ==> Continues(trace[i].kind)
    ensures |trace| < maxRetries + 1 ==> !Continues(trace[|trace| - 1].kind)
    ensures res == Outcome(trace[|trace| - 1].kind)
    ensures !trace[|trace| - 1].kind.Slept?
    ensures res.RanOut? ==> maxRetries == 0 && trace[0].kind.Switched?
    ensures res.Exhausted? ==> |trace| == maxRetries + 1
  {
    var model := model0;
    var i: nat := 0;
    trace := [];
    while true
      invariant i <= maxRetries
      invariant |trace| == i
      invariant Ran(trace, model0, maxRetries, attempt, fallback, delayOf)
      invariant i == 0 ==> model == model0
      invariant i > 0 ==> model == NextModel(trace[i - 1])
      invariant forall j :: 0 <= j < i ==> Continues(trace[j].kind)
      decreases maxRetries - i
    {
      var kind := Decide(i, maxRetries, attempt(model, i), fallback, delayOf);
      RanSnoc(trace, model0, maxRetries, attempt, fallback, delayOf, model);
      var prev := trace;
      trace := prev + [Step(model, kind)];
      if !Continues(kind) || i == maxRetries {
        assert kind.Slept? ==> i < maxRetries;
        res := Outcome(kind);
        return;
      }
      assert forall j :: 0 <= j < i ==> trace[j] == prev[j];
      model := NextModel(Step(model, kind));
      i := i + 1;
    }
  }

  /** `trace` is how the loop's first |trace| attempts went: it starts on `model0`, each step's
      model follows the step before, and each step's decision is the one its attempt gives. */
  ghost predicate Ran<T>(trace: seq<Step<T>>, model0: string, maxRetries: nat, attempt: (string, nat) -> Attempt<T>,
                   fallback: Option<string>, delayOf: string -> Option<real>)
  {
    (|trace| > 0 ==> trace[0].model == model0)
    && (forall j :: 0 <= j < |trace| - 1 ==> trace[j + 1].model == NextModel(trace[j]))
    && (forall j :: 0 <= j < |trace| ==>
          trace[j].kind == Decide(j, maxRetries, attempt(trace[j].model, j), fallback, delayOf))
  }

  /** One more attempt, on the model the last step leads to, extends a run. */
  lemma RanSnoc<T>(trace: seq<Step<T>>, model0: string, maxRetries: nat, attempt: (string, nat) -> Attempt<T>,
                   fallback: Option<string>, delayOf: string -> Option<real>, model: string)
    requires Ran(trace, model0, maxRetries, attempt, fallback, delayOf)
    requires |trace| == 0 ==> model == model0
    requires |trace| > 0 ==> model == NextModel(trace[|trace| - 1])
    ensures Ran(trace + [Step(model, Decide(|trace|, maxRetries, attempt(model, |trace|), fallback, delayOf))],
                model0, maxRetries, attempt, fallback, delayOf)
  {
    var next := trace + [Step(model, Decide(|trace|, maxRetries, attempt(model, |trace|), fallback, delayOf))];
    assert forall j :: 0 <= j < |trace| ==> next[j] == trace[j];
  }

  // ---------------------------------------------------------------------------
  // generate_text

  /** The reply used when the client is not configured. */
  const PlaceholderIntro: string :=
    "[AI Generated - Placeholder]\nThis is a placeholder response. To enable AI features, please add your GEMINI_API_KEY to the .env file.\n\nBased on your prompt about: "

  function PlaceholderText(prompt: string): string {
    PlaceholderIntro + Take(prompt, 100) + "..."
  }

  const RateLimitsUrl: string := "https://ai.google.dev/gemini-api/docs/rate-limits"
  const UsageUrl: string := "https://ai.dev/usage?tab=rate-limit"

  function QuotaText(attempts: nat, msg: string): string {
    "[AI Error] Gemini API quota exceeded after " + NatToString(attempts)
    + " attempts. Please check your plan and billing details at " + RateLimitsUrl
    + ". To monitor usage: " + UsageUrl + ". Error: " + Take(msg, 200)
  }

  function ErrorText(msg: string): string {
    "[AI Error] " + msg
  }

  function FailedAfterMsg(attempts: nat, last: string): string {
    "Failed after " + NatToString(attempts) + " attempts: " + last
  }

  function FailedAfterText(attempts: nat, last: string): string {
    ErrorText(FailedAfterMsg(attempts, last))
  }

  /** The handle (by name) and current model name the loop starts from: the client's own for
      the default names, else a fresh handle for `model`, else the client's own again. `None`
      stands for the "model not available" and "No Gemini model available" replies, which a
      configured client never gives. */
  function StartModel(c: Client, model: string, canInstantiate: string -> bool): (r: Option<(string, Option<string>)>)
    ensures IsConfigured(c) ==> r.Some?
    ensures r.Some? && r.value.0 != model ==> c.handle == Some(r.value.0) && r.value.1 == c.modelName
    ensures r.Some? && model != "" && model != "gemini-pro" && model != "gemini-1.5-flash" && canInstantiate(model) ==>
              r == Some((model, Some(model)))
  {
    if model == "gemini-pro" || model == "gemini-1.5-flash" || model == "" then
      (if c.handle.Some? then Some((c.handle.value, c.modelName)) else None)
    else if canInstantiate(model) then Some((model, Some(model)))
    else if c.handle.Some? then Some((c.handle.value, c.modelName))
    else None
  }

  /** The fallback model a quota error at the first attempt switches to, if any. */
  function FallbackFor(c: Client, model: string, canInstantiate: string -> bool): Option<string>
    requires IsConfigured(c)
  {
    TryFallback(c, StartModel(c, model, canInstantiate).value.1, canInstantiate).1
  }

  function TextAttempt(r: Reply): Attempt<string> {
    match r
    case Success(t) => Returned(t)
    case Failure(m) => Raised(m)
  }

  /** The part of `generate_text` and `generate_json` after the configuration check: pick the
      start model, run the loop, and record the fallback model's name when the loop switched. */
  method RunConfigured<T>(c: Client, model: string, canInstantiate: string -> bool, maxRetries: nat,
                          attempt: (string, nat) -> Attempt<T>, delayOf: string -> Option<real>)
    returns (res: LoopResult<T>, c': Client, trace: seq<Step<T>>)
    requires IsConfigured(c)
    ensures 1 <= |trace| <= maxRetries + 1
    ensures trace[0].model == StartModel(c, model, canInstantiate).value.0
    ensures forall i :: 0 <= i < |trace| - 1 ==> trace[i + 1].model == NextModel(trace[i])
    ensures forall i :: 0 <= i < |trace| ==>
              trace[i].kind == Decide(i, maxRetries, attempt(trace[i].model, i),
                                      FallbackFor(c, model, canInstantiate), delayOf)
    ensures res == Outcome(trace[|trace| - 1].kind) && !trace[|trace| - 1].kind.Slept?
    ensures res.RanOut? ==> maxRetries == 0 && trace[0].kind.Switched?
    ensures res.Exhausted? ==> |trace| == maxRetries + 1
    ensures c' == (if trace[0].kind.Switched? then c.(modelName := Some(trace[0].kind.to)) else c)
  {
    var (inst, current) := StartModel(c, model, canInstantiate).value;
    var (afterFallback, fallback) := TryFallback(c, current, canInstantiate);
    res, trace := RetryLoop(inst, maxRetries, attempt, fallback, delayOf);
    c' := if trace[0].kind.Switched? then afterFallback else c;
  }

  /** The text `generate_text` returns for each way the loop can end. */
  function TextReply(maxRetries: nat, res: LoopResult<string>): string {
    match res
    case Finished(t) => t
    case NonQuota(m) => ErrorText(m)
    case Exhausted(m) => QuotaText(maxRetries + 1, m)
    case RanOut(m) => FailedAfterText(maxRetries + 1, m)
  }

  /** `generate_text`. `call(request, i)` is the provider's answer to attempt `i`. Returns the
      reply text, the client afterwards (a fallback switch records the new model name), and the
      trace of attempts. */
  method GenerateText(c: Client, prompt: string, model: string, maxTokens: nat, temperature: real,
                      maxRetries: nat, canInstantiate: string -> bool,
                      call: (Request, nat) -> Reply, delayOf: string -> Option<real>)
    returns (out: string, c': Client, trace: seq<Step<string>>)
    ensures !IsConfigured(c) ==> out == PlaceholderText(prompt) && trace == [] && c' == c
    ensures IsConfigured(c) ==>
              1 <= |trace| <= maxRetries + 1
              && trace[0].model == StartModel(c, model, canInstantiate).value.0
              && (forall i :: 0 <= i < |trace| - 1 ==> trace[i + 1].model == NextModel(trace[i]))
              && forall i :: 0 <= i < |trace| ==>
                   trace[i].kind == Decide(i, maxRetries,
                                           TextAttempt(call(Request(trace[i].model, prompt, maxTokens, temperature), i)),
                                           FallbackFor(c, model, canInstantiate), delayOf)
    ensures |trace| > 0 ==> out == TextReply(maxRetries, Outcome(trace[|trace| - 1].kind))
    ensures |trace| > 0 ==> !trace[|trace| - 1].kind.Slept?
                            && (trace[|trace| - 1].kind.GaveUp? ==> |trace| == maxRetries + 1)
                            && (trace[|trace| - 1].kind.Switched? ==> maxRetries == 0)
    ensures c' == (if |trace| > 0 && trace[0].kind.Switched? then c.(modelName := Some(trace[0].kind.to)) else c)
  {
    c' := c;
    if !IsConfigured(c) {
      out := PlaceholderText(prompt);
      trace := [];
    } else {
      var attempt := (m: string, i: nat) => TextAttempt(call(Request(m, prompt, maxTokens, temperature), i));
      var res;
      res, c', trace := RunConfigured(c, model, canInstantiate, maxRetries, attempt, delayOf);
      out := TextReply(maxRetries, res);
    }
  }

  // ---------------------------------------------------------------------------
  // generate_json

  /** Removes Markdown code fences around a reply: strip, drop a leading "```json", then a
      leading "```", then a trailing "```", and strip again. */
  function StripFences(text: string): string {
    var t := PyStrip(text);
    var t1 := if StartsWith(t, "```json") then t[7..] else t;
    var t2 := if StartsWith(t1, "```") then t1[3..] else t1;
    var t3 := if EndsWith(t2, "```") then t2[..|t2| - 3] else t2;
    PyStrip(t3)
  }

  /** A fenced reply gives back the JSON text it wraps. */
  lemma StripFencesFenced(body: string, pre: string, post: string)
    requires |body| > 0 && !IsPySpace(body[0]) && !IsPySpace(body[|body| - 1]) && body[0] != '`'
    requires AllSpace(pre, IsPySpace) && AllSpace(post, IsPySpace)
    ensures StripFences("```json" + pre + body + post + "```") == body
  {
    var text := "```json" + pre + body + post + "```";
    TrimNoEdges(text, IsPySpace);
    assert StartsWith(text, "```json");
    var t1 := text[7..];
    assert t1 == pre + body + post + "```";
    assert t1[0] == (if |pre| > 0 then pre[0] else body[0]);
    assert !StartsWith(t1, "```");
    assert EndsWith(t1, "```");
    assert t1[..|t1| - 3] == pre + body + post;
    TrimPadded(pre, body, post, IsPySpace);
  }

  /** An unfenced reply without surrounding white space is left as it is. */
  lemma StripFencesPlain(body: string)
    requires |body| > 0 && !IsPySpace(body[0]) && !IsPySpace(body[|body| - 1]) && body[0] != '`'
    requires !EndsWith(body, "```")
    ensures StripFences(body) == body
  {
    TrimNoEdges(body, IsPySpace);
  }

  predicate IsOpenBrace(c: char) { c == '{' }
  predicate IsCloseBrace(c: char) { c == '}' }

  /** The text a greedy, dot-all `\{.*\}` search finds: from the first '{' to the last '}'. */
  function BraceSpan(s: string): Option<string> {
    var i := FirstIndex(s, IsOpenBrace);
    var j := LastIndexBefore(s, IsCloseBrace, |s|);
    if i.Some? && j.Some? && i.value < j.value then Some(s[i.value..j.value + 1]) else None
  }

  /** A span is found exactly when some '{' precedes some '}'; it then runs from the first '{'
      to the last '}'. */
  lemma BraceSpanSpec(s: string)
    ensures BraceSpan(s).Some? <==> exists i, j :: 0 <= i < j < |s| && s[i] == '{' && s[j] == '}'
    ensures BraceSpan(s).Some? ==>
              exists i, j :: 0 <= i < j < |s| && BraceSpan(s) == Some(s[i..j + 1])
                             && s[i] == '{' && s[j] == '}'
                             && (forall k :: 0 <= k < i ==> s[k] != '{')
                             && (forall k :: j < k < |s| ==> s[k] != '}')
  {
    var fi := FirstIndex(s, IsOpenBrace);
    var lj := LastIndexBefore(s, IsCloseBrace, |s|);
    if exists i, j :: 0 <= i < j < |s| && s[i] == '{' && s[j] == '}' {
      var i, j :| 0 <= i < j < |s| && s[i] == '{' && s[j] == '}';
      assert IsOpenBrace(s[i]) && IsCloseBrace(s[j]);
    }
  }

  /** The dict returned when no JSON object can be recovered from a reply. */
  function ParseFailedDict(raw: string): Value {
    Obj(map["status" := Str("error"), "error" := Str("Failed to parse JSON response"), "raw_response" := Str(raw)])
  }

  /** One attempt of `generate_json`: strip fences and decode; on a decode error decode the
      brace span instead. A failure of that second decode raises inside the attempt and is
      classified like a provider error. `decode` stands for `json.loads`. */
  function JsonAttempt(r: Reply, decode: string -> Result<Value, string>): Attempt<Value> {
    match r
    case Failure(m) => Raised(m)
    case Success(t) =>
      var body := StripFences(t);
      match decode(body)
      case Ok(v) => Returned(v)
      case Err(_) =>
        match BraceSpan(body)
        case None => Returned(ParseFailedDict(body))
        case Some(span) =>
          match decode(span)
          case Ok(v) => Returned(v)
          case Err(m) => Raised(m)
  }

  /** A reply that decodes after fence stripping is returned as decoded; one that decodes
      nowhere and has no brace span yields the error dict carrying the stripped text. */
  lemma JsonAttemptCases(t: string, decode: string -> Result<Value, string>)
    ensures decode(StripFences(t)).Ok? ==> JsonAttempt(Success(t), decode) == Returned(decode(StripFences(t)).value)
    ensures decode(StripFences(t)).Err? && BraceSpan(StripFences(t)).None? ==>
              JsonAttempt(Success(t), decode) == Returned(ParseFailedDict(StripFences(t)))
    ensures JsonAttempt(Success(t), decode).Raised? ==>
              decode(StripFences(t)).Err? && BraceSpan(StripFences(t)).Some?
              && decode(BraceSpan(StripFences(t)).value).Err?
  {
  }

  /** The prompt wrapper that asks for a bare JSON object. */
  const JsonPreamble: string := "You are a helpful assistant that returns JSON responses only. \nReturn valid JSON format only, no markdown, no code blocks, just pure JSON.\n\n"
  const JsonClosing: string := "\n\nReturn your response as a valid JSON object."

  function JsonPrompt(prompt: string): string {
    JsonPreamble + prompt + JsonClosing
  }

  const JsonPlaceholder: Value :=
    Obj(map["status" := Str("placeholder"), "data" := Obj(map[]), "message" := Str("Gemini API key not configured")])

  function ErrorDict(msg: string): Value {
    Obj(map["status" := Str("error"), "error" := Str(msg)])
  }

  function QuotaDict(attempts: nat, msg: string): Value {
    Obj(map["status" := Str("error"),
            "error" := Str("Gemini API quota exceeded after " + NatToString(attempts)
                           + " attempts. Please check your plan and billing at " + RateLimitsUrl
                           + ". To monitor usage: " + UsageUrl),
            "quota_exceeded" := Bool(true),
            "details" := Str(Take(msg, 200))])
  }

  /** Attempt `i` of `generate_json` on model `m`, sending the already wrapped prompt. */
  function JsonCall(call: (Request, nat) -> Reply, decode: string -> Result<Value, string>,
                    wrapped: string, maxTokens: nat, m: string, i: nat): Attempt<Value> {
    JsonAttempt(call(Request(m, wrapped, maxTokens, 0.3), i), decode)
  }

  /** The value `generate_json` returns for each way the loop can end. */
  function JsonReply(maxRetries: nat, res: LoopResult<Value>): Value {
    match res
    case Finished(v) => v
    case NonQuota(m) => ErrorDict(m)
    case Exhausted(m) => QuotaDict(maxRetries + 1, m)
    case RanOut(m) => ErrorDict(FailedAfterMsg(maxRetries + 1, m))
  }

  /** `generate_json`: like `generate_text` with the JSON prompt, temperature 0.3 and the
      recovery above. */
  method GenerateJson(c: Client, prompt: string, model: string, maxTokens: nat, maxRetries: nat,
                      canInstantiate: string -> bool, call: (Request, nat) -> Reply,
                      delayOf: string -> Option<real>, decode: string -> Result<Value, string>)
    returns (out: Value, c': Client, trace: seq<Step<Value>>)
    ensures !IsConfigured(c) ==> out == JsonPlaceholder && trace == [] && c' == c
    ensures IsConfigured(c) ==>
              1 <= |trace| <= maxRetries + 1
              && trace[0].model == StartModel(c, model, canInstantiate).value.0
              && (forall i :: 0 <= i < |trace| - 1 ==> trace[i + 1].model == NextModel(trace[i]))
              && forall i :: 0 <= i < |trace| ==>
                   trace[i].kind == Decide(i, maxRetries,
                                           JsonCall(call, decode, JsonPrompt(prompt), maxTokens, trace[i].model, i),
                                           FallbackFor(c, model, canInstantiate), delayOf)
    ensures |trace| > 0 ==> out == JsonReply(maxRetries, Outcome(trace[|trace| - 1].kind))
    ensures |trace| > 0 ==> !trace[|trace| - 1].kind.Slept?
                            && (trace[|trace| - 1].kind.GaveUp? ==> |trace| == maxRetries + 1)
                            && (trace[|trace| - 1].kind.Switched? ==> maxRetries == 0)
    ensures c' == (if |trace| > 0 && trace[0].kind.Switched? then c.(modelName := Some(trace[0].kind.to)) else c)
  {
    c' := c;
    if !IsConfigured(c) {
      out := JsonPlaceholder;
      trace := [];
    } else {
      var wrapped := JsonPrompt(prompt);
      var attempt := (m: string, i: nat) => JsonCall(call, decode, wrapped, maxTokens, m, i);
      var res;
      res, c', trace := RunConfigured(c, model, canInstantiate, maxRetries, attempt, delayOf);
      out := JsonReply(maxRetries, res);
    }
  }
}

/** The chat-request handler of the backend: it checks the shape of the
    request, normalizes the conversation, puts the problem's system prompt in
    front of it, sends it to the completion provider and turns the provider's
    reply or failure into an HTTP response. */
module SolveDoubt {
  import opened Maybe
  import opened Text
  import opened Seqs

  // ---------------------------------------------------------------------
  // Data

  /** The canonical speaker tags. */
  datatype Role = User | Assistant | System

  function RoleName(r: Role): string {
    match r
    case User => "user"
    case Assistant => "assistant"
    case System => "system"
  }

  /** A normalized conversation turn. */
  datatype Message = Message(role: Role, content: string)

  /** A turn as the caller sent it; `None` is an absent, `undefined` or `null`
      field. */
  datatype RawMessage = RawMessage(role: Option<string>, content: Option<string>)

  /** A JavaScript error as the handler's `catch` sees it: an optional
      numeric `status` and its `message`. */
  datatype Failure = Failure(status: Option<int>, message: string)

  /** The `messages` field of the request body. */
  datatype MessagesField = Absent | NotAnArray | Items(items: seq<RawMessage>)

  /** The four problem fields interpolated into the system prompt. */
  datatype ProblemContext = ProblemContext(
    title: Option<string>, description: Option<string>,
    testCases: Option<string>, startCode: Option<string>)

  datatype Request = Request(messages: MessagesField, context: ProblemContext)

  /** A JSON response body `{message, error}`; `error: None` is left out of
      the JSON, as `undefined` is. */
  datatype Body = Body(message: string, error: Option<string>)

  datatype Response = Response(status: int, body: Body)

  /** The fixed generation parameters of the completion call. */
  datatype Params = Params(model: string, temperature: real, maxTokens: nat, topP: real, stream: bool)

  const FixedParams := Params("llama-3.3-70b-versatile", 0.7, 2048, 1.0, false)

  /** What is sent to the completion provider. */
  datatype CompletionCall = CompletionCall(params: Params, messages: seq<Message>)

  /** What the provider gives back: the `content` of each returned choice, or
      a thrown error. */
  datatype ProviderOutcome = Replied(choices: seq<string>) | Threw(failure: Failure)

  /** The response, and the call made to the provider, if one was made. */
  datatype Exchange = Exchange(response: Response, call: Option<CompletionCall>)

  // ---------------------------------------------------------------------
  // Message normalizer

  /** JavaScript truthiness of an optional string field. */
  predicate Truthy(v: Option<string>) {
    v.Some? && v.value != ""
  }

  /** The role token after lower-casing and mapping the synonyms `model`,
      `bot` and `ai` to `assistant`. */
  function RoleToken(raw: string): (r: string)
    ensures Lower(r) == r
    ensures r != Lower(raw) ==> r == "assistant" && Lower(raw) in {"model", "bot", "ai"}
  {
    var lower := Lower(raw);
    if lower == "model" || lower == "bot" || lower == "ai" then "assistant" else lower
  }

  /** The role a token names, if it names one of the three accepted roles. */
  function ParseRole(token: string): (r: Option<Role>)
    ensures r.Some? <==> token == "user" || token == "assistant" || token == "system"
    ensures r.Some? ==> RoleName(r.value) == token
  {
    if token == "user" then Some(User)
    else if token == "assistant" then Some(Assistant)
    else if token == "system" then Some(System)
    else None
  }

  function MissingFieldMessage(index: nat): string {
    "Message at index " + NatToString(index) + " missing role or content"
  }

  const InvalidRoleTail := ". Must be \"user\", \"assistant\", or \"system\""

  function InvalidRoleMessage(raw: string, index: nat): string {
    "Invalid role \"" + raw + "\" at index " + NatToString(index) + InvalidRoleTail
  }

  /** The missing-field error names the index. */
  lemma MissingFieldNamesIndex(index: nat)
    ensures Contains(MissingFieldMessage(index), NatToString(index))
  {
    ContainsPiece("Message at index ", NatToString(index), " missing role or content");
  }

  /** The invalid-role error names the raw role and the index. */
  lemma InvalidRoleNamesRoleAndIndex(raw: string, index: nat)
    ensures Contains(InvalidRoleMessage(raw, index), raw)
    ensures Contains(InvalidRoleMessage(raw, index), NatToString(index))
  {
    var n := NatToString(index);
    var msg := InvalidRoleMessage(raw, index);
    assert msg == "Invalid role \"" + raw + ("\" at index " + n + InvalidRoleTail);
    ContainsPiece("Invalid role \"", raw, "\" at index " + n + InvalidRoleTail);
    assert msg == ("Invalid role \"" + raw + "\" at index ") + n + InvalidRoleTail;
    ContainsPiece("Invalid role \"" + raw + "\" at index ", n, InvalidRoleTail);
  }

  /** The callback of `messages.map`, for the element at `index`. */
  function NormalizeOne(m: RawMessage, index: nat): (r: Result<Message, Failure>)
    ensures r.Ok? <==> Truthy(m.role) && Truthy(m.content) && ParseRole(RoleToken(m.role.value)).Some?
    ensures r.Ok? ==> r.value.content == m.content.value && r.value.content != ""
    ensures r.Ok? ==> RoleName(r.value.role) == RoleToken(m.role.value)
    ensures r.Err? ==> r.error.status == None && Contains(r.error.message, NatToString(index))
    ensures !(Truthy(m.role) && Truthy(m.content)) ==> r == Err(Failure(None, MissingFieldMessage(index)))
    ensures Truthy(m.role) && Truthy(m.content) && r.Err? ==>
      r.error.message == InvalidRoleMessage(m.role.value, index) && Contains(r.error.message, m.role.value)
  {
    if !Truthy(m.role) || !Truthy(m.content) then
      MissingFieldNamesIndex(index);
      Err(Failure(None, MissingFieldMessage(index)))
    else
      match ParseRole(RoleToken(m.role.value))
      case Some(role) => Ok(Message(role, m.content.value))
      case None =>
        InvalidRoleNamesRoleAndIndex(m.role.value, index);
        Err(Failure(None, InvalidRoleMessage(m.role.value, index)))
  }

  /** The normalized conversation (lines 22-45): it succeeds exactly when
      every message does, each at its own index, and keeps the length; a
      failure is the error of the first failing message, without `status`. */
  function Normalize(ms: seq<RawMessage>): (r: Result<seq<Message>, Failure>)
    ensures r.Ok? <==> forall k :: 0 <= k < |ms| ==> NormalizeOne(ms[k], k).Ok?
    ensures r.Ok? ==> |r.value| == |ms| && forall k :: 0 <= k < |ms| ==> NormalizeOne(ms[k], k) == Ok(r.value[k])
    ensures r.Err? ==>
      exists k :: 0 <= k < |ms| && NormalizeOne(ms[k], k) == Err(r.error)
                  && (forall j :: 0 <= j < k ==> NormalizeOne(ms[j], j).Ok?)
    ensures r.Err? ==> r.error.status == None
  {
    var r := MapOrFail(ms, NormalizeOne, 0);
    if r.Err? then
      MapOrFailStopsAtFirst(ms, NormalizeOne, 0);
      r
    else
      MapOrFailSucceeds(ms, NormalizeOne, 0);
      r
  }

  /** A normalized message written back in the caller's form. */
  function ToRaw(m: Message): RawMessage {
    RawMessage(Some(RoleName(m.role)), Some(m.content))
  }

  function ToRawAll(ms: seq<Message>): (r: seq<RawMessage>)
    ensures |r| == |ms| && forall k :: 0 <= k < |ms| ==> r[k] == ToRaw(ms[k])
  {
    seq(|ms|, k requires 0 <= k < |ms| => ToRaw(ms[k]))
  }

  /** A successful normalization keeps length, order and every content, and
      gives every turn the role its token names. */
  lemma NormalizePreserves(ms: seq<RawMessage>)
    requires Normalize(ms).Ok?
    ensures |Normalize(ms).value| == |ms|
    ensures forall k :: 0 <= k < |ms| ==>
      Truthy(ms[k].role) && Truthy(ms[k].content) &&
      Normalize(ms).value[k].content == ms[k].content.value &&
      RoleName(Normalize(ms).value[k].role) == RoleToken(ms[k].role.value)
  {
  }

  /** A conversation fails to normalize exactly when one of its messages
      fails, and then the error is that of the first failing message. */
  lemma NormalizeFailsAtFirstBad(ms: seq<RawMessage>, k: nat)
    requires k < |ms| && !NormalizeOne(ms[k], k).Ok?
    requires forall j :: 0 <= j < k ==> NormalizeOne(ms[j], j).Ok?
    ensures Normalize(ms) == Err(NormalizeOne(ms[k], k).error)
  {
  }

  /** Role names are already lower-case and are not synonyms. */
  lemma RoleNameIsToken(r: Role)
    ensures RoleToken(RoleName(r)) == RoleName(r)
    ensures ParseRole(RoleName(r)) == Some(r)
  {
  }

  /** Normalizing an already-normalized conversation changes nothing. */
  lemma NormalizeIdempotent(ms: seq<RawMessage>)
    requires Normalize(ms).Ok?
    ensures Normalize(ToRawAll(Normalize(ms).value)) == Normalize(ms)
  {
    var v := Normalize(ms).value;
    var raw := ToRawAll(v);
    forall k | 0 <= k < |raw|
      ensures NormalizeOne(raw[k], 0 + k) == Ok(v[k])
    {
      assert NormalizeOne(ms[k], 0 + k) == Ok(v[k]);
      RoleNameIsToken(v[k].role);
    }
    assert Normalize(raw).Ok?;
    var w := Normalize(raw).value;
    forall k | 0 <= k < |v|
      ensures w[k] == v[k]
    {
      assert NormalizeOne(raw[k], 0 + k) == Ok(w[k]);
    }
    assert w == v;
  }

  /** The role mapping: which raw tokens become which role, ignoring case. */
  lemma RoleMapping(raw: string)
    ensures ParseRole(RoleToken(raw)) == Some(User) <==> Lower(raw) == "user"
    ensures ParseRole(RoleToken(raw)) == Some(System) <==> Lower(raw) == "system"
    ensures ParseRole(RoleToken(raw)) == Some(Assistant) <==>
      Lower(raw) in {"assistant", "model", "bot", "ai"}
    ensures ParseRole(RoleToken(raw)) == None <==>
      Lower(raw) !in {"user", "system", "assistant", "model", "bot", "ai"}
  {
  }

  // ---------------------------------------------------------------------
  // Prompt assembler

  /** A template literal shows `undefined` for a missing field. */
  function Interpolate(v: Option<string>): string {
    match v
    case Some(s) => s
    case None => "undefined"
  }

  /** The fixed text of the system prompt around the four fields; the operating
      instructions after the fields are abbreviated to their first heading. */
  const Preamble := "\nYou are an expert Data Structures and Algorithms (DSA) tutor specializing in helping users solve coding problems. Your role is strictly limited to DSA-related assistance only.\n\n## CURRENT PROBLEM CONTEXT:\n[PROBLEM_TITLE]: "
  const DescriptionLabel := "\n[PROBLEM_DESCRIPTION]: "
  const ExamplesLabel := "\n[EXAMPLES]: "
  const StartCodeLabel := "\n[startCode]: "
  const Instructions := "\n\n## YOUR CAPABILITIES:\n"

  /** The system prompt: the fixed template with the four fields filled in;
      each field appears in it verbatim. */
  function SystemPrompt(ctx: ProblemContext): (s: string)
    ensures Contains(s, Interpolate(ctx.title))
    ensures Contains(s, Interpolate(ctx.description))
    ensures Contains(s, Interpolate(ctx.testCases))
    ensures Contains(s, Interpolate(ctx.startCode))
    ensures StartsWith(s, Preamble + Interpolate(ctx.title) + DescriptionLabel)
  {
    var t, d, e, c := Interpolate(ctx.title), Interpolate(ctx.description),
                      Interpolate(ctx.testCases), Interpolate(ctx.startCode);
    ContainsEachField(Preamble, t, DescriptionLabel, d, ExamplesLabel, e, StartCodeLabel, c, Instructions);
    Preamble + t + DescriptionLabel + d + ExamplesLabel + e + StartCodeLabel + c + Instructions
  }

  /** A template with four slots contains each value put in a slot. */
  lemma ContainsEachField(p0: string, t: string, p1: string, d: string, p2: string,
                          e: string, p3: string, c: string, p4: string)
    ensures var s := p0 + t + p1 + d + p2 + e + p3 + c + p4;
      Contains(s, t) && Contains(s, d) && Contains(s, e) && Contains(s, c)
  {
    var s := p0 + t + p1 + d + p2 + e + p3 + c + p4;
    assert s == p0 + t + (p1 + d + p2 + e + p3 + c + p4);
    ContainsPiece(p0, t, p1 + d + p2 + e + p3 + c + p4);
    assert s == (p0 + t + p1) + d + (p2 + e + p3 + c + p4);
    ContainsPiece(p0 + t + p1, d, p2 + e + p3 + c + p4);
    assert s == (p0 + t + p1 + d + p2) + e + (p3 + c + p4);
    ContainsPiece(p0 + t + p1 + d + p2, e, p3 + c + p4);
    assert s == (p0 + t + p1 + d + p2 + e + p3) + c + p4;
    ContainsPiece(p0 + t + p1 + d + p2 + e + p3, c, p4);
  }

  /** `formattedMessages` (lines 48-120): one system message, then the
      normalized conversation in order, caller `system` turns included. */
  function AssemblePrompt(ctx: ProblemContext, history: seq<Message>): (p: seq<Message>)
    ensures |p| == |history| + 1
    ensures p[0] == Message(System, SystemPrompt(ctx))
    ensures p[1..] == history
  {
    [Message(System, SystemPrompt(ctx))] + history
  }

  /** The assembled prompt has one more system message than the history:
      caller system turns are neither merged nor removed. */
  lemma {:induction false} AssembledSystemCount(ctx: ProblemContext, history: seq<Message>)
    ensures CountRole(AssemblePrompt(ctx, history), System) == CountRole(history, System) + 1
  {
  }

  function CountRole(ms: seq<Message>, r: Role): nat {
    if ms == [] then 0 else (if ms[0].role == r then 1 else 0) + CountRole(ms[1..], r)
  }

  // ---------------------------------------------------------------------
  // Error mapper

  const MessagesRequired := "Messages array is required"
  const RateLimitText := "Rate limit exceeded. Please try again in a moment."
  const AuthFailureText := "API authentication failed. Please check your API key."
  const BadRequestText := "Invalid request format"
  const InternalErrorText := "Internal server error"

  /** The `TypeError` V8 throws for `response.choices[0].message` when no
      choice came back. */
  const NoChoiceText := "Cannot read properties of undefined (reading 'message')"

  /** The `catch` block (lines 143-169); `nodeEnv` is `NODE_ENV`. */
  function MapError(f: Failure, nodeEnv: Option<string>): (r: Response)
    ensures f.status == Some(429) ==> r == Response(429, Body(RateLimitText, None))
    ensures f.status == Some(401) ==> r == Response(500, Body(AuthFailureText, None))
    ensures f.status == Some(400) ==> r == Response(400, Body(BadRequestText, Some(f.message)))
    ensures f.status !in {Some(429), Some(401), Some(400)} ==>
      r.status == 500 && r.body.message == InternalErrorText
      && (r.body.error.Some? <==> nodeEnv == Some("development"))
      && (r.body.error.Some? ==> r.body.error.value == f.message)
  {
    if f.status == Some(429) then Response(429, Body(RateLimitText, None))
    else if f.status == Some(401) then Response(500, Body(AuthFailureText, None))
    else if f.status == Some(400) then Response(400, Body(BadRequestText, Some(f.message)))
    else Response(500, Body(InternalErrorText,
                            if nodeEnv == Some("development") then Some(f.message) else None))
  }

  /** An error response is 400, 429 or 500, and it carries the error's
      detail only for a provider 400 or in development. */
  lemma MapErrorClassifies(f: Failure, nodeEnv: Option<string>)
    ensures MapError(f, nodeEnv).status in {400, 429, 500}
    ensures MapError(f, nodeEnv).body.error.Some? ==>
      MapError(f, nodeEnv).status == 400 || nodeEnv == Some("development")
    ensures MapError(f, nodeEnv).status == 400 <==> f.status == Some(400)
    ensures MapError(f, nodeEnv).status == 429 <==> f.status == Some(429)
  {
  }

  // ---------------------------------------------------------------------
  // The handler

  /** The success extraction (lines 134-139): the first choice's content, or
      the `TypeError` of reading a missing choice. */
  function Respond(outcome: ProviderOutcome, nodeEnv: Option<string>): (r: Response)
    ensures outcome.Replied? && outcome.choices != [] ==>
      r == Response(201, Body(outcome.choices[0], None))
    ensures outcome.Replied? && outcome.choices == [] ==>
      r == MapError(Failure(None, NoChoiceText), nodeEnv)
    ensures outcome.Threw? ==> r == MapError(outcome.failure, nodeEnv)
  {
    match outcome
    case Threw(f) => MapError(f, nodeEnv)
    case Replied(choices) =>
      if choices == [] then MapError(Failure(None, NoChoiceText), nodeEnv)
      else Response(201, Body(choices[0], None))
  }

  /** `solveDoubt`: `provider` stands for the remote completion call and
      `nodeEnv` for `process.env.NODE_ENV`. */
  function Handle(req: Request, nodeEnv: Option<string>,
                  provider: CompletionCall -> ProviderOutcome): (x: Exchange)
    ensures x.call.Some? <==> req.messages.Items? && Normalize(req.messages.items).Ok?
    ensures !req.messages.Items? ==> x.response == Response(400, Body(MessagesRequired, None))
    ensures x.call.Some? ==>
      && x.call.value.params == FixedParams
      && |x.call.value.messages| == |req.messages.items| + 1
      && x.call.value.messages[0] == Message(System, SystemPrompt(req.context))
      && x.response == Respond(provider(x.call.value), nodeEnv)
    ensures req.messages.Items? && x.call.None? ==>
      x.response.status == 500 && x.response.body.message == InternalErrorText
  {
    match req.messages
    case Absent => Exchange(Response(400, Body(MessagesRequired, None)), None)
    case NotAnArray => Exchange(Response(400, Body(MessagesRequired, None)), None)
    case Items(items) =>
      match Normalize(items)
      case Err(f) => Exchange(MapError(f, nodeEnv), None)
      case Ok(history) =>
        var call := CompletionCall(FixedParams, AssemblePrompt(req.context, history));
        Exchange(Respond(provider(call), nodeEnv), Some(call))
  }

  /** A missing or non-array `messages` gives 400 before any call. */
  lemma ShapeErrorMakesNoCall(req: Request, nodeEnv: Option<string>,
                              provider: CompletionCall -> ProviderOutcome)
    requires !req.messages.Items?
    ensures Handle(req, nodeEnv, provider) ==
      Exchange(Response(400, Body("Messages array is required", None)), None)
  {
  }

  /** An empty conversation passes the shape check and is sent as the
      system prompt alone. */
  lemma EmptyConversationIsSent(ctx: ProblemContext, nodeEnv: Option<string>,
                                provider: CompletionCall -> ProviderOutcome)
    ensures Handle(Request(Items([]), ctx), nodeEnv, provider).call ==
      Some(CompletionCall(FixedParams, [Message(System, SystemPrompt(ctx))]))
  {
    assert Normalize([]) == Ok([]);
    assert AssemblePrompt(ctx, []) == [Message(System, SystemPrompt(ctx))];
  }

  /** A message with a missing field or a rejected role gives the generic
      500 without any call; the detail, which names the first bad index, is
      shown only in development. */
  lemma BadMessageGives500(items: seq<RawMessage>, ctx: ProblemContext, nodeEnv: Option<string>,
                           provider: CompletionCall -> ProviderOutcome, k: nat)
    requires k < |items| && !NormalizeOne(items[k], k).Ok?
    requires forall j :: 0 <= j < k ==> NormalizeOne(items[j], j).Ok?
    ensures var x := Handle(Request(Items(items), ctx), nodeEnv, provider);
      && x.call == None
      && x.response.status == 500
      && x.response.body.message == InternalErrorText
      && (x.response.body.error.Some? <==> nodeEnv == Some("development"))
      && (x.response.body.error.Some? ==> Contains(x.response.body.error.value, NatToString(k)))
  {
  }

  /** A well-formed conversation is sent once, behind the system prompt, with
      the fixed parameters, and the provider's reply maps to the response. */
  lemma WellFormedIsSent(items: seq<RawMessage>, ctx: ProblemContext, nodeEnv: Option<string>,
                         provider: CompletionCall -> ProviderOutcome)
    requires forall k :: 0 <= k < |items| ==> NormalizeOne(items[k], k).Ok?
    ensures var x := Handle(Request(Items(items), ctx), nodeEnv, provider);
      && x.call.Some?
      && x.call.value.params == FixedParams
      && |x.call.value.messages| == |items| + 1
      && x.call.value.messages[0] == Message(System, SystemPrompt(ctx))
      && (forall k :: 0 <= k < |items| ==>
            x.call.value.messages[k + 1] == NormalizeOne(items[k], k).value)
      && x.response == Respond(provider(x.call.value), nodeEnv)
  {
  }

  /** The success path: 201 with the first choice's content. */
  lemma ReplyGives201(items: seq<RawMessage>, ctx: ProblemContext, nodeEnv: Option<string>,
                      provider: CompletionCall -> ProviderOutcome)
    requires Normalize(items).Ok?
    requires var call := CompletionCall(FixedParams, AssemblePrompt(ctx, Normalize(items).value));
      provider(call).Replied? && provider(call).choices != []
    ensures var x := Handle(Request(Items(items), ctx), nodeEnv, provider);
      x.response.status == 201 && x.response.body.message == provider(x.call.value).choices[0]
      && x.response.body.error == None
  {
  }

  /** Example: a `MODEL` turn reaches the provider as an assistant turn. */
  lemma SynonymReachesProvider(ctx: ProblemContext, nodeEnv: Option<string>,
                               provider: CompletionCall -> ProviderOutcome)
    ensures Handle(Request(Items([RawMessage(Some("MODEL"), Some("ok"))]), ctx), nodeEnv, provider).call
      == Some(CompletionCall(FixedParams, [Message(System, SystemPrompt(ctx)), Message(Assistant, "ok")]))
  {
    var m := RawMessage(Some("MODEL"), Some("ok"));
    assert Lower("MODEL") == "model";
    assert NormalizeOne(m, 0) == Ok(Message(Assistant, "ok"));
    assert NormalizeOne([m][0], 0 + 0) == Ok(Message(Assistant, "ok"));
    var v := Normalize([m]).value;
    assert NormalizeOne([m][0], 0 + 0) == Ok(v[0]);
    assert v == [Message(Assistant, "ok")];
    assert AssemblePrompt(ctx, [Message(Assistant, "ok")])
      == [Message(System, SystemPrompt(ctx)), Message(Assistant, "ok")];
  }
}

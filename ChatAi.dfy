/** The chat panel of the problem page: a conversation history that starts
    with a greeting, grows by a user turn and a reply (or an apology) per
    submitted message, and is sent in full to the chat endpoint. */
module ChatAi {
  import opened Maybe
  import SolveDoubt

  /** A history entry `{role, content}` as the panel keeps it. */
  datatype ChatEntry = ChatEntry(role: string, content: string)

  const Greeting := ChatEntry("assistant", "Hi! I'm your DSA tutor. How can I help you with this problem?")

  const Apology := "Sorry, I encountered an error. Please try again."

  /** The form rules of the message input: required, then at least two
      characters; `None` means the input is accepted. */
  function InputError(text: string): (e: Option<string>)
    ensures e.None? <==> |text| >= 2
    ensures text == "" ==> e == Some("Message is required")
    ensures |text| == 1 ==> e == Some("Too short")
  {
    if text == "" then Some("Message is required")
    else if |text| < 2 then Some("Too short")
    else None
  }

  /** The assistant entry appended after the call: the reply's `message`,
      or the apology when the call failed (`None`). */
  function ReplyEntry(reply: Option<string>): (e: ChatEntry)
    ensures e.role == "assistant"
    ensures reply.Some? ==> e.content == reply.value
    ensures reply.None? ==> e.content == Apology
  {
    ChatEntry("assistant", match reply case Some(text) => text case None => Apology)
  }

  /** Every entry has a role the client creates. */
  predicate ClientRoles(h: seq<ChatEntry>) {
    forall i :: 0 <= i < |h| ==> h[i].role == "user" || h[i].role == "assistant"
  }

  /** The history as it travels in the request's `messages` array. */
  function ToWire(h: seq<ChatEntry>): seq<SolveDoubt.RawMessage> {
    seq(|h|, i requires 0 <= i < |h| => SolveDoubt.RawMessage(Some(h[i].role), Some(h[i].content)))
  }

  /** Every role the client creates passes the backend's role check: an
      entry with content is normalized, keeping its role and content. */
  lemma ClientRolesAccepted(h: seq<ChatEntry>, k: nat)
    requires ClientRoles(h) && k < |h| && h[k].content != ""
    ensures var r := SolveDoubt.NormalizeOne(ToWire(h)[k], k);
      r.Ok? && SolveDoubt.RoleName(r.value.role) == h[k].role && r.value.content == h[k].content
  {
    assert ToWire(h)[k] == SolveDoubt.RawMessage(Some(h[k].role), Some(h[k].content));
    assert SolveDoubt.RoleToken(h[k].role) == h[k].role;
  }

  /** A client history whose entries all have content normalizes in full. */
  lemma ClientHistoryNormalizes(h: seq<ChatEntry>)
    requires ClientRoles(h)
    requires forall i :: 0 <= i < |h| ==> h[i].content != ""
    ensures SolveDoubt.Normalize(ToWire(h)).Ok?
    ensures |SolveDoubt.Normalize(ToWire(h)).value| == |h|
  {
    forall k | 0 <= k < |h|
      ensures SolveDoubt.NormalizeOne(ToWire(h)[k], 0 + k).Ok?
    {
      ClientRolesAccepted(h, k);
    }
  }

  /** A turn submitted from the panel reaches the provider: the call holds the
      system prompt, the normalized history, and last the user's text as a
      `user` message. */
  lemma SubmittedTurnIsSent(h: seq<ChatEntry>, text: string, ctx: SolveDoubt.ProblemContext,
                            nodeEnv: Option<string>,
                            provider: SolveDoubt.CompletionCall -> SolveDoubt.ProviderOutcome)
    requires ClientRoles(h) && forall i :: 0 <= i < |h| ==> h[i].content != ""
    requires InputError(text).None?
    ensures var x := SolveDoubt.Handle(
        SolveDoubt.Request(SolveDoubt.Items(ToWire(h + [ChatEntry("user", text)])), ctx), nodeEnv, provider);
      && x.call.Some?
      && |x.call.value.messages| == |h| + 2
      && x.call.value.messages[0] == SolveDoubt.Message(SolveDoubt.System, SolveDoubt.SystemPrompt(ctx))
      && (forall k :: 0 <= k < |h| ==>
            && SolveDoubt.RoleName(x.call.value.messages[k + 1].role) == h[k].role
            && x.call.value.messages[k + 1].content == h[k].content)
      && x.call.value.messages[|h| + 1] == SolveDoubt.Message(SolveDoubt.User, text)
  {
    var h' := h + [ChatEntry("user", text)];
    var w := ToWire(h');
    assert h'[|h|] == ChatEntry("user", text);
    forall k | 0 <= k < |h'|
      ensures var r := SolveDoubt.NormalizeOne(w[k], k);
        r.Ok? && SolveDoubt.RoleName(r.value.role) == h'[k].role && r.value.content == h'[k].content
    {
      ClientRolesAccepted(h', k);
    }
    SolveDoubt.WellFormedIsSent(w, ctx, nodeEnv, provider);
    var x := SolveDoubt.Handle(SolveDoubt.Request(SolveDoubt.Items(w), ctx), nodeEnv, provider);
    var ms := x.call.value.messages;
    forall k | 0 <= k < |h|
      ensures SolveDoubt.RoleName(ms[k + 1].role) == h[k].role && ms[k + 1].content == h[k].content
    {
      assert h'[k] == h[k];
      assert ms[k + 1] == SolveDoubt.NormalizeOne(w[k], k).value;
    }
    assert ms[|h| + 1] == SolveDoubt.NormalizeOne(w[|h|], |h|).value;
  }

  /** An assistant entry with empty content (a reply whose first choice is
      empty) fails the backend's missing-content check. Once it is in the
      history, every later request gets the generic 500 and reaches no
      provider, so each further turn ends with the apology. */
  lemma EmptyReplyBlocksLaterTurns(before: seq<ChatEntry>, after: seq<ChatEntry>,
                                   ctx: SolveDoubt.ProblemContext, nodeEnv: Option<string>,
                                   provider: SolveDoubt.CompletionCall -> SolveDoubt.ProviderOutcome)
    ensures var x := SolveDoubt.Handle(
        SolveDoubt.Request(SolveDoubt.Items(ToWire(before + [ReplyEntry(Some(""))] + after)), ctx),
        nodeEnv, provider);
      && x.call == None
      && x.response.status == 500
      && x.response.body.message == SolveDoubt.InternalErrorText
  {
    var h := before + [ReplyEntry(Some(""))] + after;
    assert h[|before|] == ReplyEntry(Some(""));
    assert !SolveDoubt.NormalizeOne(ToWire(h)[|before|], |before|).Ok?;
  }

  /** The panel's state: the history, the text in the input box and the
      input's validation message. */
  class ChatSession {
    var messages: seq<ChatEntry>
    var draft: string
    var inputError: Option<string>

    /** The history starts with the greeting and holds client roles only. */
    ghost predicate Valid()
      reads this
    {
      |messages| >= 1 && messages[0] == Greeting && ClientRoles(messages)
    }

    constructor ()
      ensures Valid()
      ensures messages == [Greeting] && draft == "" && inputError == None
    {
      messages := [Greeting];
      draft := "";
      inputError := None;
    }

    /** Typing into the input box. */
    method Edit(text: string)
      modifies this`draft
      ensures draft == text
    {
      draft := text;
    }

    /** `handleSubmit(onSubmit)` with the call's outcome `reply` (`None` when
        the request threw). An invalid draft is not submitted. A valid one
        is sent as the prior history plus the new user turn (the returned
        payload), the input is reset, and the history grows by the user turn
        and the reply entry. */
    method Submit(reply: Option<string>) returns (payload: Option<seq<ChatEntry>>)
      requires Valid()
      modifies this
      ensures Valid()
      ensures inputError == InputError(old(draft))
      ensures old(InputError(draft)).Some? ==>
        payload == None && messages == old(messages) && draft == old(draft)
      ensures old(InputError(draft)).None? ==>
        && payload == Some(old(messages) + [ChatEntry("user", old(draft))])
        && messages == old(messages) + [ChatEntry("user", old(draft)), ReplyEntry(reply)]
        && draft == ""
    {
      inputError := InputError(draft);
      if inputError.Some? {
        payload := None;
        return;
      }
      var userMessage := ChatEntry("user", draft);
      var prior := messages;
      messages := messages + [userMessage];
      draft := "";
      payload := Some(prior + [userMessage]);
      messages := messages + [ReplyEntry(reply)];
    }
  }

  /** A submitted turn: the payload ends with the user's message, and the
      history keeps every earlier entry in place and grows by two. */
  method SubmitTurn(s: ChatSession, text: string, reply: Option<string>)
    requires s.Valid() && |text| >= 2
    modifies s
    ensures s.Valid()
    ensures |s.messages| == |old(s.messages)| + 2
    ensures s.messages[..|old(s.messages)|] == old(s.messages)
    ensures s.messages[|old(s.messages)|] == ChatEntry("user", text)
    ensures s.messages[|old(s.messages)| + 1].role == "assistant"
  {
    s.Edit(text);
    var _ := s.Submit(reply);
  }
}

/** The chat input box and its submit/response cycle. A send is accepted only
    when the trimmed input is non-empty and no reply is awaited; it appends a
    `user` message, empties the box, raises the busy flag and schedules a
    reply. When the scheduled reply fires it appends an `assistant` message with
    the same model and parameter snapshot and lowers the busy flag. */
module InputArea {
  import opened Wrappers
  import opened Text
  import opened Session

  const ReplyLead: string := "I received your message: \""
  const ReplyMiddle: string := "\". This is a simulated response from "
  const ReplyTail: string := ". In a real application, this would be connected to an AI service with the parameters you've configured."
  const FallbackModelName: string := "the AI model"

  /** `selectedModel?.id`. */
  function ModelRef(m: Option<AIModel>): (r: Option<string>)
    ensures r.Some? <==> m.Some?
    ensures r.Some? ==> r.value == m.value.id
  {
    match m
    case None => None
    case Some(model) => Some(model.id)
  }

  /** The parameter snapshot attached to both messages of an exchange. It is
      built from the selected model alone: `||` falls back to 0.7 and 2048 when
      there is no model or its field is zero, and top-p and the penalties are
      fixed. */
  function Snapshot(m: Option<AIModel>): (p: Parameters)
    ensures p.topP == 1.0 && p.frequencyPenalty == 0.0 && p.presencePenalty == 0.0
    ensures p.temperature != 0.0 && p.maxTokens != 0.0
    ensures m.Some? && m.value.temperature != 0.0 ==> p.temperature == m.value.temperature
    ensures m.Some? && m.value.maxTokens != 0 ==> p.maxTokens == m.value.maxTokens as real
    ensures (m.None? || m.value.temperature == 0.0) ==> p.temperature == 0.7
    ensures (m.None? || m.value.maxTokens == 0) ==> p.maxTokens == 2048.0
  {
    var temperature := if m.Some? && m.value.temperature != 0.0 then m.value.temperature else 0.7;
    var maxTokens := if m.Some? && m.value.maxTokens != 0 then m.value.maxTokens as real else 2048.0;
    Parameters(temperature, maxTokens, 1.0, 0.0, 0.0)
  }

  /** `selectedModel?.name || 'the AI model'`: never empty. */
  function DisplayName(m: Option<AIModel>): (n: string)
    ensures n != []
    ensures m.Some? && m.value.name != [] ==> n == m.value.name
    ensures (m.None? || m.value.name == []) ==> n == FallbackModelName
  {
    if m.Some? && m.value.name != [] then m.value.name else FallbackModelName
  }

  /** The simulated reply. It quotes the submitted text and names the model;
      both can be read back at fixed offsets. */
  function ReplyText(text: string, m: Option<AIModel>): (r: string)
    ensures |r| == |ReplyLead| + |text| + |ReplyMiddle| + |DisplayName(m)| + |ReplyTail|
    ensures r[|ReplyLead|..|ReplyLead| + |text|] == text
    ensures r[|r| - |ReplyTail| - |DisplayName(m)|..|r| - |ReplyTail|] == DisplayName(m)
  {
    var r := ReplyLead + text + ReplyMiddle + DisplayName(m) + ReplyTail;
    assert r[|ReplyLead|..|ReplyLead| + |text|] == text;
    r
  }

  /** The `user` message of a send: the submitted text, tagged with the
      selected model's id and the snapshot. */
  function UserMessage(text: string, m: Option<AIModel>): (d: MessageDraft)
    ensures d.role == User && d.content == text
    ensures d.model == ModelRef(m) && d.parameters == Some(Snapshot(m))
  {
    MessageDraft(User, text, ModelRef(m), Some(Snapshot(m)))
  }

  /** The `assistant` message of the scheduled reply: it quotes the text and
      carries the same model id and snapshot as the user message. */
  function AssistantMessage(text: string, m: Option<AIModel>): (d: MessageDraft)
    ensures d.role == Assistant
    ensures d.model == UserMessage(text, m).model && d.parameters == UserMessage(text, m).parameters
    ensures |d.content| > |ReplyLead| + |text| && d.content[|ReplyLead|..|ReplyLead| + |text|] == text
  {
    MessageDraft(Assistant, ReplyText(text, m), ModelRef(m), Some(Snapshot(m)))
  }

  /** The two messages of one exchange carry the same model reference and the
      same snapshot; the user message holds the text and the reply quotes it. */
  lemma ExchangeMessagesAgree(text: string, m: Option<AIModel>)
    ensures UserMessage(text, m).role == User && AssistantMessage(text, m).role == Assistant
    ensures UserMessage(text, m).model == AssistantMessage(text, m).model == ModelRef(m)
    ensures UserMessage(text, m).parameters == AssistantMessage(text, m).parameters == Some(Snapshot(m))
    ensures UserMessage(text, m).content == text
    ensures AssistantMessage(text, m).content[|ReplyLead|..|ReplyLead| + |text|] == text
  {
  }

  /** A scheduled reply: what the deferred callback captured at submit time. */
  datatype PendingReply = PendingReply(text: string, model: Option<AIModel>)

  /** The part of the world the input box reads and writes: its own buffer,
      the history and busy flag of the store, and the scheduled replies in the
      order they will fire. */
  datatype ChatState = ChatState(
    input: string,
    history: seq<ChatMessage>,
    loading: bool,
    pending: seq<PendingReply>)

  /** Nothing awaited and not busy. */
  predicate Idle(s: ChatState)
  {
    s.pending == [] && !s.loading
  }

  /** Exactly one reply awaited and busy. */
  predicate Awaiting(s: ChatState)
  {
    |s.pending| == 1 && s.loading
  }

  /** `handleSend`, with `model` the selection at the time of the call. */
  function SendStep(s: ChatState, model: Option<AIModel>, id: string, timestamp: int): (r: ChatState)
    ensures |s.history| <= |r.history| <= |s.history| + 1 && r.history[..|s.history|] == s.history
    ensures |r.history| > |s.history| <==> !IsBlank(s.input) && !s.loading
    ensures s.pending <= r.pending
  {
    if !IsBlank(s.input) && !s.loading then
      var text := Trim(s.input);
      ChatState("", s.history + [Stamp(UserMessage(text, model), id, timestamp)], true,
                s.pending + [PendingReply(text, model)])
    else
      s
  }

  /** The earliest scheduled reply fires; with none scheduled nothing happens. */
  function CompleteStep(s: ChatState, id: string, timestamp: int): (r: ChatState)
    ensures r.input == s.input
    ensures |s.history| <= |r.history| <= |s.history| + 1 && r.history[..|s.history|] == s.history
    ensures |r.history| > |s.history| <==> s.pending != []
    ensures |r.pending| == if s.pending == [] then 0 else |s.pending| - 1
  {
    if s.pending == [] then
      s
    else
      var p := s.pending[0];
      ChatState(s.input, s.history + [Stamp(AssistantMessage(p.text, p.model), id, timestamp)], false,
                s.pending[1..])
  }

  /** Enter without Shift sends; any other key leaves the state alone. */
  function KeyPressStep(s: ChatState, key: string, shiftKey: bool, model: Option<AIModel>, id: string, timestamp: int): (r: ChatState)
    ensures r != s <==> key == "Enter" && !shiftKey && !IsBlank(s.input) && !s.loading
    ensures r != s ==> r == SendStep(s, model, id, timestamp)
  {
    if key == "Enter" && !shiftKey then SendStep(s, model, id, timestamp) else s
  }

  /** A blank input or a pending reply makes a send change nothing. */
  lemma SendRejected(s: ChatState, model: Option<AIModel>, id: string, timestamp: int)
    requires AllWhitespace(s.input) || s.loading
    ensures SendStep(s, model, id, timestamp) == s
  {
  }

  /** An accepted send appends exactly one user message holding the trimmed
      input and the selected model's id, empties the buffer and raises the
      busy flag. */
  lemma SendAccepted(s: ChatState, model: Option<AIModel>, id: string, timestamp: int)
    requires !AllWhitespace(s.input) && !s.loading
    ensures var t := SendStep(s, model, id, timestamp);
      && |t.history| == |s.history| + 1
      && t.history[..|s.history|] == s.history
      && Draft(t.history[|s.history|]) == UserMessage(Trim(s.input), model)
      && t.history[|s.history|].content != []
      && NoEdgeWhitespace(t.history[|s.history|].content)
      && t.history[|s.history|].model == ModelRef(model)
      && t.input == "" && t.loading
  {
  }

  /** Sending keeps the two-state machine in one of its two states, and from
      Idle an accepted send moves it to Awaiting. */
  lemma SendKeepsStates(s: ChatState, model: Option<AIModel>, id: string, timestamp: int)
    requires Idle(s) || Awaiting(s)
    ensures var t := SendStep(s, model, id, timestamp);
      && (Idle(t) || Awaiting(t))
      && (Idle(s) && !AllWhitespace(s.input) ==> Awaiting(t))
      && (Awaiting(s) ==> t == s)
  {
  }

  /** Completion moves Awaiting to Idle and leaves Idle alone. */
  lemma CompleteKeepsStates(s: ChatState, id: string, timestamp: int)
    requires Idle(s) || Awaiting(s)
    ensures Idle(CompleteStep(s, id, timestamp))
    ensures Idle(s) ==> CompleteStep(s, id, timestamp) == s
  {
  }

  /** A whole exchange from Idle with a non-blank input: the history grows by
      exactly two, the user message first and the reply second, both with the
      same model and snapshot; afterwards the machine is Idle again. */
  lemma FullExchange(s: ChatState, model: Option<AIModel>, id1: string, ts1: int, id2: string, ts2: int)
    requires Idle(s) && !AllWhitespace(s.input)
    ensures var u := CompleteStep(SendStep(s, model, id1, ts1), id2, ts2);
      && Idle(u) && u.input == ""
      && |u.history| == |s.history| + 2
      && u.history[..|s.history|] == s.history
      && u.history[|s.history|].role == User
      && u.history[|s.history| + 1].role == Assistant
      && u.history[|s.history|].content == Trim(s.input)
      && u.history[|s.history| + 1].content == ReplyText(Trim(s.input), model)
      && u.history[|s.history|].model == u.history[|s.history| + 1].model == ModelRef(model)
      && u.history[|s.history|].parameters == u.history[|s.history| + 1].parameters
  {
    var text := Trim(s.input);
    var um := Stamp(UserMessage(text, model), id1, ts1);
    var am := Stamp(AssistantMessage(text, model), id2, ts2);
    var t := SendStep(s, model, id1, ts1);
    assert t == ChatState("", s.history + [um], true, [PendingReply(text, model)]);
    var u := CompleteStep(t, id2, ts2);
    assert u == ChatState("", s.history + [um, am], false, []);
    assert u.history[|s.history|] == um && u.history[|s.history| + 1] == am;
  }

  /** The input box bound to a session store. */
  class ChatInput {
    const session: SessionStore
    var inputValue: string
    var pending: seq<PendingReply>

    function State(): ChatState
      reads this, session
    {
      ChatState(inputValue, session.chatHistory, session.isLoading, pending)
    }

    constructor (session: SessionStore)
      ensures this.session == session
      ensures inputValue == "" && pending == []
    {
      this.session := session;
      inputValue := "";
      pending := [];
    }

    /** The textarea's `onChange`. The textarea is disabled while a reply is
        awaited, so typing then has no effect. */
    method SetInputValue(v: string) returns (typed: bool)
      modifies this`inputValue
      ensures typed <==> !session.isLoading
      ensures inputValue == if typed then v else old(inputValue)
    {
      typed := !session.isLoading;
      if typed {
        inputValue := v;
      }
    }

    /** `handleSend`. */
    method HandleSend(id: string, timestamp: int) returns (accepted: bool)
      modifies this`inputValue, this`pending, session`chatHistory, session`isLoading
      ensures accepted <==> !IsBlank(old(inputValue)) && !old(session.isLoading)
      ensures State() == SendStep(old(State()), session.selectedModel, id, timestamp)
    {
      accepted := false;
      var text := Trim(inputValue);
      if text != [] && !session.isLoading {
        ghost var before := State();
        var model := session.selectedModel;
        session.AddMessage(UserMessage(text, model), id, timestamp);
        inputValue := "";
        session.SetLoading(true);
        pending := pending + [PendingReply(text, model)];
        accepted := true;
        assert State() == ChatState("", before.history + [Stamp(UserMessage(text, model), id, timestamp)], true,
                                    before.pending + [PendingReply(text, model)]);
      }
    }

    /** The deferred callback: the earliest scheduled reply is delivered. */
    method Complete(id: string, timestamp: int) returns (fired: bool)
      modifies this`pending, session`chatHistory, session`isLoading
      ensures fired <==> old(pending) != []
      ensures State() == CompleteStep(old(State()), id, timestamp)
    {
      fired := false;
      if pending != [] {
        var p := pending[0];
        session.AddMessage(AssistantMessage(p.text, p.model), id, timestamp);
        session.SetLoading(false);
        pending := pending[1..];
        fired := true;
      }
    }

    /** `handleKeyPress`: Enter without Shift sends. */
    method HandleKeyPress(key: string, shiftKey: bool, id: string, timestamp: int) returns (sent: bool)
      modifies this`inputValue, this`pending, session`chatHistory, session`isLoading
      ensures sent <==> key == "Enter" && !shiftKey && !IsBlank(old(inputValue)) && !old(session.isLoading)
      ensures State() == KeyPressStep(old(State()), key, shiftKey, session.selectedModel, id, timestamp)
    {
      sent := false;
      if key == "Enter" && !shiftKey {
        sent := HandleSend(id, timestamp);
      }
    }
  }
}

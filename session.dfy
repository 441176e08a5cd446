/** The session store of the console: the model and template catalogs, the
    current selections, the chat history, the busy flag and the last error.
    Every write is a plain setter, except that `AddMessage` stamps the message
    it appends and `ClearChat` empties the history. */
module Session {
  import opened Wrappers

  datatype AIModel = AIModel(id: string, name: string, description: string, maxTokens: int, temperature: real)

  datatype PromptTemplate = PromptTemplate(id: string, name: string, content: string, category: string)

  datatype Role = User | Assistant

  /** The five generation parameters. They are only stored and shown, never
      computed with, so every field is a `real`. */
  datatype Parameters = Parameters(
    temperature: real,
    maxTokens: real,
    topP: real,
    frequencyPenalty: real,
    presencePenalty: real)

  /** A message of the history. The id and the timestamp come from the wall
      clock when the message is added; here they are supplied by the caller. */
  datatype ChatMessage = ChatMessage(
    id: string,
    role: Role,
    content: string,
    timestamp: int,
    model: Option<string>,
    parameters: Option<Parameters>)

  /** What a caller hands to `AddMessage`: a message without id and timestamp. */
  datatype MessageDraft = MessageDraft(
    role: Role,
    content: string,
    model: Option<string>,
    parameters: Option<Parameters>)

  /** The caller's part of a stored message. */
  function Draft(m: ChatMessage): MessageDraft
  {
    MessageDraft(m.role, m.content, m.model, m.parameters)
  }

  /** The stored message: the draft, spread, with the given id and timestamp. */
  function Stamp(d: MessageDraft, id: string, timestamp: int): (m: ChatMessage)
    ensures Draft(m) == d
    ensures m.id == id && m.timestamp == timestamp
  {
    ChatMessage(id, d.role, d.content, timestamp, d.model, d.parameters)
  }

  predicate DistinctModelIds(ms: seq<AIModel>)
  {
    forall i, j | 0 <= i < j < |ms| :: ms[i].id != ms[j].id
  }

  predicate DistinctTemplateIds(ts: seq<PromptTemplate>)
  {
    forall i, j | 0 <= i < j < |ts| :: ts[i].id != ts[j].id
  }

  /** The model catalog seeded when the store mounts. */
  function SeedModels(): (ms: seq<AIModel>)
    ensures |ms| == 4 && DistinctModelIds(ms)
    ensures ms[0].id == "gpt-4"
    ensures forall i | 0 <= i < |ms| :: ms[i].maxTokens > 0 && ms[i].temperature == 0.7
    ensures ms[0].maxTokens == 8192 && ms[1].maxTokens == 4096 && ms[2].maxTokens == 200000 && ms[3].maxTokens == 2048
  {
    [ AIModel("gpt-4", "GPT-4", "Most capable GPT model, best for complex reasoning", 8192, 0.7),
      AIModel("gpt-3.5-turbo", "GPT-3.5 Turbo", "Fast and efficient, great for most tasks", 4096, 0.7),
      AIModel("claude-3-opus", "Claude 3 Opus", "Anthropic's most powerful model", 200000, 0.7),
      AIModel("custom-model", "Custom Model", "Your own fine-tuned model", 2048, 0.7) ]
  }

  /** The template catalog seeded when the store mounts. */
  function SeedTemplates(): (ts: seq<PromptTemplate>)
    ensures |ts| == 4 && DistinctTemplateIds(ts)
  {
    [ PromptTemplate("creative-writing", "Creative Writing",
        "Write a creative story about [topic] in the style of [author].", "Writing"),
      PromptTemplate("code-review", "Code Review",
        "Please review this code and suggest improvements:\n\n[code]", "Programming"),
      PromptTemplate("data-analysis", "Data Analysis",
        "Analyze this data and provide insights:\n\n[data]", "Analysis"),
      PromptTemplate("translation", "Translation",
        "Translate the following text to [target_language]:\n\n[text]", "Language") ]
  }

  class SessionStore {
    var models: seq<AIModel>
    var templates: seq<PromptTemplate>
    var selectedModel: Option<AIModel>
    var selectedTemplate: Option<PromptTemplate>
    var chatHistory: seq<ChatMessage>
    var isLoading: bool
    var error: Option<string>

    /** The state before the seeding effect has run: everything empty or absent. */
    constructor ()
      ensures models == [] && templates == []
      ensures selectedModel == None && selectedTemplate == None
      ensures chatHistory == [] && !isLoading && error == None
    {
      models, templates := [], [];
      selectedModel, selectedTemplate := None, None;
      chatHistory, isLoading, error := [], false, None;
    }

    /** The mount effect: install both catalogs and select the first model. */
    method Seed()
      modifies this`models, this`templates, this`selectedModel
      ensures models == SeedModels() && templates == SeedTemplates()
      ensures selectedModel == Some(models[0])
    {
      var ms := SeedModels();
      models := ms;
      templates := SeedTemplates();
      selectedModel := Some(ms[0]);
    }

    /** Any model or none; membership in the catalog is not checked. */
    method SetSelectedModel(m: Option<AIModel>)
      modifies this`selectedModel
      ensures selectedModel == m
    {
      selectedModel := m;
    }

    /** Any template or none; membership in the catalog is not checked. */
    method SetSelectedTemplate(t: Option<PromptTemplate>)
      modifies this`selectedTemplate
      ensures selectedTemplate == t
    {
      selectedTemplate := t;
    }

    /** Append one message, stamped with `id` and `timestamp`, at the end of the
        history; the earlier messages stay as they were. */
    method AddMessage(d: MessageDraft, id: string, timestamp: int)
      modifies this`chatHistory
      ensures chatHistory == old(chatHistory) + [Stamp(d, id, timestamp)]
      ensures |chatHistory| == |old(chatHistory)| + 1
      ensures chatHistory[..|old(chatHistory)|] == old(chatHistory)
      ensures chatHistory[|chatHistory| - 1] == Stamp(d, id, timestamp)
    {
      chatHistory := chatHistory + [Stamp(d, id, timestamp)];
    }

    /** Empty the history, whatever it held. */
    method ClearChat()
      modifies this`chatHistory
      ensures chatHistory == []
    {
      chatHistory := [];
    }

    method SetLoading(loading: bool)
      modifies this`isLoading
      ensures isLoading == loading
    {
      isLoading := loading;
    }

    method SetError(e: Option<string>)
      modifies this`error
      ensures error == e
    {
      error := e;
    }
  }

  const ProviderMissing: string := "useSession must be used within a SessionProvider"

  /** Reading the store fails when no provider encloses the caller, and
      otherwise yields that provider's store. */
  function UseSession(provider: Option<SessionStore>): (r: Result<SessionStore, string>)
    ensures r.Failure? <==> provider.None?
    ensures r.Success? ==> r.value == provider.value
    ensures r.Failure? ==> r.error == ProviderMissing
  {
    match provider
    case None => Failure(ProviderMissing)
    case Some(store) => Success(store)
  }
}

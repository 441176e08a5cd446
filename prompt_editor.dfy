/** The prompt editor: a local text buffer seeded from a chosen template, the
    name typed into the "save" dialog and whether that dialog is shown, plus
    the store's shared template selection. */
module PromptEditor {
  import opened Wrappers
  import opened Text
  import opened Session

  /** `templates.find(t => t.id === id)`: the first template with that id, or
      none when no template has it. */
  function FindTemplate(ts: seq<PromptTemplate>, id: string): (r: Option<PromptTemplate>)
    ensures r.None? <==> forall i | 0 <= i < |ts| :: ts[i].id != id
    ensures r.Some? ==> exists i | 0 <= i < |ts| :: ts[i] == r.value && forall j | 0 <= j < i :: ts[j].id != id
    ensures r.Some? ==> r.value.id == id
  {
    if ts == [] then
      None
    else if ts[0].id == id then
      Some(ts[0])
    else
      var r := FindTemplate(ts[1..], id);
      assert forall i | 1 <= i < |ts| :: ts[i] == ts[1..][i - 1];
      r
  }

  /** The editor's state: the prompt text, the name in the save dialog,
      whether that dialog is open, and the store's selected template. */
  datatype EditorState = EditorState(
    promptText: string,
    customPromptName: string,
    showSaveModal: bool,
    selectedTemplate: Option<PromptTemplate>)

  /** `handleTemplateSelect`: select the template and load its content. */
  function SelectTemplate(s: EditorState, t: PromptTemplate): (r: EditorState)
    ensures r.selectedTemplate == Some(t) && r.promptText == t.content
    ensures PromptActionsEnabled(r) <==> !AllWhitespace(t.content)
  {
    s.(selectedTemplate := Some(t), promptText := t.content)
  }

  /** `handleClearPrompt`: empty text, no template. */
  function ClearPrompt(s: EditorState): (r: EditorState)
    ensures r.selectedTemplate.None? && !PromptActionsEnabled(r)
    ensures r.customPromptName == s.customPromptName && r.showSaveModal == s.showSaveModal
  {
    s.(promptText := "", selectedTemplate := None)
  }

  /** The template select's `onChange` for option value `id`. */
  function SelectChange(s: EditorState, templates: seq<PromptTemplate>, id: string): (r: EditorState)
    ensures r.customPromptName == s.customPromptName && r.showSaveModal == s.showSaveModal
    ensures r.selectedTemplate.Some? ==> r.selectedTemplate.value.id == id && r.promptText == r.selectedTemplate.value.content
    ensures r.selectedTemplate.None? <==> forall i | 0 <= i < |templates| :: templates[i].id != id
    ensures r.selectedTemplate.None? ==> r.promptText == ""
  {
    match FindTemplate(templates, id)
    case Some(t) => SelectTemplate(s, t)
    case None => s.(selectedTemplate := None, promptText := "")
  }

  /** `handleSavePrompt`: a non-blank name is accepted, which empties the name
      and closes the dialog; a blank one changes nothing. */
  function SavePrompt(s: EditorState): (r: EditorState)
    ensures r.promptText == s.promptText && r.selectedTemplate == s.selectedTemplate
    ensures !ModalSaveEnabled(r)
    ensures r.showSaveModal ==> r == s
  {
    if !IsBlank(s.customPromptName) then s.(customPromptName := "", showSaveModal := false) else s
  }

  /** The "Save Prompt" and "Clear" buttons are disabled while the text is blank. */
  predicate PromptActionsEnabled(s: EditorState)
  {
    !IsBlank(s.promptText)
  }

  /** The dialog's "Save" button is disabled while the name is blank. */
  predicate ModalSaveEnabled(s: EditorState)
  {
    !IsBlank(s.customPromptName)
  }

  /** Selecting a template loads exactly its content and touches neither the
      dialog nor the name. */
  lemma SelectTemplateLoadsContent(s: EditorState, t: PromptTemplate)
    ensures SelectTemplate(s, t).promptText == t.content
    ensures SelectTemplate(s, t).selectedTemplate == Some(t)
    ensures SelectTemplate(s, t).customPromptName == s.customPromptName
    ensures SelectTemplate(s, t).showSaveModal == s.showSaveModal
    ensures PromptActionsEnabled(SelectTemplate(s, t)) <==> !AllWhitespace(t.content)
  {
  }

  /** Clearing is idempotent, and it disables the buttons it belongs to. */
  lemma ClearPromptIdempotent(s: EditorState)
    ensures ClearPrompt(ClearPrompt(s)) == ClearPrompt(s)
    ensures !PromptActionsEnabled(ClearPrompt(s))
  {
  }

  /** A known id behaves as selecting that template; the empty option, or any
      id not in the catalog, behaves as clearing. */
  lemma SelectChangeCases(s: EditorState, templates: seq<PromptTemplate>, id: string)
    ensures (exists i | 0 <= i < |templates| :: templates[i].id == id) ==>
      exists i | 0 <= i < |templates| :: templates[i].id == id && SelectChange(s, templates, id) == SelectTemplate(s, templates[i])
    ensures (forall i | 0 <= i < |templates| :: templates[i].id != id) ==>
      SelectChange(s, templates, id) == ClearPrompt(s)
  {
  }

  /** The empty option is never a seeded template's id, so choosing it clears. */
  lemma EmptyOptionClears(s: EditorState)
    ensures SelectChange(s, SeedTemplates(), "") == ClearPrompt(s)
  {
    var ts := SeedTemplates();
    assert forall i | 0 <= i < |ts| :: ts[i].id != "";
  }

  /** Saving succeeds exactly when the dialog's "Save" button is enabled;
      a successful save leaves the name blank, so saving again changes nothing. */
  lemma SavePromptCases(s: EditorState)
    ensures ModalSaveEnabled(s) ==> SavePrompt(s).customPromptName == "" && !SavePrompt(s).showSaveModal
    ensures !ModalSaveEnabled(s) ==> SavePrompt(s) == s
    ensures SavePrompt(SavePrompt(s)) == SavePrompt(s)
    ensures SavePrompt(s).promptText == s.promptText && SavePrompt(s).selectedTemplate == s.selectedTemplate
  {
    assert Trim("") == "";
  }

  /** The editor bound to a session store. */
  class Editor {
    const session: SessionStore
    var promptText: string
    var customPromptName: string
    var showSaveModal: bool

    function State(): EditorState
      reads this, session
    {
      EditorState(promptText, customPromptName, showSaveModal, session.selectedTemplate)
    }

    constructor (session: SessionStore)
      ensures this.session == session
      ensures promptText == "" && customPromptName == "" && !showSaveModal
    {
      this.session := session;
      promptText, customPromptName, showSaveModal := "", "", false;
    }

    method HandleTemplateSelect(t: PromptTemplate)
      modifies this`promptText, session`selectedTemplate
      ensures State() == SelectTemplate(old(State()), t)
    {
      session.SetSelectedTemplate(Some(t));
      promptText := t.content;
    }

    method HandleClearPrompt()
      modifies this`promptText, session`selectedTemplate
      ensures State() == ClearPrompt(old(State()))
    {
      ghost var before := State();
      promptText := "";
      session.SetSelectedTemplate(None);
      assert State() == before.(promptText := "", selectedTemplate := None);
    }

    /** The template select's `onChange`, looking the id up in the store's catalog. */
    method HandleSelectChange(id: string)
      modifies this`promptText, session`selectedTemplate
      ensures State() == SelectChange(old(State()), session.templates, id)
    {
      var found := FindTemplate(session.templates, id);
      match found
      case Some(t) =>
        HandleTemplateSelect(t);
      case None =>
        session.SetSelectedTemplate(None);
        promptText := "";
    }

    /** The textarea's `onChange`: the text is replaced verbatim and the
        template selection stays. */
    method SetPromptText(v: string)
      modifies this`promptText
      ensures promptText == v
    {
      promptText := v;
    }

    /** The dialog's name input. */
    method SetCustomPromptName(v: string)
      modifies this`customPromptName
      ensures customPromptName == v
    {
      customPromptName := v;
    }

    /** "Save Prompt": opens the dialog, unless the button is disabled. */
    method ClickSavePrompt() returns (shown: bool)
      modifies this`showSaveModal
      ensures shown <==> PromptActionsEnabled(old(State()))
      ensures showSaveModal == (shown || old(showSaveModal))
    {
      shown := !IsBlank(promptText);
      if shown {
        showSaveModal := true;
      }
    }

    /** "Clear": clears the prompt, unless the button is disabled. */
    method ClickClear() returns (cleared: bool)
      modifies this`promptText, session`selectedTemplate
      ensures cleared <==> PromptActionsEnabled(old(State()))
      ensures State() == if cleared then ClearPrompt(old(State())) else old(State())
    {
      cleared := !IsBlank(promptText);
      if cleared {
        HandleClearPrompt();
      }
    }

    /** The dialog's "Cancel". */
    method CancelSave()
      modifies this`showSaveModal
      ensures !showSaveModal
    {
      showSaveModal := false;
    }

    /** `handleSavePrompt`, as the dialog's "Save" runs it. */
    method HandleSavePrompt() returns (saved: bool)
      modifies this`customPromptName, this`showSaveModal
      ensures saved <==> ModalSaveEnabled(old(State()))
      ensures State() == SavePrompt(old(State()))
    {
      ghost var before := State();
      saved := !IsBlank(customPromptName);
      if saved {
        customPromptName := "";
        showSaveModal := false;
        assert State() == before.(customPromptName := "", showSaveModal := false);
      }
    }
  }
}

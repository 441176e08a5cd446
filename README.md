# Session state of an LLM chat console, in Dafny

This project models the client-side session state of a browser chat console
for large language models. The console is a React application. Its state
lives in four places:

- **The session store** (`SessionContext.tsx`) holds the seeded model and
  template catalogs, the selected model and template, the chat history, the
  busy flag and the last error. It is modelled as the class
  `Session.SessionStore`, with one field per piece of state and one method per
  setter.
- **The input box** (`InputArea.tsx`) runs a two-state submit/response cycle,
  Idle and Awaiting. A send appends a `user` message, empties the box, raises
  the busy flag and schedules a reply. The scheduled reply is the separate
  step `Complete`. It appends an `assistant` message with the same model and
  parameter snapshot, then lowers the flag. The class
  `InputArea.ChatInput` is proved against the pure transition functions
  `SendStep`, `CompleteStep` and `KeyPressStep` over `ChatState`. The lemmas
  about the machine are stated on those functions.
- **The parameters panel** (`ParametersPanel.tsx`) keeps a local record of
  five parameters. Each slider writes one field, and "Reset to Defaults"
  writes fixed constants. This is the class `ParametersPanel.Panel`, with the
  functions `WithParameter`, `Defaults` and `Controls`.
- **The prompt editor** (`PromptEditor.tsx`) keeps a text buffer that
  template selection seeds. It also has a "save" dialog with a name field.
  This is the class `PromptEditor.Editor`, proved against the pure functions
  over `EditorState`.

`Text.Trim` models JavaScript's `String.prototype.trim`. It is defined once
and every blank-input guard uses it. It removes the characters that the
ECMAScript language specification classifies as WhiteSpace or
LineTerminator.

The three components share one `SessionStore`, as the React components share
one context. Each component method's `modifies` clause names exactly the
store fields that the component writes.

The model follows the code, including these behaviours that a reader might
expect to be otherwise:

- A model change does not re-derive temperature or max tokens. The
  parameter record never reads the selected model, so a switch leaves all
  five fields unchanged (`SwitchModel`). As a result, max tokens can end
  above the new model's ceiling (`CeilingCanBeExceeded`,
  `SeededCeilingCanBeExceeded`).
- Reset does not use the model's values. It writes the constants
  {0.7, 1000, 0.9, 0, 0}, with top-p 0.9.
- The chat snapshot is not the panel's parameter record. It is built from
  the selected model alone, with top-p 1 and both penalties 0 (`Snapshot`).
- A send does not need a selected model. Without one, the messages carry
  no model id and the snapshot holds the fallback values.
- A reply never fails and never sets the error field. No core component
  calls `setError`.

## Model

| member | source | states |
|---|---|---|
| Text.LeadingRunIsWhitespace | src/components/InputArea.tsx:11 | what trimming removes at the front is whitespace only |
| Text.LeadingRunIsMaximal | src/components/InputArea.tsx:11 | the first character kept at the front is not whitespace |
| Text.LeadingRunOfWhitespace | src/components/InputArea.tsx:11 | an all-whitespace string is removed entirely from the front |
| Text.TrailingRunIsWhitespace | src/components/InputArea.tsx:11 | what trimming removes at the back is whitespace only |
| Text.TrailingRunIsMaximal | src/components/InputArea.tsx:11 | the last character kept at the back is not whitespace |
| Text.TrimmedHasNoEdgeWhitespace | src/components/InputArea.tsx:11 | the trimmed string has whitespace at neither end |
| Text.TrimmedEmptyIffAllWhitespace | src/components/InputArea.tsx:11 | the trimmed string is empty exactly when the input is all whitespace (both directions) |
| Text.Trim | src/components/InputArea.tsx:11-14 | the trimmed string has no whitespace at either end, and it is empty exactly when the input is all whitespace |
| Text.TrimIsSlice | src/components/InputArea.tsx:14 | the trimmed string is a slice of the input that lies between a whitespace-only prefix and a whitespace-only suffix |
| Text.IsBlank | src/components/InputArea.tsx:11 | `!s.trim()` holds exactly when every character of the string is whitespace (also used at PromptEditor.tsx lines 18, 83, 93 and 124) |
| Text.TrimOfTrimmed | src/components/PromptEditor.tsx:18 | a string without edge whitespace is its own trim |
| Text.TrimIdempotent | src/components/PromptEditor.tsx:83 | trimming twice equals trimming once |
| Session.Stamp | src/contexts/SessionContext.tsx:127-132 | the stored message keeps every field the caller gave, and carries the supplied id and timestamp |
| Session.SeedModels | src/contexts/SessionContext.tsx:64-93 | four models with distinct ids, the first being `gpt-4`, each with a positive token ceiling and temperature 0.7 |
| Session.SeedTemplates | src/contexts/SessionContext.tsx:95-120 | four templates with distinct ids |
| Session.SessionStore.constructor | src/contexts/SessionContext.tsx:54-60 | before seeding, the catalogs and history are empty, nothing is selected, the store is not loading and there is no error |
| Session.SessionStore.Seed | src/contexts/SessionContext.tsx:122-125 | installs both seeded catalogs and selects the first model (`gpt-4`), and writes no other field |
| Session.SessionStore.SetSelectedModel | src/contexts/SessionContext.tsx:157 | accepts any model or none, without a catalog check, and writes only the selection |
| Session.SessionStore.SetSelectedTemplate | src/contexts/SessionContext.tsx:158 | accepts any template or none, without a catalog check, and writes only the selection |
| Session.SessionStore.AddMessage | src/contexts/SessionContext.tsx:127-134 | the history grows by one, earlier messages are unchanged, and the last message is the stamped draft |
| Session.SessionStore.ClearChat | src/contexts/SessionContext.tsx:136-138 | the history is empty whatever it held before, so clearing twice equals clearing once |
| Session.SessionStore.SetLoading | src/contexts/SessionContext.tsx:140-142 | the busy flag becomes the argument and no other field changes |
| Session.SessionStore.SetError | src/contexts/SessionContext.tsx:144-146 | the error becomes the argument and no other field changes |
| Session.UseSession | src/contexts/SessionContext.tsx:169-175 | fails, with the source's message, exactly when no provider is present, and otherwise yields the provider's store |
| InputArea.ModelRef | src/components/InputArea.tsx:15 | a model id is present exactly when a model is selected, and it is that model's id |
| InputArea.Snapshot | src/components/InputArea.tsx:16-22 | temperature and max tokens come from the model, falling back to 0.7 and 2048 when the model is absent or its value is zero; they are never zero; top-p is 1 and both penalties are 0 |
| InputArea.DisplayName | src/components/InputArea.tsx:33 | the model's name, or "the AI model" when there is no model or its name is empty; never empty |
| InputArea.ReplyText | src/components/InputArea.tsx:33 | the reply quotes the submitted text and names the model, each at a fixed offset |
| InputArea.UserMessage | src/components/InputArea.tsx:12-23 | the user message has role `user`, holds the given text, the selected model's id and the snapshot |
| InputArea.AssistantMessage | src/components/InputArea.tsx:31-42 | the reply has role `assistant`, quotes the text at a fixed offset, and carries the same model id and snapshot as the user message |
| InputArea.SendStep | src/components/InputArea.tsx:10-28 | a send only appends to the history, adding one message exactly when the input is not blank and no reply is awaited, and never drops a scheduled reply |
| InputArea.CompleteStep | src/components/InputArea.tsx:30-45 | completion never touches the input buffer, only appends to the history, adds a message exactly when a reply is scheduled, and consumes one scheduled reply |
| InputArea.KeyPressStep | src/components/InputArea.tsx:49-54 | a key press changes the state exactly when it is Enter without Shift on a non-blank input while no reply is awaited, and then it acts as a send |
| InputArea.ExchangeMessagesAgree | src/components/InputArea.tsx:12-41 | the user and assistant messages carry the same model id and the same snapshot; the user content is the text and the reply quotes it |
| InputArea.SendRejected | src/components/InputArea.tsx:11 | with a blank input or a reply pending, a send changes nothing |
| InputArea.SendAccepted | src/components/InputArea.tsx:11-27 | an accepted send appends exactly one user message holding the trimmed, non-empty input and the model id, empties the buffer and sets busy |
| InputArea.SendKeepsStates | src/components/InputArea.tsx:10-27 | a send keeps the machine in Idle or Awaiting; from Idle with non-blank input it moves to Awaiting; while Awaiting it is rejected |
| InputArea.CompleteKeepsStates | src/components/InputArea.tsx:30-45 | completion takes Awaiting to Idle and leaves Idle alone |
| InputArea.FullExchange | src/components/InputArea.tsx:10-45 | from Idle with non-blank input, send then completion grows the history by two (user, then assistant), with equal model ids and snapshots, and ends Idle with an empty buffer |
| InputArea.ChatInput.constructor | src/components/InputArea.tsx:7 | the buffer starts empty and no reply is scheduled |
| InputArea.ChatInput.SetInputValue | src/components/InputArea.tsx:61-67 | typing replaces the buffer, except while busy, when the textarea is disabled |
| InputArea.ChatInput.HandleSend | src/components/InputArea.tsx:10-47 | the send is accepted exactly when the trimmed input is non-empty and the store is not busy; the new state is the send transition of the old |
| InputArea.ChatInput.Complete | src/components/InputArea.tsx:30-45 | fires exactly when a reply is scheduled; the new state is the completion transition of the old |
| InputArea.ChatInput.HandleKeyPress | src/components/InputArea.tsx:49-54 | a message is sent exactly when the key is Enter without Shift, the input is not blank and the store is not busy; the new state is the key-press transition of the old |
| ParametersPanel.Defaults | src/components/ParametersPanel.tsx:8-14 | temperature 0.7, max tokens 1000, top-p 0.9, both penalties 0 |
| ParametersPanel.WithParameter | src/components/ParametersPanel.tsx:16-21 | the named field becomes the value verbatim, with no clamping, and the other four fields are unchanged |
| ParametersPanel.WriteCurrentValue | src/components/ParametersPanel.tsx:16-21 | writing a field's current value leaves the record unchanged |
| ParametersPanel.LaterWriteWins | src/components/ParametersPanel.tsx:16-21 | of two writes to the same field, the later one wins |
| ParametersPanel.WritesCommute | src/components/ParametersPanel.tsx:16-21 | writes to different fields commute |
| ParametersPanel.SliderFor | src/components/ParametersPanel.tsx:63-177 | the range input offered for a field writes that field, with range temperature [0,2], max tokens [100, the model's ceiling], top-p [0,1] and both penalties [-2,2] |
| ParametersPanel.Controls | src/components/ParametersPanel.tsx:33-42 | no sliders without a selected model; otherwise one slider per field, in display order, with that field's bounds |
| ParametersPanel.SliderValuesInBounds | src/components/ParametersPanel.tsx:63-177 | a value a rendered slider delivers lies within the range offered for its field under the selected model |
| ParametersPanel.Panel.constructor | src/components/ParametersPanel.tsx:8-14 | the record starts at the defaults |
| ParametersPanel.Panel.HandleParameterChange | src/components/ParametersPanel.tsx:16-21 | the new record is the old one with the one field written |
| ParametersPanel.Panel.OnSliderInput | src/components/ParametersPanel.tsx:63-177 | a slider write stores its value, and the value is within that slider's bounds for the current model |
| ParametersPanel.Panel.ResetToDefaults | src/components/ParametersPanel.tsx:23-31 | the record becomes the defaults whatever it was, so a reset is idempotent and equals the initial record; its button exists only while a model is selected (lines 33-42, 187-197) |
| ParametersPanel.SwitchModel | src/components/ParametersPanel.tsx:7-14 | switching the model leaves all five parameters unchanged |
| ParametersPanel.CeilingCanBeExceeded | src/components/ParametersPanel.tsx:90-96 | a value chosen under one model's ceiling stays after a switch to a model with a lower ceiling, so max tokens ends above the selected model's ceiling |
| ParametersPanel.SeededCeilingCanBeExceeded | src/components/ParametersPanel.tsx:90-96 | on the seeded store, 8000 tokens written under GPT-4 stay after switching to the custom model, ending above its ceiling of 2048 |
| PromptEditor.FindTemplate | src/components/PromptEditor.tsx:50 | the first template with the id, or none exactly when no template has that id |
| PromptEditor.SelectTemplate | src/components/PromptEditor.tsx:12-15 | the template becomes the selection and its content the text; Save and Clear are enabled exactly when that content is not all whitespace |
| PromptEditor.ClearPrompt | src/components/PromptEditor.tsx:25-28 | no template is selected and Save and Clear are disabled afterwards; the dialog and its name are untouched |
| PromptEditor.SelectChange | src/components/PromptEditor.tsx:49-57 | the dialog is untouched; a template ends selected exactly when one has the id, with its content as text, and otherwise the text is empty |
| PromptEditor.SavePrompt | src/components/PromptEditor.tsx:17-23 | the prompt text and selection are kept, the dialog's Save is disabled afterwards, and a dialog still open means nothing changed |
| PromptEditor.SelectTemplateLoadsContent | src/components/PromptEditor.tsx:12-15 | selecting a template sets the selection and loads exactly its content, and leaves the dialog alone |
| PromptEditor.ClearPromptIdempotent | src/components/PromptEditor.tsx:25-28 | clearing is idempotent and leaves Save and Clear disabled |
| PromptEditor.SelectChangeCases | src/components/PromptEditor.tsx:49-57 | a known id acts as selecting its template; an unknown id acts as clearing |
| PromptEditor.EmptyOptionClears | src/components/PromptEditor.tsx:60 | with the seeded catalog, the empty option clears the text and the selection |
| PromptEditor.SavePromptCases | src/components/PromptEditor.tsx:17-23 | a non-blank name is emptied and the dialog closes; a blank name changes nothing; saving is idempotent and keeps the text |
| PromptEditor.Editor.constructor | src/components/PromptEditor.tsx:8-10 | empty text and name, dialog closed |
| PromptEditor.Editor.HandleTemplateSelect | src/components/PromptEditor.tsx:12-15 | the new state is the template-selection transition of the old |
| PromptEditor.Editor.HandleClearPrompt | src/components/PromptEditor.tsx:25-28 | the new state is the clear transition of the old |
| PromptEditor.Editor.HandleSelectChange | src/components/PromptEditor.tsx:49-57 | the selected option is looked up in the store's catalog, and the matching transition is applied |
| PromptEditor.Editor.SetPromptText | src/components/PromptEditor.tsx:72 | the text is replaced verbatim and the template selection is not written |
| PromptEditor.Editor.SetCustomPromptName | src/components/PromptEditor.tsx:111 | the name is replaced verbatim |
| PromptEditor.Editor.ClickSavePrompt | src/components/PromptEditor.tsx:80-84 | the dialog opens exactly when the text is not blank |
| PromptEditor.Editor.ClickClear | src/components/PromptEditor.tsx:90-94 | clears exactly when the text is not blank, and otherwise changes nothing |
| PromptEditor.Editor.CancelSave | src/components/PromptEditor.tsx:115-119 | the dialog closes |
| PromptEditor.Editor.HandleSavePrompt | src/components/PromptEditor.tsx:17-23 | succeeds exactly when the dialog's Save is enabled (the name is not blank); the new state is the save transition of the old |

## Left out

- Rendering, styling and layout are not modelled. This covers the page and its sidebar toggle, the header, the theme toggle and its theme context.
- The model picker's open/close state and its document listener are not modelled. Its one state effect is `SetSelectedModel`.
- Copying a message to the clipboard and downloading it as JSON are not modelled. Both are browser I/O.
- The chat view's "Clear Chat" button is not modelled. It reloads the page instead of calling `clearChat`.
- The chat view's scroll effect is not modelled.
- The 1000 ms timer delay is not modelled. A scheduled reply is the separate step `Complete`, and replies fire in the order they were scheduled.
- React's asynchronous state batching is not modelled. Every handler is one atomic step, so the window in which a second submit could pass the busy check before a re-render is not modelled. The deferred reply does use the text and model captured at submit time (`PendingReply`).
- Message ids and timestamps come from the wall clock in the source. Here they are caller-supplied parameters, and their uniqueness is not claimed.
- The `alert` in `handleSavePrompt` has no state effect and is left out.
- The `parseFloat`/`parseInt` of slider strings and the locale formatting of numbers and times are left out.
- `preventDefault` on Enter is left out. It only stops the browser from inserting a newline.
- Numbers are modelled as mathematical reals and integers. NaN and floating-point rounding are not modelled, so the `||` fallbacks treat only zero as falsy.
- ParametersPanel.Panel.OnSliderInput: snapping to the slider's `step` is not modelled, only the `min`/`max` bounds.
- Text.Trim works on Unicode scalar values, while JavaScript works on UTF-16 code units. No whitespace character is a surrogate, so the results agree.

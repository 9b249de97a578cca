# Selector widgets of the chat input, and the webview-to-host envelope

This project models two dropdown widgets of the webview's chat input:

- the **prompt selector**, at `webview-ui/src/components/chat/SystemPromptPicker.tsx`;
- the **model selector**, at `webview-ui/src/components/chat/ModelPicker.tsx`.

It also models the two records they depend on. One is the message envelope the
webview posts to the extension host (`src/shared/WebviewMessage.ts`). The other
is the system-prompt record (`src/shared/SystemPrompt.ts`).

Each widget is a Dafny `class` with the source component's state:

- `isOpen`, the `useState` flag;
- `listenerRegistered`, whether the document-level `mousedown` listener is installed;
- `trace`, the record of everything the widget has done so far, in order.

Each entry of the record is one of three effects. `Post(msg)` is a `vscode.postMessage`
call. `SetOpen(b)` is a `setIsOpen` call. `Report(name)` is a call of the caller's
`onSelect` / `onModelSelect` callback. Each event handler of the component
becomes a method. The method appends exactly the effects the handler performs,
in the handler's own order, and its contract states the resulting record.

Projections read the record:

- `Outbox`: the messages sent;
- `Reports`: the callback arguments;
- `OpenAfter`: the open state the setter calls leave behind;
- `Opens`: how many times the widget opened.

Each class keeps an invariant (`Valid`) over its whole record:

- **Prompt selector.** The open flag is what the last setter call made it. Only
  three messages are ever sent: the prompt-list request, the "Edit role" file
  request, and an `updateSystemPrompt` carrying a whole record. Exactly one
  prompt-list request is sent per transition to open. The names reported to the
  caller are exactly the names of the records sent to the host, in the same order.
- **Model selector.** The open flag is what the last setter call made it. Nothing
  is ever posted to the host. Only names of listed options are reported.

The dropdown's rows (`Dropdown.Rows`) exist only while the widget is open. They are the
options in order, then a divider, then the trailing action row. A click on a row
(`ClickRow`) is therefore possible only while open. The click dispatches on the
row's kind, as the rendered `onClick` handlers do.

The envelope's `type` union becomes a 25-constructor datatype. Its wire strings
parse back to it (`ParseTag`, `TagRoundTrip`). `type` and `bool` are Dafny
keywords, so those fields are named `tag` and `flag`.

## Model

| member | source | states |
|---|---|---|
| WebviewMessages.ParseTag | src/shared/WebviewMessage.ts:6-31 | a wire string is accepted only as the tag whose literal it is |
| WebviewMessages.TagRoundTrip | src/shared/WebviewMessage.ts:6-31 | every tag's literal parses back to that tag |
| WebviewMessages.TagNameInjective | src/shared/WebviewMessage.ts:6-31 | two tags have the same literal if and only if they are the same tag |
| WebviewMessages.AllTagsComplete | src/shared/WebviewMessage.ts:6-31 | the union has exactly 25 members; the tag list contains every tag, each once |
| WebviewMessages.PromptSelectorTagsInUnion | src/shared/WebviewMessage.ts:23-31 | "openFile", "loadSystemPrompts" and "updateSystemPrompt", the strings the prompt selector sends, are members of the union |
| WebviewMessages.ParseAskResponse | src/shared/WebviewMessage.ts:41 | a string is accepted as an answer only if it is that answer's literal |
| WebviewMessages.AskResponseRoundTrip | src/shared/WebviewMessage.ts:41 | each of the three answers parses back from its literal |
| SystemPrompts.ClineSystemPromptFields | src/shared/SystemPrompt.ts:7-11 | the built-in default prompt has identity and display name "cline" and body "default" |
| Dropdown.OutboxMembers | webview-ui/src/components/chat/SystemPromptPicker.tsx:35-37 | a message counts as sent if and only if the record holds a post of it |
| Dropdown.OutboxAppend | webview-ui/src/components/chat/SystemPromptPicker.tsx:31-47 | the messages sent over two consecutive runs are those of the first run followed by those of the second |
| Dropdown.ReportsAppend | webview-ui/src/components/chat/SystemPromptPicker.tsx:64-71 | callback calls over two consecutive runs are concatenated, never reordered |
| Dropdown.OpenAfterAppend | webview-ui/src/components/chat/SystemPromptPicker.tsx:13 | the open state after two runs is what the second run makes of the state the first left; the last setter call wins |
| Dropdown.Rows | webview-ui/src/components/chat/SystemPromptPicker.tsx:59-81 | nothing is rendered while closed; while open, the rows are the options in order, then the divider, then the action row, and an empty option list gives those two rows alone |
| Dropdown.Dismisses | webview-ui/src/components/chat/SystemPromptPicker.tsx:20-21 | an outside press dismisses exactly when the dropdown is mounted and the target is in neither the dropdown nor the button: never while unmounted, never for a press inside either element |
| SystemPromptPicker.LoadPromptsMessage | webview-ui/src/components/chat/SystemPromptPicker.tsx:35-37 | the list request goes out under the wire string "loadSystemPrompts" and carries no payload |
| SystemPromptPicker.EditRoleMessage | webview-ui/src/components/chat/SystemPromptPicker.tsx:42-45 | the file request goes out under the wire string "openFile", and its only payload is the text "{SystemPromptFile}" |
| SystemPromptPicker.UpdatePromptMessage | webview-ui/src/components/chat/SystemPromptPicker.tsx:65-68 | the update goes out under the wire string "updateSystemPrompt", and its only payload is the chosen record, unchanged |
| SystemPromptPicker.SentPayloads | webview-ui/src/components/chat/SystemPromptPicker.tsx:31-71 | in every reachable state, each sent message is a list request with no payload, a file request carrying only the locator, or an update carrying only a record |
| SystemPromptPicker.OpenStep | webview-ui/src/components/chat/SystemPromptPicker.tsx:31-39 | opening a closed widget and then requesting the list keeps the invariant and sends exactly the list request |
| SystemPromptPicker.CloseStep | webview-ui/src/components/chat/SystemPromptPicker.tsx:22 | a bare close keeps the invariant and sends and reports nothing |
| SystemPromptPicker.EditRoleStep | webview-ui/src/components/chat/SystemPromptPicker.tsx:41-47 | the file request followed by a close keeps the invariant, adds that one message and reports nothing |
| SystemPromptPicker.SelectStep | webview-ui/src/components/chat/SystemPromptPicker.tsx:64-71 | sending a record, closing and then reporting its name keeps the invariant, in particular that reported names match the sent records |
| SystemPromptPicker.SelectEffects | webview-ui/src/components/chat/SystemPromptPicker.tsx:64-71 | choosing a record adds exactly the update message carrying it and exactly its name to the callback arguments |
| SystemPromptPicker.SystemPromptPicker.constructor | webview-ui/src/components/chat/SystemPromptPicker.tsx:13 | the widget starts closed, with no listener and no effects |
| SystemPromptPicker.SystemPromptPicker.Mount | webview-ui/src/components/chat/SystemPromptPicker.tsx:26 | mounting installs the listener whatever the open state, and has no other effect |
| SystemPromptPicker.SystemPromptPicker.Unmount | webview-ui/src/components/chat/SystemPromptPicker.tsx:27 | the cleanup removes the listener, and has no other effect |
| SystemPromptPicker.SystemPromptPicker.Toggle | webview-ui/src/components/chat/SystemPromptPicker.tsx:31-39 | the flag flips; the list is requested after the flip and only when the flip opens the widget; nothing is reported |
| SystemPromptPicker.SystemPromptPicker.EditRole | webview-ui/src/components/chat/SystemPromptPicker.tsx:41-47 | sends `openFile` with the prompt-file locator, then closes; the caller hears nothing |
| SystemPromptPicker.SystemPromptPicker.Select | webview-ui/src/components/chat/SystemPromptPicker.tsx:64-71 | sends the record unchanged, closes, then reports its name, in that order |
| SystemPromptPicker.SystemPromptPicker.MouseDown | webview-ui/src/components/chat/SystemPromptPicker.tsx:19-24 | with the listener installed, a press outside both the open dropdown and the button closes the widget; otherwise nothing happens, and a closed widget is never affected |
| SystemPromptPicker.SystemPromptPicker.ClickRow | webview-ui/src/components/chat/SystemPromptPicker.tsx:59-81 | a row can be clicked only while open; an option row selects that option, the divider does nothing, and the last row edits the role |
| ModelPicker.Models | webview-ui/src/components/chat/ModelPicker.tsx:20-26 | five options with pairwise distinct ids; only the last carries a status, "Missing API key"; the first and the last share the name "Claude 3.5 Sonnet" |
| ModelPicker.Step | webview-ui/src/components/chat/ModelPicker.tsx:28-58 | an effect that posts nothing and reports only a listed name keeps the invariant; nothing has been sent |
| ModelPicker.NoPostsEmptyOutbox | webview-ui/src/components/chat/ModelPicker.tsx:15-73 | a record without posts has sent no message |
| ModelPicker.ModelPicker.constructor | webview-ui/src/components/chat/ModelPicker.tsx:16 | the widget starts closed, with no listener and no effects |
| ModelPicker.ModelPicker.Mount | webview-ui/src/components/chat/ModelPicker.tsx:36 | mounting installs the listener and has no other effect |
| ModelPicker.ModelPicker.Unmount | webview-ui/src/components/chat/ModelPicker.tsx:37 | the cleanup removes the listener and has no other effect |
| ModelPicker.ModelPicker.Toggle | webview-ui/src/components/chat/ModelPicker.tsx:42 | the flag flips and nothing else happens |
| ModelPicker.ModelPicker.Select | webview-ui/src/components/chat/ModelPicker.tsx:55-58 | reports the option's name and then closes; its status does not block the choice, and nothing is sent to the host |
| ModelPicker.ModelPicker.MouseDown | webview-ui/src/components/chat/ModelPicker.tsx:29-34 | with the listener installed, a press outside both the open dropdown and the button closes the widget; otherwise nothing happens, and a closed widget is never affected |
| ModelPicker.ModelPicker.ClickRow | webview-ui/src/components/chat/ModelPicker.tsx:50-70 | a row can be clicked only while open; an option row selects that option, while the divider and "Add Chat model" rows do nothing |

## Left out

- Rendering: the JSX layout, the styled components and their CSS, the chevron direction, and the button's display of `selectedPrompt` / `selectedModel` are not modelled. Neither is the display of an option's status text. `Rows` keeps only the row kinds and their order.
- DOM events: a mouse press is given as two booleans, whether the target lies inside the dropdown and whether it lies inside the button. `Node.contains` is not modelled.
- React scheduling: each `setIsOpen` takes effect at once. A press that arrives after the state update but before the re-render, while the dropdown element is still mounted, is not modelled.
- Transport: `vscode.postMessage` is an append to the effect record. Delivery, ordering at the host and the host's handling of each message are not part of this model.
- The prompt list: `useExtensionState()` (webview-ui/src/context/ExtensionStateContext.tsx) is not part of this model. The prompt selector's current list is a parameter of `ClickRow`. That list may be empty, and it may change between calls.
- `ApiConfiguration` and `AutoApprovalSettings` come from files that are not part of this model. Both are opaque types that the envelope carries.
- The listener is not scoped to the open state. Both components install it once at mount, with an empty dependency list, and remove it at unmount. While the widget is closed, the listener finds no dropdown element and does nothing. `MouseDown` states exactly that.
- `CLINE_SYSTEM_PROMPT` (`SystemPrompts.ClineSystemPrompt`) is declared as a constant. None of the modelled widgets uses it.

/**
 * The system-prompt selector (webview-ui/src/components/chat/SystemPromptPicker.tsx).
 *
 * A dropdown whose open state is one boolean. Opening it asks the host for a
 * fresh prompt list; choosing a prompt sends the whole record to the host,
 * closes the dropdown and reports the prompt's name to the caller; the
 * trailing "Edit role" row asks the host to open the prompt file. The prompt
 * list itself comes from the extension state and is a parameter here.
 */
module SystemPromptPicker {

  import opened Wrappers
  import opened SystemPrompts
  import opened WebviewMessages
  import opened Dropdown

  /** The caption of the trailing action row. */
  const EditRoleCaption: string := "Edit role"

  /** The resource locator the host resolves to the editable prompt file. */
  const SystemPromptFileLocator: string := "{SystemPromptFile}"

  /** `{type: "loadSystemPrompts"}`: sent when the dropdown opens; it carries no payload. */
  function LoadPromptsMessage(): (m: WebviewMessage)
    ensures TagName(m.tag) == "loadSystemPrompts"
    ensures m.text.None? && m.systemPrompt.None? && NoOtherPayload(m)
  {
    Message(LoadSystemPrompts)
  }

  /** `{type: "openFile", text: "{SystemPromptFile}"}`: sent by "Edit role"; the locator is its only payload. */
  function EditRoleMessage(): (m: WebviewMessage)
    ensures TagName(m.tag) == "openFile"
    ensures m.text == Some("{SystemPromptFile}") && m.systemPrompt.None? && NoOtherPayload(m)
  {
    WebviewMessage(OpenFile, Some(SystemPromptFileLocator), None, None, None, None, None, None)
  }

  /** `{type: "updateSystemPrompt", systemPrompt: entry}`: sent when `entry` is chosen; the record is its only payload. */
  function UpdatePromptMessage(entry: SystemPrompt): (m: WebviewMessage)
    ensures TagName(m.tag) == "updateSystemPrompt"
    ensures m.systemPrompt == Some(entry) && m.text.None? && NoOtherPayload(m)
  {
    WebviewMessage(UpdateSystemPrompt, None, None, None, None, None, None, Some(entry))
  }

  /** The only messages this widget ever sends. */
  ghost predicate Sendable(m: WebviewMessage)
  {
    || m == LoadPromptsMessage()
    || m == EditRoleMessage()
    || (m.systemPrompt.Some? && m == UpdatePromptMessage(m.systemPrompt.value))
  }

  /** The number of prompt-list requests posted. */
  function Loads(trace: seq<Effect>): nat
  {
    if trace == [] then 0
    else
      var last := trace[|trace| - 1];
      Loads(trace[..|trace| - 1]) + if last.Post? && last.msg.tag == LoadSystemPrompts then 1 else 0
  }

  /** The names of the prompt records posted in `updateSystemPrompt` messages, in posting order. */
  function SentNames(trace: seq<Effect>): seq<string>
  {
    if trace == [] then []
    else
      var last := trace[|trace| - 1];
      SentNames(trace[..|trace| - 1])
      + if last.Post? && last.msg.tag == UpdateSystemPrompt && last.msg.systemPrompt.Some?
        then [last.msg.systemPrompt.value.name] else []
  }

  /** The state invariant the widget keeps over its whole effect record. */
  ghost predicate Consistent(isOpen: bool, trace: seq<Effect>)
  {
    // the open flag is what the last setIsOpen call made it
    && isOpen == OpenAfter(trace, false)
    // only the three messages above are ever sent
    && (forall e :: e in trace && e.Post? ==> Sendable(e.msg))
    // one prompt-list request per transition to open, and none otherwise
    && Loads(trace) == Opens(trace)
    // every name reported to the caller is that of a record sent to the host, in the same order
    && Reports(trace) == SentNames(trace)
  }

  /**
   * What one more effect does to the two counts only this widget keeps;
   * `Snoc` gives the other projections.
   */
  lemma Step(trace: seq<Effect>, e: Effect)
    ensures Loads(trace + [e]) == Loads(trace) + if e.Post? && e.msg.tag == LoadSystemPrompts then 1 else 0
    ensures SentNames(trace + [e])
         == SentNames(trace)
            + if e.Post? && e.msg.tag == UpdateSystemPrompt && e.msg.systemPrompt.Some?
              then [e.msg.systemPrompt.value.name] else []
  {
    assert (trace + [e])[..|trace|] == trace;
  }

  /** Opening: set open, then request the prompt list. */
  lemma OpenStep(trace: seq<Effect>)
    requires Consistent(false, trace)
    ensures Consistent(true, trace + [SetOpen(true)] + [Post(LoadPromptsMessage())])
    ensures Outbox(trace + [SetOpen(true)] + [Post(LoadPromptsMessage())]) == Outbox(trace) + [LoadPromptsMessage()]
    ensures Reports(trace + [SetOpen(true)] + [Post(LoadPromptsMessage())]) == Reports(trace)
  {
    Snoc(trace, SetOpen(true), false);
    Step(trace, SetOpen(true));
    Snoc(trace + [SetOpen(true)], Post(LoadPromptsMessage()), false);
    Step(trace + [SetOpen(true)], Post(LoadPromptsMessage()));
  }

  /** Closing without any other effect, from either state. */
  lemma CloseStep(isOpen: bool, trace: seq<Effect>)
    requires Consistent(isOpen, trace)
    ensures Consistent(false, trace + [SetOpen(false)])
    ensures Outbox(trace + [SetOpen(false)]) == Outbox(trace)
    ensures Reports(trace + [SetOpen(false)]) == Reports(trace)
  {
    Snoc(trace, SetOpen(false), false);
    Step(trace, SetOpen(false));
  }

  /** "Edit role": request the prompt file, then close. */
  lemma EditRoleStep(isOpen: bool, trace: seq<Effect>)
    requires Consistent(isOpen, trace)
    ensures Consistent(false, trace + [Post(EditRoleMessage())] + [SetOpen(false)])
    ensures Outbox(trace + [Post(EditRoleMessage())] + [SetOpen(false)]) == Outbox(trace) + [EditRoleMessage()]
    ensures Reports(trace + [Post(EditRoleMessage())] + [SetOpen(false)]) == Reports(trace)
  {
    Snoc(trace, Post(EditRoleMessage()), false);
    Step(trace, Post(EditRoleMessage()));
    Snoc(trace + [Post(EditRoleMessage())], SetOpen(false), false);
    Step(trace + [Post(EditRoleMessage())], SetOpen(false));
  }

  /** Choosing `entry`: send the record, close, then report the name. */
  lemma SelectStep(isOpen: bool, trace: seq<Effect>, entry: SystemPrompt)
    requires Consistent(isOpen, trace)
    ensures Consistent(false, trace + [Post(UpdatePromptMessage(entry))] + [SetOpen(false)] + [Report(entry.name)])
  {
    var t1 := trace + [Post(UpdatePromptMessage(entry))];
    var t2 := t1 + [SetOpen(false)];
    Snoc(trace, Post(UpdatePromptMessage(entry)), false);
    Step(trace, Post(UpdatePromptMessage(entry)));
    Snoc(t1, SetOpen(false), false);
    Step(t1, SetOpen(false));
    Snoc(t2, Report(entry.name), false);
    Step(t2, Report(entry.name));
    var t3 := t2 + [Report(entry.name)];
    assert Loads(t3) == Opens(t3);
    assert Reports(t3) == Reports(trace) + [entry.name] == SentNames(t3);
    assert forall e :: e in t3 && e.Post? ==> Sendable(e.msg) by {
      assert Sendable(UpdatePromptMessage(entry));
      assert forall e :: e in t3 ==> e in trace || e == Post(UpdatePromptMessage(entry)) || !e.Post?;
    }
  }

  /** What choosing `entry` adds to the host channel and to the callback's arguments. */
  lemma SelectEffects(trace: seq<Effect>, entry: SystemPrompt)
    ensures var t := trace + [Post(UpdatePromptMessage(entry))] + [SetOpen(false)] + [Report(entry.name)];
            && Outbox(t) == Outbox(trace) + [UpdatePromptMessage(entry)]
            && Reports(t) == Reports(trace) + [entry.name]
  {
    var t1 := trace + [Post(UpdatePromptMessage(entry))];
    var t2 := t1 + [SetOpen(false)];
    Snoc(trace, Post(UpdatePromptMessage(entry)), false);
    Snoc(t1, SetOpen(false), false);
    Snoc(t2, Report(entry.name), false);
  }

  /**
   * The payload a message of this widget carries fits its kind: a list
   * request carries nothing, a file request only the prompt-file locator, an
   * update only the chosen record.
   */
  predicate PayloadFitsKind(m: WebviewMessage)
  {
    && NoOtherPayload(m)
    && match m.tag
       case LoadSystemPrompts => m.text.None? && m.systemPrompt.None?
       case OpenFile => m.text == Some(SystemPromptFileLocator) && m.systemPrompt.None?
       case UpdateSystemPrompt => m.text.None? && m.systemPrompt.Some?
       case _ => false
  }

  /** Every message the widget has sent is one of its three kinds, carrying exactly that kind's payload. */
  lemma SentPayloads(isOpen: bool, trace: seq<Effect>)
    requires Consistent(isOpen, trace)
    ensures forall m :: m in Outbox(trace) ==> PayloadFitsKind(m)
  {
    forall m | m in Outbox(trace)
      ensures PayloadFitsKind(m)
    {
      OutboxMembers(trace, m);
    }
  }

  class SystemPromptPicker {
    var isOpen: bool
    /** Whether the document-level mousedown listener is installed. */
    var listenerRegistered: bool
    /** Every effect the widget has performed, oldest first. */
    var trace: seq<Effect>

    ghost predicate Valid()
      reads this
    {
      Consistent(isOpen, trace)
    }

    /** First render: `useState(false)`; the listener is installed by `Mount`. */
    constructor ()
      ensures Valid()
      ensures !isOpen && !listenerRegistered && trace == []
    {
      isOpen := false;
      listenerRegistered := false;
      trace := [];
    }

    /** The mount effect (empty dependency list): installs the listener, whatever the open state. */
    method Mount()
      requires Valid()
      modifies this
      ensures Valid()
      ensures listenerRegistered
      ensures isOpen == old(isOpen) && trace == old(trace)
    {
      listenerRegistered := true;
    }

    /** The effect's cleanup at unmount: removes the listener. */
    method Unmount()
      requires Valid()
      modifies this
      ensures Valid()
      ensures !listenerRegistered
      ensures isOpen == old(isOpen) && trace == old(trace)
    {
      listenerRegistered := false;
    }

    /** `handleToggleOpen`: flips the state and, only when it opens, requests the prompt list. */
    method Toggle()
      requires Valid()
      modifies this
      ensures Valid()
      ensures isOpen == !old(isOpen)
      ensures listenerRegistered == old(listenerRegistered)
      ensures trace == if isOpen then old(trace) + [SetOpen(true)] + [Post(LoadPromptsMessage())] else old(trace) + [SetOpen(false)]
      ensures Outbox(trace) == old(Outbox(trace)) + if isOpen then [LoadPromptsMessage()] else []
      ensures Reports(trace) == old(Reports(trace))
    {
      var newIsOpen := !isOpen;
      if newIsOpen { OpenStep(trace); } else { CloseStep(isOpen, trace); }
      isOpen := newIsOpen;
      trace := trace + [SetOpen(newIsOpen)];
      if newIsOpen {
        trace := trace + [Post(LoadPromptsMessage())];
      }
    }

    /** `handleEditRole`: asks the host to open the prompt file and closes; the caller hears nothing. */
    method EditRole()
      requires Valid()
      modifies this
      ensures Valid()
      ensures !isOpen
      ensures listenerRegistered == old(listenerRegistered)
      ensures trace == old(trace) + [Post(EditRoleMessage())] + [SetOpen(false)]
      ensures Outbox(trace) == old(Outbox(trace)) + [EditRoleMessage()]
      ensures Reports(trace) == old(Reports(trace))
    {
      EditRoleStep(isOpen, trace);
      trace := trace + [Post(EditRoleMessage())];
      isOpen := false;
      trace := trace + [SetOpen(false)];
    }

    /**
     * The `onClick` of the row for `entry`: sends the record unchanged, then
     * closes, then reports the record's name, in that order.
     */
    method Select(entry: SystemPrompt)
      requires Valid()
      modifies this
      ensures Valid()
      ensures !isOpen
      ensures listenerRegistered == old(listenerRegistered)
      ensures trace == old(trace) + [Post(UpdatePromptMessage(entry))] + [SetOpen(false)] + [Report(entry.name)]
      ensures Outbox(trace) == old(Outbox(trace)) + [UpdatePromptMessage(entry)]
      ensures Reports(trace) == old(Reports(trace)) + [entry.name]
    {
      SelectStep(isOpen, trace, entry);
      SelectEffects(trace, entry);
      trace := trace + [Post(UpdatePromptMessage(entry))];
      isOpen := false;
      trace := trace + [SetOpen(false)];
      trace := trace + [Report(entry.name)];
    }

    /**
     * `handleClickOutside`, reached only through the installed listener: it
     * closes the dropdown when the dropdown element is mounted (that is,
     * while open) and the target is in neither the dropdown nor the button.
     * It never sends a message, and on a closed widget it has no effect.
     */
    method MouseDown(inDropdown: bool, inButton: bool)
      requires Valid()
      modifies this
      ensures Valid()
      ensures listenerRegistered == old(listenerRegistered)
      ensures if listenerRegistered && Dismisses(old(isOpen), inDropdown, inButton)
              then !isOpen && trace == old(trace) + [SetOpen(false)]
              else isOpen == old(isOpen) && trace == old(trace)
      ensures !old(isOpen) ==> isOpen == old(isOpen) && trace == old(trace)
      ensures Outbox(trace) == old(Outbox(trace))
      ensures Reports(trace) == old(Reports(trace))
    {
      if listenerRegistered && Dismisses(isOpen, inDropdown, inButton) {
        CloseStep(isOpen, trace);
        isOpen := false;
        trace := trace + [SetOpen(false)];
      }
    }

    /**
     * A click on row `i` of what the dropdown renders for `systemPrompts`.
     * Rows exist only while open; the divider has no handler.
     */
    method ClickRow(systemPrompts: seq<SystemPrompt>, i: nat)
      requires Valid()
      requires i < |Rows(isOpen, systemPrompts, EditRoleCaption)|
      modifies this
      ensures Valid()
      ensures old(isOpen)
      ensures listenerRegistered == old(listenerRegistered)
      ensures i < |systemPrompts| ==>
                && !isOpen
                && trace == old(trace) + [Post(UpdatePromptMessage(systemPrompts[i]))] + [SetOpen(false)] + [Report(systemPrompts[i].name)]
                && Outbox(trace) == old(Outbox(trace)) + [UpdatePromptMessage(systemPrompts[i])]
                && Reports(trace) == old(Reports(trace)) + [systemPrompts[i].name]
      ensures i == |systemPrompts| ==> isOpen && trace == old(trace)
      ensures i == |systemPrompts| + 1 ==>
                && !isOpen
                && trace == old(trace) + [Post(EditRoleMessage())] + [SetOpen(false)]
                && Outbox(trace) == old(Outbox(trace)) + [EditRoleMessage()]
                && Reports(trace) == old(Reports(trace))
    {
      match Rows(isOpen, systemPrompts, EditRoleCaption)[i]
      case Item(entry) => Select(entry);
      case Divider =>
      case Action(_) => EditRole();
    }
  }

  /**
   * The end-to-end run: the list starts empty, opening requests it, the host
   * delivers one prompt, and choosing it reports its name, sends the record
   * and closes.
   */
  method OpenLoadSelect()
  {
    var picker := new SystemPromptPicker();
    picker.Mount();
    assert Rows<SystemPrompt>(picker.isOpen, [], EditRoleCaption) == [];
    picker.Toggle();
    assert picker.isOpen && Outbox(picker.trace) == [LoadPromptsMessage()];
    var delivered := [SystemPrompt("a", "Default", "...")];
    picker.ClickRow(delivered, 0);
    assert !picker.isOpen;
    assert Reports(picker.trace) == ["Default"];
    assert Outbox(picker.trace) == [LoadPromptsMessage(), UpdatePromptMessage(delivered[0])];
  }
}

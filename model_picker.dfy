/**
 * The model selector (webview-ui/src/components/chat/ModelPicker.tsx).
 *
 * The same open/closed dropdown as the prompt selector, over a fixed list of
 * five options. It talks to no one but its caller: choosing an option calls
 * `onModelSelect` with the option's display name and closes; the trailing
 * "Add Chat model" row has no handler; nothing is ever sent to the host.
 */
module ModelPicker {

  import opened Wrappers
  import opened Dropdown

  /** An option: an identity (the row key), a display name, and an optional status note. */
  datatype ModelOption = ModelOption(id: string, name: string, status: Option<string>)

  /** The caption of the trailing row, which has no click handler. */
  const AddModelCaption: string := "Add Chat model"

  /**
   * The static option list, in display order. Its ids are pairwise distinct
   * (they key the rows); exactly one option, the last, carries a status; and
   * the first and the last share a display name under different ids.
   */
  function Models(): (ms: seq<ModelOption>)
    ensures |ms| == 5
    ensures forall i, j :: 0 <= i < j < |ms| ==> ms[i].id != ms[j].id
    ensures forall i :: 0 <= i < |ms| ==> (ms[i].status.Some? <==> i == 4)
    ensures ms[4].status == Some("Missing API key")
    ensures ms[0].name == ms[4].name == "Claude 3.5 Sonnet"
  {
    [ ModelOption("claude-3.5-sonnet", "Claude 3.5 Sonnet", None),
      ModelOption("gpt4o", "GPT-4o", None),
      ModelOption("llama-70b-free", "Llama3.1 70b", None),
      ModelOption("codestral-free", "Codestral", None),
      ModelOption("claude-3-sonnet", "Claude 3.5 Sonnet", Some("Missing API key")) ]
  }

  /** `n` is the display name of one of the options. */
  ghost predicate IsModelName(n: string)
  {
    exists o :: o in Models() && o.name == n
  }

  /** The state invariant the widget keeps over its whole effect record. */
  ghost predicate Consistent(isOpen: bool, trace: seq<Effect>)
  {
    // the open flag is what the last setIsOpen call made it
    && isOpen == OpenAfter(trace, false)
    // nothing is ever posted to the host
    && (forall e :: e in trace ==> !e.Post?)
    // the caller only ever hears names of listed options
    && (forall e :: e in trace && e.Report? ==> IsModelName(e.name))
  }

  /** Appending one effect that posts nothing and reports only an option name keeps the invariant. */
  lemma Step(isOpen: bool, trace: seq<Effect>, e: Effect)
    requires Consistent(isOpen, trace)
    requires !e.Post?
    requires e.Report? ==> IsModelName(e.name)
    ensures Consistent(if e.SetOpen? then e.open else isOpen, trace + [e])
    ensures Outbox(trace + [e]) == Outbox(trace) == []
    ensures Reports(trace + [e]) == Reports(trace) + if e.Report? then [e.name] else []
  {
    Snoc(trace, e, false);
    NoPostsEmptyOutbox(trace);
  }

  /** A record without posts has sent nothing. */
  lemma {:induction false} NoPostsEmptyOutbox(trace: seq<Effect>)
    requires forall e :: e in trace ==> !e.Post?
    ensures Outbox(trace) == []
  {
    if trace != [] {
      var init := trace[..|trace| - 1];
      assert trace[|trace| - 1] in trace;
      assert forall e :: e in init ==> e in trace;
      NoPostsEmptyOutbox(init);
    }
  }

  class ModelPicker {
    var isOpen: bool
    /** Whether the document-level mousedown listener is installed. */
    var listenerRegistered: bool
    /** Every effect the widget has performed, oldest first. */
    var trace: seq<Effect>

    ghost predicate Valid()
      reads this
    {
      Consistent(isOpen, trace)
    }

    /** First render: `useState(false)`; the listener is installed by `Mount`. */
    constructor ()
      ensures Valid()
      ensures !isOpen && !listenerRegistered && trace == []
    {
      isOpen := false;
      listenerRegistered := false;
      trace := [];
    }

    /** The mount effect (empty dependency list): installs the listener, whatever the open state. */
    method Mount()
      requires Valid()
      modifies this
      ensures Valid()
      ensures listenerRegistered
      ensures isOpen == old(isOpen) && trace == old(trace)
    {
      listenerRegistered := true;
    }

    /** The effect's cleanup at unmount: removes the listener. */
    method Unmount()
      requires Valid()
      modifies this
      ensures Valid()
      ensures !listenerRegistered
      ensures isOpen == old(isOpen) && trace == old(trace)
    {
      listenerRegistered := false;
    }

    /** The button's `onClick`: flips the state and sends nothing. */
    method Toggle()
      requires Valid()
      modifies this
      ensures Valid()
      ensures isOpen == !old(isOpen)
      ensures listenerRegistered == old(listenerRegistered)
      ensures trace == old(trace) + [SetOpen(isOpen)]
      ensures Outbox(trace) == []
      ensures Reports(trace) == old(Reports(trace))
    {
      Step(isOpen, trace, SetOpen(!isOpen));
      isOpen, trace := !isOpen, trace + [SetOpen(!isOpen)];
    }

    /**
     * The `onClick` of the row for `option`: reports its display name, then
     * closes. The status note is only displayed; it does not block the choice.
     */
    method Select(option: ModelOption)
      requires Valid()
      requires option in Models()
      modifies this
      ensures Valid()
      ensures !isOpen
      ensures listenerRegistered == old(listenerRegistered)
      ensures trace == old(trace) + [Report(option.name)] + [SetOpen(false)]
      ensures Outbox(trace) == []
      ensures Reports(trace) == old(Reports(trace)) + [option.name]
    {
      Step(isOpen, trace, Report(option.name));
      trace := trace + [Report(option.name)];
      Step(isOpen, trace, SetOpen(false));
      isOpen := false;
      trace := trace + [SetOpen(false)];
    }

    /**
     * `handleClickOutside`, reached only through the installed listener: it
     * closes the dropdown when the dropdown element is mounted (that is,
     * while open) and the target is in neither the dropdown nor the button.
     * An outside click on a closed widget has no effect at all.
     */
    method MouseDown(inDropdown: bool, inButton: bool)
      requires Valid()
      modifies this
      ensures Valid()
      ensures listenerRegistered == old(listenerRegistered)
      ensures if listenerRegistered && Dismisses(old(isOpen), inDropdown, inButton)
              then !isOpen && trace == old(trace) + [SetOpen(false)]
              else isOpen == old(isOpen) && trace == old(trace)
      ensures !old(isOpen) ==> isOpen == old(isOpen) && trace == old(trace)
      ensures Outbox(trace) == []
      ensures Reports(trace) == old(Reports(trace))
    {
      NoPostsEmptyOutbox(trace);
      if listenerRegistered && Dismisses(isOpen, inDropdown, inButton) {
        Step(isOpen, trace, SetOpen(false));
        isOpen := false;
        trace := trace + [SetOpen(false)];
      }
    }

    /**
     * A click on row `i` of what the dropdown renders. Rows exist only while
     * open; the divider and the "Add Chat model" row have no handler.
     */
    method ClickRow(i: nat)
      requires Valid()
      requires i < |Rows(isOpen, Models(), AddModelCaption)|
      modifies this
      ensures Valid()
      ensures old(isOpen)
      ensures listenerRegistered == old(listenerRegistered)
      ensures i < |Models()| ==>
                && !isOpen
                && trace == old(trace) + [Report(Models()[i].name)] + [SetOpen(false)]
                && Reports(trace) == old(Reports(trace)) + [Models()[i].name]
      ensures i >= |Models()| ==> isOpen && trace == old(trace)
      ensures Outbox(trace) == []
    {
      NoPostsEmptyOutbox(trace);
      match Rows(isOpen, Models(), AddModelCaption)[i]
      case Item(option) => Select(option);
      case Divider =>
      case Action(_) =>
    }
  }

  /**
   * Choosing the option whose status says its API key is missing goes
   * through like any other, and reports the name it shares with the first
   * option; no message reaches the host.
   */
  method OpenSelectFlagged()
  {
    var picker := new ModelPicker();
    picker.Mount();
    picker.Toggle();
    assert Rows(picker.isOpen, Models(), AddModelCaption)[4] == Item(Models()[4]);
    picker.ClickRow(4);
    assert Reports(picker.trace) == ["Claude 3.5 Sonnet"];
    assert !picker.isOpen && Outbox(picker.trace) == [];
  }
}

/**
 * What the two selector widgets share: the record of observable effects a
 * widget produces, the functions that read that record, the list of rows an
 * open dropdown renders, and the outside-mousedown test.
 *
 * Each widget's observable behaviour is one sequence of effects, in the
 * order the handlers perform them: a message posted to the extension host,
 * a call of the `setIsOpen` state setter, or a call of the caller-supplied
 * selection callback.
 */
module Dropdown {

  import opened WebviewMessages

  datatype Effect =
    | Post(msg: WebviewMessage)   // vscode.postMessage(msg)
    | SetOpen(open: bool)         // setIsOpen(open)
    | Report(name: string)        // onSelect(name) / onModelSelect(name)

  /** The messages posted to the host, in posting order. */
  function Outbox(trace: seq<Effect>): seq<WebviewMessage>
  {
    if trace == [] then []
    else
      var last := trace[|trace| - 1];
      Outbox(trace[..|trace| - 1]) + if last.Post? then [last.msg] else []
  }

  /** The arguments the selection callback was called with, in calling order. */
  function Reports(trace: seq<Effect>): seq<string>
  {
    if trace == [] then []
    else
      var last := trace[|trace| - 1];
      Reports(trace[..|trace| - 1]) + if last.Report? then [last.name] else []
  }

  /**
   * The open state after the state setter has been called as `trace` says,
   * starting from `init`: the last `setIsOpen` argument wins.
   */
  function OpenAfter(trace: seq<Effect>, init: bool): bool
  {
    if trace == [] then init
    else
      var last := trace[|trace| - 1];
      if last.SetOpen? then last.open else OpenAfter(trace[..|trace| - 1], init)
  }

  /** The number of times the widget was set open. */
  function Opens(trace: seq<Effect>): nat
  {
    if trace == [] then 0
    else Opens(trace[..|trace| - 1]) + if trace[|trace| - 1] == SetOpen(true) then 1 else 0
  }

  /** A message has been sent exactly when the record holds a post of it. */
  lemma {:induction false} OutboxMembers(trace: seq<Effect>, m: WebviewMessage)
    ensures m in Outbox(trace) <==> Post(m) in trace
  {
    if trace != [] {
      var init := trace[..|trace| - 1];
      assert trace == init + [trace[|trace| - 1]];
      OutboxMembers(init, m);
    }
  }

  /** The messages of two consecutive runs of handlers: those of the first, then those of the second. */
  lemma {:induction false} OutboxAppend(a: seq<Effect>, b: seq<Effect>)
    ensures Outbox(a + b) == Outbox(a) + Outbox(b)
  {
    if b == [] {
      assert a + b == a;
    } else {
      assert (a + b)[..|a + b| - 1] == a + b[..|b| - 1];
      OutboxAppend(a, b[..|b| - 1]);
    }
  }

  /** Likewise for the selection callback: its calls in two runs are concatenated, never reordered. */
  lemma {:induction false} ReportsAppend(a: seq<Effect>, b: seq<Effect>)
    ensures Reports(a + b) == Reports(a) + Reports(b)
  {
    if b == [] {
      assert a + b == a;
    } else {
      assert (a + b)[..|a + b| - 1] == a + b[..|b| - 1];
      ReportsAppend(a, b[..|b| - 1]);
    }
  }

  /** Running `a` then `b` leaves the state `b` leaves from where `a` ended. */
  lemma {:induction false} OpenAfterAppend(a: seq<Effect>, b: seq<Effect>, init: bool)
    ensures OpenAfter(a + b, init) == OpenAfter(b, OpenAfter(a, init))
  {
    if b == [] {
      assert a + b == a;
    } else {
      assert (a + b)[..|a + b| - 1] == a + b[..|b| - 1];
      OpenAfterAppend(a, b[..|b| - 1], init);
    }
  }

  /** Appending one effect extends each projection by at most that effect. */
  lemma Snoc(trace: seq<Effect>, e: Effect, init: bool)
    ensures Outbox(trace + [e]) == Outbox(trace) + if e.Post? then [e.msg] else []
    ensures Reports(trace + [e]) == Reports(trace) + if e.Report? then [e.name] else []
    ensures OpenAfter(trace + [e], init) == if e.SetOpen? then e.open else OpenAfter(trace, init)
    ensures Opens(trace + [e]) == Opens(trace) + if e == SetOpen(true) then 1 else 0
  {
    assert (trace + [e])[..|trace|] == trace;
  }

  /** One row of an open dropdown: an option, the divider, or the trailing action row. */
  datatype Row<T> = Item(item: T) | Divider | Action(caption: string)

  /** The option rows, one per option, in option order (the `.map` over the options). */
  function ItemRows<T>(items: seq<T>): (rows: seq<Row<T>>)
    ensures |rows| == |items|
    ensures forall i :: 0 <= i < |items| ==> rows[i] == Item(items[i])
  {
    if items == [] then [] else [Item(items[0])] + ItemRows(items[1..])
  }

  /**
   * What the dropdown renders: nothing while closed; while open, the option
   * rows, then the divider, then the trailing action row. An empty option
   * list is not an error: it yields the divider and the action row alone.
   */
  function Rows<T>(isOpen: bool, items: seq<T>, action: string): (rows: seq<Row<T>>)
    ensures !isOpen ==> rows == []
    ensures isOpen ==> |rows| == |items| + 2
    ensures isOpen ==> forall i :: 0 <= i < |items| ==> rows[i] == Item(items[i])
    ensures isOpen ==> rows[|items|] == Divider && rows[|items| + 1] == Action(action)
  {
    if isOpen then ItemRows(items) + [Divider, Action(action)] else []
  }

  /**
   * The test in `handleClickOutside`: the dropdown element is mounted and the
   * target lies outside it, and outside the toggle button. The dropdown is
   * rendered exactly while open, so callers pass the open state for
   * `dropdownMounted`; the button is rendered unconditionally, so its ref is
   * set whenever the listener runs.
   */
  predicate Dismisses(dropdownMounted: bool, inDropdown: bool, inButton: bool)
    ensures !dropdownMounted ==> !Dismisses(dropdownMounted, inDropdown, inButton)
    ensures inDropdown || inButton ==> !Dismisses(dropdownMounted, inDropdown, inButton)
    ensures dropdownMounted && !inDropdown && !inButton ==> Dismisses(dropdownMounted, inDropdown, inButton)
  {
    dropdownMounted && !inDropdown && !inButton
  }
}

// The view coordinator of tui/tui.go as values: which of the four views is
// active, how one message changes the whole model (mainModel.Update, whose
// receiver is a copy that it returns), and what the screen shows
// (mainModel.View). The class in tui.dfy runs the same steps in place and is
// proved to agree with Step.
module Coordinator {
  import opened Bubbles
  import opened Items
  import opened Pager

  /**
   * sessionState is an unsigned integer. Its named values come from an iota
   * that counts from the first line of the const block, which declares
   * useHighPerformanceRenderer, so they are 1 to 4 and the zero value names
   * no view.
   */
  type SessionState = nat

  const SpinnerView: SessionState := 1
  const ListView: SessionState := 2
  const ChildListView: SessionState := 3
  const ViewportView: SessionState := 4

  /** The named states in the order a tab visits them. */
  const Cycle: seq<SessionState> := [SpinnerView, ListView, ChildListView, ViewportView]

  predicate IsNamed(s: SessionState)
  {
    SpinnerView <= s <= ViewportView
  }

  /** The four widgets; exactly one of them is active in any state. */
  datatype Pane = SpinnerPane | ListPane | ChildListPane | ViewportPane

  /** mainModel */
  datatype Model = Model(
    state: SessionState,
    spinner: Spinner,
    list: List<Item>,
    childList: List<Item>,
    viewport: ViewportModel,
    index: int)

  /** What docStyle.GetFrameSize and lipgloss.Height report during a resize. */
  datatype Measure = Measure(frameWidth: int, frameHeight: int, headerHeight: int, footerHeight: int)

  /** The renderings View borrows from the widgets and from lipgloss. */
  datatype Look = Look(
    doc: string -> string,               // docStyle.Render
    spinnerFrame: Spinner -> string,     // spinner.Model.View
    listFrame: List<Item> -> string,     // list.Model.View
    viewportFrame: Viewport -> string,   // viewport.Model.View
    chrome: Chrome)

  /** The model Update returns, with the command it returns. */
  datatype Outcome = Outcome(model: Model, cmd: Cmd)

  /** The `switch m.state` shared by Update, View and currentFocusedModel: any other value falls to the spinner. */
  function Focus(s: SessionState): (p: Pane)
    ensures p == SpinnerPane <==> s != ListView && s != ChildListView && s != ViewportView
  {
    if s == ListView then ListPane
    else if s == ChildListView then ChildListPane
    else if s == ViewportView then ViewportPane
    else SpinnerPane
  }

  /** switchView: the successor of a state; every other value goes to the spinner. */
  function Switched(s: SessionState): (r: SessionState)
    ensures IsNamed(r)
    ensures r == SpinnerView <==> s != SpinnerView && s != ListView && s != ChildListView
  {
    if s == SpinnerView then ListView
    else if s == ListView then ChildListView
    else if s == ChildListView then ViewportView
    else SpinnerView
  }

  /** The state after n tabs. */
  function Advance(s: SessionState, n: nat): SessionState
    decreases n
  {
    if n == 0 then s else Advance(Switched(s), n - 1)
  }

  /** The pane a tab moves to, in the order of the views. */
  function NextPane(p: Pane): Pane
  {
    match p
    case SpinnerPane => ListPane
    case ListPane => ChildListPane
    case ChildListPane => ViewportPane
    case ViewportPane => SpinnerPane
  }

  /** currentFocusedModel: the name of the active widget. */
  function CurrentFocusedModel(s: SessionState): (name: string)
    ensures name == "list" <==> s == ListView
    ensures name == "childListView" <==> s == ChildListView
    ensures name == "viewportView" <==> s == ViewportView
    ensures name == "spinner" <==> s != ListView && s != ChildListView && s != ViewportView
  {
    match Focus(s)
    case ListPane => "list"
    case ChildListPane => "childListView"
    case ViewportPane => "viewportView"
    case SpinnerPane => "spinner"
  }

  /** Next moves to the following spinner; the wrap at the end of the table is not modelled. */
  function NextIndex(index: int): int
  {
    index + 1
  }

  /** resetSpinner: a new spinner showing entry `index`. */
  function FreshSpinner(index: int): Spinner
  {
    Spinner(index, [])
  }

  /** The Tick command of a spinner. */
  function TickOf(s: Spinner): Cmd
  {
    Tick(s.pick)
  }

  /** initListModel's list: the primary items under the title "list ", not yet sized. */
  function PrimaryList(): List<Item>
  {
    NewList(MainItems, 0, 0).(title := "list ")
  }

  /** initChildListModel's list: the child items under the title "child list", not yet sized. */
  function ChildList(): List<Item>
  {
    NewList(ChildItems, 0, 0).(title := "child list")
  }

  /** NewModel, with the text of the content file given. */
  function NewModel(content: string): (m: Model)
    ensures m.state == ListView && m.index == 0
    ensures m.list.items == MainItems && m.childList.items == m.list.items[..2]
    ensures !m.viewport.ready && m.viewport.content == content
    ensures forall p :: Log(m, p) == []
  {
    Model(ListView, NewSpinner(), PrimaryList(), ChildList(), ViewportModel(ZeroViewport, false, content), 0)
  }

  /** The messages a widget has received. */
  function Log(m: Model, p: Pane): seq<Msg>
  {
    match p
    case SpinnerPane => m.spinner.received
    case ListPane => m.list.received
    case ChildListPane => m.childList.received
    case ViewportPane => m.viewport.mod.received
  }

  /** The model with every widget's message log emptied: all that messages do not reach. */
  function Quiet(m: Model): Model
  {
    m.(spinner := m.spinner.(received := []),
       list := m.list.(received := []),
       childList := m.childList.(received := []),
       viewport := m.viewport.(mod := m.viewport.mod.(received := [])))
  }

  /** The end of Update: hand msg to the active widget and append its command twice. */
  function Forward(m: Model, msg: Msg, cmds: seq<Cmd>): (o: Outcome)
    ensures Quiet(o.model) == Quiet(m)
    ensures forall p :: Log(o.model, p) == Log(m, p) + (if p == Focus(m.state) then [msg] else [])
    ensures o.cmd.Batch? && |o.cmd.cmds| == |cmds| + 2 && o.cmd.cmds[..|cmds|] == cmds
  {
    match Focus(m.state)
    case ListPane =>
      var (l, c) := ListUpdate(m.list, msg);
      Outcome(m.(list := l), Batch(cmds + [c] + [c]))
    case ChildListPane =>
      var (l, c) := ListUpdate(m.childList, msg);
      Outcome(m.(childList := l), Batch(cmds + [c] + [c]))
    case ViewportPane =>
      var (v, c) := ViewportUpdate(m.viewport.mod, msg);
      Outcome(m.(viewport := m.viewport.(mod := v)), Batch(cmds + [c] + [c]))
    case SpinnerPane =>
      var (s, c) := SpinnerUpdate(m.spinner, msg);
      Outcome(m.(spinner := s), Batch(cmds + [c] + [c]))
  }

  /** Update: the model and command after one message. */
  function Step(m: Model, msg: Msg, g: Measure): (o: Outcome)
    ensures msg.Key? && (msg.name == "ctrl+c" || msg.name == "q") ==> o == Outcome(m, Quit)
    ensures !(msg.Key? && (msg.name == "ctrl+c" || msg.name == "q")) ==>
      o.cmd.Batch? &&
      o.model.state == (if msg == Key("tab") then Switched(m.state) else m.state) &&
      o.model.viewport.content == m.viewport.content &&
      (m.viewport.ready || msg.WindowSize? <==> o.model.viewport.ready)
  {
    match msg
    case WindowSize(width, height) =>
      var sized := m.(list := SetSize(m.list, width - g.frameWidth, height - g.frameHeight),
                      childList := SetSize(m.childList, width - g.frameWidth, height - g.frameHeight));
      var r := SetViewportViewSize(sized.viewport, width, height, g.headerHeight, g.headerHeight + g.footerHeight);
      Forward(sized.(viewport := r.viewport), msg, match r.cmd case Some(c) => [c] case None => [])
    case SpinnerTick(_) =>
      var (s, c) := SpinnerUpdate(m.spinner, msg);
      Forward(m.(spinner := s), msg, [c])
    case Key(k) =>
      if k == "ctrl+c" || k == "q" then Outcome(m, Quit)
      else
        var switched := if k == "tab" then m.(state := Switched(m.state)) else m;
        if switched.state == SpinnerView && k == "n" then
          var picked := switched.(index := NextIndex(switched.index));
          var reset := picked.(spinner := FreshSpinner(picked.index));
          Forward(reset, msg, [TickOf(reset.spinner)])
        else
          Forward(switched, msg, [])
    case Other(_) =>
      Forward(m, msg, [])
  }

  /** The model after the runtime has delivered msgs, stopping at the first Quit. */
  function Run(m: Model, msgs: seq<Msg>, g: Measure): Model
    decreases |msgs|
  {
    if msgs == [] then m
    else
      var o := Step(m, msgs[0], g);
      if o.cmd.Quit? then o.model else Run(o.model, msgs[1..], g)
  }

  /** n presses of tab. */
  function Tabs(n: nat): (keys: seq<Msg>)
    ensures |keys| == n
    ensures forall i :: 0 <= i < n ==> keys[i] == Key("tab")
  {
    if n == 0 then [] else [Key("tab")] + Tabs(n - 1)
  }

  /** View: the screen for the active widget only. */
  function View(m: Model, look: Look): string
  {
    match Focus(m.state)
    case ListPane => look.doc(look.listFrame(m.list))
    case ChildListPane => look.doc(look.listFrame(m.childList))
    case ViewportPane =>
      HeaderView(m.viewport.mod, look.chrome) + "\n" + look.viewportFrame(m.viewport.mod) + "\n" +
      FooterView(m.viewport.mod, look.chrome)
    case SpinnerPane => look.doc(look.spinnerFrame(m.spinner))
  }

  /** Two models whose active widget is the same, as far as View can see. */
  predicate SameActive(m1: Model, m2: Model)
  {
    m1.state == m2.state &&
    match Focus(m1.state)
    case ListPane => m1.list == m2.list
    case ChildListPane => m1.childList == m2.childList
    case ViewportPane => m1.viewport.mod == m2.viewport.mod
    case SpinnerPane => m1.spinner == m2.spinner
  }

  // ---------------------------------------------------------------------------
  // The states and the tab cycle

  /** The named states are 1 to 4; the zero value is not one of them. */
  lemma StateNumbering()
    ensures Cycle == [1, 2, 3, 4]
    ensures !IsNamed(0)
    ensures forall s :: IsNamed(s) <==> s in Cycle
  {
  }

  /** A tab moves each named state to the next one in the cycle. */
  lemma SwitchCycle(i: nat)
    requires i < 4
    ensures Switched(Cycle[i]) == Cycle[(i + 1) % 4]
  {
  }

  /** A tab from a value that names no view lands on the spinner. */
  lemma SwitchFromUnnamed(s: SessionState)
    requires !IsNamed(s)
    ensures Switched(s) == SpinnerView
    ensures Focus(s) == SpinnerPane && Focus(Switched(s)) == SpinnerPane
  {
  }

  /** From a named state the active pane follows the pane order; four tabs return. */
  lemma FocusFollowsSwitch(s: SessionState)
    requires IsNamed(s)
    ensures Focus(Switched(s)) == NextPane(Focus(s))
    ensures Switched(Switched(Switched(Switched(s)))) == s
  {
  }

  /** After n tabs from the i-th named state, the state is the (i + n) mod 4-th. */
  lemma {:induction false} AdvanceCycle(i: nat, n: nat)
    requires i < 4
    ensures Advance(Cycle[i], n) == Cycle[(i + n) % 4]
    decreases n
  {
    if n > 0 {
      SwitchCycle(i);
      AdvanceCycle((i + 1) % 4, n - 1);
      assert ((i + 1) % 4 + (n - 1)) % 4 == (i + n) % 4;
    }
  }

  /** Two states have the same focused-model name exactly when they show the same widget. */
  lemma FocusedNameIdentifiesPane(s1: SessionState, s2: SessionState)
    ensures CurrentFocusedModel(s1) == CurrentFocusedModel(s2) <==> Focus(s1) == Focus(s2)
    ensures !IsNamed(s1) ==> CurrentFocusedModel(s1) == "spinner"
  {
  }

  // ---------------------------------------------------------------------------
  // The initial model

  /** NewModel starts on the list view with both lists filled and nothing sized. */
  lemma NewModelStart(content: string)
    ensures var m := NewModel(content);
      m.state == ListView && Focus(m.state) == ListPane &&
      m.list.items == MainItems && |m.list.items| == 5 && m.list.title == "list " &&
      m.list.width == 0 && m.list.height == 0 &&
      m.childList.items == ChildItems && m.childList.items == m.list.items[..2] &&
      m.childList.title == "child list" && m.childList.width == 0 && m.childList.height == 0 &&
      !m.viewport.ready && m.viewport.content == content
  {
  }

  // ---------------------------------------------------------------------------
  // One message

  /** "ctrl+c" and "q" quit in every state, before anything else happens. */
  lemma QuitKeepsModel(m: Model, k: string, g: Measure)
    requires k == "ctrl+c" || k == "q"
    ensures Step(m, Key(k), g) == Outcome(m, Quit)
  {
  }

  /** Every other message is answered with a batch that ends with the active widget's reply, twice. */
  lemma ActiveReplyTwice(m: Model, msg: Msg, g: Measure)
    requires !(msg.Key? && (msg.name == "ctrl+c" || msg.name == "q"))
    ensures var o := Step(m, msg, g);
      o.cmd.Batch? && |o.cmd.cmds| >= 2 &&
      o.cmd.cmds[|o.cmd.cmds| - 1] == o.cmd.cmds[|o.cmd.cmds| - 2] ==
        Reply(match Focus(o.model.state)
              case SpinnerPane => SpinnerKind
              case ListPane => ListKind
              case ChildListPane => ListKind
              case ViewportPane => ViewportKind, msg)
  {
  }

  /** Every message other than a quit key ends up last in the log of the widget active afterwards. */
  lemma StepDeliversToActive(m: Model, msg: Msg, g: Measure)
    requires !(msg.Key? && (msg.name == "ctrl+c" || msg.name == "q"))
    ensures var r := Step(m, msg, g).model;
      |Log(r, Focus(r.state))| > 0 && Log(r, Focus(r.state))[|Log(r, Focus(r.state))| - 1] == msg
  {
  }

  /** Tab switches first; then the tab key reaches the newly active widget and no other. */
  lemma TabForwardsToNewlyActive(m: Model, g: Measure)
    ensures var o := Step(m, Key("tab"), g);
      o.model.state == Switched(m.state) &&
      Quiet(o.model) == Quiet(m).(state := Switched(m.state)) &&
      (forall p :: Log(o.model, p) == Log(m, p) + (if p == Focus(Switched(m.state)) then [Key("tab")] else [])) &&
      o.cmd.Batch? && |o.cmd.cmds| == 2
  {
  }

  /** Any other key leaves the state alone and reaches the active widget only. */
  lemma KeyReachesActiveOnly(m: Model, k: string, g: Measure)
    requires k != "ctrl+c" && k != "q" && k != "tab"
    requires !(m.state == SpinnerView && k == "n")
    ensures var o := Step(m, Key(k), g);
      Quiet(o.model) == Quiet(m) &&
      (forall p :: Log(o.model, p) == Log(m, p) + (if p == Focus(m.state) then [Key(k)] else [])) &&
      o.cmd.Batch? && |o.cmd.cmds| == 2
  {
  }

  /** Any other message (a mouse event, say) keeps the state and reaches the active widget only. */
  lemma OtherReachesActiveOnly(m: Model, tag: int, g: Measure)
    ensures var o := Step(m, Other(tag), g);
      Quiet(o.model) == Quiet(m) &&
      (forall p :: Log(o.model, p) == Log(m, p) + (if p == Focus(m.state) then [Other(tag)] else [])) &&
      o.cmd.Batch? && |o.cmd.cmds| == 2
  {
  }

  /** "n" on the spinner view picks the next spinner, starts it afresh and schedules its tick. */
  lemma NextKeyOnSpinner(m: Model, g: Measure)
    requires m.state == SpinnerView
    ensures var o := Step(m, Key("n"), g);
      o.model == m.(index := NextIndex(m.index), spinner := Spinner(NextIndex(m.index), [Key("n")])) &&
      o.cmd == Batch([Tick(NextIndex(m.index)), Reply(SpinnerKind, Key("n")), Reply(SpinnerKind, Key("n"))])
  {
  }

  /** In a state that names no view, "n" only reaches the spinner: nothing is reset. */
  lemma NextKeyUnnamed(m: Model, g: Measure)
    requires !IsNamed(m.state)
    ensures var o := Step(m, Key("n"), g);
      o.model == m.(spinner := m.spinner.(received := m.spinner.received + [Key("n")]))
  {
  }

  /**
   * A resize sizes both lists and the viewport whatever view is active, and
   * is then handed to the active widget; setViewportViewSize adds no command.
   */
  lemma ResizeReachesAllWidgets(m: Model, width: int, height: int, g: Measure)
    ensures var o := Step(m, WindowSize(width, height), g);
      var r := o.model;
      r.state == m.state && r.index == m.index && r.viewport.ready &&
      r.spinner.pick == m.spinner.pick &&
      r.list.width == r.childList.width == width - g.frameWidth &&
      r.list.height == r.childList.height == height - g.frameHeight &&
      r.list.items == m.list.items && r.list.title == m.list.title &&
      r.childList.items == m.childList.items && r.childList.title == m.childList.title &&
      r.viewport.mod.width == width &&
      r.viewport.mod.height == height - (g.headerHeight + g.footerHeight) &&
      r.viewport.content == m.viewport.content &&
      (forall p :: p != ViewportPane ==>
        Log(r, p) == Log(m, p) + (if p == Focus(m.state) then [WindowSize(width, height)] else [])) &&
      o.cmd.Batch? && |o.cmd.cmds| == 2
  {
  }

  /** The first resize builds the viewport with the stored text, one line below the header. */
  lemma FirstResizeBuildsViewport(m: Model, width: int, height: int, g: Measure)
    requires !m.viewport.ready
    ensures var v := Step(m, WindowSize(width, height), g).model.viewport;
      v.ready && v.mod.content == m.viewport.content &&
      v.mod.yPosition == g.headerHeight + 1 &&
      v.mod.received == (if Focus(m.state) == ViewportPane then [WindowSize(width, height)] else [])
  {
  }

  /** A later resize changes only the viewport's width and height (and logs the message if it is active). */
  lemma LaterResizeSetsOnlySize(m: Model, width: int, height: int, g: Measure)
    requires m.viewport.ready
    ensures var v := Step(m, WindowSize(width, height), g).model.viewport;
      v.ready && v.content == m.viewport.content &&
      v.mod == m.viewport.mod.(width := width, height := height - (g.headerHeight + g.footerHeight),
                               received := Log(m, ViewportPane) +
                                 (if Focus(m.state) == ViewportPane then [WindowSize(width, height)] else []))
  {
  }

  /** A spinner tick reaches the spinner in every state, and twice when the spinner is showing. */
  lemma TickAlwaysReachesSpinner(m: Model, id: int, g: Measure)
    ensures var o := Step(m, SpinnerTick(id), g);
      Quiet(o.model) == Quiet(m) &&
      Log(o.model, SpinnerPane) == Log(m, SpinnerPane) +
        (if Focus(m.state) == SpinnerPane then [SpinnerTick(id), SpinnerTick(id)] else [SpinnerTick(id)]) &&
      (forall p :: p != SpinnerPane ==>
        Log(o.model, p) == Log(m, p) + (if p == Focus(m.state) then [SpinnerTick(id)] else [])) &&
      o.cmd.Batch? && |o.cmd.cmds| == 3 && o.cmd.cmds[0] == Reply(SpinnerKind, SpinnerTick(id))
  {
  }

  // ---------------------------------------------------------------------------
  // Sequences of messages

  /** One message never clears `ready`, the stored text, or a ready viewport's position and text. */
  lemma StepKeepsReady(m: Model, msg: Msg, g: Measure)
    requires m.viewport.ready
    ensures var r := Step(m, msg, g).model;
      r.viewport.ready && r.viewport.content == m.viewport.content &&
      r.viewport.mod.content == m.viewport.mod.content &&
      r.viewport.mod.yPosition == m.viewport.mod.yPosition
  {
  }

  /** Once ready, the viewport stays ready, keeps its text and its position, over any messages. */
  lemma {:induction false} ReadyPersists(m: Model, msgs: seq<Msg>, g: Measure)
    requires m.viewport.ready
    ensures var r := Run(m, msgs, g);
      r.viewport.ready && r.viewport.content == m.viewport.content &&
      r.viewport.mod.content == m.viewport.mod.content &&
      r.viewport.mod.yPosition == m.viewport.mod.yPosition
    decreases |msgs|
  {
    if msgs != [] {
      StepKeepsReady(m, msgs[0], g);
      var o := Step(m, msgs[0], g);
      if !o.cmd.Quit? {
        ReadyPersists(o.model, msgs[1..], g);
      }
    }
  }

  /** A quit key ends the run: the messages after it are never processed. */
  lemma QuitEndsRun(m: Model, k: string, rest: seq<Msg>, g: Measure)
    requires k == "ctrl+c" || k == "q"
    ensures Run(m, [Key(k)] + rest, g) == m
  {
    assert ([Key(k)] + rest)[0] == Key(k);
  }

  /**
   * Tabs only change the state and hand the tab key to each widget they
   * land on: every log keeps what it had and gains only tab keys, and
   * nothing else changes, however many tabs.
   */
  lemma {:induction false} TabsPreserveWidgets(m: Model, n: nat, g: Measure)
    ensures var r := Run(m, Tabs(n), g);
      r.state == Advance(m.state, n) &&
      Quiet(r) == Quiet(m).(state := Advance(m.state, n)) &&
      (forall p :: |Log(r, p)| >= |Log(m, p)| && Log(r, p)[..|Log(m, p)|] == Log(m, p)) &&
      (forall p, i :: |Log(m, p)| <= i < |Log(r, p)| ==> Log(r, p)[i] == Key("tab"))
    decreases n
  {
    if n > 0 {
      TabForwardsToNewlyActive(m, g);
      var o := Step(m, Key("tab"), g);
      assert Tabs(n)[0] == Key("tab") && Tabs(n)[1..] == Tabs(n - 1);
      TabsPreserveWidgets(o.model, n - 1, g);
      var r := Run(o.model, Tabs(n - 1), g);
      assert r == Run(m, Tabs(n), g);
      forall p
        ensures |Log(r, p)| >= |Log(m, p)| && Log(r, p)[..|Log(m, p)|] == Log(m, p)
        ensures forall i :: |Log(m, p)| <= i < |Log(r, p)| ==> Log(r, p)[i] == Key("tab")
      {
        GainedTabsCompose(Log(m, p), Log(o.model, p), Log(r, p));
      }
    }
  }

  /** A log that gains at most one tab key, then only tab keys, has gained only tab keys. */
  lemma GainedTabsCompose(a: seq<Msg>, b: seq<Msg>, c: seq<Msg>)
    requires b == a || b == a + [Key("tab")]
    requires |c| >= |b| && c[..|b|] == b
    requires forall i :: |b| <= i < |c| ==> c[i] == Key("tab")
    ensures |c| >= |a| && c[..|a|] == a
    ensures forall i :: |a| <= i < |c| ==> c[i] == Key("tab")
  {
    assert c[..|a|] == b[..|a|];
    forall i | |a| <= i < |c|
      ensures c[i] == Key("tab")
    {
      if i < |b| {
        assert c[i] == b[i];
      }
    }
  }

  /**
   * Starting up, one resize and two tabs show the pager: it is ready, as wide
   * as the terminal, and holds the loaded text.
   */
  lemma ResizeThenTwoTabsShowsPager(content: string, width: int, height: int, g: Measure)
    ensures var r := Run(NewModel(content), [WindowSize(width, height), Key("tab"), Key("tab")], g);
      r.state == ViewportView && r.viewport.ready &&
      r.viewport.mod.width == width && r.viewport.mod.content == content
  {
    var m0 := NewModel(content);
    var msgs := [WindowSize(width, height), Key("tab"), Key("tab")];
    var m1 := Step(m0, msgs[0], g).model;
    FirstResizeBuildsViewport(m0, width, height, g);
    assert msgs[1..] == [Key("tab"), Key("tab")];
    var m2 := Step(m1, Key("tab"), g).model;
    assert [Key("tab"), Key("tab")][1..] == [Key("tab")];
    var m3 := Step(m2, Key("tab"), g).model;
    assert Run(m0, msgs, g) == m3;
  }

  // ---------------------------------------------------------------------------
  // Rendering

  /** View looks at the active widget only: the others may hold anything. */
  lemma ViewShowsOnlyActive(m1: Model, m2: Model, look: Look)
    requires SameActive(m1, m2)
    ensures View(m1, look) == View(m2, look)
  {
  }

  /** A state that names no view renders as the spinner view does. */
  lemma UnnamedRendersSpinner(m: Model, look: Look)
    requires !IsNamed(m.state)
    ensures View(m, look) == View(m.(state := SpinnerView), look)
    ensures View(m, look) == look.doc(look.spinnerFrame(m.spinner))
  {
  }

  /** The pager view stacks header, viewport and footer, separated by newlines. */
  lemma PagerLayout(m: Model, look: Look)
    requires m.state == ViewportView
    ensures View(m, look) ==
      HeaderView(m.viewport.mod, look.chrome) + "\n" + look.viewportFrame(m.viewport.mod) + "\n" +
      FooterView(m.viewport.mod, look.chrome)
  {
  }
}

// The older copy of the coordinator in package main (model.go). It sizes the
// lists inline and builds both lists in its constructor, but is proved here to
// meet the same specification as package tui: its constructor yields
// Coordinator.NewModel, its Update performs Coordinator.Step, and its View and
// currentFocusedModel agree with Coordinator's. The helpers it calls but does
// not define (setViewportViewSize, Next, resetSpinner) are taken as in tui.dfy.
module Legacy {
  import opened Bubbles
  import opened Items
  import opened Pager
  import opened Coordinator

  class LegacyModel {
    var state: SessionState
    var spinner: Spinner
    var list: List<Item>
    var childList: List<Item>
    var viewport: ViewportModel
    var index: int

    /** The fields as a Coordinator.Model. */
    function Value(): Model
      reads this
    {
      Model(state, spinner, list, childList, viewport, index)
    }

    /** newModel: `content` stands for the text read from the content file. */
    constructor (content: string)
      ensures Value() == NewModel(content)
      ensures state == ListView && |list.items| == 5 && list.title == "list "
      ensures |childList.items| == 2 && childList.title == "child list"
    {
      state := ListView;
      index := 0;
      new;
      spinner := NewSpinner();
      var items := [
        Item("Raspberry Pi\U{2019}s", "I have \U{2019}em all over my house"),
        Item("Nutella", "It's good on toast"),
        Item("NNN", "It's good on toast"),
        Item("AAA", "It's good on toast"),
        Item("some", "It's good on toast")
      ];
      list := NewList(items, 0, 0);
      list := list.(title := "list ");
      var childItems := [
        Item("Raspberry Pi\U{2019}s", "I have \U{2019}em all over my house"),
        Item("Nutella", "It's good on toast")
      ];
      childList := NewList(childItems, 0, 0);
      childList := childList.(title := "child list");
      viewport := ViewportModel(ZeroViewport, false, content);
    }

    /** switchView */
    method SwitchView()
      modifies this`state
      ensures state == Switched(old(state))
    {
      if state == SpinnerView {
        state := ListView;
      } else if state == ListView {
        state := ChildListView;
      } else if state == ChildListView {
        state := ViewportView;
      } else {
        state := SpinnerView;
      }
    }

    /** Update: the lists are sized inline before the viewport. */
    method Update(msg: Msg, g: Measure) returns (result: Cmd)
      modifies this
      ensures Value() == Step(old(Value()), msg, g).model
      ensures result == Step(old(Value()), msg, g).cmd
    {
      var cmd: Cmd;
      var cmds: seq<Cmd> := [];
      ghost var before := Value();
      match msg {
        case WindowSize(width, height) =>
          var h, v := g.frameWidth, g.frameHeight;
          list := SetSize(list, width - h, height - v);
          childList := SetSize(childList, width - h, height - v);
          var headerHeight := g.headerHeight;
          var footerHeight := g.footerHeight;
          var verticalMarginHeight := headerHeight + footerHeight;
          var sized := SetViewportViewSize(viewport, width, height, headerHeight, verticalMarginHeight);
          viewport := sized.viewport;
          match sized.cmd {
            case Some(c) => cmds := cmds + [c];
            case None =>
          }
          assert Step(before, msg, g) == Forward(Value(), msg, cmds);
        case SpinnerTick(_) =>
          var p := SpinnerUpdate(spinner, msg);
          spinner, cmd := p.0, p.1;
          cmds := cmds + [cmd];
          assert Step(before, msg, g) == Forward(Value(), msg, cmds);
        case Key(k) =>
          if k == "ctrl+c" || k == "q" {
            return Quit;
          } else if k == "tab" {
            SwitchView();
          }
          if state == SpinnerView && k == "n" {
            index := NextIndex(index);
            spinner := FreshSpinner(index);
            cmds := cmds + [TickOf(spinner)];
          }
          assert Step(before, msg, g) == Forward(Value(), msg, cmds);
        case Other(_) =>
          assert Step(before, msg, g) == Forward(Value(), msg, cmds);
      }
      result := ForwardToActive(msg, cmds);
    }

    /** The end of Update: the active widget takes msg, and its command is batched twice. */
    method ForwardToActive(msg: Msg, cmds: seq<Cmd>) returns (result: Cmd)
      modifies this
      ensures Value() == Forward(old(Value()), msg, cmds).model
      ensures result == Forward(old(Value()), msg, cmds).cmd
    {
      var cmd: Cmd;
      var all := cmds;
      if state == ListView {
        var p := ListUpdate(list, msg);
        list, cmd := p.0, p.1;
        all := all + [cmd];
      } else if state == ChildListView {
        var p := ListUpdate(childList, msg);
        childList, cmd := p.0, p.1;
        all := all + [cmd];
      } else if state == ViewportView {
        var p := ViewportUpdate(viewport.mod, msg);
        viewport, cmd := viewport.(mod := p.0), p.1;
        all := all + [cmd];
      } else {
        var p := SpinnerUpdate(spinner, msg);
        spinner, cmd := p.0, p.1;
        all := all + [cmd];
      }
      all := all + [cmd];
      result := Batch(all);
    }

    /** View, as model.go writes it: the same screen as package tui's. */
    function View(look: Look): (s: string)
      reads this
      ensures s == Coordinator.View(Value(), look)
    {
      if state == ListView then look.doc(look.listFrame(list))
      else if state == ChildListView then look.doc(look.listFrame(childList))
      else if state == ViewportView then
        HeaderView(viewport.mod, look.chrome) + "\n" + look.viewportFrame(viewport.mod) + "\n" +
        FooterView(viewport.mod, look.chrome)
      else look.doc(look.spinnerFrame(spinner))
    }

    /** currentFocusedModel, as model.go writes it: the same names as package tui's. */
    function CurrentFocusedModel(): (name: string)
      reads this
      ensures name == Coordinator.CurrentFocusedModel(state)
    {
      if state == ListView then "list"
      else if state == ChildListView then "childListView"
      else if state == ViewportView then "viewportView"
      else "spinner"
    }
  }
}

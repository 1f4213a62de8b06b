// mainModel of package tui (tui/tui.go, tui/list.go, tui/viewport.go) as an
// object whose methods change its fields step by step, as the pointer-receiver
// methods of the source do. Update runs on the model in place; the source runs
// it on a copy that the runtime then keeps, which comes to the same thing.
// Every method is proved against the value-level specification in the
// Coordinator and Pager modules.
module Tui {
  import opened Bubbles
  import opened Items
  import opened Pager
  import opened Coordinator

  class MainModel {
    var state: SessionState
    var spinner: Spinner
    var list: List<Item>
    var childList: List<Item>
    var viewport: ViewportModel
    var index: int

    /** The fields as a Coordinator.Model. */
    function Value(): Model
      reads this
    {
      Model(state, spinner, list, childList, viewport, index)
    }

    /** NewModel: `content` stands for the text read from the content file. */
    constructor (content: string)
      ensures Value() == NewModel(content)
    {
      state := ListView;
      spinner := ZeroSpinner;
      list := ZeroList();
      childList := ZeroList();
      viewport := ViewportModel(ZeroViewport, false, "");
      index := 0;
      new;
      InitSpinnerModel();
      InitListModel();
      InitChildListModel();
      InitViewportModel(content);
    }

    /** initSpinnerModel, which is not defined in tui/ or model.go: taken to install spinner.New(). */
    method InitSpinnerModel()
      modifies this`spinner
      ensures spinner == NewSpinner()
    {
      spinner := NewSpinner();
    }

    /** initListModel */
    method InitListModel()
      modifies this`list
      ensures list == PrimaryList()
      ensures list.items == MainItems && list.title == "list " && list.width == 0 && list.height == 0
    {
      var items := [
        Item("Raspberry Pi\U{2019}s", "I have \U{2019}em all over my house"),
        Item("Nutella", "It's good on toast"),
        Item("NNN", "It's good on toast"),
        Item("AAA", "It's good on toast"),
        Item("some", "It's good on toast")
      ];
      list := NewList(items, 0, 0);
      list := list.(title := "list ");
    }

    /** initChildListModel */
    method InitChildListModel()
      modifies this`childList
      ensures childList == ChildList()
      ensures childList.items == MainItems[..2] && childList.title == "child list"
      ensures childList.width == 0 && childList.height == 0
    {
      var childItems := [
        Item("Raspberry Pi\U{2019}s", "I have \U{2019}em all over my house"),
        Item("Nutella", "It's good on toast")
      ];
      childList := NewList(childItems, 0, 0);
      childList := childList.(title := "child list");
    }

    /** initViewportModel, after the file has been read. */
    method InitViewportModel(content: string)
      modifies this`viewport
      ensures viewport == old(viewport).(content := content)
    {
      viewport := viewport.(content := content);
    }

    /** setListsViewsSize: both lists get the same size, unclamped. */
    method SetListsViewsSize(msg: Msg, h: int, v: int)
      requires msg.WindowSize?
      modifies this`list, this`childList
      ensures list == old(list).(width := msg.width - h, height := msg.height - v)
      ensures childList == old(childList).(width := msg.width - h, height := msg.height - v)
    {
      list := SetSize(list, msg.width - h, msg.height - v);
      childList := SetSize(childList, msg.width - h, msg.height - v);
    }

    /** setViewportViewSize */
    method SetViewportViewSize(msg: Msg, headerHeight: int, verticalMarginHeight: int) returns (cmd: Option<Cmd>)
      requires msg.WindowSize?
      modifies this`viewport
      ensures Sized(viewport, cmd) ==
        Pager.SetViewportViewSize(old(viewport), msg.width, msg.height, headerHeight, verticalMarginHeight)
      ensures cmd == None && viewport.ready
    {
      if !viewport.ready {
        viewport := viewport.(mod := NewViewport(msg.width, msg.height - verticalMarginHeight));
        viewport := viewport.(mod := viewport.mod.(yPosition := headerHeight));
        viewport := viewport.(mod := viewport.mod.(highPerformanceRendering := UseHighPerformanceRenderer));
        viewport := viewport.(mod := SetContent(viewport.mod, viewport.content));
        viewport := viewport.(ready := true);
        viewport := viewport.(mod := viewport.mod.(yPosition := headerHeight + 1));
      } else {
        viewport := viewport.(mod := viewport.mod.(width := msg.width));
        viewport := viewport.(mod := viewport.mod.(height := msg.height - verticalMarginHeight));
      }
      if UseHighPerformanceRenderer {
        cmd := Some(Sync);
      } else {
        cmd := None;
      }
    }

    /** switchView */
    method SwitchView()
      modifies this`state
      ensures state == Switched(old(state))
    {
      if state == SpinnerView {
        state := ListView;
      } else if state == ListView {
        state := ChildListView;
      } else if state == ChildListView {
        state := ViewportView;
      } else {
        state := SpinnerView;
      }
    }

    /** Next, which is not defined in tui/ or model.go: move to the following spinner. */
    method Next()
      modifies this`index
      ensures index == NextIndex(old(index))
    {
      index := index + 1;
    }

    /** resetSpinner, which is not defined in tui/ or model.go: a new spinner for the current index. */
    method ResetSpinner()
      modifies this`spinner
      ensures spinner == FreshSpinner(index)
    {
      spinner := Spinner(index, []);
    }

    /** Update: route one message; the result is the command handed back to the runtime. */
    method Update(msg: Msg, g: Measure) returns (result: Cmd)
      modifies this
      ensures Value() == Step(old(Value()), msg, g).model
      ensures result == Step(old(Value()), msg, g).cmd
    {
      var cmd: Cmd;
      var cmds: seq<Cmd> := [];
      ghost var before := Value();
      match msg {
        case WindowSize(_, _) =>
          var h, v := g.frameWidth, g.frameHeight;
          var headerHeight := g.headerHeight;
          var footerHeight := g.footerHeight;
          var verticalMarginHeight := headerHeight + footerHeight;
          SetListsViewsSize(msg, h, v);
          var sizeCmd := SetViewportViewSize(msg, headerHeight, verticalMarginHeight);
          match sizeCmd {
            case Some(c) => cmds := cmds + [c];
            case None =>
          }
          assert Step(before, msg, g) == Forward(Value(), msg, cmds);
        case SpinnerTick(_) =>
          var p := SpinnerUpdate(spinner, msg);
          spinner, cmd := p.0, p.1;
          cmds := cmds + [cmd];
          assert Step(before, msg, g) == Forward(Value(), msg, cmds);
        case Key(k) =>
          if k == "ctrl+c" || k == "q" {
            return Quit;
          } else if k == "tab" {
            SwitchView();
          }
          if state == SpinnerView && k == "n" {
            Next();
            ResetSpinner();
            cmds := cmds + [TickOf(spinner)];
          }
          assert Step(before, msg, g) == Forward(Value(), msg, cmds);
        case Other(_) =>
          assert Step(before, msg, g) == Forward(Value(), msg, cmds);
      }
      result := ForwardToActive(msg, cmds);
    }

    /** The end of Update: the active widget takes msg, and its command is batched twice. */
    method ForwardToActive(msg: Msg, cmds: seq<Cmd>) returns (result: Cmd)
      modifies this
      ensures Value() == Forward(old(Value()), msg, cmds).model
      ensures result == Forward(old(Value()), msg, cmds).cmd
    {
      var cmd: Cmd;
      var all := cmds;
      if state == ListView {
        var p := ListUpdate(list, msg);
        list, cmd := p.0, p.1;
        all := all + [cmd];
      } else if state == ChildListView {
        var p := ListUpdate(childList, msg);
        childList, cmd := p.0, p.1;
        all := all + [cmd];
      } else if state == ViewportView {
        var p := ViewportUpdate(viewport.mod, msg);
        viewport, cmd := viewport.(mod := p.0), p.1;
        all := all + [cmd];
      } else {
        var p := SpinnerUpdate(spinner, msg);
        spinner, cmd := p.0, p.1;
        all := all + [cmd];
      }
      all := all + [cmd];
      result := Batch(all);
    }
  }
}

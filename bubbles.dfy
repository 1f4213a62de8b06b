// Stand-ins for the bubbletea runtime and for the bubbles widgets (spinner,
// list, viewport) that the view coordinator drives. Their internals are not
// modelled: each widget is a record of the fields the coordinator reads or
// writes, plus the log of the messages it has been handed, so that which
// widget received which message is observable. A widget's Update records the
// message and answers with an opaque command token.
module Bubbles {

  /** The messages the runtime delivers (tea.Msg). */
  datatype Msg =
    | WindowSize(width: int, height: int)  // tea.WindowSizeMsg
    | SpinnerTick(id: int)                 // spinner.TickMsg
    | Key(name: string)                    // tea.KeyMsg, named by its String()
    | Other(tag: int)                      // any other message (mouse events, ...)

  /** The three kinds of widget, used to label the commands they answer with. */
  datatype Kind = SpinnerKind | ListKind | ViewportKind

  /** Commands (tea.Cmd) as tokens; nothing here executes them. */
  datatype Cmd =
    | Quit                        // tea.Quit
    | Batch(cmds: seq<Cmd>)       // tea.Batch(cmds...)
    | Reply(from: Kind, to: Msg)  // whatever a widget's Update returned for `to`
    | Tick(pick: int)             // the Tick of a spinner showing entry `pick`
    | Sync                        // viewport.Sync

  datatype Option<T> = None | Some(value: T)

  /** spinner.Model: `pick` is the entry of the spinner table it shows. */
  datatype Spinner = Spinner(pick: int, received: seq<Msg>)

  /** list.Model over items of type T. */
  datatype List<T> = List(items: seq<T>, title: string, width: int, height: int, received: seq<Msg>)

  /** viewport.Model: the fields the coordinator touches. */
  datatype Viewport = Viewport(
    width: int,
    height: int,
    yPosition: int,
    highPerformanceRendering: bool,
    content: string,
    received: seq<Msg>)

  /** The zero value of spinner.Model. */
  const ZeroSpinner: Spinner := Spinner(0, [])

  /** spinner.New(): the first entry of the table, nothing received yet. */
  function NewSpinner(): Spinner
  {
    Spinner(0, [])
  }

  function SpinnerUpdate(s: Spinner, msg: Msg): (Spinner, Cmd)
  {
    (s.(received := s.received + [msg]), Reply(SpinnerKind, msg))
  }

  /** The zero value of list.Model. */
  function ZeroList<T>(): List<T>
  {
    List([], "", 0, 0, [])
  }

  /** list.New(items, delegate, width, height) */
  function NewList<T>(items: seq<T>, width: int, height: int): List<T>
  {
    List(items, "", width, height, [])
  }

  /** list.Model.SetSize */
  function SetSize<T>(l: List<T>, width: int, height: int): List<T>
  {
    l.(width := width, height := height)
  }

  function ListUpdate<T>(l: List<T>, msg: Msg): (List<T>, Cmd)
  {
    (l.(received := l.received + [msg]), Reply(ListKind, msg))
  }

  /** The zero value of viewport.Model. */
  const ZeroViewport: Viewport := Viewport(0, 0, 0, false, "", [])

  /** viewport.New(width, height) */
  function NewViewport(width: int, height: int): Viewport
  {
    Viewport(width, height, 0, false, "", [])
  }

  /** viewport.Model.SetContent */
  function SetContent(v: Viewport, s: string): Viewport
  {
    v.(content := s)
  }

  function ViewportUpdate(v: Viewport, msg: Msg): (Viewport, Cmd)
  {
    (v.(received := v.received + [msg]), Reply(ViewportKind, msg))
  }
}

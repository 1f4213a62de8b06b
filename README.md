# bubbletea multiview: the view coordinator in Dafny

This project models the view coordinator of a small terminal demo built on
bubbletea. The coordinator keeps one of four views active: a spinner, a list,
a child list and a pager (a scrolling viewport over a text). It hands each
incoming message to the right widget and sizes the widgets when the terminal
is resized. The pager is built lazily, on the first resize, and a `ready`
flag records that this has happened. It also draws the pager's header and
footer rules.

The widgets themselves belong to the bubbles library and are not modelled.
Each widget is a record of the fields the coordinator reads or writes, plus
the log of messages it has been handed (`bubbles.dfy`). Its `Update` records
the message and answers with an opaque command token. With widgets shaped
like this, "only the active widget received the message" and "nothing else
changed" can be stated and proved.

Files and modules:

- `bubbles.dfy`, module `Bubbles`: stand-ins for the runtime and the
  widgets. These are messages (`Msg`), commands as tokens (`Cmd`, with
  `Batch` and `Quit`), and the spinner, list and viewport records with their
  constructors, `SetSize`, `SetContent` and `Update`.
- `items.dfy`, module `Items` (tui/list.go): the list entry type and the two
  fixed item sequences.
- `pager.dfy`, module `Pager` (tui/viewport.go): `max`, the rule lengths, the
  header and footer, and `setViewportViewSize` as a function.
- `coordinator.dfy`, module `Coordinator` (tui/tui.go): the model as a value.
  It holds the session-state numbering, `switchView` (`Switched`), the routing
  of one message (`Step`, which is `Update`), `View`, `currentFocusedModel`,
  a run over a sequence of messages, and the lemmas.
- `tui.dfy`, module `Tui`: `mainModel` of package tui as a class. Its methods
  change its fields step by step, as the pointer-receiver methods do. Each
  method is proved against the functions above.
- `legacy.dfy`, module `Legacy`: the older copy of the coordinator in
  model.go. It is a class with its own step order (the lists are sized
  inline). It is proved to meet the same `Step`, `NewModel`, `View` and
  `currentFocusedModel` as package tui.

Encoding choices:

- `sessionState` is a `nat`. `iota` counts from the first line of each const
  block (`useHighPerformanceRenderer` in tui/tui.go, `defaultTime` in
  model.go), so `spinnerView` to `viewportView` are 1 to 4. The zero value
  names no view. Every `default:` branch sends it, and any other value, to
  spinner behaviour. model.go:18-24 numbers its constants the same way, and
  the `Legacy` class uses the same constants.
- The Go `Update` runs on a copy of the model and returns it. The classes run
  it in place, which is the same once the runtime keeps the returned copy.
- Commands are tokens. The active widget's command is appended twice, as
  tui/tui.go:107 does. `setViewportViewSize` returns nil, because
  `useHighPerformanceRenderer` is the constant false.
- Foreign calls are parameters. `Measure` carries `docStyle.GetFrameSize()`
  and the heights of the header and footer. `Chrome` and `Look` carry the
  rendered title, the scroll indicator, `lipgloss.Width`,
  `lipgloss.JoinHorizontal`, `docStyle.Render` and the widgets' `View`.
  The text of `artichoke.md` is a string parameter of the constructors.
- `Next`, `resetSpinner` and `initSpinnerModel` are not defined in tui/ or model.go.
  `Next` moves the spinner index forward by one.
  `resetSpinner` installs a fresh spinner for the current index.
  `initSpinnerModel` installs `spinner.New()`, as model.go:82 does.

Four points of the code's behaviour that are easy to misread:

- Switching views is not silent. Tab first advances the state, and then the
  `tab` key itself is forwarded to the newly active widget
  (tui/tui.go:74-105). Tabs change nothing else (`TabsPreserveWidgets`).
- The pager is two tabs from the initial list view
  (`ResizeThenTwoTabsShowsPager`). A third tab goes to the spinner.
- An unsized pager is still drawn: the header, the zero-valued viewport and
  the footer (tui/tui.go:121-122 does not test `ready`).
- The unsigned state has an unnamed zero value. It is routed and rendered as
  the spinner. A tab from it lands on the spinner (`SwitchFromUnnamed`), and
  `n` does not pick a new spinner there (`NextKeyUnnamed`).

## Model

| member | source | states |
|---|---|---|
| Items.AccessorsReturnFields | tui/list.go:12-13 | `Title` and `Description` give back the title and description an item was built from |
| Items.FilterValueIsTitle | tui/list.go:14 | `FilterValue` is the title, so two items filter alike exactly when their titles are equal |
| Items.ChildItemsArePrimaryPrefix | tui/list.go:17-32 | the primary list has 5 entries, the child list 2, and the child entries are the first two primary entries in order |
| Tui.MainModel.InitListModel | tui/list.go:16-26 | the list holds exactly the five primary items in order, is titled "list " with its trailing space, and is sized 0×0 |
| Tui.MainModel.InitChildListModel | tui/list.go:28-36 | the child list holds the first two primary items, is titled "child list", and is sized 0×0 |
| Tui.MainModel.SetListsViewsSize | tui/list.go:38-41 | both lists get the same size (width − h, height − v), with no clamping, and keep their items, title and log |
| Pager.Repeat | tui/viewport.go:31 | `strings.Repeat`: n copies of the unit, so the length is n × the unit's length and position i holds the unit's character at i mod its length |
| Pager.Max | tui/viewport.go:75-80 | the result is at least each argument and equals one of them |
| Pager.RuleLength | tui/viewport.go:31 | the rule length is width − label width when that is not negative, and 0 otherwise |
| Pager.Rule | tui/viewport.go:29-39 | the intended header and footer rule: max(0, width − label width) copies of "─", so label plus rule fill the width exactly whenever the label fits |
| Pager.WrittenRule | tui/viewport.go:37 | the rule as written repeats the three-character segment "â”€": it is three times max(0, width − label width) long, position i holds the segment's character at i mod 3, and it starts with "â", not "─" |
| Pager.WrittenRuleOverruns | tui/viewport.go:31 | as written, a label and its rule are wider than the terminal whenever the terminal is wider than the label, by twice the free width |
| Pager.WrittenHeaderAt80Columns | tui/viewport.go:29-33 | an 80-column terminal with a 13-column title gets a 214-column header as written, and an 80-column header as intended |
| Pager.HeaderView | tui/viewport.go:29-33 | the header is the title followed by the intended rule. Given that JoinHorizontal adds widths and a rule of n segments is n columns wide (`Measured`), it is exactly as wide as the viewport, or as the title alone if that is wider |
| Pager.FooterView | tui/viewport.go:35-39 | the footer is the intended rule followed by the scroll indicator. Under `Measured` it is exactly as wide as the viewport, or as the indicator alone if that is wider |
| Pager.WrittenHeaderView | tui/viewport.go:29-33 | the header as written: under `Measured` it is as wide as the title plus three columns per free column |
| Pager.WrittenFooterView | tui/viewport.go:35-39 | the footer as written: under `Measured` it is three columns per free column plus the width of the indicator |
| Pager.WrittenChromeOverruns | tui/viewport.go:29-39 | under `Measured`, a viewport wider than the title or indicator gets a header or footer that is wider than the viewport by twice the free width as written, and exactly as wide as intended |
| Pager.SetViewportViewSize | tui/viewport.go:41-73 | the result is always ready and keeps the stored text. Width = width and Height = height − vertical margin. A first sizing builds a fresh viewport with the stored text and YPosition = header height + 1, overriding the earlier assignment. A later sizing changes only Width and Height. The command is always nil |
| Tui.MainModel.SetViewportViewSize | tui/viewport.go:41-73 | the step-by-step field updates leave exactly the wrapper and the nil command that `Pager.SetViewportViewSize` describes |
| Tui.MainModel.InitViewportModel | tui/viewport.go:19-27 | only the stored content changes, to the text read from the file |
| Coordinator.StateNumbering | tui/tui.go:15-21 | the four states are numbered 1 to 4 and the zero value is not one of them |
| Coordinator.Switched | tui/tui.go:149-164 | after a switch the state is always one of the four named values; it is the spinner exactly when the old state was neither spinner, list nor child list |
| Coordinator.SwitchCycle | tui/tui.go:152-160 | a switch takes spinner to list, list to child list, child list to viewport and viewport back to spinner |
| Coordinator.SwitchFromUnnamed | tui/tui.go:161-163 | a state naming no view switches to the spinner, which is also what it showed before |
| Coordinator.FocusFollowsSwitch | tui/tui.go:149-164 | from a named state, the active widget moves to the next in pane order, and four switches return to the start |
| Coordinator.AdvanceCycle | tui/tui.go:149-164 | after n switches from the i-th named state the state is the ((i + n) mod 4)-th |
| Coordinator.Focus | tui/tui.go:88-105 | the routing switch picks the spinner exactly for states other than list, child list and viewport |
| Coordinator.FocusedNameIdentifiesPane | tui/tui.go:133-147 | two states get the same focused-model name exactly when they activate the same widget; an unnamed state is "spinner" |
| Coordinator.NewModel | tui/tui.go:32-41 | the initial model is on the list view with spinner index 0, the primary items in the list and the first two in the child list, an unready viewport holding the given text, and every widget's log empty (`NewModelStart` adds titles and sizes) |
| Coordinator.CurrentFocusedModel | tui/tui.go:133-147 | the name is "list", "childListView" or "viewportView" exactly in those three states, and "spinner" in every other state (`FocusedNameIdentifiesPane`) |
| Coordinator.Forward | tui/tui.go:88-109 | the message reaches the active widget's log and no other, nothing else changes, and the batch is the earlier commands followed by two more |
| Coordinator.Step | tui/tui.go:48-110 | a quit key returns the model unchanged with `Quit`. Any other message gets a batch, switches the state exactly when it is tab, keeps the stored text, and leaves the viewport ready exactly when it was ready or the message is a resize. `StepDeliversToActive` and the per-message lemmas below (quit, tab, other keys, "n", resize, tick and `OtherReachesActiveOnly` for every other message) give each case in full |
| Coordinator.View | tui/tui.go:112-131 | the screen of the active widget only: stated by `ViewShowsOnlyActive`, `UnnamedRendersSpinner` and `PagerLayout`, with the pager chrome from `Pager.HeaderView` and `Pager.FooterView` |
| Coordinator.NewModelStart | tui/tui.go:32-41 | the model starts on the list view, with the 5-item "list " list, the 2-item "child list" list (both 0×0), an unready viewport and the given content |
| Tui.MainModel.constructor | tui/tui.go:32-41 | building the model field by field yields `NewModel(content)` |
| Tui.MainModel.InitSpinnerModel | tui/tui.go:35 | the spinner becomes `spinner.New()` |
| Tui.MainModel.SwitchView | tui/tui.go:149-164 | the state becomes `Switched` of the old state and nothing else changes |
| Tui.MainModel.Next | tui/tui.go:82 | only the spinner index changes, to the next one |
| Tui.MainModel.ResetSpinner | tui/tui.go:83 | only the spinner changes, to a fresh spinner for the current index |
| Tui.MainModel.Update | tui/tui.go:48-110 | the in-place update leaves exactly the model and returns exactly the command that `Step` gives, for every message and state |
| Tui.MainModel.ForwardToActive | tui/tui.go:88-109 | handing the message to the active widget in place leaves exactly the model and batch that `Coordinator.Forward` gives |
| Coordinator.QuitKeepsModel | tui/tui.go:72-73 | "ctrl+c" and "q" return the model unchanged with `tea.Quit`, in every state, before any switch or widget update |
| Coordinator.QuitEndsRun | tui/tui.go:72-73 | a quit key leaves the model unchanged and, since `Run` stops at the first `Quit` (see `Coordinator.Run` under Left out), the messages after it are not delivered |
| Coordinator.ActiveReplyTwice | tui/tui.go:88-109 | every message other than a quit key gets a batch whose last two commands are both the active widget's reply to it |
| Coordinator.StepDeliversToActive | tui/tui.go:88-109 | every message other than a quit key ends up last in the log of the widget that is active after the step |
| Coordinator.TabForwardsToNewlyActive | tui/tui.go:74-105 | tab advances the state first. The tab key then reaches only the newly active widget, nothing else changes, and the batch has two commands |
| Coordinator.KeyReachesActiveOnly | tui/tui.go:70-105 | any other key, except "n" on the spinner view, keeps the state and reaches only the active widget, whose reply is batched twice |
| Coordinator.OtherReachesActiveOnly | tui/tui.go:88-109 | any other message, such as a mouse event, keeps the state and everything else, reaches only the active widget, whose reply is batched twice |
| Coordinator.NextKeyOnSpinner | tui/tui.go:78-86 | "n" on the spinner view moves the index on, replaces the spinner by a fresh one, which then receives "n", and schedules its Tick ahead of its two replies |
| Coordinator.NextKeyUnnamed | tui/tui.go:78-105 | in a state naming no view, "n" reaches the spinner and resets nothing |
| Coordinator.ResizeReachesAllWidgets | tui/tui.go:53-64 | a resize sizes both lists to (width − h, height − v) with items and titles kept, and sizes the viewport, whatever the view. It leaves the state, the spinner index and the spinner's pick alone. It is then also handed to the active widget only, and no sizing command is added |
| Coordinator.FirstResizeBuildsViewport | tui/viewport.go:42-58 | the first resize makes the viewport ready, with the stored text, YPosition = header height + 1, and an empty log unless the pager is active |
| Coordinator.LaterResizeSetsOnlySize | tui/viewport.go:59-62 | once ready, a resize changes only the viewport's Width and Height (and logs the message when the pager is active) |
| Coordinator.TickAlwaysReachesSpinner | tui/tui.go:66-68 | a spinner tick reaches the spinner in every state, and a second time through the `default:` branch when the spinner or an unnamed state is active. Other widgets get it only when active |
| Coordinator.StepKeepsReady | tui/viewport.go:41-62 | no single message clears `ready` or changes a ready viewport's text and position |
| Coordinator.ReadyPersists | tui/viewport.go:41-62 | once true, `ready` stays true over any sequence of messages, and the text and YPosition stay as they were |
| Coordinator.TabsPreserveWidgets | tui/tui.go:74-105 | any number of tabs changes only the state (to n switches on). Every widget log keeps its old entries and gains only tab keys, and nothing else changes |
| Coordinator.ResizeThenTwoTabsShowsPager | tui/tui.go:48-110 | from the start, a resize and two tabs show the pager, ready, as wide as the terminal, holding the loaded text |
| Coordinator.ViewShowsOnlyActive | tui/tui.go:112-131 | two models in the same state with the same active widget render alike, so inactive widgets never show |
| Coordinator.UnnamedRendersSpinner | tui/tui.go:124-126 | an unnamed state renders the spinner, as the spinner view does |
| Coordinator.PagerLayout | tui/tui.go:121-122 | the pager view is header, "\n", viewport body, "\n", footer |
| Legacy.LegacyModel.constructor | model.go:80-110 | newModel yields the same initial model as package tui. It starts on the list view with the 5-item "list " list and the 2-item "child list" list |
| Legacy.LegacyModel.SwitchView | model.go:218-233 | the same 4-cycle with a spinner default as package tui |
| Legacy.LegacyModel.Update | model.go:117-179 | sizing the lists inline before the viewport still gives exactly `Step`. So quit keys, tab, resize, ticks and forwarding behave as in package tui |
| Legacy.LegacyModel.ForwardToActive | model.go:157-178 | model.go's forwarding switch leaves exactly the model and batch that `Coordinator.Forward` gives |
| Legacy.LegacyModel.View | model.go:181-200 | model.go's dispatch renders the same screen as package tui's View in every state |
| Legacy.LegacyModel.CurrentFocusedModel | model.go:202-216 | model.go's names agree with package tui's in every state |

## Left out

- main.go: it only builds and runs the program (alternate screen, mouse reporting, `log.Fatal`).
- Reading `artichoke.md` and exiting on failure (tui/viewport.go:19-27, model.go:102-106): file I/O and process exit. The text is a parameter of the constructors.
- `Init` (tui/tui.go:43-46, model.go:112-115): it only hands the spinner's first Tick to the runtime and changes no state.
- Widget internals (list filtering and selection, spinner animation and tick-id filtering, viewport scrolling): each widget's `Update` only records the message and answers with an opaque reply. Whether that reply is nil is not modelled.
- lipgloss styling and measurement (`GetFrameSize`, `lipgloss.Width`, `lipgloss.Height`, `JoinHorizontal`, borders): foreign calls, passed in as `Measure`, `Chrome` and `Look`. The widths of the header and footer are stated through `Chrome.width` under `Measured`: widths add under JoinHorizontal, and each rule character is one column wide (go-runewidth's default widths for "─", "â", "”" and "€"). The bordered, multi-line title and indicator are otherwise opaque. `Pager.Rule` and `Pager.WrittenRule` count characters.
- The scroll percentage `ScrollPercent()*100` with `%3.f` (tui/viewport.go:36): floating point. The rendered indicator is a parameter.
- Executing commands (`tea.Batch`, tick timing, `viewport.Sync`): commands are tokens. The high-performance branch is dead code and is kept only as the constant-false test.
- Coordinator.NextIndex: `Next` is not defined in tui/ or model.go. It is taken as index + 1. What `Next` does at the end of the nine-entry spinner table (model.go:28-38) is not modelled.
- Tui.MainModel.ResetSpinner: `resetSpinner` is not defined in tui/ or model.go. The fresh spinner records only which table entry it shows, not its style.
- Tui.MainModel.InitSpinnerModel: `initSpinnerModel` is not defined in tui/ or model.go. It is taken to install `spinner.New()`, as model.go:82 does.
- The unused `timeout` parameter of `NewModel` and `newModel`.
- model.go's build problems: `defaultTime` is declared twice, and `item`, `headerView` and `setViewportViewSize` exist only in package tui. Only its behaviour is modelled.
- Pager.HeaderView: draws the intended rule, one "─" per free column. The code as written repeats "â”€" (see Findings). That version is `Pager.WrittenHeaderView`, and `Pager.WrittenChromeOverruns` compares the two.
- Pager.FooterView: draws the intended rule, like the header. The as-written version is `Pager.WrittenFooterView`.
- Coordinator.View: the pager view is drawn from `Pager.HeaderView` and `Pager.FooterView`, so it shows the intended rule, not the as-written one.
- Coordinator.Run: it treats `Quit` as an immediate stop. bubbletea runs the command asynchronously and stops only when the resulting quit message is dequeued, so messages already queued behind the quit key still reach `Update`. This is an idealisation of the runtime, not the code of tui/tui.go.
- Coordinator.QuitEndsRun: it rests on `Run` stopping at once (previous line). The part taken from the code is that the quit key itself changes nothing.
- Integer widths: Go `int` sizes are unbounded integers here. The differences like width − h cannot overflow for terminal sizes. The state is only ever assigned its constants, so its unsigned wrap-around never arises.

## Findings

| source | as written | input that shows it | evidently intended | confidence | as-written member | corrected member |
|---|---|---|---|---|---|---|
| tui/viewport.go:31-37 | The header and footer rules repeat the string "â”€". These three characters (U+00E2, U+201D, U+20AC) are the UTF-8 bytes of "─" read as Windows-1252. Each free column gets three characters. | An 80-column terminal with a 13-column title: 13 + 3 × 67 = 214 columns of header | one "─" per free column, so the header and footer are exactly as wide as the terminal | medium: the bytes are in the source text; not executed | Pager.WrittenRuleOverruns | Pager.Rule |

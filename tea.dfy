/**
  The parts of the bubbletea runtime and the bubbles widgets the three
  models talk to, reduced to what the models themselves decide.
*/
module Tea {
  import opened Process

  /** The messages a model's Update receives. */
  datatype Msg =
    | WindowSize(width: int, height: int)  // tea.WindowSizeMsg
    | Key(name: string)                    // tea.KeyMsg, by its String() form
    | Refresh                              // refreshMsg, sent when a refresh timer fires
    | OtherMsg                             // anything else, left to the widget

  /** The command an Update hands back to the runtime. */
  datatype Cmd =
    | NoCmd                      // nil
    | QuitCmd                    // tea.Quit
    | RefreshAfter(seconds: nat) // refreshProcesses(): sleep, then deliver Refresh
    | WidgetCmd                  // whatever the widget's own Update returned

  /** What Update leads to: a command, or the end of the program from log.Fatalf. */
  datatype Reply = Continue(cmd: Cmd) | FatalExit

  /** What View shows: a farewell line once quitting, otherwise the styled frame (not modelled). */
  datatype Screen = Farewell(text: string) | Frame

  /**
    A bubbles list.Model seen as its items, the text of its filter input
    and the size it was given; cursor, pagination and its own filtering
    stay inside the library.
  */
  datatype ListWidget = ListWidget(items: seq<ListItem>, filter: string, width: int, height: int)
}

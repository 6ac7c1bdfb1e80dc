/**
  view.go: the list-based monitor. A refresh fetches a new snapshot every
  second; it replaces the items only while the filter is empty.
*/
module RootView {
  import opened ProcessFacts
  import opened Process
  import opened Tea

  /** Seconds refreshProcesses sleeps before delivering the next refresh. */
  const RefreshSeconds: nat := 1

  /** The quit key handled by Update itself. */
  const QuitKey := "ctrl+c"

  /**
    The lipgloss measurements the resize arithmetic uses: the app style's
    horizontal and vertical frame, the rendered title's height and the
    rendered help's height.
  */
  datatype Layout = Layout(frameWidth: int, frameHeight: int, titleHeight: int, helpHeight: int)

  /** The refresh timer Init arms. */
  function Init(): (c: Cmd)
    ensures c == RefreshAfter(RefreshSeconds) && c.seconds > 0
  {
    RefreshAfter(RefreshSeconds)
  }

  class Model {
    var list: ListWidget
    var quitting: bool

    /** The model main builds: the first snapshot in an unsized list, not quitting. */
    constructor (items: seq<ListItem>)
      ensures list == ListWidget(items, "", 0, 0) && !quitting
    {
      list := ListWidget(items, "", 0, 0);
      quitting := false;
    }

    /**
      model.Update. processes is what the OS answers when a refresh asks
      for a snapshot; layout is what lipgloss measures; widgetFilter is the
      filter text after the list widget handled a message passed on to it.
    */
    method Update(msg: Msg, processes: Read<seq<Handle>>, layout: Layout, widgetFilter: string)
      returns (reply: Reply)
      modifies this
      ensures msg.WindowSize? ==>
        reply == Continue(NoCmd) && quitting == old(quitting) &&
        list == old(list).(width := msg.width - layout.frameWidth,
                           height := msg.height - layout.frameHeight - layout.titleHeight - layout.helpHeight)
      ensures msg.Key? && msg.name == QuitKey ==>
        reply == Continue(QuitCmd) && quitting && list == old(list)
      ensures (msg.Key? && msg.name != QuitKey) || msg.OtherMsg? ==>
        reply == Continue(WidgetCmd) && quitting == old(quitting) &&
        list == old(list).(filter := widgetFilter)
      ensures msg.Refresh? ==> quitting == old(quitting) && (reply == FatalExit <==> processes.Failed?)
      ensures msg.Refresh? && processes.Failed? ==> list == old(list)
      ensures msg.Refresh? && processes.Value? ==>
        reply == Continue(RefreshAfter(RefreshSeconds)) &&
        list.filter == old(list.filter) && list.width == old(list.width) && list.height == old(list.height) &&
        if old(list.filter) == "" then IsProcessList(list.items, processes.value)
        else list.items == old(list.items)
    {
      match msg
      case WindowSize(width, height) =>
        var availableHeight := height - layout.frameHeight - layout.titleHeight - layout.helpHeight;
        list := list.(width := width - layout.frameWidth, height := availableHeight);
        return Continue(NoCmd);
      case Key(name) =>
        if name == QuitKey {
          quitting := true;
          return Continue(QuitCmd);
        }
        list := list.(filter := widgetFilter);
        return Continue(WidgetCmd);
      case Refresh =>
        var filter := list.filter;
        var newItems := GetProcesses(processes);
        if newItems.None? {
          return FatalExit;
        }
        if filter == "" {
          list := list.(items := newItems.value);
        }
        return Continue(RefreshAfter(RefreshSeconds));
      case OtherMsg =>
        list := list.(filter := widgetFilter);
        return Continue(WidgetCmd);
    }

    /** model.View: the farewell once quitting, otherwise the frame. */
    function View(): (s: Screen)
      reads this
      ensures s.Farewell? <==> quitting
      ensures quitting ==> s.text == "Bye!\n"
    {
      if quitting then Farewell("Bye!\n") else Frame
    }
  }
}

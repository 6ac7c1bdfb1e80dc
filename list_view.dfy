/**
  list-version/view.go: the list-based monitor with a help toggle. A
  refresh every three seconds replaces the items with the new snapshot, or,
  while a filter is typed, with the snapshot's items whose filter value is
  exactly that filter.
*/
module ListView {
  import opened Optional
  import opened ProcessFacts
  import opened Snapshot
  import opened Process
  import opened Tea

  /** Seconds refreshProcesses sleeps before delivering the next refresh. */
  const RefreshSeconds: nat := 3

  /** The keys of the Help and Quit bindings (list-version/help.go). */
  const HelpKeys: seq<string> := ["?"]
  const QuitKeys: seq<string> := ["q", "esc", "ctrl+c"]

  /** The binding groups of the full help view, by binding name (list-version/help.go). */
  const FullHelp: seq<seq<string>> := [["up", "down"], ["left", "right"], ["help", "quit"]]

  /** The height titleHeight reserves for the title. */
  const TitleHeight: int := 3

  /** x is a process item whose filter value is exactly filter. */
  predicate Matches(x: ListItem, filter: string) {
    x.ProcessEntry? && FilterValue(x.process) == filter
  }

  /** The elements of xs that keep accepts, in their original order. */
  function Filter<T>(xs: seq<T>, keep: T -> bool): (r: seq<T>)
    ensures |r| <= |xs|
    decreases |xs|
  {
    if xs == [] then []
    else
      var last := xs[|xs| - 1];
      Filter(xs[..|xs| - 1], keep) + (if keep(last) then [last] else [])
  }

  /** The items filterItems keeps: process items whose filter value equals filter, in order. */
  function Matching(items: seq<ListItem>, filter: string): (r: seq<ListItem>)
    ensures |r| <= |items|
  {
    Filter(items, x => Matches(x, filter))
  }

  /** a can be obtained from b by deleting elements. */
  predicate IsSubsequence<T(==)>(a: seq<T>, b: seq<T>)
    decreases |b|
  {
    if a == [] then true
    else if b == [] then false
    else if a[|a| - 1] == b[|b| - 1] then IsSubsequence(a[..|a| - 1], b[..|b| - 1])
    else IsSubsequence(a, b[..|b| - 1])
  }

  /** filterItems: the loop over the items that keeps the exact matches. */
  method FilterItems(items: seq<ListItem>, filter: string) returns (filteredItems: seq<ListItem>)
    ensures filteredItems == Matching(items, filter)
  {
    filteredItems := [];
    for i := 0 to |items|
      invariant filteredItems == Matching(items[..i], filter)
    {
      assert items[..i + 1][..i] == items[..i];
      match items[i]
      case ProcessEntry(it) =>
        if FilterValue(it) == filter {
          filteredItems := filteredItems + [ProcessEntry(it)];
        }
      case ForeignItem(_) =>
    }
    assert items[..|items|] == items;
  }

  /** Everything Filter keeps is an element that keep accepts. */
  lemma {:induction false} FilterSound<T>(xs: seq<T>, keep: T -> bool, x: T)
    requires x in Filter(xs, keep)
    ensures x in xs && keep(x)
    decreases |xs|
  {
    var n := |xs| - 1;
    if x in Filter(xs[..n], keep) {
      FilterSound(xs[..n], keep, x);
    }
  }

  /** Filter keeps every element that keep accepts. */
  lemma {:induction false} FilterComplete<T>(xs: seq<T>, keep: T -> bool, i: nat)
    requires i < |xs| && keep(xs[i])
    ensures xs[i] in Filter(xs, keep)
    decreases |xs|
  {
    var n := |xs| - 1;
    if i < n {
      assert xs[..n][i] == xs[i];
      FilterComplete(xs[..n], keep, i);
    }
  }

  /** Filter keeps the original relative order. */
  lemma {:induction false} FilterIsSubsequence<T>(xs: seq<T>, keep: T -> bool)
    ensures IsSubsequence(Filter(xs, keep), xs)
    decreases |xs|
  {
    if xs != [] {
      var n := |xs| - 1;
      var front := Filter(xs[..n], keep);
      FilterIsSubsequence(xs[..n], keep);
      var r := Filter(xs, keep);
      if r != front {
        assert r[..|r| - 1] == front;
      } else if r != [] && r[|r| - 1] == xs[n] {
        FilterSound(xs[..n], keep, r[|r| - 1]);
        assert false;
      }
    }
  }

  /** Everything kept is a process item whose filter value is exactly the filter. */
  lemma MatchingSound(items: seq<ListItem>, filter: string, x: ListItem)
    requires x in Matching(items, filter)
    ensures x in items && x.ProcessEntry? && FilterValue(x.process) == filter
  {
    FilterSound(items, x => Matches(x, filter), x);
  }

  /** Every process item whose filter value is exactly the filter is kept. */
  lemma MatchingComplete(items: seq<ListItem>, filter: string, i: nat)
    requires i < |items| && items[i].ProcessEntry? && FilterValue(items[i].process) == filter
    ensures items[i] in Matching(items, filter)
  {
    FilterComplete(items, x => Matches(x, filter), i);
  }

  /** The kept items keep their original relative order. */
  lemma MatchingIsSubsequence(items: seq<ListItem>, filter: string)
    ensures IsSubsequence(Matching(items, filter), items)
  {
    FilterIsSubsequence(items, x => Matches(x, filter));
  }

  /** Nothing is kept exactly when no process item has the filter as its filter value. */
  lemma MatchingEmpty(items: seq<ListItem>, filter: string)
    ensures Matching(items, filter) == [] <==>
      forall i :: 0 <= i < |items| && items[i].ProcessEntry? ==> FilterValue(items[i].process) != filter
  {
    var r := Matching(items, filter);
    if r != [] {
      MatchingSound(items, filter, r[0]);
    }
    forall i | 0 <= i < |items| && items[i].ProcessEntry? && FilterValue(items[i].process) == filter
      ensures r != []
    {
      MatchingComplete(items, filter, i);
    }
  }

  /** The items of a subsequence of a sequence of process items are process items in the same order. */
  lemma {:induction false} SubsequenceOfEntries(a: seq<ListItem>, b: seq<ListItem>, i: nat, j: nat)
    requires IsSubsequence(a, b) && AllProcessEntries(b) && i < j < |a|
    ensures a[i].ProcessEntry? && a[j].ProcessEntry?
    ensures exists k, l :: 0 <= k < l < |b| && b[k] == a[i] && b[l] == a[j]
    decreases |b|
  {
    var m := |b| - 1;
    if a[|a| - 1] == b[m] {
      if j < |a| - 1 {
        SubsequenceOfEntries(a[..|a| - 1], b[..m], i, j);
        var k, l :| 0 <= k < l < m && b[..m][k] == a[i] && b[..m][l] == a[j];
        assert b[k] == a[i] && b[l] == a[j];
      } else {
        assert IsSubsequence(a[..|a| - 1], b[..m]);
        SubsequenceHas(a[..|a| - 1], b[..m], i);
        var k :| 0 <= k < m && b[..m][k] == a[i];
        assert b[k] == a[i] && b[m] == a[j];
      }
    } else {
      SubsequenceOfEntries(a, b[..m], i, j);
      var k, l :| 0 <= k < l < m && b[..m][k] == a[i] && b[..m][l] == a[j];
      assert b[k] == a[i] && b[l] == a[j];
    }
  }

  lemma {:induction false} SubsequenceHas<T>(a: seq<T>, b: seq<T>, i: nat)
    requires IsSubsequence(a, b) && i < |a|
    ensures exists k :: 0 <= k < |b| && b[k] == a[i]
    decreases |b|
  {
    var m := |b| - 1;
    if a[|a| - 1] == b[m] {
      if i == |a| - 1 {
        assert b[m] == a[i];
      } else {
        SubsequenceHas(a[..|a| - 1], b[..m], i);
        var k :| 0 <= k < m && b[..m][k] == a[i];
        assert b[k] == a[i];
      }
    } else {
      SubsequenceHas(a, b[..m], i);
      var k :| 0 <= k < m && b[..m][k] == a[i];
      assert b[k] == a[i];
    }
  }

  /** Process items only, ordered by pid, largest first. */
  predicate EntriesByPidDesc(xs: seq<ListItem>) {
    forall i, j :: 0 <= i < j < |xs| ==>
      xs[i].ProcessEntry? && xs[j].ProcessEntry? && xs[i].process.pid >= xs[j].process.pid
  }

  /** Each item kept from a snapshot was read from an enumerated process and matches the filter. */
  lemma FilteredOrigin(latest: seq<ListItem>, hs: seq<Handle>, filter: string, x: ListItem)
    requires IsProcessList(latest, hs) && x in Matching(latest, filter)
    ensures x.ProcessEntry? && FilterValue(x.process) == filter
    ensures exists i :: 0 <= i < |hs| && ReadProcess(hs[i]) == Some(x.process)
  {
    var ps := Unwrap(latest);
    MatchingSound(latest, filter, x);
    var k :| 0 <= k < |latest| && latest[k] == x;
    assert ps[k] == x.process && ps[k] in ps;
    SnapshotMembership(ps, hs);
  }

  /** Two items kept from a snapshot stay in descending pid order. */
  lemma FilteredOrder(latest: seq<ListItem>, hs: seq<Handle>, filter: string, i: nat, j: nat)
    requires IsProcessList(latest, hs) && i < j < |Matching(latest, filter)|
    ensures Matching(latest, filter)[i].ProcessEntry? && Matching(latest, filter)[j].ProcessEntry?
    ensures Matching(latest, filter)[i].process.pid >= Matching(latest, filter)[j].process.pid
  {
    var ps := Unwrap(latest);
    var r := Matching(latest, filter);
    MatchingIsSubsequence(latest, filter);
    SubsequenceOfEntries(r, latest, i, j);
    var k, l :| 0 <= k < l < |latest| && latest[k] == r[i] && latest[l] == r[j];
    assert ps[k] == r[i].process && ps[l] == r[j].process;
  }

  /**
    The filter is applied to the new snapshot: after a refresh the items are
    records of processes whose seven queries all succeeded, their filter
    value is the filter, and they are still in descending pid order.
  */
  lemma LatestFilteredItems(latest: seq<ListItem>, hs: seq<Handle>, filter: string)
    requires IsProcessList(latest, hs)
    ensures forall x :: x in Matching(latest, filter) ==>
      x.ProcessEntry? && FilterValue(x.process) == filter &&
      exists i :: 0 <= i < |hs| && ReadProcess(hs[i]) == Some(x.process)
    ensures EntriesByPidDesc(Matching(latest, filter))
  {
    forall x | x in Matching(latest, filter)
      ensures x.ProcessEntry? && FilterValue(x.process) == filter &&
        exists i :: 0 <= i < |hs| && ReadProcess(hs[i]) == Some(x.process)
    {
      FilteredOrigin(latest, hs, filter, x);
    }
    var r := Matching(latest, filter);
    forall i, j | 0 <= i < j < |r|
      ensures r[i].ProcessEntry? && r[j].ProcessEntry? && r[i].process.pid >= r[j].process.pid
    {
      FilteredOrder(latest, hs, filter, i, j);
    }
  }

  /** model.Init: tea.Batch of the single refresh timer. */
  function Init(): (c: Cmd)
    ensures c == RefreshAfter(RefreshSeconds) && c.seconds > 0
  {
    RefreshAfter(RefreshSeconds)
  }

  class Model {
    var list: ListWidget
    var showAll: bool
    var quitting: bool

    /** The model main builds: the first snapshot, help collapsed, not quitting. */
    constructor (items: seq<ListItem>)
      ensures list == ListWidget(items, "", 0, 0) && !showAll && !quitting
    {
      list := ListWidget(items, "", 0, 0);
      showAll := false;
      quitting := false;
    }

    /** helpHeight: one line for the short help, otherwise one per binding of the first group. */
    function HelpHeight(): (h: int)
      reads this
      ensures showAll ==> h == |FullHelp[0]| == 2
      ensures !showAll ==> h == 1
    {
      if showAll then |FullHelp[0]| else 1
    }

    /**
      model.Update. processes is what the OS answers when a refresh asks
      for a snapshot; verticalFrame is the app style's vertical frame as
      lipgloss measures it; widgetFilter is the filter text after the list
      widget handled a message passed on to it.
    */
    method Update(msg: Msg, processes: Read<seq<Handle>>, verticalFrame: int, widgetFilter: string)
      returns (reply: Reply)
      modifies this
      ensures msg.WindowSize? ==>
        reply == Continue(NoCmd) && showAll == old(showAll) && quitting == old(quitting) &&
        list == old(list).(width := msg.width,
                           height := msg.height - verticalFrame - TitleHeight - old(HelpHeight()))
      ensures msg.Key? && msg.name in HelpKeys ==>
        reply == Continue(NoCmd) && showAll == !old(showAll) && quitting == old(quitting) && list == old(list)
      ensures msg.Key? && msg.name !in HelpKeys && msg.name in QuitKeys ==>
        reply == Continue(QuitCmd) && quitting && showAll == old(showAll) && list == old(list)
      ensures (msg.Key? && msg.name !in HelpKeys && msg.name !in QuitKeys) || msg.OtherMsg? ==>
        reply == Continue(WidgetCmd) && showAll == old(showAll) && quitting == old(quitting) &&
        list == old(list).(filter := widgetFilter)
      ensures msg.Refresh? ==>
        showAll == old(showAll) && quitting == old(quitting) && (reply == FatalExit <==> processes.Failed?)
      ensures msg.Refresh? && processes.Failed? ==> list == old(list)
      ensures msg.Refresh? && processes.Value? ==>
        reply == Continue(RefreshAfter(RefreshSeconds)) &&
        list.filter == old(list.filter) && list.width == old(list.width) && list.height == old(list.height) &&
        exists latest :: IsProcessList(latest, processes.value) &&
          list.items == if old(list.filter) == "" then latest else Matching(latest, old(list.filter))
    {
      match msg
      case WindowSize(width, height) =>
        var availableHeight := height - verticalFrame - TitleHeight - HelpHeight();
        list := list.(width := width, height := availableHeight);
        return Continue(NoCmd);
      case Key(name) =>
        if name in HelpKeys {
          showAll := !showAll;
          return Continue(NoCmd);
        } else if name in QuitKeys {
          quitting := true;
          return Continue(QuitCmd);
        }
        list := list.(filter := widgetFilter);
        return Continue(WidgetCmd);
      case Refresh =>
        var filter := list.filter;
        var newItems := GetProcesses(processes);
        if newItems.None? {
          return FatalExit;
        }
        if filter != "" {
          var filtered := FilterItems(newItems.value, filter);
          list := list.(items := filtered);
        } else {
          list := list.(items := newItems.value);
        }
        return Continue(RefreshAfter(RefreshSeconds));
      case OtherMsg =>
        list := list.(filter := widgetFilter);
        return Continue(WidgetCmd);
    }

    /** model.View: the farewell once quitting, otherwise the frame. */
    function View(): (s: Screen)
      reads this
      ensures s.Farewell? <==> quitting
      ensures quitting ==> s.text == "Bye!\n"
    {
      if quitting then Farewell("Bye!\n") else Frame
    }
  }

  /** Pressing the help key twice restores the help view and changes nothing else. */
  method HelpToggleTwice(m: Model, processes: Read<seq<Handle>>, verticalFrame: int, widgetFilter: string)
    modifies m
    ensures m.showAll == old(m.showAll) && m.quitting == old(m.quitting) && m.list == old(m.list)
  {
    var first := m.Update(Key("?"), processes, verticalFrame, widgetFilter);
    var second := m.Update(Key("?"), processes, verticalFrame, widgetFilter);
  }
}

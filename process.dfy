/**
  process.go: the list item for one process (its title and the value the
  list filters on) and getProcesses, which turns a snapshot into list items.
*/
module Process {
  import opened Optional
  import opened Decimal
  import opened ProcessFacts
  import opened Snapshot

  /**
    A list.Item: the monitor only ever stores process items, but the list
    type admits any value with a filter value.
  */
  datatype ListItem = ProcessEntry(process: ProcessItem) | ForeignItem(filterValue: string)

  /**
    processItem.Title: the pid in parentheses, a space, then the name. The
    pid sits at a fixed, parseable place, so the title gives back pid and name.
  */
  function Title(p: ProcessItem): (t: string)
    ensures ParseTitle(t) == Some((p.pid as int, p.name))
  {
    var digits := Itoa(p.pid as int);
    assert ')' !in digits;
    ItoaRoundTrip(p.pid as int);
    ParseTitleOf(digits, p.name, p.pid as int);
    "(" + digits + ") " + p.name
  }

  /** processItem.FilterValue: the pid's decimal digits, whatever the name, then the name. */
  function FilterValue(p: ProcessItem): (v: string)
    ensures Itoa(p.pid as int) <= v
    ensures v[|Itoa(p.pid as int)|..] == p.name
  {
    Itoa(p.pid as int) + p.name
  }

  /** Reads a title back into its pid and name. */
  function ParseTitle(t: string): Option<(int, string)> {
    if |t| == 0 || t[0] != '(' then None
    else
      var rest := t[1..];
      match IndexOf(rest, ')')
      case None => None
      case Some(k) =>
        if k + 1 < |rest| && rest[k + 1] == ' ' then
          match ParseInt(rest[..k])
          case None => None
          case Some(pid) => Some((pid, rest[k + 2..]))
        else None
  }

  /** Reads a filter value back into the pid at its head and the text after it. */
  function SplitFilterValue(v: string): Option<(int, string)> {
    var k := if |v| > 0 && v[0] == '-' then 1 + DigitRun(v[1..]) else DigitRun(v);
    match ParseInt(v[..k])
    case None => None
    case Some(pid) => Some((pid, v[k..]))
  }

  /** Any parseable number without ')' reads back out of the title layout. */
  lemma ParseTitleOf(digits: string, name: string, pid: int)
    requires ')' !in digits
    requires ParseInt(digits) == Some(pid)
    ensures ParseTitle("(" + digits + ") " + name) == Some((pid, name))
  {
    var rest := ("(" + digits + ") " + name)[1..];
    assert rest == digits + [')'] + (" " + name);
    IndexAfter(digits, ')', " " + name);
    assert rest[..|digits|] == digits;
    assert rest[|digits| + 2..] == name;
  }

  /** When the name does not itself begin with a digit, pid and name can be read back from the filter value. */
  lemma FilterValueRoundTrip(p: ProcessItem)
    requires p.name == [] || !IsDigit(p.name[0])
    ensures SplitFilterValue(FilterValue(p)) == Some((p.pid as int, p.name))
  {
    var digits := Itoa(p.pid as int);
    var v := FilterValue(p);
    if p.pid < 0 {
      assert v[1..] == digits[1..] + p.name;
      DigitRunAfter(digits[1..], p.name);
    } else {
      DigitRunAfter(digits, p.name);
    }
    assert v[..|digits|] == digits;
    assert v[|digits|..] == p.name;
    ItoaRoundTrip(p.pid as int);
  }

  /**
    The filter value does not identify a process: pid 1 named "23" and pid
    12 named "3" both give "123".
  */
  lemma FilterValueAmbiguous()
    ensures exists p: ProcessItem, q: ProcessItem :: p.pid != q.pid && FilterValue(p) == FilterValue(q)
  {
    var p := ProcessItem(1, "23", "", 0.0, 0, 0.0, 0, 0);
    var q := ProcessItem(12, "3", "", 0.0, 0, 0.0, 0, 0);
    assert Itoa(1) == "1";
    assert Itoa(12) == "12";
    assert FilterValue(p) == FilterValue(q);
  }

  /** Wraps each record as a list item, keeping length and order. */
  function Entries(ps: seq<ProcessItem>): (xs: seq<ListItem>)
    ensures |xs| == |ps|
  {
    seq(|ps|, k requires 0 <= k < |ps| => ProcessEntry(ps[k]))
  }

  predicate AllProcessEntries(xs: seq<ListItem>) {
    forall k :: 0 <= k < |xs| ==> xs[k].ProcessEntry?
  }

  /** The records inside a sequence of process items. */
  function Unwrap(xs: seq<ListItem>): (ps: seq<ProcessItem>)
    requires AllProcessEntries(xs)
    ensures |ps| == |xs| && Entries(ps) == xs
  {
    seq(|xs|, k requires 0 <= k < |xs| => xs[k].process)
  }

  /** Wrapping then unwrapping gives the records back, in order. */
  lemma UnwrapEntries(ps: seq<ProcessItem>)
    ensures Unwrap(Entries(ps)) == ps
  {
  }

  /** xs is what getProcesses may return for the enumerated processes hs. */
  predicate IsProcessList(xs: seq<ListItem>, hs: seq<Handle>) {
    AllProcessEntries(xs) && IsSnapshot(Unwrap(xs), hs)
  }

  /**
    getProcesses: a failed enumeration is fatal (log.Fatalf ends the
    program, so nothing is returned); otherwise the snapshot, sorted by pid
    descending, each record wrapped as a list item in the same order.
  */
  method GetProcesses(processes: Read<seq<Handle>>) returns (items: Option<seq<ListItem>>)
    ensures items.None? <==> processes.Failed?
    ensures items.Some? ==> IsProcessList(items.value, processes.value)
  {
    if processes.Failed? {
      return None;
    }
    var processList := CollectAndSort(processes.value);
    var processItems: seq<ListItem> := [];
    for k := 0 to |processList|
      invariant processItems == Entries(processList[..k])
    {
      processItems := processItems + [ProcessEntry(processList[k])];
    }
    assert processList[..|processList|] == processList;
    assert Unwrap(processItems) == processList;
    return Some(processItems);
  }
}

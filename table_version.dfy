/**
  table-version/main.go: the table-based monitor. Each process becomes a
  row of seven cells; byte counts are scaled by powers of 1024; the rows
  are replaced by a new snapshot when the user presses r.
*/
module TableVersion {
  import opened Optional
  import opened Decimal
  import opened ProcessFacts
  import opened Snapshot
  import opened Tea

  /** The unit letters formatBytes picks from, one per power of 1024 from the first. */
  const UnitLetters: string := "KMGTPE"

  /** The keys that end the program and the key that refreshes. */
  const QuitKeys: seq<string> := ["q", "ctrl+c"]
  const RefreshKey: string := "r"

  /** Rows the table leaves for borders and footer below the terminal height. */
  const ChromeHeight: int := 6

  /** 1024 to the power k. */
  function Pow(k: nat): (p: nat)
    ensures p >= 1
  {
    if k == 0 then 1 else 1024 * Pow(k - 1)
  }

  /** How many times 1024 fits into b as a factor: the k with 1024^k <= b < 1024^(k+1). */
  function Magnitude(b: nat): nat
    decreases b
  {
    if b < 1024 then 0 else 1 + Magnitude(b / 1024)
  }

  lemma {:induction false} MagnitudeBounds(b: nat)
    requires b >= 1
    ensures Pow(Magnitude(b)) <= b < Pow(Magnitude(b) + 1)
    decreases b
  {
    if b >= 1024 {
      MagnitudeBounds(b / 1024);
    }
  }

  /** The magnitude is the only k that brackets b between 1024^k and 1024^(k+1). */
  lemma {:induction false} MagnitudeUnique(b: nat, k: nat)
    requires Pow(k) <= b < Pow(k + 1)
    ensures Magnitude(b) == k
    decreases k
  {
    if k > 0 {
      MagnitudeUnique(b / 1024, k - 1);
    }
  }

  /** Below 1024^k the magnitude is below k. */
  lemma {:induction false} MagnitudeBelow(b: nat, k: nat)
    requires 1 <= b < Pow(k)
    ensures Magnitude(b) < k
    decreases k
  {
    if b >= 1024 {
      MagnitudeBelow(b / 1024, k - 1);
    }
  }

  /** Every uint64 is below 1024^7, so a byte count needs at most the sixth unit letter. */
  lemma MagnitudeOfUint64(b: uint64)
    requires b >= 1
    ensures Magnitude(b as int) <= 6 && Pow(Magnitude(b as int)) <= 0x1000_0000_0000_0000
  {
    assert Pow(6) == 0x1000_0000_0000_0000;
    assert Pow(7) == 0x40_0000_0000_0000_0000;
    MagnitudeBelow(b as int, 7);
    PowMonotone(Magnitude(b as int), 6);
  }

  lemma {:induction false} PowMonotone(i: nat, j: nat)
    requires i <= j
    ensures Pow(i) <= Pow(j)
    decreases j
  {
    if i < j {
      PowMonotone(i, j - 1);
    }
  }

  /**
    What formatBytes prints: below 1024 the count and " B"; otherwise the
    count divided by a power of 1024, rendered with one decimal (the
    floating-point quotient is not modelled), a space, the unit letter
    and "iB".
  */
  datatype ByteLabel = Plain(text: string) | Scaled(bytes: uint64, divisor: uint64, unit: char)

  /** The label for b, defined through the magnitude of b. */
  function ByteLabelOf(b: uint64): (shown: ByteLabel)
    ensures shown.Scaled? ==>
      shown.bytes == b && shown.divisor <= b && b as int < 1024 * shown.divisor as int && shown.unit in UnitLetters
  {
    if b < 1024 then Plain(Itoa(b as int) + " B")
    else
      var m := Magnitude(b as int);
      MagnitudeBounds(b as int);
      MagnitudeOfUint64(b);
      Scaled(b, Pow(m) as uint64, UnitLetters[m - 1])
  }

  lemma {:induction false} ShiftDown(b: nat, d: nat, n: nat)
    requires d > 0 && d * n <= b < d * (n + 1)
    ensures (d * 1024) * (n / 1024) <= b < (d * 1024) * (n / 1024 + 1)
  {
    var q, r := n / 1024, n % 1024;
    assert n == 1024 * q + r && r < 1024;
    calc {
      (d * 1024) * q;
    ==
      d * (1024 * q);
    <=
      d * (1024 * q + r);
    ==
      d * n;
    }
    calc {
      d * (n + 1);
    ==
      d * (1024 * q + r + 1);
    <=
      { assert r + 1 <= 1024; }
      d * (1024 * q + 1024);
    ==
      (d * 1024) * (q + 1);
    }
  }

  /** One more factor of 1024 still fits below b while the quotient is at least 1024. */
  lemma GrowFits(b: nat, d: nat, n: nat)
    requires d * n <= b && n >= 1024
    ensures d * 1024 <= b
  {
  }

  /** When the loop stops, b lies between the divisor and 1024 times the divisor. */
  lemma LoopExit(b: nat, d: nat, n: nat)
    requires 1 <= n < 1024 && d * n <= b < d * (n + 1)
    ensures d <= b < d * 1024
  {
  }

  /**
    formatBytes: the loop multiplies the divisor by 1024 while the quotient
    is at least 1024, so it ends with divisor 1024^(exp+1) <= b and
    b / divisor < 1024; exp never exceeds 5 and the uint64 divisor never
    overflows.
  */
  method FormatBytes(b: uint64) returns (shown: ByteLabel)
    ensures shown == ByteLabelOf(b)
    ensures b < 1024 ==> shown == Plain(Itoa(b as int) + " B")
  {
    if b < 1024 {
      return Plain(Itoa(b as int) + " B");
    }
    var div: uint64, exp: nat := 1024, 0;
    var n: uint64 := b / 1024;
    while n >= 1024
      invariant div as int == Pow(exp + 1)
      invariant n >= 1
      invariant div as int * n as int <= b as int < div as int * (n as int + 1)
      decreases n
    {
      ShiftDown(b as int, div as int, n as int);
      GrowFits(b as int, div as int, n as int);
      div := div * 1024;
      exp := exp + 1;
      n := n / 1024;
    }
    LoopExit(b as int, div as int, n as int);
    MagnitudeUnique(b as int, exp + 1);
    MagnitudeOfUint64(b);
    return Scaled(b, div, UnitLetters[exp]);
  }

  /** A cell of a table row, holding the value it displays. */
  datatype Cell =
    | Text(text: string)
    | TwoDecimals(value: real)   // %.2f of a percentage (float formatting not modelled)
    | Size(shown: ByteLabel)     // formatBytes of a byte count
    | DateTime(unixSeconds: int) // a Unix time in seconds, rendered as a local date (not modelled)

  /** Go's integer division, which truncates toward zero. */
  function TruncDiv(x: int, d: nat): (q: int)
    requires d > 0
    ensures x >= 0 ==> 0 <= q && q * d <= x < q * d + d
    ensures x < 0 ==> q <= 0 && q * d - d < x <= q * d
  {
    if x >= 0 then x / d else -((-x) / d)
  }

  /** The row for p: pid, name, CPU %, RAM %, RAM used, parent pid, creation date. */
  function RowOf(p: ProcessItem): (row: seq<Cell>)
    ensures |row| == 7
  {
    [Text(Itoa(p.pid as int)), Text(p.name), TwoDecimals(p.cpu), TwoDecimals(p.ram),
     Size(ByteLabelOf(p.ramAmount)), Text(Itoa(p.ppid as int)),
     DateTime(TruncDiv(p.creationDate as int, 1000))]
  }

  /** The PID and PPID columns read back as the pids, and the name column is the name. */
  lemma RowColumns(p: ProcessItem)
    ensures RowOf(p)[0].Text? && ParseInt(RowOf(p)[0].text) == Some(p.pid as int)
    ensures RowOf(p)[1] == Text(p.name)
    ensures RowOf(p)[4] == Size(ByteLabelOf(p.ramAmount))
    ensures RowOf(p)[5].Text? && ParseInt(RowOf(p)[5].text) == Some(p.ppid as int)
  {
    ItoaRoundTrip(p.pid as int);
    ItoaRoundTrip(p.ppid as int);
  }

  /** createTableRows: one row per process, in the same order. */
  method CreateTableRows(processes: seq<ProcessItem>) returns (rows: seq<seq<Cell>>)
    ensures |rows| == |processes|
    ensures forall k :: 0 <= k < |processes| ==> rows[k] == RowOf(processes[k])
  {
    rows := [];
    for k := 0 to |processes|
      invariant |rows| == k
      invariant forall j :: 0 <= j < k ==> rows[j] == RowOf(processes[j])
    {
      var proc := processes[k];
      var ramAmount := FormatBytes(proc.ramAmount);
      rows := rows + [[Text(Itoa(proc.pid as int)), Text(proc.name), TwoDecimals(proc.cpu),
        TwoDecimals(proc.ram), Size(ramAmount), Text(Itoa(proc.ppid as int)),
        DateTime(TruncDiv(proc.creationDate as int, 1000))]];
    }
  }

  /** getProcesses: fatal when enumeration fails, otherwise the sorted snapshot. */
  method GetProcesses(processes: Read<seq<Handle>>) returns (list: Option<seq<ProcessItem>>)
    ensures list.None? <==> processes.Failed?
    ensures list.Some? ==> IsSnapshot(list.value, processes.value)
  {
    if processes.Failed? {
      return None;
    }
    var processList := CollectAndSort(processes.value);
    return Some(processList);
  }

  /** The rows a table shows for a snapshot. */
  ghost predicate RowsOfSnapshot(rows: seq<seq<Cell>>, hs: seq<Handle>) {
    exists ps :: IsSnapshot(ps, hs) && |rows| == |ps| &&
      forall k :: 0 <= k < |ps| ==> rows[k] == RowOf(ps[k])
  }

  /** A bubbles table.Model seen as its rows and height; the cursor stays inside the library. */
  datatype TableWidget = TableWidget(rows: seq<seq<Cell>>, height: int)

  /** model.Init arms no timer: this version refreshes only on the r key. */
  function Init(): (c: Cmd)
    ensures c == NoCmd && !c.RefreshAfter?
  {
    NoCmd
  }

  class Model {
    var table: TableWidget
    var quitting: bool

    /** The model main builds around the table of the first snapshot. */
    constructor (rows: seq<seq<Cell>>, height: int)
      ensures table == TableWidget(rows, height) && !quitting
    {
      table := TableWidget(rows, height);
      quitting := false;
    }

    /**
      model.Update. processes is what the OS answers when r asks for a
      snapshot. The table's own Update, which every message except a quit
      key reaches, moves only the cursor.
    */
    method Update(msg: Msg, processes: Read<seq<Handle>>) returns (reply: Reply)
      modifies this
      ensures msg.WindowSize? ==>
        reply == Continue(WidgetCmd) && quitting == old(quitting) &&
        table == old(table).(height := msg.height - ChromeHeight)
      ensures msg.Key? && msg.name in QuitKeys ==>
        reply == Continue(QuitCmd) && quitting && table == old(table)
      ensures msg.Key? && msg.name == RefreshKey ==>
        quitting == old(quitting) && table.height == old(table.height) &&
        (reply == FatalExit <==> processes.Failed?) &&
        (processes.Failed? ==> table == old(table)) &&
        (processes.Value? ==> reply == Continue(WidgetCmd) && RowsOfSnapshot(table.rows, processes.value))
      ensures (msg.Key? && msg.name !in QuitKeys && msg.name != RefreshKey) || msg.Refresh? || msg.OtherMsg? ==>
        reply == Continue(WidgetCmd) && quitting == old(quitting) && table == old(table)
    {
      match msg {
        case WindowSize(_, height) =>
          table := table.(height := height - ChromeHeight);
        case Key(name) =>
          if name in QuitKeys {
            quitting := true;
            return Continue(QuitCmd);
          } else if name == RefreshKey {
            var list := GetProcesses(processes);
            if list.None? {
              return FatalExit;
            }
            var rows := CreateTableRows(list.value);
            table := table.(rows := rows);
          }
        case Refresh =>
        case OtherMsg =>
      }
      return Continue(WidgetCmd);
    }

    /** model.View: the farewell once quitting, otherwise the frame. */
    function View(): (s: Screen)
      reads this
      ensures s.Farewell? <==> quitting
      ensures quitting ==> s.text == "Goodbye!\n"
    {
      if quitting then Farewell("Goodbye!\n") else Frame
    }
  }
}

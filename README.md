# pretty-processes, modelled in Dafny

pretty-processes is a terminal process monitor written in Go on top of
bubbletea. It takes a snapshot of the operating system's process table,
shows it as a list (two variants) or as a table (a third variant), and
fetches new snapshots as it runs. This project models its core:

- **The snapshot builder** (`getProcesses`, in `process.go` and again in
  `table-version/main.go`). The operating system is an oracle. Enumeration
  yields a list of process handles or fails. Each of the seven queries per
  process (name, command line, memory percent, extended memory info, CPU
  percent, parent pid, creation time) yields a value or an error. A process
  is dropped at its first failed query and the loop goes on with the next
  process. The survivors are sorted in place by pid, largest first. A
  failed enumeration is fatal (`log.Fatalf`).
- **The item projections.** `Title` and `FilterValue` of a process item.
  `createTableRows` builds seven cells per process. `formatBytes` picks a
  power-of-1024 divisor and a unit letter.
- **The exact-match filter** `filterItems` of the list version.
- **The three `model.Update` state machines**: resize, quit keys, the help
  toggle, and the refresh merge rule of each variant. Each model also has
  `Init` and the quitting branch of `View`. The list and table widgets are
  values: items plus filter text, or rows plus height.

Modules: `Optional`, `Decimal` (Go's `strconv.Itoa` and a parser that
inverts it), `ProcessFacts` (the oracle and the process record), `Snapshot`
(the shared collection loop and the sort), `Process` (`process.go`), `Tea`
(the messages, commands and widgets of bubbletea/bubbles), `RootView`
(`view.go`), `ListView` (`list-version/view.go`) and `TableVersion`
(`table-version/main.go`).

The list-version package defines its own `processItem`, `getProcesses` and
`FilterValue` in a file not covered here. `ListView` assumes they match
`process.go`: the filter value is `strconv.Itoa(pid) + name`, and a refresh
yields a snapshot as `Process.GetProcesses` describes it.

Go's fixed-width integers are newtypes (`int32`, `int64`, `uint64`). The
`formatBytes` loop runs in `uint64`, so the verifier checks that the
divisor never overflows. Floating-point values (CPU and memory
percentages) are carried as `real` and never computed with.

How the program behaves where a reader might expect otherwise:

- A failed enumeration ends the program (`log.Fatalf`). It does not keep
  the displayed items.
- `filterItems` keeps items whose filter value *equals* the filter text.
  It is not a substring match.
- The filter value is the pid's digits followed by the name. The command
  line is not part of it.
- `view.go` keeps the stale items while a filter is typed. It does not
  re-apply the filter.
- The table version's `Init` arms no timer. Only the `r` key refreshes it.

## Model

| member | source | states |
|---|---|---|
| `Decimal.Itoa` | process.go:40 | the decimal text is non-empty, starts with '-' exactly for negative numbers, and is digits otherwise |
| `Decimal.ItoaRoundTrip` | process.go:40 | parsing the decimal text of n gives back n |
| `Decimal.ItoaInjective` | table-version/main.go:235 | two numbers with the same decimal text are equal |
| `ProcessFacts.ReadProcess` | process.go:52-104 | a record is produced iff all seven queries succeed; it holds exactly the answers read, with the RSS of the memory info as its RAM amount |
| `Snapshot.Survivors` | process.go:50-105 | the kept records never outnumber the enumerated processes |
| `Snapshot.SurvivorsAppend` | process.go:52-105 | the survivors of two runs of processes placed one after the other are the survivors of each run, in order |
| `Snapshot.FailureIsolated` | process.go:53-57 | a process with a failed query contributes nothing, and the processes before and after it give exactly what they give on their own: the batch is not aborted |
| `Snapshot.SurvivorIncluded` | process.go:95-104 | a process whose seven queries all succeed has its record among the survivors |
| `Snapshot.SurvivorOrigin` | process.go:95-104 | every survivor is the record read from some enumerated process |
| `Snapshot.EmptyOnlyIfAllFail` | process.go:52-105 | the survivors are empty iff every enumerated process had a failed query |
| `Snapshot.SurvivorsDistinct` | process.go:95-104 | distinct pids among the enumerated processes stay distinct among the survivors |
| `Snapshot.PermutationKeepsDistinct` | process.go:107-109 | reordering records whose pids are distinct keeps them distinct |
| `Snapshot.SnapshotStrict` | process.go:107-109 | with distinct enumerated pids, a snapshot is strictly decreasing by pid |
| `Snapshot.SnapshotMembership` | process.go:52-109 | a process's record is in the snapshot iff all seven of its queries succeeded, and everything in the snapshot was read from an enumerated process |
| `Snapshot.StrictOrderUnique` | process.go:107-109 | two strictly pid-descending sequences with the same elements are equal |
| `Snapshot.SnapshotDetermined` | process.go:107-109 | with distinct enumerated pids there is exactly one snapshot, so the unstable sort's freedom never shows |
| `Snapshot.SinkLeft` | process.go:107-109 | one insertion step: with a[..i] sorted by pid descending, a[..i+1] ends sorted, a[i+1..] is untouched, and the array is a permutation of what it held |
| `Snapshot.SortByPidDesc` | process.go:107-109 | the in-place sort leaves the array sorted by pid, largest first, and a permutation of what it held |
| `Snapshot.CollectAndSort` | process.go:50-109 | the collection loop with its seven early `continue`s, then the sort, gives a snapshot: the survivors, sorted by pid descending, each as often as read; included iff all reads succeeded; strictly decreasing when pids are distinct |
| `Process.ParseTitleOf` | process.go:28 | any number text without ')' that parses to v reads back out of the `(v) name` layout as v and the name |
| `Process.Title` | process.go:28 | the title `(pid) name` reads back into exactly the pid and the name |
| `Process.FilterValue` | process.go:40 | for every name, the filter value begins with the pid's decimal digits and the rest of it is the name |
| `Process.FilterValueRoundTrip` | process.go:40 | when the name does not start with a digit, the pid and the name read back from the filter value |
| `Process.FilterValueAmbiguous` | process.go:40 | two processes with different pids can have the same filter value (pid 1 "23" and pid 12 "3") |
| `Process.Entries` | process.go:111-115 | wrapping records as list items keeps the length |
| `Process.Unwrap` | process.go:111-115 | unwrapping list items and wrapping again gives the same items, with the same length |
| `Process.UnwrapEntries` | process.go:111-115 | wrapping records as list items and unwrapping them gives the same records in the same order |
| `Process.GetProcesses` | process.go:43-118 | no result iff enumeration fails (fatal); otherwise every item is a process item and, unwrapped in order, they form a snapshot of the enumerated processes |
| `RootView.Init` | view.go:97-99 | Init arms the refresh timer, the same 1-second command a refresh re-arms |
| `RootView.Model.constructor` | main.go:15-29 | the model starts with the first snapshot in an unsized list with an empty filter, not quitting |
| `RootView.Model.Update` | view.go:101-134 | resize sizes the list to the window minus frame, title and help and changes nothing else; ctrl+c sets quitting and returns Quit; a refresh is fatal iff enumeration fails, otherwise re-arms the 1-second timer and replaces the items by a snapshot only when the filter is empty, keeping them otherwise; any other message goes to the list widget |
| `RootView.Model.View` | view.go:136-142 | the screen is the farewell iff quitting, and then reads "Bye!\n" |
| `ListView.Filter` | list-version/view.go:150-160 | keeping the elements a test accepts never gives more elements than there were |
| `ListView.FilterSound` | list-version/view.go:152-156 | every element kept is one of the inputs and passes the test |
| `ListView.FilterComplete` | list-version/view.go:152-156 | every input element that passes the test is kept |
| `ListView.FilterIsSubsequence` | list-version/view.go:150-160 | the kept elements keep their original relative order |
| `ListView.Matching` | list-version/view.go:150-160 | the kept items never outnumber the items |
| `ListView.FilterItems` | list-version/view.go:150-160 | the loop returns exactly the items the filter specification keeps |
| `ListView.MatchingSound` | list-version/view.go:153-155 | everything kept is one of the items, a process item, whose filter value equals the filter |
| `ListView.MatchingComplete` | list-version/view.go:153-155 | every process item whose filter value equals the filter is kept |
| `ListView.MatchingIsSubsequence` | list-version/view.go:150-160 | the kept items keep their original relative order (a subsequence of the items) |
| `ListView.MatchingEmpty` | list-version/view.go:150-160 | the result is empty iff no process item's filter value equals the filter; items that are not process items are never kept |
| `ListView.FilteredOrigin` | list-version/view.go:92-101 | an item kept from a new snapshot matches the filter and is the record read from some enumerated process |
| `ListView.FilteredOrder` | list-version/view.go:92-101 | two items kept from a new snapshot stay in descending pid order |
| `ListView.LatestFilteredItems` | list-version/view.go:92-101 | after a filtered refresh every item is the record of a process whose reads all succeeded in the new snapshot, has the filter as its filter value, and the items are still ordered by pid descending |
| `ListView.Init` | list-version/view.go:69-71 | Init arms the refresh timer, the same 3-second command a refresh re-arms |
| `ListView.Model.constructor` | list-version/main.go:15-29 | the model starts with the first snapshot, help collapsed, empty filter, not quitting |
| `ListView.Model.HelpHeight` | list-version/view.go:134-139 | one line for the short help; with ShowAll, the size of the first full-help group, which is 2 |
| `ListView.Model.Update` | list-version/view.go:74-110 | resize sets the list height to height minus frame minus 3 minus helpHeight; the help key toggles ShowAll and nothing else; a quit key sets quitting; a refresh is fatal iff enumeration fails, otherwise re-arms the 3-second timer and sets the items to the new snapshot, or to its exact matches when a filter is typed; other messages go to the widget |
| `ListView.Model.View` | list-version/view.go:113-126 | the screen is the farewell iff quitting, and then reads "Bye!\n" |
| `ListView.HelpToggleTwice` | list-version/view.go:84-86 | pressing the help key twice restores ShowAll and changes nothing else |
| `TableVersion.MagnitudeBounds` | table-version/main.go:254-258 | 1024^Magnitude(b) <= b < 1024^(Magnitude(b)+1) |
| `TableVersion.MagnitudeUnique` | table-version/main.go:254-258 | the magnitude is the only exponent that brackets b that way |
| `TableVersion.MagnitudeOfUint64` | table-version/main.go:254-259 | for every uint64 the magnitude is at most 6 (exp at most 5, so the unit letter index is in range) and the divisor at most 2^60 |
| `TableVersion.ByteLabelOf` | table-version/main.go:249-260 | a scaled label keeps the byte count, has divisor <= bytes < 1024 * divisor, and a unit letter from "KMGTPE" |
| `TableVersion.FormatBytes` | table-version/main.go:249-260 | below 1024 the decimal count and " B"; otherwise the loop ends with divisor 1024^Magnitude(b) and unit letter "KMGTPE"[Magnitude(b)-1], with no uint64 overflow on the way |
| `TableVersion.TruncDiv` | table-version/main.go:241 | Go's `creationDate/1000`: the quotient truncates toward zero, so it has the sign of the dividend and its magnitude is the magnitude of the dividend divided by d, rounded down |
| `TableVersion.RowOf` | table-version/main.go:234-242 | every row has seven cells |
| `TableVersion.RowColumns` | table-version/main.go:234-242 | cell 0 reads back as the pid, cell 1 is the name, cell 4 is the formatted RAM amount, cell 5 reads back as the parent pid |
| `TableVersion.CreateTableRows` | table-version/main.go:230-246 | exactly one row per process, in the same order |
| `TableVersion.GetProcesses` | table-version/main.go:157-227 | no result iff enumeration fails (fatal); otherwise a snapshot: survivors sorted by pid descending |
| `TableVersion.Init` | table-version/main.go:78-80 | Init returns no command at all (`nil`), so no refresh timer is armed |
| `TableVersion.Model.constructor` | table-version/main.go:124-147 | the model starts around the first snapshot's rows, not quitting |
| `TableVersion.Model.Update` | table-version/main.go:82-104 | resize sets the table height to the window height minus 6; q or ctrl+c sets quitting and returns Quit; r is fatal iff enumeration fails, otherwise replaces the rows by the rows of a new snapshot; every other message leaves rows and height alone |
| `TableVersion.Model.View` | table-version/main.go:106-111 | the screen is the farewell iff quitting, and then reads "Goodbye!\n" |

## Left out

- The gopsutil calls are not modelled. The oracle's answers are parameters: `processes` of each `Update`, and the handles given to `getProcesses`.
- Logging (`log.Printf` per failed query) is not modelled. `log.Fatalf` is modelled as the absence of a result (`None`, `FatalExit`).
- Floating-point formatting is not modelled: the `%.2f` cells, the `%.1f` quotient of `formatBytes`, and `Description` in `process.go`. Cells and labels carry the values they format.
- Time formatting is not modelled. The creation-date cell carries the Unix time in seconds, using Go's truncating division by 1000.
- `getTitle` and the list title are not modelled, because they read the clock.
- Rendering is not modelled: lipgloss styles, `itemDelegate.Render`, and the non-quitting `View`, which is the opaque `Frame`.
- Lipgloss measurements are parameters: the frame sizes, `getTitleHeight` and the rendered help height.
- The bubbles widgets' own `Update` is not modelled: cursor, paging, selection and built-in filtering. For the list, the resulting filter text is a parameter (`widgetFilter`). For the table, its `Update` only moves the cursor, so rows and height stay as they are; this includes the `pgup`/`pgdn` cursor moves.
- The refresh timer and the bubbletea runtime are not modelled. `RefreshAfter(seconds)` is a token meaning "a refresh is scheduled".
- Selection continuity and scroll preservation across refreshes are left out. They live in the list library, not in this code.
- Program setup and the key-binding tables are reduced to the constants the Update functions use: Help "?", Quit "q"/"esc"/"ctrl+c", and the first full-help group of two bindings.
- `Snapshot.SortByPidDesc`: Go's `sort.Slice` is pdqsort and not stable. The model sorts by insertion and promises only what `sort.Slice` promises: sorted and a permutation.
- `ListView.Matching`: the list-version package's own `processItem`, `FilterValue` and `getProcesses` live in a file that is not part of this model. `ListView` assumes they are the ones in `process.go`, and every `Matching*` and `Filtered*` row, like the refresh clause of `ListView.Model.Update`, rests on that assumption.

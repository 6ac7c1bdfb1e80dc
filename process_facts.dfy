/**
  What the operating system answers about processes, seen as an oracle.
  Enumeration gives a list of handles or fails; for each handle, each of
  the seven per-process queries the monitor makes (name, command line,
  memory percentage, extended memory info, CPU percentage, parent pid,
  creation time) independently gives a value or an error.
*/
module ProcessFacts {
  import opened Optional

  newtype int32 = x: int | -0x8000_0000 <= x < 0x8000_0000
  newtype int64 = x: int | -0x8000_0000_0000_0000 <= x < 0x8000_0000_0000_0000
  newtype uint64 = x: int | 0 <= x < 0x1_0000_0000_0000_0000

  /** Why one query was refused (the process exited, access denied, a read error). */
  datatype ReadError = NotFound | PermissionDenied | TransientError

  /** The answer to one query: a value or an error. */
  datatype Read<T> = Value(value: T) | Failed(error: ReadError)

  /** The extended memory information; only the resident set size is used. */
  datatype MemoryInfoEx = MemoryInfoEx(rss: uint64, vms: uint64)

  /**
    One enumerated process: its pid, known from enumeration, and what each
    of the seven queries about it answers. Floating-point percentages are
    carried as reals.
  */
  datatype Handle = Handle(
    pid: int32,
    name: Read<string>,
    cmdline: Read<string>,
    memoryPercent: Read<real>,
    memoryInfo: Read<MemoryInfoEx>,
    cpuPercent: Read<real>,
    ppid: Read<int32>,
    createTime: Read<int64>)

  /** The record kept for one process (processItem in process.go and table-version/main.go). */
  datatype ProcessItem = ProcessItem(
    pid: int32,
    name: string,
    cmdline: string,
    ram: real,
    ramAmount: uint64,
    cpu: real,
    ppid: int32,
    creationDate: int64)

  /** Every one of the seven queries about h succeeded. */
  predicate AllFieldsRead(h: Handle) {
    h.name.Value? && h.cmdline.Value? && h.memoryPercent.Value? && h.memoryInfo.Value? &&
    h.cpuPercent.Value? && h.ppid.Value? && h.createTime.Value?
  }

  /** p holds exactly the answers read about h, with the resident set size as its RAM amount. */
  predicate Describes(p: ProcessItem, h: Handle)
    requires AllFieldsRead(h)
  {
    p.pid == h.pid && p.name == h.name.value && p.cmdline == h.cmdline.value &&
    p.ram == h.memoryPercent.value && p.ramAmount == h.memoryInfo.value.rss &&
    p.cpu == h.cpuPercent.value && p.ppid == h.ppid.value && p.creationDate == h.createTime.value
  }

  /**
    The body of the collection loop for one handle: the queries in the
    order getProcesses makes them, giving up on the process at the first
    error.
  */
  function ReadProcess(h: Handle): (r: Option<ProcessItem>)
    ensures r.Some? <==> AllFieldsRead(h)
    ensures r.Some? ==> AllFieldsRead(h) && Describes(r.value, h)
  {
    match h.name
    case Failed(_) => None
    case Value(name) =>
      match h.cmdline
      case Failed(_) => None
      case Value(cmdline) =>
        match h.memoryPercent
        case Failed(_) => None
        case Value(ram) =>
          match h.memoryInfo
          case Failed(_) => None
          case Value(info) =>
            match h.cpuPercent
            case Failed(_) => None
            case Value(cpu) =>
              match h.ppid
              case Failed(_) => None
              case Value(ppid) =>
                match h.createTime
                case Failed(_) => None
                case Value(created) =>
                  Some(ProcessItem(h.pid, name, cmdline, ram, info.rss, cpu, ppid, created))
  }
}

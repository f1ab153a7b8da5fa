/**
 * The AI monitor's confirmation-gated fix pipeline: metric collection into a snapshot,
 * the diagnostic allow-list, execution of a suggested command behind a confirmation prompt,
 * extraction of commands from a reply, the verbosity filter, and run_fixes.
 *
 * The user answering Confirm.ask and the machine answering subprocess.run are an oracle,
 * the class Host, which records every prompt and every command started in its log.
 */
module AiMonitor {
  import opened Wrappers
  import opened PyStr

  // ================================================================ settings

  datatype DataFormat = Raw | Structured | Hybrid

  /** DataFormat.value */
  function FormatValue(f: DataFormat): string {
    match f
    case Raw => "raw"
    case Structured => "structured"
    case Hybrid => "hybrid"
  }

  datatype Verbosity = Concise | Normal | Detailed

  /** The Python exceptions the modelled code lets escape. */
  datatype Exception = AttributeError | TypeError | ValueError | IndexError | KeyError | ZeroDivisionError

  // ================================================================ the snapshot

  /**
   * SystemSnapshot. Floats are kept as the token text float() would read
   * (the load words without commas, the disk percentage without "%").
   */
  datatype SystemSnapshot = SystemSnapshot(
    loadAvg: seq<string>,
    cpuCores: int,
    memoryDb: map<string, int>,
    diskUsagePercent: string,
    rawUptime: Option<string>,
    rawFree: Option<string>,
    rawDf: Option<string>,
    rawTop: Option<string>)

  /** A value in asdict(snapshot). */
  datatype Value = Floats(floats: seq<string>) | Int(number: int) | Ints(counts: map<string, int>) | Float(text: string) | Str(value: string)

  function StrValue(v: Option<string>): Option<Value> {
    match v
    case None => None
    case Some(t) => Some(Str(t))
  }

  /** asdict(snapshot).items(): every field in declaration order, None where the field is None. */
  function Fields(s: SystemSnapshot): seq<(string, Option<Value>)> {
    [("load_avg", Some(Floats(s.loadAvg))), ("cpu_cores", Some(Int(s.cpuCores))),
     ("memory_db", Some(Ints(s.memoryDb))), ("disk_usage_percent", Some(Float(s.diskUsagePercent))),
     ("raw_uptime", StrValue(s.rawUptime)), ("raw_free", StrValue(s.rawFree)),
     ("raw_df", StrValue(s.rawDf)), ("raw_top", StrValue(s.rawTop))]
  }

  /** The entries whose value is present, in their order. */
  function Present<V>(fs: seq<(string, Option<V>)>): seq<(string, V)> {
    if fs == [] then []
    else (if fs[0].1.Some? then [(fs[0].0, fs[0].1.value)] else []) + Present(fs[1..])
  }

  lemma {:induction false} PresentExactly<V>(fs: seq<(string, Option<V>)>, k: string, v: V)
    ensures (k, v) in Present(fs) <==> (k, Some(v)) in fs
  {
    if fs != [] {
      PresentExactly(fs[1..], k, v);
      assert fs == [fs[0]] + fs[1..];
    }
  }

  function Keys<V>(entries: seq<(string, V)>): seq<string> {
    if entries == [] then [] else [entries[0].0] + Keys(entries[1..])
  }

  lemma {:induction false} PresentAppend<V>(xs: seq<(string, Option<V>)>, ys: seq<(string, Option<V>)>)
    ensures Present(xs + ys) == Present(xs) + Present(ys)
  {
    if xs == [] {
      assert xs + ys == ys;
    } else {
      var head := if xs[0].1.Some? then [(xs[0].0, xs[0].1.value)] else [];
      assert (xs + ys)[0] == xs[0];
      assert (xs + ys)[1..] == xs[1..] + ys;
      assert Present(xs + ys) == head + Present(xs[1..] + ys);
      PresentAppend(xs[1..], ys);
      assert Present(xs) == head + Present(xs[1..]);
    }
  }

  lemma {:induction false} KeysAppend<V>(xs: seq<(string, V)>, ys: seq<(string, V)>)
    ensures Keys(xs + ys) == Keys(xs) + Keys(ys)
  {
    if xs == [] {
      assert xs + ys == ys;
    } else {
      assert (xs + ys)[1..] == xs[1..] + ys;
      KeysAppend(xs[1..], ys);
    }
  }

  /** SystemSnapshot.to_dict */
  function ToDict(s: SystemSnapshot): seq<(string, Value)> {
    Present(Fields(s))
  }

  /** to_dict keeps a field, with its value, exactly when the value is not None. */
  lemma ToDictOmitsNone(s: SystemSnapshot, k: string, v: Value)
    ensures (k, v) in ToDict(s) <==> (k, Some(v)) in Fields(s)
  {
    PresentExactly(Fields(s), k, v);
  }

  /** So the four readings are always there, and each raw output exactly when it was collected. */
  lemma ToDictKeys(s: SystemSnapshot, k: string)
    ensures (exists v :: (k, v) in ToDict(s)) <==>
      || k in ["load_avg", "cpu_cores", "memory_db", "disk_usage_percent"]
      || (k == "raw_uptime" && s.rawUptime.Some?) || (k == "raw_free" && s.rawFree.Some?)
      || (k == "raw_df" && s.rawDf.Some?) || (k == "raw_top" && s.rawTop.Some?)
  {
    if v :| (k, v) in ToDict(s) {
      ToDictOmitsNone(s, k, v);
    }
    if k == "load_avg" {
      ToDictOmitsNone(s, k, Floats(s.loadAvg));
    } else if k == "cpu_cores" {
      ToDictOmitsNone(s, k, Int(s.cpuCores));
    } else if k == "memory_db" {
      ToDictOmitsNone(s, k, Ints(s.memoryDb));
    } else if k == "disk_usage_percent" {
      ToDictOmitsNone(s, k, Float(s.diskUsagePercent));
    } else if k == "raw_uptime" && s.rawUptime.Some? {
      ToDictOmitsNone(s, k, Str(s.rawUptime.value));
    } else if k == "raw_free" && s.rawFree.Some? {
      ToDictOmitsNone(s, k, Str(s.rawFree.value));
    } else if k == "raw_df" && s.rawDf.Some? {
      ToDictOmitsNone(s, k, Str(s.rawDf.value));
    } else if k == "raw_top" && s.rawTop.Some? {
      ToDictOmitsNone(s, k, Str(s.rawTop.value));
    }
  }

  // ================================================================ the oracle

  /** What subprocess.run reports for a command that finished. */
  datatype Completion = Completion(returncode: int, stdout: string)

  /** One exchange with the outside world: a prompt and its answer, or a command started. */
  datatype Event = Asked(question: string, answer: bool) | Ran(command: string)

  /** The user behind Confirm.ask and the machine behind subprocess.run. */
  class Host {
    /** The answer to the n-th prompt. */
    const answers: nat -> bool
    /** What running a command yields; None where subprocess.run raises (a timeout, say). */
    const system: string -> Option<Completion>
    /** The number of prompts answered so far. */
    var asked: nat
    /** Every prompt and every command started, in order. */
    var log: seq<Event>

    constructor (answers: nat -> bool, system: string -> Option<Completion>)
      ensures this.answers == answers && this.system == system
      ensures asked == 0 && log == []
    {
      this.answers := answers;
      this.system := system;
      asked := 0;
      log := [];
    }

    /** Confirm.ask(question) */
    method Ask(question: string) returns (yes: bool)
      modifies this
      ensures yes == answers(old(asked)) && asked == old(asked) + 1
      ensures log == old(log) + [Asked(question, yes)]
    {
      yes := answers(asked);
      asked := asked + 1;
      log := log + [Asked(question, yes)];
    }

    /** subprocess.run(command, shell=True, capture_output=True, text=True, ...) */
    method Invoke(command: string) returns (c: Option<Completion>)
      modifies this
      ensures c == system(command) && asked == old(asked)
      ensures log == old(log) + [Ran(command)]
    {
      c := system(command);
      log := log + [Ran(command)];
    }
  }

  /** What an operation adds to the log, the prompt count after it, and what it returns or raises. */
  datatype Step<T> = Step(events: seq<Event>, asked: nat, outcome: Result<T, Exception>)

  /** The log contains a started command. */
  predicate RunsAny(events: seq<Event>) {
    exists i :: 0 <= i < |events| && events[i].Ran?
  }

  // ================================================================ collect

  /** MetricCollector.run_cmd: the stripped standard output, or None when subprocess.run raises. */
  function RunCmd(system: string -> Option<Completion>, cmd: string): Option<string> {
    match system(cmd)
    case None => None
    case Some(c) => Some(Strip(c.stdout))
  }

  method RunCommand(host: Host, cmd: string) returns (out: Option<string>)
    modifies host
    ensures out == RunCmd(host.system, cmd)
    ensures host.log == old(host.log) + [Ran(cmd)] && host.asked == old(host.asked)
  {
    var c := host.Invoke(cmd);
    out := if c.Some? then Some(Strip(c.value.stdout)) else None;
  }

  const UptimeCommand := "uptime"
  const LoadCommand := "uptime | awk -F'average:' '{print $2}'"
  const CoresCommand := "nproc"
  const MemoryCommand := "free -m | grep Mem"
  const DiskCommand := "df -h / | tail -1"
  const FreeCommand := "free -m"
  const DfCommand := "df -h"
  const TopCommand := "top -bn1 | head -20"

  /** [x.strip(",") for x in words] */
  function StripCommas(words: seq<string>): (r: seq<string>)
    ensures |r| == |words|
    ensures forall i :: 0 <= i < |words| ==> r[i] == StripChar(words[i], ',')
  {
    if words == [] then [] else [StripChar(words[0], ',')] + StripCommas(words[1..])
  }

  /** int(words[i]) */
  function IntAt(words: seq<string>, i: nat): Result<int, Exception> {
    if i >= |words| then Err(IndexError)
    else match ParseInt(words[i])
      case None => Err(ValueError)
      case Some(v) => Ok(v)
  }

  /** The memory dict of collect: the second, third and fourth words of the Mem line as total, used and free. */
  function MemoryDb(words: seq<string>): Result<map<string, int>, Exception> {
    match IntAt(words, 1)
    case Err(e) => Err(e)
    case Ok(total) =>
      match IntAt(words, 2)
      case Err(e) => Err(e)
      case Ok(used) =>
        match IntAt(words, 3)
        case Err(e) => Err(e)
        case Ok(free) => Ok(map["total" := total, "used" := used, "free" := free])
  }

  /** The load averages: the words of the awk output without commas; None.split() raises AttributeError. */
  function LoadStage(system: string -> Option<Completion>): Result<seq<string>, Exception> {
    match RunCmd(system, LoadCommand)
    case None => Err(AttributeError)
    case Some(out) => Ok(StripCommas(Split(out)))
  }

  /** int() of the nproc output: int(None) raises TypeError, a non-numeral ValueError. */
  function CoresStage(system: string -> Option<Completion>): Result<int, Exception> {
    match RunCmd(system, CoresCommand)
    case None => Err(TypeError)
    case Some(out) => if ParseInt(out).None? then Err(ValueError) else Ok(ParseInt(out).value)
  }

  function MemoryStage(system: string -> Option<Completion>): Result<map<string, int>, Exception> {
    match RunCmd(system, MemoryCommand)
    case None => Err(AttributeError)
    case Some(out) => MemoryDb(Split(out))
  }

  /** The fifth word of the df row with "%" stripped. */
  function DiskStage(system: string -> Option<Completion>): Result<string, Exception> {
    match RunCmd(system, DiskCommand)
    case None => Err(AttributeError)
    case Some(out) => if |Split(out)| <= 4 then Err(IndexError) else Ok(StripChar(Split(out)[4], '%'))
  }

  /** The structured part of collect from the four readings: it stops at the first one that raises. */
  function Combine(load: Result<seq<string>, Exception>, cores: Result<int, Exception>,
    memory: Result<map<string, int>, Exception>, disk: Result<string, Exception>): Step<SystemSnapshot>
  {
    var e2 := [Ran(UptimeCommand)] + [Ran(LoadCommand)];
    var e3 := e2 + [Ran(CoresCommand)];
    var e4 := e3 + [Ran(MemoryCommand)];
    var e5 := e4 + [Ran(DiskCommand)];
    if load.Err? then Step(e2, 0, Err(load.error))
    else if cores.Err? then Step(e3, 0, Err(cores.error))
    else if memory.Err? then Step(e4, 0, Err(memory.error))
    else if disk.Err? then Step(e5, 0, Err(disk.error))
    else Step(e5, 0, Ok(SystemSnapshot(load.value, cores.value, memory.value, disk.value, None, None, None, None)))
  }

  /** The five ways Combine can end. */
  lemma CombineCases(load: Result<seq<string>, Exception>, cores: Result<int, Exception>,
    memory: Result<map<string, int>, Exception>, disk: Result<string, Exception>)
    ensures var r := Combine(load, cores, memory, disk);
      var e2 := [Ran(UptimeCommand)] + [Ran(LoadCommand)];
      var e3 := e2 + [Ran(CoresCommand)];
      var e4 := e3 + [Ran(MemoryCommand)];
      var e5 := e4 + [Ran(DiskCommand)];
      && (load.Err? ==> r == Step(e2, 0, Err(load.error)))
      && (load.Ok? && cores.Err? ==> r == Step(e3, 0, Err(cores.error)))
      && (load.Ok? && cores.Ok? && memory.Err? ==> r == Step(e4, 0, Err(memory.error)))
      && (load.Ok? && cores.Ok? && memory.Ok? && disk.Err? ==> r == Step(e5, 0, Err(disk.error)))
      && (load.Ok? && cores.Ok? && memory.Ok? && disk.Ok? ==>
        r == Step(e5, 0, Ok(SystemSnapshot(load.value, cores.value, memory.value, disk.value, None, None, None, None))))
      && (r.outcome.Ok? <==> load.Ok? && cores.Ok? && memory.Ok? && disk.Ok?)
  {
  }

  /** The part of collect every call does: the four structured readings, or the exception that stops it. */
  function Readings(system: string -> Option<Completion>): Step<SystemSnapshot> {
    Combine(LoadStage(system), CoresStage(system), MemoryStage(system), DiskStage(system))
  }

  /** The raw outputs collect adds when include_raw is set. */
  function WithRaw(s: SystemSnapshot, system: string -> Option<Completion>): SystemSnapshot {
    s.(rawUptime := RunCmd(system, UptimeCommand), rawFree := RunCmd(system, FreeCommand),
      rawDf := RunCmd(system, DfCommand), rawTop := RunCmd(system, TopCommand))
  }

  const RawEvents := [Ran(FreeCommand), Ran(DfCommand), Ran(TopCommand)]

  /** collect(include_raw): the readings, then the raw outputs only when include_raw is set. */
  function Collection(system: string -> Option<Completion>, includeRaw: bool): Step<SystemSnapshot> {
    var base := Readings(system);
    if base.outcome.Err? || !includeRaw then base
    else Step(base.events + RawEvents, 0, Ok(WithRaw(base.outcome.value, system)))
  }

  method ReadLoad(host: Host) returns (load: Result<seq<string>, Exception>)
    modifies host
    ensures load == LoadStage(host.system)
    ensures host.log == old(host.log) + [Ran(LoadCommand)] && host.asked == old(host.asked)
  {
    var loadStr := RunCommand(host, LoadCommand);
    if loadStr.None? {
      return Err(AttributeError);
    }
    load := Ok(StripCommas(Split(loadStr.value)));
  }

  method ReadCores(host: Host) returns (cores: Result<int, Exception>)
    modifies host
    ensures cores == CoresStage(host.system)
    ensures host.log == old(host.log) + [Ran(CoresCommand)] && host.asked == old(host.asked)
  {
    var nproc := RunCommand(host, CoresCommand);
    if nproc.None? {
      return Err(TypeError);
    }
    var n := ParseInt(nproc.value);
    if n.None? {
      return Err(ValueError);
    }
    cores := Ok(n.value);
  }

  method ReadMemory(host: Host) returns (memory: Result<map<string, int>, Exception>)
    modifies host
    ensures memory == MemoryStage(host.system)
    ensures host.log == old(host.log) + [Ran(MemoryCommand)] && host.asked == old(host.asked)
  {
    var memInfo := RunCommand(host, MemoryCommand);
    if memInfo.None? {
      return Err(AttributeError);
    }
    memory := MemoryDb(Split(memInfo.value));
  }

  method ReadDisk(host: Host) returns (disk: Result<string, Exception>)
    modifies host
    ensures disk == DiskStage(host.system)
    ensures host.log == old(host.log) + [Ran(DiskCommand)] && host.asked == old(host.asked)
  {
    var diskInfo := RunCommand(host, DiskCommand);
    if diskInfo.None? {
      return Err(AttributeError);
    }
    var words := Split(diskInfo.value);
    if |words| <= 4 {
      return Err(IndexError);
    }
    disk := Ok(StripChar(words[4], '%'));
  }

  /** Appending to a log one event at a time appends the events. */
  lemma Logged(log0: seq<Event>, events: seq<Event>, e: Event)
    ensures log0 + events + [e] == log0 + (events + [e])
  {
  }

  method CollectReadings(host: Host) returns (uptime: Option<string>, r: Result<SystemSnapshot, Exception>)
    modifies host
    ensures uptime == RunCmd(host.system, UptimeCommand)
    ensures host.log == old(host.log) + Readings(host.system).events && host.asked == old(host.asked)
    ensures r == Readings(host.system).outcome
  {
    ghost var sys, log0 := host.system, host.log;
    CombineCases(LoadStage(sys), CoresStage(sys), MemoryStage(sys), DiskStage(sys));
    uptime := RunCommand(host, UptimeCommand);
    var load := ReadLoad(host);
    Logged(log0, [Ran(UptimeCommand)], Ran(LoadCommand));
    ghost var events := [Ran(UptimeCommand)] + [Ran(LoadCommand)];
    if load.Err? {
      return uptime, Err(load.error);
    }
    var cores := ReadCores(host);
    Logged(log0, events, Ran(CoresCommand));
    events := events + [Ran(CoresCommand)];
    if cores.Err? {
      return uptime, Err(cores.error);
    }
    var memory := ReadMemory(host);
    Logged(log0, events, Ran(MemoryCommand));
    events := events + [Ran(MemoryCommand)];
    if memory.Err? {
      return uptime, Err(memory.error);
    }
    var disk := ReadDisk(host);
    Logged(log0, events, Ran(DiskCommand));
    events := events + [Ran(DiskCommand)];
    if disk.Err? {
      return uptime, Err(disk.error);
    }
    r := Ok(SystemSnapshot(load.value, cores.value, memory.value, disk.value, None, None, None, None));
  }

  /** MetricCollector.collect */
  method Collect(host: Host, includeRaw: bool) returns (r: Result<SystemSnapshot, Exception>)
    modifies host
    ensures host.log == old(host.log) + Collection(host.system, includeRaw).events && host.asked == old(host.asked)
    ensures r == Collection(host.system, includeRaw).outcome
  {
    var uptime;
    uptime, r := CollectReadings(host);
    if r.Err? || !includeRaw {
      return;
    }
    ghost var log1 := host.log;
    var free := RunCommand(host, FreeCommand);
    var df := RunCommand(host, DfCommand);
    var top := RunCommand(host, TopCommand);
    r := Ok(r.value.(rawUptime := uptime, rawFree := free, rawDf := df, rawTop := top));
    RawLogged(log1, host.log, old(host.log), Readings(host.system).events);
  }

  lemma RawLogged(log1: seq<Event>, log: seq<Event>, log0: seq<Event>, events: seq<Event>)
    requires log1 == log0 + events && log == log1 + [Ran(FreeCommand)] + [Ran(DfCommand)] + [Ran(TopCommand)]
    ensures log == log0 + (events + RawEvents)
  {
  }

  /**
   * The raw fields are filled exactly when include_raw is set, from the outputs of uptime, free -m,
   * df -h and top; the structured readings and whether collect raises do not depend on include_raw.
   */
  lemma CollectRawOnlyWhenAsked(system: string -> Option<Completion>, includeRaw: bool)
    ensures Collection(system, includeRaw).outcome.Ok? <==> Readings(system).outcome.Ok?
    ensures Collection(system, includeRaw).outcome.Ok? ==>
      var s := Collection(system, includeRaw).outcome.value;
      && s.(rawUptime := None, rawFree := None, rawDf := None, rawTop := None) == Readings(system).outcome.value
      && (if includeRaw
          then s.rawUptime == RunCmd(system, UptimeCommand) && s.rawFree == RunCmd(system, FreeCommand)
            && s.rawDf == RunCmd(system, DfCommand) && s.rawTop == RunCmd(system, TopCommand)
          else s.rawUptime.None? && s.rawFree.None? && s.rawDf.None? && s.rawTop.None?)
  {
  }

  /** A successful collect runs the five reading commands in order, then the three raw ones when asked. */
  lemma CollectCommands(system: string -> Option<Completion>, includeRaw: bool)
    requires Collection(system, includeRaw).outcome.Ok?
    ensures Collection(system, includeRaw).events ==
      [Ran(UptimeCommand), Ran(LoadCommand), Ran(CoresCommand), Ran(MemoryCommand), Ran(DiskCommand)]
      + (if includeRaw then RawEvents else [])
  {
    CombineOkEvents(LoadStage(system), CoresStage(system), MemoryStage(system), DiskStage(system));
  }

  lemma CombineOkEvents(load: Result<seq<string>, Exception>, cores: Result<int, Exception>,
                        memory: Result<map<string, int>, Exception>, disk: Result<string, Exception>)
    requires Combine(load, cores, memory, disk).outcome.Ok?
    ensures Combine(load, cores, memory, disk).events ==
      [Ran(UptimeCommand), Ran(LoadCommand), Ran(CoresCommand), Ran(MemoryCommand), Ran(DiskCommand)]
  {
  }

  /** Each reading is taken only when the ones before it succeeded: a failure stops collect right after its command. */
  lemma CollectStopsAtFirstError(system: string -> Option<Completion>, includeRaw: bool)
    ensures LoadStage(system).Err? ==> Collection(system, includeRaw) == Step([Ran(UptimeCommand), Ran(LoadCommand)], 0, Err(AttributeError))
    ensures LoadStage(system).Ok? && CoresStage(system).Err? ==>
      Collection(system, includeRaw) == Step([Ran(UptimeCommand), Ran(LoadCommand), Ran(CoresCommand)], 0, Err(CoresStage(system).error))
  {
  }

  /** A decimal numeral is read by int() as its value. */
  lemma DecimalInt(d: string)
    requires d != [] && AllDigits(d)
    ensures ParseInt(d) == Some(DigitsValue(d))
  {
    DigitsAreGroup(d);
    StripUnchanged(d);
    ParseIntClean(d, DigitsValue(d));
  }

  /** A Mem line with numerals in its second to fourth words yields those numbers as total, used and free. */
  lemma MemoryOfNumerals(words: seq<string>)
    requires |words| >= 4
    requires forall i :: 1 <= i < 4 ==> words[i] != [] && AllDigits(words[i])
    ensures MemoryDb(words) == Ok(map["total" := DigitsValue(words[1]), "used" := DigitsValue(words[2]), "free" := DigitsValue(words[3])])
  {
    DecimalInt(words[1]);
    DecimalInt(words[2]);
    DecimalInt(words[3]);
  }

  /** A Mem line of fewer than two words raises IndexError at the first index, before any int() call. */
  lemma MemoryShortRow(words: seq<string>)
    requires |words| < 2
    ensures MemoryDb(words) == Err(IndexError)
  {
  }

  /** collect strips "%" from the disk percentage, where get_disk keeps it. */
  lemma DiskPercentStripped(p: string)
    requires p != [] && p[0] != '%' && p[|p| - 1] != '%'
    ensures StripChar(p + "%", '%') == p
  {
    var t := p + "%";
    assert StripCharStart(t, '%') == t;
    assert t[..|t| - 1] == p;
    assert StripCharEnd(p, '%') == p;
    assert StripCharEnd(t, '%') == StripCharEnd(p, '%');
  }

  // ================================================================ the diagnostic allow-list

  const DiagnosticCommands: seq<string> :=
    ["systemctl status", "journalctl", "ps aux", "netstat", "free", "lsof", "df", "top -bn1"]

  /** any(sub in s for sub in subs) */
  function AnyOccurs(subs: seq<string>, s: string): (r: bool)
    ensures r <==> exists d :: d in subs && Contains(s, d)
  {
    if subs == [] then false
    else
      assert forall d :: d in subs <==> d == subs[0] || d in subs[1..];
      Contains(s, subs[0]) || AnyOccurs(subs[1..], s)
  }

  /** CommandExecutor.is_diagnostic_command: some allow-listed command is a substring of it. */
  function IsDiagnosticCommand(command: string): (r: bool)
    ensures r <==> exists d :: d in DiagnosticCommands && Contains(command, d)
  {
    AnyOccurs(DiagnosticCommands, command)
  }

  /** A status query is allow-listed. */
  lemma StatusIsDiagnostic()
    ensures IsDiagnosticCommand("sudo systemctl status nginx")
  {
    var d := "systemctl status";
    var c := "sudo " + d + " nginx";
    assert c == "sudo systemctl status nginx";
    assert c[5..5 + |d|] == d;
    assert OccursAt(d, c, 5);
    assert "systemctl status" in DiagnosticCommands;
  }

  /**
   * Every allow-listed command holds a "t", a "p" or an "f", so a command with none of those letters
   * (a kill, a mkdir) is never allow-listed.
   */
  lemma NotDiagnosticWithoutLetters(command: string)
    requires 't' !in command && 'p' !in command && 'f' !in command
    ensures !IsDiagnosticCommand(command)
  {
    NotContainsByChar(command, "systemctl status", 3);
    NotContainsByChar(command, "journalctl", 8);
    NotContainsByChar(command, "ps aux", 0);
    NotContainsByChar(command, "netstat", 2);
    NotContainsByChar(command, "free", 0);
    NotContainsByChar(command, "lsof", 3);
    NotContainsByChar(command, "df", 1);
    NotContainsByChar(command, "top -bn1", 0);
  }

  /**
   * A command naming the allow-list as intended: an allow-listed command, perhaps run under sudo,
   * alone or followed by further arguments.
   */
  predicate LeadsWith(command: string, d: string) {
    command == d || StartsWith(command, d + " ")
  }

  predicate IntendedIsDiagnostic(command: string) {
    exists d :: d in DiagnosticCommands && (LeadsWith(command, d) || LeadsWith(command, "sudo " + d))
  }

  /** A command led by d, perhaps under sudo, holds d. */
  lemma LeadsWithContains(command: string, d: string)
    requires LeadsWith(command, d) || LeadsWith(command, "sudo " + d)
    ensures Contains(command, d)
  {
    if LeadsWith(command, d) {
      assert command[0..|d|] == (d + " ")[..|d|] == d;
      assert OccursAt(d, command, 0);
    } else {
      var u := "sudo " + d;
      assert command[..|u|] == (u + " ")[..|u|] == u;
      assert command[5..5 + |d|] == u[5..] == d;
      assert OccursAt(d, command, 5);
    }
  }

  /** The intended test accepts only commands the substring test accepts too. */
  lemma IntendedIsStricter(command: string)
    requires IntendedIsDiagnostic(command)
    ensures IsDiagnosticCommand(command)
  {
    var d :| d in DiagnosticCommands && (LeadsWith(command, d) || LeadsWith(command, "sudo " + d));
    LeadsWithContains(command, d);
  }

  /** A command led by d, perhaps under sudo, begins with d's first letter or with the "s" of sudo. */
  lemma LeadingLetter(command: string, d: string)
    requires d != ""
    ensures LeadsWith(command, d) ==> command != "" && command[0] == d[0]
    ensures LeadsWith(command, "sudo " + d) ==> command != "" && command[0] == 's'
  {
    assert (d + " ")[0] == d[0];
    assert ("sudo " + d)[0] == 's';
    assert ("sudo " + d + " ")[0] == 's';
  }

  /**
   * Under the intended test, a command whose first letter starts no allow-listed command and is not
   * the "s" of sudo is never allow-listed, so an rm always asks.
   */
  lemma IntendedRejectsOtherCommands(command: string)
    requires command != "" && command[0] !in "sjpnfldt"
    ensures !IntendedIsDiagnostic(command)
  {
    forall d | d in DiagnosticCommands
      ensures !LeadsWith(command, d) && !LeadsWith(command, "sudo " + d)
    {
      assert d != "" && d[0] in "sjpnfldt";
      LeadingLetter(command, d);
    }
  }

  /**
   * As written, any command holding an allow-listed entry anywhere is allow-listed, so execute runs it
   * without asking: a path ending in "pdf" holds "df".
   */
  lemma PdfPathSkipsPrompt(answers: nat -> bool, system: string -> Option<Completion>, asked: nat)
    ensures IsDiagnosticCommand("rm -rf /srv/pdf")
    ensures Execution(answers, system, asked, "rm -rf /srv/pdf", true).events == [Ran("rm -rf /srv/pdf")]
  {
    var c := "rm -rf /srv/pdf";
    assert c[13..15] == "df";
    assert OccursAt("df", c, 13);
    assert "df" in DiagnosticCommands;
  }

  /** The intended test keeps the prompt for that command. */
  lemma IntendedRejectsPdfPath()
    ensures !IntendedIsDiagnostic("rm -rf /srv/pdf")
  {
    IntendedRejectsOtherCommands("rm -rf /srv/pdf");
  }

  // ================================================================ execute

  /** The prompt of execute, and the one of run_fixes. */
  const FixPrompt := "Execute this fix?"
  const CommandPrompt := "Execute this command?"

  /** execute's (success, output) */
  datatype Executed = Executed(success: bool, output: string)

  /** Running the command: success is a zero return code and the output its standard output; str("Error is: ", err) in the except branch raises TypeError. */
  function Invocation(system: string -> Option<Completion>, command: string, asked: nat): Step<Executed> {
    Step([Ran(command)], asked,
      match system(command)
      case None => Err(TypeError)
      case Some(c) => Ok(Executed(c.returncode == 0, c.stdout)))
  }

  /** Whether execute asks before running the command. */
  predicate Gated(command: string, requireConfirm: bool) {
    !IsDiagnosticCommand(command) && requireConfirm
  }

  /** CommandExecutor.execute(command, require_confirm) with the prompt count standing at asked. */
  function Execution(answers: nat -> bool, system: string -> Option<Completion>, asked: nat, command: string, requireConfirm: bool): Step<Executed> {
    if Gated(command, requireConfirm) then
      if answers(asked) then
        var run := Invocation(system, command, asked + 1);
        Step([Asked(FixPrompt, true)] + run.events, run.asked, run.outcome)
      else Step([Asked(FixPrompt, false)], asked + 1, Ok(Executed(false, "Cancelled by user")))
    else Invocation(system, command, asked)
  }

  method Execute(host: Host, command: string, requireConfirm: bool) returns (r: Result<Executed, Exception>)
    modifies host
    ensures host.log == old(host.log) + Execution(host.answers, host.system, old(host.asked), command, requireConfirm).events
    ensures host.asked == Execution(host.answers, host.system, old(host.asked), command, requireConfirm).asked
    ensures r == Execution(host.answers, host.system, old(host.asked), command, requireConfirm).outcome
  {
    if !IsDiagnosticCommand(command) {
      if requireConfirm {
        var yes := host.Ask(FixPrompt);
        if !yes {
          return Ok(Executed(false, "Cancelled by user"));
        }
      }
    }
    var result := host.Invoke(command);
    if result.None? {
      return Err(TypeError);
    }
    r := Ok(Executed(result.value.returncode == 0, result.value.stdout));
  }

  /**
   * A command execute must confirm runs only after a yes to "Execute this fix?", and a no returns
   * (False, "Cancelled by user") without running anything; an allow-listed command, or a call with
   * require_confirm false, runs with no prompt at all.
   */
  lemma ExecuteGate(answers: nat -> bool, system: string -> Option<Completion>, asked: nat, command: string, requireConfirm: bool)
    ensures var e := Execution(answers, system, asked, command, requireConfirm);
      Gated(command, requireConfirm) ==>
        && e.events[0] == Asked(FixPrompt, answers(asked))
        && (RunsAny(e.events) <==> answers(asked))
        && (!answers(asked) ==> e.outcome == Ok(Executed(false, "Cancelled by user")))
    ensures var e := Execution(answers, system, asked, command, requireConfirm);
      !Gated(command, requireConfirm) ==> e.events == [Ran(command)] && e.asked == asked
  {
    var e := Execution(answers, system, asked, command, requireConfirm);
    if Gated(command, requireConfirm) {
      if answers(asked) {
        assert e.events[1].Ran?;
      } else {
        assert e.events == [Asked(FixPrompt, false)];
      }
    }
  }

  /** When execute runs the command, it reports success exactly for return code 0, and the command's standard output. */
  lemma ExecuteReports(answers: nat -> bool, system: string -> Option<Completion>, asked: nat, command: string, requireConfirm: bool)
    requires Ran(command) in Execution(answers, system, asked, command, requireConfirm).events
    requires system(command).Some?
    ensures Execution(answers, system, asked, command, requireConfirm).outcome ==
      Ok(Executed(system(command).value.returncode == 0, system(command).value.stdout))
  {
  }

  // ================================================================ _extract_commands

  /** What _extract_commands takes from one line of the reply, if anything. */
  function CommandIn(line: string): Option<string> {
    var l := Strip(line);
    if StartsWith(l, "$") || StartsWith(l, "sudo") || Contains(l, "systemctl") then
      var cmd := Strip(StripChar(l, '$'));
      if cmd != "" then Some(cmd) else None
    else None
  }

  /** The commands taken from the lines, in line order. */
  function CommandsIn(lines: seq<string>): seq<string> {
    if lines == [] then []
    else
      var n := |lines| - 1;
      CommandsIn(lines[..n]) + (match CommandIn(lines[n]) case Some(c) => [c] case None => [])
  }

  lemma {:induction false} CommandsInAppend(xs: seq<string>, ys: seq<string>)
    ensures CommandsIn(xs + ys) == CommandsIn(xs) + CommandsIn(ys)
    decreases |ys|
  {
    if ys == [] {
      assert xs + ys == xs;
    } else {
      var n := |ys| - 1;
      assert (xs + ys)[..|xs + ys| - 1] == xs + ys[..n];
      assert (xs + ys)[|xs + ys| - 1] == ys[n];
      CommandsInAppend(xs, ys[..n]);
    }
  }

  lemma CommandsStep(lines: seq<string>, i: nat, before: seq<string>, after: seq<string>)
    requires i < |lines| && before == CommandsIn(lines[..i])
    requires after == before + (match CommandIn(lines[i]) case Some(c) => [c] case None => [])
    ensures after == CommandsIn(lines[..i + 1])
  {
    assert lines[..i + 1][..i] == lines[..i];
  }

  /** A command taken from a line is non-empty and free of surrounding whitespace. */
  lemma CommandInShape(line: string, c: string)
    requires CommandIn(line) == Some(c)
    ensures c != "" && !IsSpace(c[0]) && !IsSpace(c[|c| - 1])
  {
    Stripped(StripChar(Strip(line), '$'));
  }

  /** Every extracted command is what some line of the reply yields. */
  lemma {:induction false} CommandsFromLines(lines: seq<string>)
    ensures forall c :: c in CommandsIn(lines) ==> exists i :: 0 <= i < |lines| && CommandIn(lines[i]) == Some(c)
  {
    if lines != [] {
      var n := |lines| - 1;
      CommandsFromLines(lines[..n]);
      forall c | c in CommandsIn(lines)
        ensures exists i :: 0 <= i < |lines| && CommandIn(lines[i]) == Some(c)
      {
        if c in CommandsIn(lines[..n]) {
          var i :| 0 <= i < n && CommandIn(lines[..n][i]) == Some(c);
          assert lines[..n][i] == lines[i];
        } else {
          assert CommandIn(lines[n]) == Some(c);
        }
      }
    }
  }

  /** Every line that yields a command contributes it to the extracted list. */
  lemma {:induction false} CommandsToLines(lines: seq<string>, i: nat)
    requires i < |lines| && CommandIn(lines[i]).Some?
    ensures CommandIn(lines[i]).value in CommandsIn(lines)
  {
    var n := |lines| - 1;
    var prefix := lines[..n];
    if i < n {
      assert prefix[i] == lines[i];
      CommandsToLines(prefix, i);
    }
    Kept(CommandsIn(prefix), CommandIn(lines[n]), CommandsIn(lines), CommandIn(lines[i]).value);
  }

  lemma Kept(before: seq<string>, got: Option<string>, after: seq<string>, c: string)
    requires after == before + (match got case Some(d) => [d] case None => [])
    requires c in before || got == Some(c)
    ensures c in after
  {
  }

  /** A reply gives no commands exactly when none of its lines yields one. */
  lemma NoCommands(lines: seq<string>)
    ensures CommandsIn(lines) == [] <==> forall i :: 0 <= i < |lines| ==> CommandIn(lines[i]).None?
  {
    if CommandsIn(lines) != [] {
      CommandsFromLines(lines);
      var i :| 0 <= i < |lines| && CommandIn(lines[i]) == Some(CommandsIn(lines)[0]);
    }
    forall i | 0 <= i < |lines| && CommandIn(lines[i]).Some? ensures CommandsIn(lines) != [] {
      CommandsToLines(lines, i);
    }
  }

  /** Every extracted command is non-empty and free of surrounding whitespace. */
  lemma CommandsClean(lines: seq<string>)
    ensures forall c :: c in CommandsIn(lines) ==> c != "" && !IsSpace(c[0]) && !IsSpace(c[|c| - 1])
  {
    CommandsFromLines(lines);
    forall c | c in CommandsIn(lines)
      ensures c != "" && !IsSpace(c[0]) && !IsSpace(c[|c| - 1])
    {
      var i :| 0 <= i < |lines| && CommandIn(lines[i]) == Some(c);
      CommandInShape(lines[i], c);
    }
  }

  /** A prompt-style line yields the command after the "$". */
  lemma DollarLine()
    ensures CommandIn(" $ df -h") == Some("df -h")
  {
    var l := "$ df -h";
    assert " $ df -h"[1..] == l;
    assert StripStart(l) == l;
    assert StripStart(" $ df -h") == l;
    assert StripEnd(l) == l;
    assert Strip(" $ df -h") == l;
    assert l[..1] == "$";
    assert l[1..] == " df -h";
    assert StripCharStart(" df -h", '$') == " df -h";
    assert StripCharStart(l, '$') == " df -h";
    assert StripCharEnd(" df -h", '$') == " df -h";
    assert " df -h"[1..] == "df -h";
    assert StripStart("df -h") == "df -h";
    assert StripStart(" df -h") == "df -h";
    assert StripEnd("df -h") == "df -h";
  }

  // ================================================================ _format_response

  /** Whether the upper-cased line mentions SUMMARY:, CRITICAL: or ACTION:. */
  predicate IsImportant(line: string) {
    var u := Upper(line);
    Contains(u, "SUMMARY:") || Contains(u, "CRITICAL:") || Contains(u, "ACTION:")
  }

  /** [line for line in lines if important] */
  function Important(lines: seq<string>): (r: seq<string>)
    ensures forall l :: l in r <==> l in lines && IsImportant(l)
  {
    if lines == [] then []
    else (if IsImportant(lines[0]) then [lines[0]] else []) + Important(lines[1..])
  }

  /** The filter keeps the order of the lines: the marked lines of a + b are those of a, then those of b. */
  lemma {:induction false} ImportantAppend(a: seq<string>, b: seq<string>)
    ensures Important(a + b) == Important(a) + Important(b)
  {
    if a == [] {
      assert a + b == b;
    } else {
      var head := if IsImportant(a[0]) then [a[0]] else [];
      assert (a + b)[0] == a[0];
      assert (a + b)[1..] == a[1..] + b;
      assert Important(a + b) == head + Important(a[1..] + b);
      ImportantAppend(a[1..], b);
    }
  }

  /** _format_response for a verbosity and data format. */
  function FormatResponse(verbosity: Verbosity, format: DataFormat, response: string): string {
    match verbosity
    case Concise => Join("\n", Drop(Important(SplitOn(response, '\n')), 3))
    case Detailed => response + "\n\n[Context: Using " + FormatValue(format) + " format]"
    case Normal => response
  }

  /** The lines of a "\n"-join of lines that hold no "\n" are those lines again. */
  lemma {:induction false} JoinLines(lines: seq<string>)
    requires lines != [] && forall l :: l in lines ==> '\n' !in l
    ensures SplitOn(Join("\n", lines), '\n') == lines
  {
    assert "\n" == ['\n'];
    SplitOnJoin(lines, '\n');
  }

  lemma ImportantLines(response: string)
    ensures forall l :: l in Important(SplitOn(response, '\n')) ==> '\n' !in l
  {
  }

  /**
   * CONCISE, as written: the reply's lines are filtered for SUMMARY:, CRITICAL: and ACTION:, and all
   * but the first three of them are kept, so a reply with at most three such lines gives "".
   */
  lemma ConciseDropsFirstThree(format: DataFormat, response: string)
    ensures var important := Important(SplitOn(response, '\n'));
      if |important| <= 3 then FormatResponse(Concise, format, response) == ""
      else SplitOn(FormatResponse(Concise, format, response), '\n') == important[3..]
  {
    var important := Important(SplitOn(response, '\n'));
    ImportantLines(response);
    if |important| > 3 {
      JoinLines(important[3..]);
    }
  }

  /** A one-line reply that starts with SUMMARY: is a marked line, yet CONCISE turns it into "". */
  lemma ConciseLosesSummary(format: DataFormat, line: string)
    requires StartsWith(line, "SUMMARY:") && '\n' !in line
    ensures IsImportant(line)
    ensures FormatResponse(Concise, format, line) == ""
  {
    SummaryMarked(line);
    SingleLine(line, '\n');
    assert |Important([line])| == 1;
  }

  lemma SummaryMarked(line: string)
    requires StartsWith(line, "SUMMARY:")
    ensures IsImportant(line)
  {
    var u := Upper(line);
    assert u[..8] == "SUMMARY:";
    assert OccursAt("SUMMARY:", u, 0);
  }

  lemma SingleLine(line: string, c: char)
    requires c !in line
    ensures SplitOn(line, c) == [line]
  {
    SplitOnJoin([line], c);
  }

  /** CONCISE as the comment intends ("maxing 3 lines"): the first three marked lines. */
  function IntendedConcise(response: string): string {
    Join("\n", Take(Important(SplitOn(response, '\n')), 3))
  }

  /** The intended filter keeps the first three marked lines, in order, and nothing else. */
  lemma IntendedConciseKeepsFirstThree(response: string)
    ensures var important := Important(SplitOn(response, '\n'));
      important != [] ==> SplitOn(IntendedConcise(response), '\n') == Take(important, 3)
    ensures Important(SplitOn(response, '\n')) == [] ==> IntendedConcise(response) == ""
  {
    var important := Important(SplitOn(response, '\n'));
    ImportantLines(response);
    if important != [] {
      JoinLines(Take(important, 3));
    }
  }

  /** NORMAL returns the reply itself; DETAILED appends the data-format note after a blank line. */
  lemma OtherVerbosities(format: DataFormat, response: string)
    ensures FormatResponse(Normal, format, response) == response
    ensures var r := FormatResponse(Detailed, format, response);
      StartsWith(r, response) && r[|response|..] == "\n\n[Context: Using " + FormatValue(format) + " format]"
  {
    var r := FormatResponse(Detailed, format, response);
    assert r[..|response|] == response;
  }

  // ================================================================ run_fixes

  /** One entry of run_fixes' results. */
  datatype FixResult = FixResult(command: string, success: bool, output: string)

  /** One iteration of run_fixes, with the prompt count standing at asked. */
  function FixStep(answers: nat -> bool, system: string -> Option<Completion>, asked: nat, cmd: string): Step<FixResult> {
    if answers(asked) then
      var e := Execution(answers, system, asked + 1, cmd, true);
      Step([Asked(CommandPrompt, true)] + e.events, e.asked,
        match e.outcome
        case Err(x) => Err(x)
        case Ok(x) => Ok(FixResult(cmd, x.success, Truncate(x.output, 200))))
    else Step([Asked(CommandPrompt, false)], asked + 1, Ok(FixResult(cmd, false, "Skipped by user")))
  }

  /** run_fixes over the commands: an exception from execute ends it and propagates. */
  function Fixes(answers: nat -> bool, system: string -> Option<Completion>, asked: nat, cmds: seq<string>): Step<seq<FixResult>> {
    if cmds == [] then Step([], asked, Ok([]))
    else
      var prev := Fixes(answers, system, asked, cmds[..|cmds| - 1]);
      if prev.outcome.Err? then prev
      else
        var s := FixStep(answers, system, prev.asked, cmds[|cmds| - 1]);
        Step(prev.events + s.events, s.asked,
          match s.outcome
          case Err(x) => Err(x)
          case Ok(f) => Ok(prev.outcome.value + [f]))
  }

  /** Once a command raises, the commands after it are never reached. */
  lemma {:induction false} FixesStopAtError(answers: nat -> bool, system: string -> Option<Completion>, asked: nat, cmds: seq<string>, i: nat)
    requires i <= |cmds| && Fixes(answers, system, asked, cmds[..i]).outcome.Err?
    ensures Fixes(answers, system, asked, cmds) == Fixes(answers, system, asked, cmds[..i])
    decreases |cmds|
  {
    if i == |cmds| {
      assert cmds[..i] == cmds;
    } else {
      var n := |cmds| - 1;
      assert cmds[..n][..i] == cmds[..i];
      FixesStopAtError(answers, system, asked, cmds[..n], i);
    }
  }

  /** The loop of run_fixes taking one more command after the earlier ones went through. */
  lemma FixesExtend(answers: nat -> bool, system: string -> Option<Completion>, asked: nat, cmds: seq<string>, i: nat, results: seq<FixResult>)
    requires i < |cmds| && Fixes(answers, system, asked, cmds[..i]).outcome == Ok(results)
    ensures var prev := Fixes(answers, system, asked, cmds[..i]);
      var s := FixStep(answers, system, prev.asked, cmds[i]);
      Fixes(answers, system, asked, cmds[..i + 1]) == Step(prev.events + s.events, s.asked,
        match s.outcome
        case Err(x) => Err(x)
        case Ok(f) => Ok(results + [f]))
  {
    assert cmds[..i + 1][..i] == cmds[..i];
  }

  lemma FixesGlue(log0: seq<Event>, logMid: seq<Event>, log: seq<Event>, prev: Step<seq<FixResult>>, s: Step<FixResult>,
                  next: Step<seq<FixResult>>, results: seq<FixResult>, fix: Result<FixResult, Exception>)
    requires logMid == log0 + prev.events && log == logMid + s.events && fix == s.outcome
    requires next == Step(prev.events + s.events, s.asked,
      match s.outcome
      case Err(x) => Err(x)
      case Ok(f) => Ok(results + [f]))
    ensures log == log0 + next.events && next.asked == s.asked
    ensures fix.Ok? ==> next.outcome == Ok(results + [fix.value])
    ensures fix.Err? ==> next.outcome.Err?
  {
  }

  lemma Extended(log0: seq<Event>, events: seq<Event>, e: Event, more: seq<Event>)
    ensures log0 + events + [e] + more == log0 + (events + ([e] + more))
  {
  }

  /** run_fixes gives one result per command, in order, each output at most 200 characters. */
  lemma {:induction false} FixesOnePerCommand(answers: nat -> bool, system: string -> Option<Completion>, asked: nat, cmds: seq<string>)
    ensures var f := Fixes(answers, system, asked, cmds);
      f.outcome.Ok? ==> (|f.outcome.value| == |cmds|
        && forall i :: 0 <= i < |cmds| ==> f.outcome.value[i].command == cmds[i] && |f.outcome.value[i].output| <= 200)
  {
    if cmds != [] {
      var n := |cmds| - 1;
      FixesOnePerCommand(answers, system, asked, cmds[..n]);
    }
  }

  /** A declined "Execute this command?" skips the command; an accepted one hands it to execute. */
  lemma FixStepOutcome(answers: nat -> bool, system: string -> Option<Completion>, asked: nat, cmd: string)
    ensures !answers(asked) ==>
      FixStep(answers, system, asked, cmd) == Step([Asked(CommandPrompt, false)], asked + 1, Ok(FixResult(cmd, false, "Skipped by user")))
    ensures answers(asked) && Execution(answers, system, asked + 1, cmd, true).outcome.Ok? ==>
      var x := Execution(answers, system, asked + 1, cmd, true).outcome.value;
      FixStep(answers, system, asked, cmd).outcome == Ok(FixResult(cmd, x.success, Truncate(x.output, 200)))
  {
  }

  /** The prompt that must be answered yes right before a command starts, and, for a command that is not allow-listed, the one before that. */
  predicate ConfirmedAt(log: seq<Event>, i: int)
    requires 0 <= i < |log| && log[i].Ran?
  {
    if IsDiagnosticCommand(log[i].command) then i >= 1 && log[i - 1] == Asked(CommandPrompt, true)
    else i >= 2 && log[i - 2] == Asked(CommandPrompt, true) && log[i - 1] == Asked(FixPrompt, true)
  }

  /** Every command started in the log was confirmed as run_fixes and execute require. */
  predicate Confirmed(log: seq<Event>) {
    forall i :: 0 <= i < |log| && log[i].Ran? ==> ConfirmedAt(log, i)
  }

  lemma ConfirmedAppend(xs: seq<Event>, ys: seq<Event>)
    requires Confirmed(xs) && Confirmed(ys)
    ensures Confirmed(xs + ys)
  {
    var log := xs + ys;
    forall i | 0 <= i < |log| && log[i].Ran? ensures ConfirmedAt(log, i) {
      if i < |xs| {
        assert log[i] == xs[i];
        assert ConfirmedAt(xs, i);
      } else {
        var j := i - |xs|;
        assert log[i] == ys[j];
        assert ConfirmedAt(ys, j);
      }
    }
  }

  lemma FixStepConfirmed(answers: nat -> bool, system: string -> Option<Completion>, asked: nat, cmd: string)
    ensures Confirmed(FixStep(answers, system, asked, cmd).events)
  {
    var events := FixStep(answers, system, asked, cmd).events;
    if answers(asked) {
      if Gated(cmd, true) {
        if answers(asked + 1) {
          assert events == [Asked(CommandPrompt, true), Asked(FixPrompt, true), Ran(cmd)];
        } else {
          assert events == [Asked(CommandPrompt, true), Asked(FixPrompt, false)];
        }
      } else {
        assert events == [Asked(CommandPrompt, true), Ran(cmd)];
      }
    } else {
      assert events == [Asked(CommandPrompt, false)];
    }
  }

  /**
   * Nothing runs unconfirmed: in everything run_fixes adds to the log, an allow-listed command starts
   * right after a yes to "Execute this command?", and any other command right after a yes to that
   * prompt followed by a yes to "Execute this fix?".
   */
  lemma {:induction false} FixesConfirmed(answers: nat -> bool, system: string -> Option<Completion>, asked: nat, cmds: seq<string>)
    ensures Confirmed(Fixes(answers, system, asked, cmds).events)
  {
    if cmds != [] {
      var n := |cmds| - 1;
      var prev := Fixes(answers, system, asked, cmds[..n]);
      FixesConfirmed(answers, system, asked, cmds[..n]);
      if prev.outcome.Ok? {
        FixStepConfirmed(answers, system, prev.asked, cmds[n]);
        ConfirmedAppend(prev.events, FixStep(answers, system, prev.asked, cmds[n]).events);
      }
    }
  }

  // ================================================================ the monitor

  /** What analyze returns. */
  datatype Analysis = Analysis(snapshot: SystemSnapshot, analysis: string, commands: seq<string>)

  /** analyze asks collect for the raw outputs exactly when the data format is not STRUCTURED. */
  function IncludeRaw(format: DataFormat): bool {
    format != Structured
  }

  /** A snapshot taken for analyze carries the top output exactly when the format is not STRUCTURED. */
  lemma AnalyzeRawChoice(system: string -> Option<Completion>, format: DataFormat)
    requires Readings(system).outcome.Ok?
    ensures Ran(TopCommand) in Collection(system, IncludeRaw(format)).events <==> format != Structured
    ensures format == Structured ==> Collection(system, IncludeRaw(format)).outcome.value.rawUptime.None?
  {
    var includeRaw := IncludeRaw(format);
    CollectRawOnlyWhenAsked(system, includeRaw);
    CollectCommands(system, includeRaw);
    var readings := [Ran(UptimeCommand), Ran(LoadCommand), Ran(CoresCommand), Ran(MemoryCommand), Ran(DiskCommand)];
    assert Ran(TopCommand) !in readings;
    assert Ran(TopCommand) in RawEvents;
  }

  /**
   * The divisions of _prepare_data. RAW divides nothing. STRUCTURED and HYBRID first divide every load
   * by cpu_cores, then memory_db["used"] by memory_db["total"]; a zero divisor raises ZeroDivisionError.
   */
  function PrepareData(format: DataFormat, s: SystemSnapshot): Result<(), Exception> {
    if format == Raw then Ok(())
    else if s.loadAvg != [] && s.cpuCores == 0 then Err(ZeroDivisionError)
    else if "used" !in s.memoryDb || "total" !in s.memoryDb then Err(KeyError)
    else if s.memoryDb["total"] == 0 then Err(ZeroDivisionError)
    else Ok(())
  }

  /** The memory dict collect builds always has the keys total, used and free. */
  lemma MemoryKeys(words: seq<string>)
    requires MemoryDb(words).Ok?
    ensures MemoryDb(words).value.Keys == {"total", "used", "free"}
    ensures MemoryDb(words).value["total"] == ParseInt(words[1]).value
  {
  }

  lemma CollectedMemory(system: string -> Option<Completion>, includeRaw: bool)
    requires Collection(system, includeRaw).outcome.Ok?
    ensures Collection(system, includeRaw).outcome.value.memoryDb == MemoryStage(system).value
    ensures MemoryStage(system).Ok?
  {
    CollectRawOnlyWhenAsked(system, includeRaw);
    CombineCases(LoadStage(system), CoresStage(system), MemoryStage(system), DiskStage(system));
  }

  /**
   * After a successful collect, analyze raises exactly when the format is not RAW and either nproc
   * gave 0 while there are load averages, or free reported a total of 0; the error is ZeroDivisionError.
   */
  lemma AnalyzeDivisionByZero(system: string -> Option<Completion>, format: DataFormat)
    requires Collection(system, IncludeRaw(format)).outcome.Ok?
    ensures var s := Collection(system, IncludeRaw(format)).outcome.value;
      && "total" in s.memoryDb
      && (PrepareData(format, s).Err? <==>
          format != Raw && ((s.loadAvg != [] && s.cpuCores == 0) || s.memoryDb["total"] == 0))
      && (PrepareData(format, s).Err? ==> PrepareData(format, s).error == ZeroDivisionError)
  {
    CollectedMemory(system, IncludeRaw(format));
    var out := RunCmd(system, MemoryCommand).value;
    MemoryKeys(Split(out));
  }

  /** AIMonitor, with the user and the machine behind it. */
  class Monitor {
    const dataFormat: DataFormat
    const verbosity: Verbosity
    const host: Host

    /** AIMonitor(data_format, verbosity); the defaults there are HYBRID and NORMAL. */
    constructor (dataFormat: DataFormat, verbosity: Verbosity, host: Host)
      ensures this.dataFormat == dataFormat && this.verbosity == verbosity && this.host == host
    {
      this.dataFormat := dataFormat;
      this.verbosity := verbosity;
      this.host := host;
    }

    /** AIMonitor._extract_commands */
    method ExtractCommands(response: string) returns (commands: seq<string>)
      ensures commands == CommandsIn(SplitOn(response, '\n'))
    {
      commands := [];
      var lines := SplitOn(response, '\n');
      for i := 0 to |lines|
        invariant commands == CommandsIn(lines[..i])
      {
        ghost var before := commands;
        var line := Strip(lines[i]);
        if StartsWith(line, "$") || StartsWith(line, "sudo") || Contains(line, "systemctl") {
          var cmd := Strip(StripChar(line, '$'));
          if cmd != "" {
            commands := commands + [cmd];
          }
        }
        CommandsStep(lines, i, before, commands);
      }
      assert lines[..|lines|] == lines;
    }

    /** AIMonitor.run_fixes */
    method RunFixes(commands: seq<string>) returns (r: Result<seq<FixResult>, Exception>)
      modifies host
      ensures host.log == old(host.log) + Fixes(host.answers, host.system, old(host.asked), commands).events
      ensures host.asked == Fixes(host.answers, host.system, old(host.asked), commands).asked
      ensures r == Fixes(host.answers, host.system, old(host.asked), commands).outcome
    {
      ghost var log0, asked0 := host.log, host.asked;
      ghost var answers, system := host.answers, host.system;
      var results := [];
      for i := 0 to |commands|
        invariant host.log == log0 + Fixes(answers, system, asked0, commands[..i]).events
        invariant host.asked == Fixes(answers, system, asked0, commands[..i]).asked
        invariant Fixes(answers, system, asked0, commands[..i]).outcome == Ok(results)
      {
        ghost var prev := Fixes(answers, system, asked0, commands[..i]);
        ghost var logMid := host.log;
        FixesExtend(answers, system, asked0, commands, i, results);
        var fix := RunFix(commands[i]);
        FixesGlue(log0, logMid, host.log, prev, FixStep(answers, system, prev.asked, commands[i]),
          Fixes(answers, system, asked0, commands[..i + 1]), results, fix);
        if fix.Err? {
          FixesStopAtError(answers, system, asked0, commands, i + 1);
          return Err(fix.error);
        }
        results := results + [fix.value];
      }
      assert commands[..|commands|] == commands;
      r := Ok(results);
    }

    /** One pass of run_fixes' loop: ask, then execute with confirmation or record the skip. */
    method RunFix(cmd: string) returns (r: Result<FixResult, Exception>)
      modifies host
      ensures host.log == old(host.log) + FixStep(host.answers, host.system, old(host.asked), cmd).events
      ensures host.asked == FixStep(host.answers, host.system, old(host.asked), cmd).asked
      ensures r == FixStep(host.answers, host.system, old(host.asked), cmd).outcome
    {
      ghost var log0, asked0 := host.log, host.asked;
      var yes := host.Ask(CommandPrompt);
      if yes {
        var executed := Execute(host, cmd, true);
        Extended(log0, [], Asked(CommandPrompt, true), Execution(host.answers, host.system, asked0 + 1, cmd, true).events);
        if executed.Err? {
          return Err(executed.error);
        }
        r := Ok(FixResult(cmd, executed.value.success, Truncate(executed.value.output, 200)));
      } else {
        r := Ok(FixResult(cmd, false, "Skipped by user"));
      }
    }

    /** AIMonitor._format_response */
    function Format(response: string): string {
      FormatResponse(verbosity, dataFormat, response)
    }

    /** AIMonitor.analyze, given the model's reply to the prepared data. */
    method Analyze(reply: string) returns (r: Result<Analysis, Exception>)
      modifies host
      ensures host.log == old(host.log) + Collection(host.system, IncludeRaw(dataFormat)).events
      ensures host.asked == old(host.asked)
      ensures r == match Collection(host.system, IncludeRaw(dataFormat)).outcome
        case Err(e) => Err(e)
        case Ok(s) =>
          match PrepareData(dataFormat, s)
          case Err(e) => Err(e)
          case Ok(_) => Ok(Analysis(s, FormatResponse(verbosity, dataFormat, reply), CommandsIn(SplitOn(reply, '\n'))))
    {
      var snapshot := Collect(host, dataFormat != Structured);
      if snapshot.Err? {
        return Err(snapshot.error);
      }
      var prepared := PrepareData(dataFormat, snapshot.value);
      if prepared.Err? {
        return Err(prepared.error);
      }
      var formatted := Format(reply);
      var commands := ExtractCommands(reply);
      r := Ok(Analysis(snapshot.value, formatted, commands));
    }
  }
}

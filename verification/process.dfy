/**
 * Per-process utilisation (src/process.rs): the CPU time of one process
 * read from /proc/<pid>/stat, its resident size and pid read from
 * /proc/<pid>/status, and the refresh that turns two snapshots of the
 * process and of the whole system into a share of the machine.
 */
module Process {
  import opened Text
  import opened Procfs
  import Processor

  /** The CPU time fields of /proc/<pid>/stat, in clock ticks; u64 values. */
  datatype ProcCounters = ProcCounters(utime: nat, stime: nat, cutime: nat, cstime: nat)
  {
    /** Time spent by the process itself, in user and kernel mode. */
    function Total(): nat {
      utime + stime
    }

    /** The process's own time plus that of its waited-for children. */
    function TotalWithChildren(): (t: nat)
      ensures t == Total() + cutime + cstime
      ensures t >= Total()
    {
      utime + stime + cutime + cstime
    }
  }

  /** The counters of a process that has not been sampled (`Default`). */
  const NoProcCounters := ProcCounters(0, 0, 0, 0)

  // ---------------------------------------------------------------------
  // /proc/<pid>/stat

  /**
   * The counters of a /proc/<pid>/stat text: the ASCII-whitespace-separated
   * fields 13 to 16 (counting from 0) read as u64, as utime, stime, cutime
   * and cstime; fewer fields or an unreadable one panics.
   */
  function ParseProcStat(content: string): (r: Result<ProcCounters>)
    ensures var fields := Words(content, true);
      r.Ok? <==> |fields| >= 17 && forall i :: 13 <= i <= 16 ==> ParseU64(fields[i]).Some?
    ensures r.Err? ==> r.error == Panic
    ensures r.Ok? ==> var fields := Words(content, true);
      && ParseU64(fields[13]) == Some(r.value.utime as int) && ParseU64(fields[14]) == Some(r.value.stime as int)
      && ParseU64(fields[15]) == Some(r.value.cutime as int) && ParseU64(fields[16]) == Some(r.value.cstime as int)
  {
    var fields := Words(content, true);
    if |fields| < 17 then Err(Panic)
    else
      var utime := ParseU64(fields[13]);
      var stime := ParseU64(fields[14]);
      var cutime := ParseU64(fields[15]);
      var cstime := ParseU64(fields[16]);
      if utime.None? || stime.None? || cutime.None? || cstime.None? then Err(Panic)
      else Ok(ProcCounters(utime.value, stime.value, cutime.value, cstime.value))
  }

  /** `get_process_stat`: the counters of /proc/<pid>/stat. */
  function ProcessStat(fs: FileSystem, pid: string): Result<ProcCounters> {
    var content :- ReadFile(fs, "/proc/" + pid + "/stat");
    ParseProcStat(content)
  }

  // ---------------------------------------------------------------------
  // /proc/<pid>/status

  /** The trimmed text before the first ':' of a status line and the trimmed text between the first and second ':' (empty when there is none). */
  function StatusEntry(line: string): (string, string) {
    var parts := Split(line, ":");
    (Trim(parts[0]), if |parts| >= 2 then Trim(parts[1]) else "")
  }

  /** The resident size and pid read so far, updated by one status line; other keys leave them alone. */
  function StatusStep(acc: (string, string), line: string): (string, string) {
    var (key, value) := StatusEntry(line);
    if key == "VmRSS" then (Replace(value, " kB", ""), acc.1)
    else if key == "Pid" then (acc.0, value)
    else acc
  }

  /** The status lines applied in order. */
  function StatusFold(acc: (string, string), lines: seq<string>): (r: (string, string))
    ensures (forall i :: 0 <= i < |lines| ==> StatusEntry(lines[i]).0 != "VmRSS") ==> r.0 == acc.0
    ensures (forall i :: 0 <= i < |lines| ==> StatusEntry(lines[i]).0 != "Pid") ==> r.1 == acc.1
    decreases |lines|
  {
    if lines == [] then acc else StatusFold(StatusStep(acc, lines[0]), lines[1..])
  }

  /** The value of the last status line with the given key. */
  function LastStatusValue(lines: seq<string>, key: string): (r: Option<string>)
    ensures r.Some? ==> exists i :: 0 <= i < |lines| && StatusEntry(lines[i]) == (key, r.value)
    ensures r.None? ==> forall i :: 0 <= i < |lines| ==> StatusEntry(lines[i]).0 != key
    decreases |lines|
  {
    if lines == [] then None
    else
      var later := LastStatusValue(lines[1..], key);
      if later.Some? then later
      else if StatusEntry(lines[0]).0 == key then Some(StatusEntry(lines[0]).1)
      else None
  }

  /**
   * Reading the status lines: the resident size is the value of the last
   * "VmRSS" line without " kB", the pid the value of the last "Pid" line,
   * and each is kept from the start when its key does not occur.
   */
  lemma {:induction false} StatusFoldLastWins(acc: (string, string), lines: seq<string>)
    ensures var rss := LastStatusValue(lines, "VmRSS");
      StatusFold(acc, lines).0 == (if rss.Some? then Replace(rss.value, " kB", "") else acc.0)
    ensures var pid := LastStatusValue(lines, "Pid");
      StatusFold(acc, lines).1 == (if pid.Some? then pid.value else acc.1)
    decreases |lines|
  {
    if lines != [] {
      StatusFoldLastWins(StatusStep(acc, lines[0]), lines[1..]);
    }
  }

  /** What `get_rss_pid` returns for a pid or "self": the resident size and the pid from /proc/<idf>/status, empty when absent. */
  function RssPid(fs: FileSystem, idf: string): Result<(string, string)> {
    var content :- ReadFile(fs, "/proc/" + idf + "/status");
    Ok(StatusFold(("", ""), Lines(content)))
  }

  /** `get_rss_pid`: the status lines read one by one, later lines overriding earlier ones. */
  method GetRssPid(fs: FileSystem, idf: string) returns (r: Result<(string, string)>)
    ensures r == RssPid(fs, idf)
  {
    var content :- ReadFile(fs, "/proc/" + idf + "/status");
    var lines := Lines(content);
    var rss := "";
    var pid := "";
    for i := 0 to |lines|
      invariant StatusFold(("", ""), lines) == StatusFold((rss, pid), lines[i..])
    {
      assert lines[i..][1..] == lines[i + 1..];
      var parts := Split(lines[i], ":");
      var key := Trim(parts[0]);
      var value := if |parts| >= 2 then Trim(parts[1]) else "";
      if key == "VmRSS" {
        rss := Replace(value, " kB", "");
      } else if key == "Pid" {
        pid := value;
      }
    }
    assert lines[|lines|..] == [];
    return Ok((rss, pid));
  }

  // ---------------------------------------------------------------------
  // Process

  /** The state of one `Process`. */
  datatype ProcessView = ProcessView(
    usageWithChildren: real, usage: real, rss: string, pid: string,
    last: ProcCounters, latest: ProcCounters,
    lastSystem: Processor.CpuCounters, latestSystem: Processor.CpuCounters)

  /** `cores * delta / totalDiff`: a share of the whole machine, where `cores` processors are busy for `totalDiff` ticks. */
  function Share(cores: nat, delta: int, totalDiff: int): (u: real)
    requires totalDiff != 0
    ensures u * totalDiff as real == cores as real * delta as real
  {
    cores as real * delta as real / totalDiff as real
  }

  /**
   * The two usages after new snapshots were loaded into `v`: both 0 when the
   * system total did not move; otherwise the process's share and then the
   * share with children, where a process total that went backwards panics
   * (u64 subtraction) and keeps what was assigned before it.
   */
  function Usages(v: ProcessView, cores: nat): (r: (Result<()>, ProcessView))
    ensures r.1 == v.(usage := r.1.usage, usageWithChildren := r.1.usageWithChildren)
    ensures r.0.Ok? <==>
      || v.latestSystem.Total() == v.lastSystem.Total()
      || (v.latest.Total() >= v.last.Total() && v.latest.TotalWithChildren() >= v.last.TotalWithChildren())
    ensures r.0.Err? ==> r.0.error == Panic && r.1.usageWithChildren == v.usageWithChildren
  {
    var totalDiff := v.latestSystem.Total() - v.lastSystem.Total();
    if totalDiff == 0 then (Ok(()), v.(usage := 0.0, usageWithChildren := 0.0))
    else if v.latest.Total() < v.last.Total() then (Err(Panic), v)
    else
      var w := v.(usage := Share(cores, v.latest.Total() - v.last.Total(), totalDiff));
      if v.latest.TotalWithChildren() < v.last.TotalWithChildren() then (Err(Panic), w)
      else (Ok(()), w.(usageWithChildren := Share(cores, v.latest.TotalWithChildren() - v.last.TotalWithChildren(), totalDiff)))
  }

  /**
   * What `Process::refresh` does to a process on a machine with `cores`
   * processors: the result and the new state. The latest snapshots become
   * the last ones first; each failing read then stops the refresh where it
   * is.
   */
  function Refreshed(v: ProcessView, fs: FileSystem, cores: nat): (Result<()>, ProcessView) {
    RefreshedWith(v, Processor.SystemStat(fs), ProcessStat(fs, v.pid), RssPid(fs, v.pid), cores)
  }

  /** `Refreshed` given the outcomes of the three reads. */
  function RefreshedWith(
    v: ProcessView, system: Result<Processor.CpuCounters>, stat: Result<ProcCounters>,
    rssPid: Result<(string, string)>, cores: nat): (r: (Result<()>, ProcessView))
    ensures r.0.Ok? ==>
      && system.Ok? && stat.Ok? && rssPid.Ok?
      && r.1.latestSystem == system.value && r.1.latest == stat.value && (r.1.rss, r.1.pid) == rssPid.value
    ensures r.0.Err? ==> r.1.rss == v.rss && r.1.pid == v.pid
  {
    var shifted := v.(last := v.latest, lastSystem := v.latestSystem);
    if system.Err? then (Err(system.error), shifted)
    else if stat.Err? then (Err(stat.error), shifted.(latestSystem := system.value))
    else
      var (u, w) := Usages(shifted.(latestSystem := system.value, latest := stat.value), cores);
      if u.Err? then (u, w)
      else if rssPid.Err? then (Err(rssPid.error), w)
      else (Ok(()), w.(rss := rssPid.value.0, pid := rssPid.value.1))
  }

  /** What `new` returns for a pid or "self". */
  function NewProcessView(fs: FileSystem, idf: string): Result<ProcessView> {
    var rssPid :- RssPid(fs, idf);
    var stat :- ProcessStat(fs, rssPid.1);
    var system :- Processor.SystemStat(fs);
    Ok(ProcessView(0.0, 0.0, rssPid.0, rssPid.1, NoProcCounters, stat, Processor.NoCounters, system))
  }

  class Process {
    var usageWithChildren: real
    var usage: real
    var rss: string
    var pid: string
    var lastStat: ProcCounters
    var latestStat: ProcCounters
    var lastSystemStat: Processor.CpuCounters
    var latestSystemStat: Processor.CpuCounters

    function View(): ProcessView
      reads this
    {
      ProcessView(usageWithChildren, usage, rss, pid, lastStat, latestStat, lastSystemStat, latestSystemStat)
    }

    /** `Process::default`: no snapshots, no usage, empty texts. */
    constructor ()
      ensures View() == ProcessView(0.0, 0.0, "", "", NoProcCounters, NoProcCounters, Processor.NoCounters, Processor.NoCounters)
    {
      usageWithChildren := 0.0;
      usage := 0.0;
      rss := "";
      pid := "";
      lastStat := NoProcCounters;
      latestStat := NoProcCounters;
      lastSystemStat := Processor.NoCounters;
      latestSystemStat := Processor.NoCounters;
    }

    /** The usage part of `Process::refresh`, once the new snapshots are in place. */
    method UpdateUsages(cores: nat) returns (r: Result<()>)
      modifies this
      ensures (r, View()) == Usages(old(View()), cores)
    {
      var totalDiff := latestSystemStat.Total() - lastSystemStat.Total();
      if totalDiff == 0 {
        usage := 0.0;
        usageWithChildren := 0.0;
        return Ok(());
      }
      if latestStat.Total() < lastStat.Total() {
        return Err(Panic);
      }
      usage := Share(cores, latestStat.Total() - lastStat.Total(), totalDiff);
      if latestStat.TotalWithChildren() < lastStat.TotalWithChildren() {
        return Err(Panic);
      }
      usageWithChildren := Share(cores, latestStat.TotalWithChildren() - lastStat.TotalWithChildren(), totalDiff);
      return Ok(());
    }

    /**
     * `Process::refresh` on a machine with `cores` processors: shift both
     * snapshots, read the system and the process counters, recompute the
     * two usages, then reload the resident size and the pid.
     */
    method Refresh(fs: FileSystem, cores: nat) returns (r: Result<()>)
      modifies this
      ensures (r, View()) == Refreshed(old(View()), fs, cores)
    {
      lastSystemStat := latestSystemStat;
      lastStat := latestStat;
      var system := Processor.GetTotalProcessorStat(fs);
      if system.Err? {
        return Err(system.error);
      }
      latestSystemStat := system.value;
      var stat := ProcessStat(fs, pid);
      if stat.Err? {
        return Err(stat.error);
      }
      latestStat := stat.value;
      var usages := UpdateUsages(cores);
      if usages.Err? {
        return usages;
      }
      var rssPid := GetRssPid(fs, pid);
      if rssPid.Err? {
        return Err(rssPid.error);
      }
      rss := rssPid.value.0;
      pid := rssPid.value.1;
      return Ok(());
    }
  }

  /** `new`: a process with its resident size, its pid and first snapshots of itself and of the system. */
  method New(fs: FileSystem, idf: string) returns (r: Result<Process>)
    ensures r.Ok? <==> NewProcessView(fs, idf).Ok?
    ensures r.Err? ==> r.error == NewProcessView(fs, idf).error
    ensures r.Ok? ==> fresh(r.value) && r.value.View() == NewProcessView(fs, idf).value
  {
    var process := new Process();
    var rssPid :- GetRssPid(fs, idf);
    process.rss := rssPid.0;
    process.pid := rssPid.1;
    var stat :- ProcessStat(fs, process.pid);
    process.latestStat := stat;
    var system :- Processor.GetTotalProcessorStat(fs);
    process.latestSystemStat := system;
    process.usage := 0.0;
    process.usageWithChildren := 0.0;
    ghost var view := ProcessView(0.0, 0.0, rssPid.0, rssPid.1, NoProcCounters, stat, Processor.NoCounters, system);
    assert NewProcessView(fs, idf) == Ok(view);
    assert process.View() == view;
    return Ok(process);
  }

  // ---------------------------------------------------------------------
  // Properties of a refresh

  /** Whatever happens later, a refresh first makes the latest snapshots the last ones. */
  lemma RefreshShifts(
    v: ProcessView, system: Result<Processor.CpuCounters>, stat: Result<ProcCounters>,
    rssPid: Result<(string, string)>, cores: nat)
    ensures RefreshedWith(v, system, stat, rssPid, cores).1.last == v.latest
    ensures RefreshedWith(v, system, stat, rssPid, cores).1.lastSystem == v.latestSystem
  {
  }

  /** A failing system or process read leaves the usages, the resident size and the pid as they were. */
  lemma RefreshReadFails(
    v: ProcessView, system: Result<Processor.CpuCounters>, stat: Result<ProcCounters>,
    rssPid: Result<(string, string)>, cores: nat)
    requires system.Err? || stat.Err?
    ensures var (r, w) := RefreshedWith(v, system, stat, rssPid, cores);
      && r.Err?
      && w.usage == v.usage && w.usageWithChildren == v.usageWithChildren
      && w.rss == v.rss && w.pid == v.pid && w.latest == v.latest
  {
  }

  /** When the system total did not move, both usages are exactly 0 and no division happens. */
  lemma RefreshIdleSystem(
    v: ProcessView, system: Processor.CpuCounters, stat: ProcCounters,
    rssPid: Result<(string, string)>, cores: nat)
    requires system.Total() == v.latestSystem.Total()
    ensures RefreshedWith(v, Ok(system), Ok(stat), rssPid, cores).1.usage == 0.0
    ensures RefreshedWith(v, Ok(system), Ok(stat), rssPid, cores).1.usageWithChildren == 0.0
  {
  }

  /**
   * Otherwise, when the process's counters did not go backwards, usage is
   * `cores` times the process's share of the system's ticks, and the usage
   * with children the same over all four counters.
   */
  lemma RefreshShares(
    v: ProcessView, system: Processor.CpuCounters, stat: ProcCounters,
    rssPid: Result<(string, string)>, cores: nat)
    requires system.Total() != v.latestSystem.Total()
    requires stat.Total() >= v.latest.Total() && stat.TotalWithChildren() >= v.latest.TotalWithChildren()
    ensures var w := RefreshedWith(v, Ok(system), Ok(stat), rssPid, cores).1;
      var totalDiff := (system.Total() - v.latestSystem.Total()) as real;
      && w.usage * totalDiff == cores as real * (stat.Total() - v.latest.Total()) as real
      && w.usageWithChildren * totalDiff == cores as real * (stat.TotalWithChildren() - v.latest.TotalWithChildren()) as real
  {
  }

  /** A process total that went backwards panics, before any usage is assigned, when the system total moved. */
  lemma RefreshBackwardsPanics(
    v: ProcessView, system: Processor.CpuCounters, stat: ProcCounters,
    rssPid: Result<(string, string)>, cores: nat)
    requires system.Total() != v.latestSystem.Total() && stat.Total() < v.latest.Total()
    ensures RefreshedWith(v, Ok(system), Ok(stat), rssPid, cores).0 == Err(Panic)
    ensures RefreshedWith(v, Ok(system), Ok(stat), rssPid, cores).1.usage == v.usage
    ensures RefreshedWith(v, Ok(system), Ok(stat), rssPid, cores).1.usageWithChildren == v.usageWithChildren
  {
  }

  /** Four cores, 20 ticks of the process and 200 ticks of the system: usage 0.4. */
  lemma ShareExample()
    ensures Share(4, 20, 200) == 0.4
  {
  }

  /**
   * With children counted the usage is never smaller: when the children's
   * counters did not go backwards and the system total grew, the extra
   * ticks only add to the share.
   */
  lemma WithChildrenAtLeastUsage(cores: nat, last: ProcCounters, latest: ProcCounters, totalDiff: int)
    requires totalDiff > 0 && latest.Total() >= last.Total()
    requires latest.cutime >= last.cutime && latest.cstime >= last.cstime
    ensures Share(cores, latest.TotalWithChildren() - last.TotalWithChildren(), totalDiff)
         >= Share(cores, latest.Total() - last.Total(), totalDiff)
  {
    var d := (latest.Total() - last.Total()) as real;
    var dc := (latest.TotalWithChildren() - last.TotalWithChildren()) as real;
    assert dc >= d;
    QuotientMonotone(cores as real * dc, cores as real * d, totalDiff as real);
  }

  /** Dividing by a positive number keeps the order. */
  lemma QuotientMonotone(x: real, y: real, t: real)
    requires t > 0.0 && x >= y
    ensures x / t >= y / t
  {
    assert x / t - y / t == (x - y) / t;
  }

  /** A successful refresh replaces the stored pid with the one /proc/<pid>/status gives, so "self" turns into a number. */
  lemma RefreshResolvesPid(
    v: ProcessView, system: Result<Processor.CpuCounters>, stat: Result<ProcCounters>,
    rssPid: Result<(string, string)>, cores: nat)
    requires RefreshedWith(v, system, stat, rssPid, cores).0.Ok?
    ensures rssPid.Ok?
    ensures RefreshedWith(v, system, stat, rssPid, cores).1.pid == rssPid.value.1
    ensures RefreshedWith(v, system, stat, rssPid, cores).1.rss == rssPid.value.0
  {
  }
}

/**
 * Per-core processor utilisation (src/processor.rs): the cumulative counters
 * of the cpu lines of /proc/stat, the per-core table built from
 * /proc/cpuinfo, and the refresh that turns two counter snapshots into a
 * busy ratio.
 */
module Processor {
  import opened Text
  import opened Procfs

  /** One cpu line of /proc/stat: cumulative jiffies per state since boot. */
  datatype CpuCounters = CpuCounters(
    user: int, nice: int, system: int, idle: int, iowait: int, irq: int, softirq: int)
  {
    /** All the time the line accounts for. */
    function Total(): int {
      user + nice + system + idle + iowait + irq + softirq
    }

    /** The busy part: everything but idle and waiting for I/O. */
    function Work(): (w: int)
      ensures w == Total() - idle - iowait
    {
      user + nice + system + irq + softirq
    }
  }

  /** The counters of a processor that has not been sampled (`Default`). */
  const NoCounters := CpuCounters(0, 0, 0, 0, 0, 0, 0)

  /** No counter went backwards between two snapshots. */
  predicate NoneDecreased(last: CpuCounters, latest: CpuCounters) {
    && last.user <= latest.user && last.nice <= latest.nice && last.system <= latest.system
    && last.idle <= latest.idle && last.iowait <= latest.iowait
    && last.irq <= latest.irq && last.softirq <= latest.softirq
  }

  /**
   * The usage `refresh_all` stores: the busy share of the time that passed
   * between two snapshots, and exactly 0 when no time passed.
   */
  function CoreUsage(last: CpuCounters, latest: CpuCounters): (u: real)
    ensures latest.Total() == last.Total() ==> u == 0.0
    ensures latest.Total() != last.Total() ==>
      u * (latest.Total() - last.Total()) as real == (latest.Work() - last.Work()) as real
  {
    var totalDiff := latest.Total() - last.Total();
    if totalDiff == 0 then 0.0 else (latest.Work() - last.Work()) as real / totalDiff as real
  }

  /** Between two snapshots where no counter went backwards and time passed, a core is busy between 0 and 1. */
  lemma CoreUsageBounded(last: CpuCounters, latest: CpuCounters)
    requires NoneDecreased(last, latest) && latest.Total() > last.Total()
    ensures 0.0 <= CoreUsage(last, latest) <= 1.0
  {
    var w := latest.Work() - last.Work();
    var t := latest.Total() - last.Total();
    assert 0 <= w <= t;
    assert CoreUsage(last, latest) == w as real / t as real;
  }

  // ---------------------------------------------------------------------
  // /proc/stat

  /** /proc/stat trimmed and split at line feeds. */
  function StatLines(content: string): seq<string> {
    Split(Trim(content), "\n")
  }

  /** The ASCII-whitespace-separated fields of one /proc/stat line. */
  function StatFields(line: string): seq<string> {
    Words(line, true)
  }

  /** A per-core line: its first field contains "cpu" but is not "cpu" itself. */
  predicate IsCoreLine(fields: seq<string>)
    requires fields != []
  {
    Contains(fields[0], "cpu") && fields[0] != "cpu"
  }

  /** The aggregate line over all cores: first field "cpu". */
  predicate IsAggregateLine(fields: seq<string>)
    requires fields != []
  {
    Contains(fields[0], "cpu") && fields[0] == "cpu"
  }

  /**
   * The counters of a cpu line: fields 1 to 7 read as i64, in the order
   * user, nice, system, idle, iowait, irq, softirq; a missing or unreadable
   * field panics.
   */
  function ParseCounters(fields: seq<string>): (r: Result<CpuCounters>)
    ensures r.Ok? <==> |fields| >= 8 && forall i :: 1 <= i <= 7 ==> ParseI64(fields[i]).Some?
    ensures r.Err? ==> r.error == Panic
    ensures r.Ok? ==>
      && ParseI64(fields[1]) == Some(r.value.user) && ParseI64(fields[2]) == Some(r.value.nice)
      && ParseI64(fields[3]) == Some(r.value.system) && ParseI64(fields[4]) == Some(r.value.idle)
      && ParseI64(fields[5]) == Some(r.value.iowait) && ParseI64(fields[6]) == Some(r.value.irq)
      && ParseI64(fields[7]) == Some(r.value.softirq)
  {
    if |fields| < 8 then Err(Panic)
    else
      var user := ParseI64(fields[1]);
      var nice := ParseI64(fields[2]);
      var system := ParseI64(fields[3]);
      var idle := ParseI64(fields[4]);
      var iowait := ParseI64(fields[5]);
      var irq := ParseI64(fields[6]);
      var softirq := ParseI64(fields[7]);
      if user.None? || nice.None? || system.None? || idle.None? || iowait.None? || irq.None? || softirq.None?
      then Err(Panic)
      else Ok(CpuCounters(user.value, nice.value, system.value, idle.value, iowait.value, irq.value, softirq.value))
  }

  /** A line `get_processor_stat` gets through: it has a first field, and if it is a core line it parses. */
  predicate StatLineOk(line: string) {
    var fields := StatFields(line);
    fields != [] && (IsCoreLine(fields) ==> ParseCounters(fields).Ok?)
  }

  /**
   * The counters of the core lines, in the order of the lines; a line
   * without fields or a core line that does not parse panics.
   */
  function CoreStats(lines: seq<string>): (r: Result<seq<CpuCounters>>)
    ensures r.Err? ==> r.error == Panic
    decreases |lines|
  {
    if lines == [] then Ok([])
    else
      var fields := StatFields(lines[0]);
      if fields == [] then Err(Panic)
      else if !IsCoreLine(fields) then CoreStats(lines[1..])
      else
        var counters := ParseCounters(fields);
        if counters.Err? then Err(Panic) else PrependAll([counters.value], CoreStats(lines[1..]))
  }

  /** What `get_processor_stat` returns for the given file system. */
  function ProcessorStats(fs: FileSystem): Result<seq<CpuCounters>> {
    if "/proc/stat" !in fs then Err(CannotOpen("/proc/stat")) else CoreStats(StatLines(fs["/proc/stat"]))
  }

  /**
   * `get_processor_stat`: one counter snapshot per core line of /proc/stat,
   * in the order of the lines.
   */
  method GetProcessorStat(fs: FileSystem) returns (r: Result<seq<CpuCounters>>)
    ensures r == ProcessorStats(fs)
  {
    var content :- ReadFile(fs, "/proc/stat");
    var lines := StatLines(content);
    var stats: seq<CpuCounters> := [];
    var i := 0;
    assert lines[0..] == lines;
    PrependNothing(CoreStats(lines));
    while i < |lines|
      invariant 0 <= i <= |lines|
      invariant CoreStats(lines) == PrependAll(stats, CoreStats(lines[i..]))
    {
      assert lines[i..][1..] == lines[i + 1..];
      var fields := StatFields(lines[i]);
      if |fields| == 0 {
        return Err(Panic);
      }
      if Contains(fields[0], "cpu") && fields[0] != "cpu" {
        var counters := ParseCounters(fields);
        if counters.Err? {
          return Err(Panic);
        }
        PrependAllTwice(stats, [counters.value], CoreStats(lines[i + 1..]));
        stats := stats + [counters.value];
      }
      i := i + 1;
    }
    assert lines[i..] == [];
    assert CoreStats([]) == Ok([]);
    assert stats + [] == stats;
    return Ok(stats);
  }

  /** Reading /proc/stat succeeds exactly when every line gets through. */
  lemma {:induction false} CoreStatsOk(lines: seq<string>)
    ensures CoreStats(lines).Ok? <==> forall i :: 0 <= i < |lines| ==> StatLineOk(lines[i])
    decreases |lines|
  {
    if lines != [] {
      CoreStatsOk(lines[1..]);
      assert forall i :: 1 <= i < |lines| ==> lines[i] == lines[1..][i - 1];
    }
  }

  /** Selecting core lines commutes with concatenating line lists: the order of the lines is kept. */
  lemma {:induction false} CoreStatsAppend(a: seq<string>, b: seq<string>)
    requires CoreStats(a).Ok? && CoreStats(b).Ok?
    ensures CoreStats(a + b) == Ok(CoreStats(a).value + CoreStats(b).value)
    decreases |a|
  {
    if a == [] {
      assert a + b == b;
      assert CoreStats(a) == Ok([]);
      assert [] + CoreStats(b).value == CoreStats(b).value;
    } else {
      assert (a + b)[0] == a[0];
      assert (a + b)[1..] == a[1..] + b;
      CoreStatsAppend(a[1..], b);
      var fields := StatFields(a[0]);
      if IsCoreLine(fields) {
        var c := ParseCounters(fields).value;
        assert [c] + (CoreStats(a[1..]).value + CoreStats(b).value) == ([c] + CoreStats(a[1..]).value) + CoreStats(b).value;
      }
    }
  }

  /** A single line contributes its counters exactly when it is a core line. */
  lemma CoreStatsOfLine(line: string)
    requires StatLineOk(line)
    ensures CoreStats([line]) ==
      var fields := StatFields(line);
      Ok(if IsCoreLine(fields) then [ParseCounters(fields).value] else [])
  {
    assert [line][1..] == [];
    assert CoreStats([]) == Ok([]);
    var fields := StatFields(line);
    if IsCoreLine(fields) {
      assert [ParseCounters(fields).value] + [] == [ParseCounters(fields).value];
    }
  }

  /** "cpu" followed by a core number is a core line; "cpu" alone is the aggregate line. */
  lemma NumberedCpuIsCore(n: nat, rest: seq<string>)
    ensures IsCoreLine(["cpu" + Decimal(n)] + rest)
    ensures !IsAggregateLine(["cpu" + Decimal(n)] + rest)
    ensures IsAggregateLine(["cpu"] + rest) && !IsCoreLine(["cpu"] + rest)
  {
    DecimalDigits(n);
    var name := "cpu" + Decimal(n);
    assert "cpu" <= name;
    assert |name| > 3;
    assert "cpu" <= "cpu";
  }

  /**
   * What `get_total_processor_stat` returns for the lines of /proc/stat:
   * the counters of the first line whose first field is "cpu"; a blank
   * line before it panics, and no such line is an error.
   */
  function AggregateStat(lines: seq<string>): (r: Result<CpuCounters>)
    ensures r.Err? ==> r.error == NoCpuLine || r.error == Panic
    decreases |lines|
  {
    if lines == [] then Err(NoCpuLine)
    else
      var fields := StatFields(lines[0]);
      if fields == [] then Err(Panic)
      else if IsAggregateLine(fields) then ParseCounters(fields)
      else AggregateStat(lines[1..])
  }

  /** A line that `get_total_processor_stat` reads past: it has a first field, and that field is not "cpu". */
  predicate SkippedLine(line: string) {
    var fields := StatFields(line);
    fields != [] && fields[0] != "cpu"
  }

  /**
   * The aggregate line is the first line whose first field is "cpu": a
   * successful read parsed line k and every line before k was skipped.
   */
  lemma {:induction false} AggregateStatIsFirst(lines: seq<string>, c: CpuCounters)
    requires AggregateStat(lines) == Ok(c)
    ensures exists k :: (0 <= k < |lines| && StatFields(lines[k]) != [] && StatFields(lines[k])[0] == "cpu"
      && ParseCounters(StatFields(lines[k])) == Ok(c)
      && forall j :: 0 <= j < k ==> SkippedLine(lines[j]))
    decreases |lines|
  {
    var fields := StatFields(lines[0]);
    if IsAggregateLine(fields) {
      assert StatFields(lines[0])[0] == "cpu";
    } else {
      AggregateStatIsFirst(lines[1..], c);
      var k :| 0 <= k < |lines[1..]| && StatFields(lines[1..][k]) != [] && StatFields(lines[1..][k])[0] == "cpu"
        && ParseCounters(StatFields(lines[1..][k])) == Ok(c)
        && forall j :: 0 <= j < k ==> SkippedLine(lines[1..][j]);
      assert forall j :: 1 <= j < k + 1 ==> SkippedLine(lines[j]) by {
        forall j | 1 <= j < k + 1 ensures SkippedLine(lines[j]) {
          assert lines[j] == lines[1..][j - 1];
        }
      }
      assert lines[k + 1] == lines[1..][k];
    }
  }

  /**
   * Conversely, when line k is the first "cpu" line and every line before
   * it is skipped, the read gives the counters parsed from line k.
   */
  lemma {:induction false} AggregateStatFound(lines: seq<string>, k: nat)
    requires k < |lines| && StatFields(lines[k]) != [] && StatFields(lines[k])[0] == "cpu"
    requires forall j :: 0 <= j < k ==> SkippedLine(lines[j])
    ensures AggregateStat(lines) == ParseCounters(StatFields(lines[k]))
    decreases k
  {
    if k == 0 {
      assert IsAggregateLine(StatFields(lines[0])) by {
        assert "cpu" <= StatFields(lines[0])[0];
      }
    } else {
      assert SkippedLine(lines[0]);
      assert lines[1..][k - 1] == lines[k];
      assert forall j :: 0 <= j < k - 1 ==> SkippedLine(lines[1..][j]) by {
        forall j | 0 <= j < k - 1 ensures SkippedLine(lines[1..][j]) {
          assert lines[1..][j] == lines[j + 1];
        }
      }
      AggregateStatFound(lines[1..], k - 1);
    }
  }

  /** The read fails with `NoCpuLine` exactly when every line has a first field and none is "cpu". */
  lemma {:induction false} AggregateStatMissing(lines: seq<string>)
    ensures AggregateStat(lines) == Err(NoCpuLine) <==> forall j :: 0 <= j < |lines| ==> SkippedLine(lines[j])
    decreases |lines|
  {
    if lines != [] {
      AggregateStatMissing(lines[1..]);
      assert forall j :: 1 <= j < |lines| ==> lines[j] == lines[1..][j - 1];
      var fields := StatFields(lines[0]);
      if fields != [] && IsAggregateLine(fields) {
        assert !SkippedLine(lines[0]);
      }
    }
  }

  /** What `get_total_processor_stat` returns for the given file system. */
  function SystemStat(fs: FileSystem): Result<CpuCounters> {
    if "/proc/stat" !in fs then Err(CannotOpen("/proc/stat")) else AggregateStat(StatLines(fs["/proc/stat"]))
  }

  /** `get_total_processor_stat`: the counters of the aggregate "cpu" line of /proc/stat. */
  method GetTotalProcessorStat(fs: FileSystem) returns (r: Result<CpuCounters>)
    ensures r == SystemStat(fs)
  {
    var content :- ReadFile(fs, "/proc/stat");
    var lines := StatLines(content);
    var i := 0;
    while i < |lines|
      invariant 0 <= i <= |lines|
      invariant AggregateStat(lines) == AggregateStat(lines[i..])
    {
      assert lines[i..][1..] == lines[i + 1..];
      var fields := StatFields(lines[i]);
      if |fields| == 0 {
        return Err(Panic);
      }
      if Contains(fields[0], "cpu") && fields[0] == "cpu" {
        return ParseCounters(fields);
      }
      i := i + 1;
    }
    return Err(NoCpuLine);
  }

  // ---------------------------------------------------------------------
  // /proc/cpuinfo

  /** The descriptive fields of one processor block of /proc/cpuinfo. */
  datatype CpuInfo = CpuInfo(index: int, vendorId: string, name: string, freq: string, cacheSize: string)

  /** A block before any line is read: `Processor::default()` with index -1. */
  const UnindexedInfo := CpuInfo(-1, "", "", "", "")

  /** The trimmed key and value of a cpuinfo line, when ':' splits it into exactly two parts. */
  function InfoEntry(line: string): Option<(string, string)> {
    var parts := Split(line, ":");
    if |parts| == 2 then Some((Trim(parts[0]), Trim(parts[1]))) else None
  }

  /** One field line applied to the processor being built: the five keys set their field; an index that is not an i32 or a frequency that is not an f32 panics. */
  function InfoStep(info: CpuInfo, line: string): (r: Result<CpuInfo>)
    ensures r.Err? ==>
      && r.error == Panic && InfoEntry(line).Some?
      && (InfoEntry(line).value.0 == "processor" || InfoEntry(line).value.0 == "cpu MHz")
    ensures r.Ok? && r.value.index != info.index ==> InfoEntry(line).Some? && InfoEntry(line).value.0 == "processor"
  {
    var entry := InfoEntry(line);
    if entry.None? then Ok(info)
    else
      var (key, value) := entry.value;
      if key == "processor" then
        var index := ParseI32(value);
        if index.None? then Err(Panic) else Ok(info.(index := index.value))
      else if key == "vendor_id" then Ok(info.(vendorId := value))
      else if key == "model name" then Ok(info.(name := value))
      else if key == "cpu MHz" then (if IsFloat(value) then Ok(info.(freq := value)) else Err(Panic))
      else if key == "cache size" then Ok(info.(cacheSize := value))
      else Ok(info)
  }

  /** The field lines of a block applied in order. */
  function InfoFold(info: CpuInfo, lines: seq<string>): Result<CpuInfo>
    decreases |lines|
  {
    if lines == [] then Ok(info)
    else
      var next := InfoStep(info, lines[0]);
      if next.Err? then Err(Panic) else InfoFold(next.value, lines[1..])
  }

  /** What reading one block of /proc/cpuinfo gives. */
  function BlockResult(block: string): Result<CpuInfo> {
    InfoFold(UnindexedInfo, Lines(block))
  }

  /** The closure of `new` that reads one block of /proc/cpuinfo, field line by field line. */
  method ParseBlock(block: string) returns (r: Result<CpuInfo>)
    ensures r == BlockResult(block)
  {
    var lines := Lines(block);
    var info := UnindexedInfo;
    for i := 0 to |lines|
      invariant InfoFold(UnindexedInfo, lines) == InfoFold(info, lines[i..])
    {
      assert lines[i..][1..] == lines[i + 1..];
      var parts := Split(lines[i], ":");
      if |parts| != 2 {
        continue;
      }
      var key := Trim(parts[0]);
      if key == "processor" {
        var index := ParseI32(Trim(parts[1]));
        if index.None? {
          return Err(Panic);
        }
        info := info.(index := index.value);
      } else if key == "vendor_id" {
        info := info.(vendorId := Trim(parts[1]));
      } else if key == "model name" {
        info := info.(name := Trim(parts[1]));
      } else if key == "cpu MHz" {
        if !IsFloat(Trim(parts[1])) {
          return Err(Panic);
        }
        info := info.(freq := Trim(parts[1]));
      } else if key == "cache size" {
        info := info.(cacheSize := Trim(parts[1]));
      }
    }
    assert lines[|lines|..] == [];
    return Ok(info);
  }

  /** The value of the last line of a block with the given key. */
  function LastInfoValue(lines: seq<string>, key: string): (r: Option<string>)
    ensures r.Some? ==> exists i :: 0 <= i < |lines| && InfoEntry(lines[i]) == Some((key, r.value))
    ensures r.None? ==> forall i :: 0 <= i < |lines| ==> !HasInfoKey(lines[i], key)
    decreases |lines|
  {
    if lines == [] then None
    else
      var later := LastInfoValue(lines[1..], key);
      if later.Some? then later
      else if HasInfoKey(lines[0], key) then Some(InfoEntry(lines[0]).value.1)
      else None
  }

  predicate HasInfoKey(line: string, key: string) {
    InfoEntry(line).Some? && InfoEntry(line).value.0 == key
  }

  function ValueOr(v: Option<string>, default: string): string {
    if v.Some? then v.value else default
  }

  /** The four text keys of a cpuinfo block. */
  predicate IsTextKey(key: string) {
    key == "vendor_id" || key == "model name" || key == "cpu MHz" || key == "cache size"
  }

  /** The field a text key sets. */
  function InfoField(info: CpuInfo, key: string): string
    requires IsTextKey(key)
  {
    if key == "vendor_id" then info.vendorId
    else if key == "model name" then info.name
    else if key == "cpu MHz" then info.freq
    else info.cacheSize
  }

  /**
   * Reading a block, for a text key: the last line with that key wins, a key
   * that never occurs keeps its starting value, and lines that ':' does not
   * split into exactly two parts play no part.
   */
  lemma {:induction false} InfoFoldLastWins(info: CpuInfo, lines: seq<string>, key: string)
    requires IsTextKey(key) && InfoFold(info, lines).Ok?
    ensures InfoField(InfoFold(info, lines).value, key) == ValueOr(LastInfoValue(lines, key), InfoField(info, key))
    decreases |lines|
  {
    if lines != [] {
      var next := InfoStep(info, lines[0]).value;
      InfoFoldLastWins(next, lines[1..], key);
      InfoStepField(info, lines[0], key);
    }
  }

  /** One line sets a text field exactly when it carries that key. */
  lemma InfoStepField(info: CpuInfo, line: string, key: string)
    requires IsTextKey(key) && InfoStep(info, line).Ok?
    ensures InfoField(InfoStep(info, line).value, key) ==
      if HasInfoKey(line, key) then InfoEntry(line).value.1 else InfoField(info, key)
  {
  }

  /** Reading a block, for the index: the last "processor" line wins, and without one the index is kept. */
  lemma {:induction false} InfoFoldLastIndex(info: CpuInfo, lines: seq<string>)
    requires InfoFold(info, lines).Ok?
    ensures var last := LastInfoValue(lines, "processor");
      if last.Some? then ParseI32(last.value) == Some(InfoFold(info, lines).value.index)
      else InfoFold(info, lines).value.index == info.index
    decreases |lines|
  {
    if lines != [] {
      var next := InfoStep(info, lines[0]).value;
      InfoFoldLastIndex(next, lines[1..]);
    }
  }

  /** A line that panics the block reader: a "processor" value that is not an i32 or a "cpu MHz" value that is not an f32. */
  predicate PanicLine(line: string) {
    || (HasInfoKey(line, "processor") && ParseI32(InfoEntry(line).value.1).None?)
    || (HasInfoKey(line, "cpu MHz") && !IsFloat(InfoEntry(line).value.1))
  }

  /** Reading a block panics exactly when one of its lines is a panic line. */
  lemma {:induction false} InfoFoldPanics(info: CpuInfo, lines: seq<string>)
    ensures InfoFold(info, lines).Err? <==> exists i :: 0 <= i < |lines| && PanicLine(lines[i])
    decreases |lines|
  {
    if lines != [] {
      var next := InfoStep(info, lines[0]);
      assert next.Err? <==> PanicLine(lines[0]);
      if next.Ok? {
        InfoFoldPanics(next.value, lines[1..]);
        assert forall i :: 1 <= i < |lines| ==> lines[i] == lines[1..][i - 1];
      }
    }
  }

  /** A block without a "processor" line keeps index -1, so `new` drops it. */
  lemma UnindexedBlock(lines: seq<string>)
    requires InfoFold(UnindexedInfo, lines).Ok?
    requires forall i :: 0 <= i < |lines| ==> !HasInfoKey(lines[i], "processor")
    ensures InfoFold(UnindexedInfo, lines).value.index == -1
  {
    InfoFoldLastIndex(UnindexedInfo, lines);
  }

  /** The processors of /proc/cpuinfo: the blocks in order, without those whose index is -1. */
  function IndexedInfos(blocks: seq<string>): (r: Result<seq<CpuInfo>>)
    ensures r.Ok? ==> |r.value| <= |blocks| && forall k :: 0 <= k < |r.value| ==> r.value[k].index != -1
    decreases |blocks|
  {
    if blocks == [] then Ok([])
    else
      var info := BlockResult(blocks[0]);
      if info.Err? then Err(Panic)
      else PrependAll(if info.value.index != -1 then [info.value] else [], IndexedInfos(blocks[1..]))
  }

  /** One block is kept exactly when it reads with an index other than -1; a block that panics fails the whole read. */
  lemma IndexedInfosOfBlock(block: string)
    ensures BlockResult(block).Err? ==> IndexedInfos([block]) == Err(Panic)
    ensures BlockResult(block).Ok? ==>
      var info := BlockResult(block).value;
      IndexedInfos([block]) == Ok(if info.index != -1 then [info] else [])
  {
    assert [block][1..] == [];
    if BlockResult(block).Ok? {
      var info := BlockResult(block).value;
      var kept: seq<CpuInfo> := if info.index != -1 then [info] else [];
      assert kept + [] == kept;
    }
  }

  /** The filter keeps the order of the blocks: the processors of two runs of blocks are those of each, one after the other. */
  lemma {:induction false} IndexedInfosAppend(a: seq<string>, b: seq<string>)
    requires IndexedInfos(a).Ok?
    ensures IndexedInfos(a + b) == PrependAll(IndexedInfos(a).value, IndexedInfos(b))
    decreases |a|
  {
    if a == [] {
      assert a + b == b;
      PrependNothing(IndexedInfos(b));
    } else {
      assert (a + b)[0] == a[0];
      assert (a + b)[1..] == a[1..] + b;
      var info := BlockResult(a[0]).value;
      var kept: seq<CpuInfo> := if info.index != -1 then [info] else [];
      IndexedInfosAppend(a[1..], b);
      PrependAllTwice(kept, IndexedInfos(a[1..]).value, IndexedInfos(b));
    }
  }

  /** A block that panics fails the read of every longer run of blocks it starts. */
  lemma {:induction false} IndexedInfosAppendPanic(a: seq<string>, b: seq<string>)
    requires IndexedInfos(a).Err?
    ensures IndexedInfos(a + b) == Err(Panic)
    decreases |a|
  {
    assert a != [];
    assert (a + b)[0] == a[0];
    assert (a + b)[1..] == a[1..] + b;
    if BlockResult(a[0]).Ok? {
      IndexedInfosAppendPanic(a[1..], b);
    }
  }

  /** /proc/cpuinfo cut into blocks at blank lines. */
  function InfoBlocks(content: string): seq<string> {
    Split(content, "\n\n")
  }

  // ---------------------------------------------------------------------
  // Processor

  /** The state of one `Processor`. */
  datatype ProcessorView = ProcessorView(info: CpuInfo, usage: real, last: CpuCounters, latest: CpuCounters)

  /**
   * What `new` returns: the indexed cpuinfo blocks, each paired with the
   * counters of the core line at the same position and usage 0; an error
   * when /proc/stat or /proc/cpuinfo cannot be read or when the two counts
   * differ.
   */
  function NewProcessors(fs: FileSystem): (r: Result<seq<ProcessorView>>)
    ensures r.Ok? ==> ProcessorStats(fs).Ok? && |r.value| == |ProcessorStats(fs).value|
    ensures r.Ok? ==> forall i :: 0 <= i < |r.value| ==> r.value[i].latest == ProcessorStats(fs).value[i] && r.value[i].usage == 0.0
    ensures ProcessorStats(fs).Ok? && "/proc/cpuinfo" in fs && IndexedInfos(InfoBlocks(fs["/proc/cpuinfo"])).Ok? ==>
      var stats, infos := ProcessorStats(fs).value, IndexedInfos(InfoBlocks(fs["/proc/cpuinfo"])).value;
      && (r == Err(CountMismatch) <==> |infos| != |stats|)
      && (r.Ok? ==> |infos| == |stats| && r.value == InitialViews(infos, stats))
  {
    match ProcessorStats(fs)
    case Err(e) => Err(e)
    case Ok(stats) =>
      if "/proc/cpuinfo" !in fs then Err(CannotOpen("/proc/cpuinfo"))
      else
        match IndexedInfos(InfoBlocks(fs["/proc/cpuinfo"]))
        case Err(e) => Err(e)
        case Ok(infos) =>
          if |infos| != |stats| then Err(CountMismatch)
          else Ok(InitialViews(infos, stats))
  }

  /** The new state of one processor in a successful `refresh_all`. */
  function Refreshed(v: ProcessorView, stat: CpuCounters): (w: ProcessorView)
    ensures w.info == v.info && w.last == v.latest && w.latest == stat
    ensures w.usage == CoreUsage(v.latest, stat)
  {
    ProcessorView(v.info, CoreUsage(v.latest, stat), v.latest, stat)
  }

  /** Objects of a sequence that are pairwise distinct, as the elements of a `Vec` are. */
  predicate Distinct(ps: seq<Processor>) {
    forall i, j :: 0 <= i < j < |ps| ==> ps[i] != ps[j]
  }

  class Processor {
    var index: int
    var vendorId: string
    var name: string
    var freq: string
    var cacheSize: string
    var usage: real
    var lastStat: CpuCounters
    var latestStat: CpuCounters

    function View(): ProcessorView
      reads this
    {
      ProcessorView(CpuInfo(index, vendorId, name, freq, cacheSize), usage, lastStat, latestStat)
    }

    /** A processor with the given descriptive fields and no counters yet. */
    constructor (info: CpuInfo)
      ensures View() == ProcessorView(info, 0.0, NoCounters, NoCounters)
    {
      index := info.index;
      vendorId := info.vendorId;
      name := info.name;
      freq := info.freq;
      cacheSize := info.cacheSize;
      usage := 0.0;
      lastStat := NoCounters;
      latestStat := NoCounters;
    }

    /**
     * `Processor::refresh`: the latest snapshot becomes the last one and the
     * core line at this processor's index becomes the latest; usage is left
     * as it was. An index outside the core lines panics after the shift.
     */
    method Refresh(fs: FileSystem) returns (r: Result<()>)
      modifies this
      ensures ProcessorStats(fs).Err? ==> r == Err(ProcessorStats(fs).error) && View() == old(View())
      ensures ProcessorStats(fs).Ok? ==>
        var stats := ProcessorStats(fs).value;
        && View().info == old(View().info) && usage == old(usage)
        && lastStat == old(latestStat)
        && (if 0 <= index < |stats| then r == Ok(()) && latestStat == stats[index]
            else r == Err(Panic) && latestStat == old(latestStat))
    {
      var stats :- GetProcessorStat(fs);
      lastStat := latestStat;
      if !(0 <= index < |stats|) {
        return Err(Panic);
      }
      latestStat := stats[index];
      return Ok(());
    }
  }

  /**
   * `refresh_all`: when /proc/stat has as many core lines as there are
   * processors, every processor shifts its latest snapshot to last, takes
   * the core line at its position as latest and recomputes its usage;
   * otherwise nothing changes and the error is returned.
   */
  method RefreshAll(processors: seq<Processor>, fs: FileSystem) returns (r: Result<()>)
    requires Distinct(processors)
    modifies processors
    ensures ProcessorStats(fs).Err? ==> r == Err(ProcessorStats(fs).error)
    ensures ProcessorStats(fs).Ok? && |ProcessorStats(fs).value| != |processors| ==> r == Err(CountMismatch)
    ensures r.Err? ==> forall i :: 0 <= i < |processors| ==> processors[i].View() == old(processors[i].View())
    ensures ProcessorStats(fs).Ok? && |ProcessorStats(fs).value| == |processors| ==>
      && r == Ok(())
      && forall i :: 0 <= i < |processors| ==>
        processors[i].View() == Refreshed(old(processors[i].View()), ProcessorStats(fs).value[i])
  {
    var stats :- GetProcessorStat(fs);
    if |stats| != |processors| {
      return Err(CountMismatch);
    }
    for i := 0 to |processors|
      invariant forall k :: 0 <= k < i ==> processors[k].View() == Refreshed(old(processors[k].View()), stats[k])
      invariant forall k :: i <= k < |processors| ==> processors[k].View() == old(processors[k].View())
    {
      ghost var before := processors[i].View();
      processors[i].lastStat := processors[i].latestStat;
      processors[i].latestStat := stats[i];
      var totalDiff := processors[i].latestStat.Total() - processors[i].lastStat.Total();
      if totalDiff == 0 {
        processors[i].usage := 0.0;
        assert processors[i].View() == Refreshed(before, stats[i]);
        continue;
      }
      processors[i].usage :=
        (processors[i].latestStat.Work() - processors[i].lastStat.Work()) as real / totalDiff as real;
      assert processors[i].View() == Refreshed(before, stats[i]);
    }
    return Ok(());
  }

  /** The map and filter of `new` over the blocks of /proc/cpuinfo. */
  method ReadInfos(content: string) returns (r: Result<seq<CpuInfo>>)
    ensures r == IndexedInfos(InfoBlocks(content))
  {
    var blocks := InfoBlocks(content);
    var infos: seq<CpuInfo> := [];
    assert blocks[0..] == blocks;
    PrependNothing(IndexedInfos(blocks));
    for b := 0 to |blocks|
      invariant IndexedInfos(blocks) == PrependAll(infos, IndexedInfos(blocks[b..]))
    {
      assert blocks[b..][1..] == blocks[b + 1..];
      var info := ParseBlock(blocks[b]);
      if info.Err? {
        return Err(Panic);
      }
      if info.value.index != -1 {
        PrependAllTwice(infos, [info.value], IndexedInfos(blocks[b + 1..]));
        infos := infos + [info.value];
      } else {
        PrependNothing(IndexedInfos(blocks[b + 1..]));
      }
    }
    assert blocks[|blocks|..] == [];
    assert IndexedInfos([]) == Ok([]);
    assert infos + [] == infos;
    return Ok(infos);
  }

  /** The views `new` gives its processors: each block paired with the core line at its position. */
  function InitialViews(infos: seq<CpuInfo>, stats: seq<CpuCounters>): (vs: seq<ProcessorView>)
    requires |infos| == |stats|
    ensures |vs| == |infos|
    ensures forall i :: 0 <= i < |vs| ==> vs[i].info == infos[i] && vs[i].latest == stats[i]
    ensures forall i :: 0 <= i < |vs| ==> vs[i].usage == 0.0 && vs[i].last == NoCounters
  {
    seq(|infos|, i requires 0 <= i < |infos| => ProcessorView(infos[i], 0.0, NoCounters, stats[i]))
  }

  /** The two passes of `new` after reading: a processor per block, then its first snapshot. */
  method Build(infos: seq<CpuInfo>, stats: seq<CpuCounters>) returns (processors: seq<Processor>)
    requires |infos| == |stats|
    ensures Distinct(processors) && |processors| == |infos|
    ensures forall i :: 0 <= i < |processors| ==>
      fresh(processors[i]) && processors[i].View() == InitialViews(infos, stats)[i]
  {
    processors := [];
    for i := 0 to |infos|
      invariant |processors| == i && Distinct(processors)
      invariant forall k :: 0 <= k < i ==>
        fresh(processors[k]) && processors[k].View() == ProcessorView(infos[k], 0.0, NoCounters, NoCounters)
    {
      var p := new Processor(infos[i]);
      processors := processors + [p];
    }
    for i := 0 to |processors|
      invariant forall k :: 0 <= k < |processors| ==> fresh(processors[k])
      invariant forall k :: 0 <= k < i ==> processors[k].View() == ProcessorView(infos[k], 0.0, NoCounters, stats[k])
      invariant forall k :: i <= k < |processors| ==> processors[k].View() == ProcessorView(infos[k], 0.0, NoCounters, NoCounters)
    {
      processors[i].latestStat := stats[i];
      processors[i].usage := 0.0;
    }
  }

  /**
   * `new`: one processor per indexed block of /proc/cpuinfo, in order, with
   * the counters of the core line at the same position as latest snapshot
   * and usage 0.
   */
  method New(fs: FileSystem) returns (r: Result<seq<Processor>>)
    ensures r.Ok? <==> NewProcessors(fs).Ok?
    ensures r.Err? ==> r.error == NewProcessors(fs).error
    ensures r.Ok? ==>
      && Distinct(r.value) && |r.value| == |NewProcessors(fs).value|
      && forall i :: 0 <= i < |r.value| ==> fresh(r.value[i]) && r.value[i].View() == NewProcessors(fs).value[i]
  {
    var stats :- GetProcessorStat(fs);
    var content :- ReadFile(fs, "/proc/cpuinfo");
    var infos :- ReadInfos(content);
    if |infos| != |stats| {
      return Err(CountMismatch);
    }
    var processors := Build(infos, stats);
    return Ok(processors);
  }
}

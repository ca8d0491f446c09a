/**
 * System memory (src/memory.rs): the figures of /proc/meminfo, in kB, with
 * the buffer and cache sizes summed and the used amounts derived.
 */
module Memory {
  import opened Text
  import opened Procfs

  /** The `Memory` record; every figure is an i64 number of kB. */
  datatype Memory = Memory(
    total: int, free: int, used: int, available: int, bufferOrCached: int,
    swapTotal: int, swapUsed: int, swapFree: int)

  /** `Memory::default`. */
  const NoMemory := Memory(0, 0, 0, 0, 0, 0, 0, 0)

  /** The trimmed text before the first ':' of a meminfo line. */
  function KeyOf(line: string): string {
    Trim(Split(line, ":")[0])
  }

  /** The number after the first ':' of a line, trimmed and without " kB"; None when there is no ':' or the text is not an i64. */
  function ValueOf(line: string): Option<int> {
    var fields := Split(line, ":");
    if |fields| < 2 then None else ParseI64(Replace(Trim(fields[1]), " kB", ""))
  }

  /** The keys whose value is assigned: the last line with such a key wins. */
  predicate IsAssignedKey(key: string) {
    key == "MemTotal" || key == "MemFree" || key == "MemAvailable" || key == "SwapTotal" || key == "SwapFree"
  }

  /** The keys whose values are added up into `bufferOrCached`. */
  predicate IsCacheKey(key: string) {
    key == "Buffers" || key == "Cached" || key == "SReclaimable"
  }

  /** The eight keys that affect the result. */
  predicate IsTracked(key: string) {
    IsAssignedKey(key) || IsCacheKey(key)
  }

  /** The field an assigned key sets. */
  function Field(m: Memory, key: string): int
    requires IsAssignedKey(key)
  {
    if key == "MemTotal" then m.total
    else if key == "MemFree" then m.free
    else if key == "MemAvailable" then m.available
    else if key == "SwapTotal" then m.swapTotal
    else m.swapFree
  }

  /** A tracked value recorded: assigned to its field, or added to `bufferOrCached`. */
  function Record(m: Memory, key: string, value: int): (r: Memory)
    requires IsTracked(key)
    ensures IsCacheKey(key) ==> r == m.(bufferOrCached := m.bufferOrCached + value)
    ensures IsAssignedKey(key) ==> Field(r, key) == value && r.bufferOrCached == m.bufferOrCached
    ensures forall k :: IsAssignedKey(k) && k != key ==> Field(r, k) == Field(m, k)
  {
    if key == "MemTotal" then m.(total := value)
    else if key == "MemFree" then m.(free := value)
    else if key == "MemAvailable" then m.(available := value)
    else if key == "SwapTotal" then m.(swapTotal := value)
    else if key == "SwapFree" then m.(swapFree := value)
    else m.(bufferOrCached := m.bufferOrCached + value)
  }

  /** The used amounts recomputed from the others. */
  function Derive(m: Memory): (r: Memory)
  {
    m.(used := m.total - m.bufferOrCached - m.free, swapUsed := m.swapTotal - m.swapFree)
  }

  /** One line of /proc/meminfo applied: a tracked key without a readable value panics. */
  function MemoryStep(m: Memory, line: string): (r: Result<Memory>)
    ensures r.Err? <==> IsTracked(KeyOf(line)) && ValueOf(line).None?
    ensures r.Ok? ==>
      && r.value.used == r.value.total - r.value.bufferOrCached - r.value.free
      && r.value.swapUsed == r.value.swapTotal - r.value.swapFree
  {
    var key := KeyOf(line);
    if !IsTracked(key) then Ok(Derive(m))
    else
      var value := ValueOf(line);
      if value.None? then Err(Panic) else Ok(Derive(Record(m, key, value.value)))
  }

  /** The lines applied in order. */
  function MemoryFold(m: Memory, lines: seq<string>): Result<Memory>
    decreases |lines|
  {
    if lines == [] then Ok(m)
    else
      var next := MemoryStep(m, lines[0]);
      if next.Err? then next else MemoryFold(next.value, lines[1..])
  }

  /** What `get_memory` returns for the given file system. */
  function MemoryOf(fs: FileSystem): Result<Memory> {
    var content :- ReadFile(fs, "/proc/meminfo");
    MemoryFold(NoMemory, Split(content, "\n"))
  }

  /** The body of the line loop of `get_memory`: dispatch on the key, then recompute the used amounts. */
  method ReadLine(memory: Memory, line: string) returns (r: Result<Memory>)
    ensures r == MemoryStep(memory, line)
  {
    var fields := Split(line, ":");
    var key := Trim(fields[0]);
    var m := memory;
    if IsTracked(key) {
      if |fields| < 2 {
        return Err(Panic);
      }
      var value := ParseI64(Replace(Trim(fields[1]), " kB", ""));
      if value.None? {
        return Err(Panic);
      }
      if key == "MemTotal" {
        m := m.(total := value.value);
      } else if key == "MemFree" {
        m := m.(free := value.value);
      } else if key == "MemAvailable" {
        m := m.(available := value.value);
      } else if key == "SwapTotal" {
        m := m.(swapTotal := value.value);
      } else if key == "SwapFree" {
        m := m.(swapFree := value.value);
      } else {
        m := m.(bufferOrCached := m.bufferOrCached + value.value);
      }
    }
    m := m.(used := m.total - m.bufferOrCached - m.free);
    m := m.(swapUsed := m.swapTotal - m.swapFree);
    return Ok(m);
  }

  /** `get_memory`: /proc/meminfo read line by line into a record that starts at zero. */
  method GetMemory(fs: FileSystem) returns (r: Result<Memory>)
    ensures r == MemoryOf(fs)
  {
    var content :- ReadFile(fs, "/proc/meminfo");
    r := ReadLines(Split(content, "\n"));
  }

  /** The line loop of `get_memory`: each line read in turn into a record that starts at zero. */
  method ReadLines(lines: seq<string>) returns (r: Result<Memory>)
    ensures r == MemoryFold(NoMemory, lines)
  {
    var memory := NoMemory;
    for i := 0 to |lines|
      invariant MemoryFold(NoMemory, lines) == MemoryFold(memory, lines[i..])
    {
      var next := ReadLine(memory, lines[i]);
      FoldStep(memory, lines, i);
      if next.Err? {
        return next;
      }
      memory := next.value;
    }
    assert lines[|lines|..] == [];
    return Ok(memory);
  }

  // ---------------------------------------------------------------------
  // What the fold computes

  /** The last line with the given key. */
  function LastLineWith(lines: seq<string>, key: string): (r: Option<string>)
    ensures r.Some? ==> r.value in lines && KeyOf(r.value) == key
    ensures r.None? ==> forall i :: 0 <= i < |lines| ==> KeyOf(lines[i]) != key
    decreases |lines|
  {
    if lines == [] then None
    else
      var later := LastLineWith(lines[1..], key);
      if later.Some? then later else if KeyOf(lines[0]) == key then Some(lines[0]) else None
  }

  /** The values of the Buffers, Cached and SReclaimable lines added up. */
  function CacheSum(lines: seq<string>): int
    decreases |lines|
  {
    if lines == [] then 0
    else
      var here := if IsCacheKey(KeyOf(lines[0])) && ValueOf(lines[0]).Some? then ValueOf(lines[0]).value else 0;
      here + CacheSum(lines[1..])
  }

  /** A line whose key is not one of the eight changes none of the read figures; only the used amounts are recomputed. */
  lemma UntrackedLineIgnored(m: Memory, line: string)
    requires !IsTracked(KeyOf(line))
    ensures MemoryStep(m, line).Ok?
    ensures var r := MemoryStep(m, line).value;
      && r.total == m.total && r.free == m.free && r.available == m.available
      && r.bufferOrCached == m.bufferOrCached && r.swapTotal == m.swapTotal && r.swapFree == m.swapFree
  {
  }

  /** A line that panics the reader: a tracked key without a readable value. */
  predicate PanicLine(line: string) {
    IsTracked(KeyOf(line)) && ValueOf(line).None?
  }

  /** Reading panics exactly when some line is a panic line. */
  lemma {:induction false} MemoryFoldPanics(m: Memory, lines: seq<string>)
    ensures MemoryFold(m, lines).Err? <==> exists i :: 0 <= i < |lines| && PanicLine(lines[i])
    decreases |lines|
  {
    if lines != [] {
      var next := MemoryStep(m, lines[0]);
      assert next.Err? <==> PanicLine(lines[0]);
      if next.Ok? {
        MemoryFoldPanics(next.value, lines[1..]);
        assert forall i :: 1 <= i < |lines| ==> lines[i] == lines[1..][i - 1];
      }
    }
  }

  /** For an assigned key the last line with that key wins; a key that never occurs keeps its starting value. */
  lemma {:induction false} MemoryFoldLastWins(m: Memory, lines: seq<string>, key: string)
    requires IsAssignedKey(key) && MemoryFold(m, lines).Ok?
    ensures var last := LastLineWith(lines, key);
      if last.Some? then ValueOf(last.value) == Some(Field(MemoryFold(m, lines).value, key))
      else Field(MemoryFold(m, lines).value, key) == Field(m, key)
    decreases |lines|
  {
    if lines != [] {
      MemoryFoldLastWins(MemoryStep(m, lines[0]).value, lines[1..], key);
    }
  }

  /** `bufferOrCached` grows by the sum of every Buffers, Cached and SReclaimable value. */
  lemma {:induction false} MemoryFoldCacheSum(m: Memory, lines: seq<string>)
    requires MemoryFold(m, lines).Ok?
    ensures MemoryFold(m, lines).value.bufferOrCached == m.bufferOrCached + CacheSum(lines)
    decreases |lines|
  {
    if lines != [] {
      MemoryFoldCacheSum(MemoryStep(m, lines[0]).value, lines[1..]);
    }
  }

  /** After at least one line, the used amounts agree with the final figures. */
  lemma {:induction false} MemoryFoldDerived(m: Memory, lines: seq<string>)
    requires lines != [] && MemoryFold(m, lines).Ok?
    ensures var r := MemoryFold(m, lines).value;
      r.used == r.total - r.bufferOrCached - r.free && r.swapUsed == r.swapTotal - r.swapFree
    decreases |lines|
  {
    if |lines| > 1 {
      MemoryFoldDerived(MemoryStep(m, lines[0]).value, lines[1..]);
    }
  }

  /**
   * What a successful `get_memory` returns: the five assigned figures come
   * from the last line with their key (0 when there is none), the cache
   * figure is the sum, and the used amounts are derived from those.
   */
  lemma MemoryMeaning(fs: FileSystem)
    requires MemoryOf(fs).Ok?
    ensures var lines := Split(fs["/proc/meminfo"], "\n");
      var r := MemoryOf(fs).value;
      && (forall key :: IsAssignedKey(key) ==>
            var last := LastLineWith(lines, key);
            if last.Some? then ValueOf(last.value) == Some(Field(r, key)) else Field(r, key) == 0)
      && r.bufferOrCached == CacheSum(lines)
      && r.used == r.total - r.bufferOrCached - r.free
      && r.swapUsed == r.swapTotal - r.swapFree
  {
    var lines := Split(fs["/proc/meminfo"], "\n");
    forall key | IsAssignedKey(key)
      ensures var last := LastLineWith(lines, key);
        if last.Some? then ValueOf(last.value) == Some(Field(MemoryOf(fs).value, key))
        else Field(MemoryOf(fs).value, key) == 0
    {
      MemoryFoldLastWins(NoMemory, lines, key);
    }
    MemoryFoldCacheSum(NoMemory, lines);
    MemoryFoldDerived(NoMemory, lines);
  }

  /** A line `key: value` without another ':' reads as its trimmed key and the i64 in its trimmed value without " kB". */
  lemma KeyValueOfLine(key: string, value: string)
    requires ':' !in key && ':' !in value
    ensures KeyOf(key + ":" + value) == Trim(key)
    ensures ValueOf(key + ":" + value) == ParseI64(Replace(Trim(value), " kB", ""))
  {
    SplitAtChar(key, ':', value);
    NoCharNoContains(value, ':');
    SplitWithoutSeparator(value, ":");
  }

  lemma TrimMemTotalKey()
    ensures Trim("MemTotal") == "MemTotal"
  {
    TrimPadded("", "MemTotal");
  }

  lemma TrimMemTotalValue()
    ensures Trim("       1000 kB") == "1000 kB"
  {
    assert "       " + "1000 kB" == "       1000 kB";
    TrimPadded("       ", "1000 kB");
  }

  lemma StripKilobytes()
    ensures Replace("1000 kB", " kB", "") == "1000"
  {
    ReplaceAtEnd("1000", " kB");
  }

  lemma ParseThousand()
    ensures ParseI64("1000") == Some(1000)
  {
    assert Decimal(1000) == "1000";
    ParseDecimal(1000, true, I64Min, I64Max);
  }

  /** The line /proc/meminfo writes for 1000 kB of memory reads as key "MemTotal" and value 1000. */
  lemma MemTotalLine()
    ensures KeyOf("MemTotal:       1000 kB") == "MemTotal"
    ensures ValueOf("MemTotal:       1000 kB") == Some(1000)
  {
    assert "MemTotal:       1000 kB" == "MemTotal" + ":" + "       1000 kB";
    KeyValueOfLine("MemTotal", "       1000 kB");
    TrimMemTotalKey();
    TrimMemTotalValue();
    StripKilobytes();
    ParseThousand();
  }

  /** A line with a tracked key and a readable value records the value and recomputes the used amounts. */
  lemma RecordedLine(m: Memory, line: string, key: string, value: int)
    requires KeyOf(line) == key && IsTracked(key) && ValueOf(line) == Some(value)
    ensures MemoryStep(m, line) == Ok(Derive(Record(m, key, value)))
  {
  }

  /** Reading on from line `i` is one step on that line and then reading on from line `i + 1`. */
  lemma FoldStep(m: Memory, lines: seq<string>, i: nat)
    requires i < |lines|
    ensures MemoryFold(m, lines[i..])
      == var next := MemoryStep(m, lines[i]); if next.Err? then next else MemoryFold(next.value, lines[i + 1..])
  {
    assert lines[i..][0] == lines[i];
    assert lines[i..][1..] == lines[i + 1..];
  }

  /** A successful first step leaves the rest of the lines to read. */
  lemma FoldFirst(m: Memory, lines: seq<string>, next: Memory)
    requires lines != [] && MemoryStep(m, lines[0]) == Ok(next)
    ensures MemoryFold(m, lines) == MemoryFold(next, lines[1..])
  {
  }

  /** The MemTotal line of the example: total is 1000 and, with nothing else read, so is used. */
  lemma TotalStep(line: string)
    requires KeyOf(line) == "MemTotal" && ValueOf(line) == Some(1000)
    ensures MemoryStep(NoMemory, line) == Ok(Memory(1000, 0, 1000, 0, 0, 0, 0, 0))
  {
    assert Record(NoMemory, "MemTotal", 1000) == NoMemory.(total := 1000);
  }

  /** The MemFree line of the example: 200 free leaves 800 used. */
  lemma FreeStep(line: string)
    requires KeyOf(line) == "MemFree" && ValueOf(line) == Some(200)
    ensures MemoryStep(Memory(1000, 0, 1000, 0, 0, 0, 0, 0), line) == Ok(Memory(1000, 200, 800, 0, 0, 0, 0, 0))
  {
    var m := Memory(1000, 0, 1000, 0, 0, 0, 0, 0);
    assert Record(m, "MemFree", 200) == m.(free := 200);
  }

  /** The Buffers line of the example: 50 of buffers leaves 750 used. */
  lemma BuffersStep(line: string)
    requires KeyOf(line) == "Buffers" && ValueOf(line) == Some(50)
    ensures MemoryStep(Memory(1000, 200, 800, 0, 0, 0, 0, 0), line) == Ok(Memory(1000, 200, 750, 0, 50, 0, 0, 0))
  {
    RecordedLine(Memory(1000, 200, 800, 0, 0, 0, 0, 0), line, "Buffers", 50);
  }

  /** The Cached line of the example: 50 more of cache leaves 700 used. */
  lemma CachedStep(line: string)
    requires KeyOf(line) == "Cached" && ValueOf(line) == Some(50)
    ensures MemoryStep(Memory(1000, 200, 750, 0, 50, 0, 0, 0), line) == Ok(Memory(1000, 200, 700, 0, 100, 0, 0, 0))
  {
    RecordedLine(Memory(1000, 200, 750, 0, 50, 0, 0, 0), line, "Cached", 50);
  }

  /** Four successful steps in a row make a successful fold over the four lines. */
  lemma FoldFour(a: string, b: string, c: string, d: string, m0: Memory, m1: Memory, m2: Memory, m3: Memory, m4: Memory)
    requires MemoryStep(m0, a) == Ok(m1) && MemoryStep(m1, b) == Ok(m2)
    requires MemoryStep(m2, c) == Ok(m3) && MemoryStep(m3, d) == Ok(m4)
    ensures MemoryFold(m0, [a, b, c, d]) == Ok(m4)
  {
    assert [a, b, c, d][1..] == [b, c, d];
    assert [b, c, d][1..] == [c, d];
    assert [c, d][1..] == [d];
    assert [d][1..] == [];
    FoldFirst(m0, [a, b, c, d], m1);
    FoldFirst(m1, [b, c, d], m2);
    FoldFirst(m2, [c, d], m3);
    FoldFirst(m3, [d], m4);
  }

  /** MemTotal 1000, MemFree 200, Buffers 50 and Cached 50 give 100 of buffers and cache and 700 used. */
  lemma UsedExample(total: string, free: string, buffers: string, cached: string)
    requires KeyOf(total) == "MemTotal" && ValueOf(total) == Some(1000)
    requires KeyOf(free) == "MemFree" && ValueOf(free) == Some(200)
    requires KeyOf(buffers) == "Buffers" && ValueOf(buffers) == Some(50)
    requires KeyOf(cached) == "Cached" && ValueOf(cached) == Some(50)
    ensures MemoryFold(NoMemory, [total, free, buffers, cached]) == Ok(Memory(1000, 200, 700, 0, 100, 0, 0, 0))
  {
    TotalStep(total);
    FreeStep(free);
    BuffersStep(buffers);
    CachedStep(cached);
    FoldFour(total, free, buffers, cached, NoMemory, Memory(1000, 0, 1000, 0, 0, 0, 0, 0),
      Memory(1000, 200, 800, 0, 0, 0, 0, 0), Memory(1000, 200, 750, 0, 50, 0, 0, 0), Memory(1000, 200, 700, 0, 100, 0, 0, 0));
  }
}

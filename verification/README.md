# lightbird system readers, modelled in Dafny

lightbird is a small Rust library. It reads the Linux `/proc` and `/sys`
pseudo files and turns them into plain records. This project models its
reading core:

- **Processors** (`src/processor.rs`). The per-core counter lines of
  `/proc/stat` become `CpuCounters`, and the aggregate `cpu` line becomes
  the system counters. The blank-line-separated blocks of `/proc/cpuinfo`
  become `CpuInfo` records, and blocks without a `processor` index are
  dropped. `new` pairs the two and fails when their counts differ.
  `refresh_all` shifts every processor's latest snapshot to last, takes
  the new core line and computes usage as the share of busy ticks in the
  elapsed ticks. `Processor::refresh` performs the shift for one
  processor.
- **Processes** (`src/process.rs`). Fields 13 to 16 of `/proc/<pid>/stat`
  are the utime, stime, cutime and cstime counters. `/proc/<id>/status`
  gives the resident set size and the resolved pid.
  - `Process::refresh` shifts both the process snapshot and the system
    snapshot.
  - It computes the usage without and with children as
    `cores × Δprocess / Δsystem`.
  - It then re-resolves the pid.
- **Memory** (`src/memory.rs`). The lines of `/proc/meminfo` are read one
  at a time:
  - five keys assign a figure;
  - `Buffers`, `Cached` and `SReclaimable` add to the cache figure;
  - after every line, the used and swap-used figures are recomputed.
- **Disks** (`src/disk.rs`). The mounts of `/proc/mounts` are filtered:
  pseudo file systems, mounts under `/sys`, `/proc` and `/run`, and
  `sunrpc` sources are dropped. Each remaining device name is normalised
  to its `/sys/block` name. Its `queue/rotational` file classifies it as
  "HDD", "SDD" or "Unknown".

How the Rust code is mapped:

- The file system is an input value, `Procfs.FileSystem`, a map from path
  to contents. A missing path is `Err(CannotOpen(path))`.
- These panics become `Err(Panic)`: the `unwrap` of a parse or of a
  missing file, an out-of-range index, and a u64 subtraction in
  `Process::refresh` that would underflow. Integer overflow and a failing
  `read_to_string` are not modelled (see "## Left out"). An `Err(..)`
  string returned by the source becomes `Err(NoCpuLine)` or
  `Err(CountMismatch)`.
- Each loop that changes state is a method with loop invariants. It is
  proved equal to a front-recursive specification function, and the
  properties are lemmas about those functions.
- `Processor` and `Process` are classes whose methods update their fields.
  `refresh_all` is a method over a sequence of distinct `Processor`
  objects.
- The standard-library string operations the core relies on are written
  out in module `Text`: `trim`, `split`, `lines`, `split_whitespace`,
  `replace`, `trim_start_matches`, `trim_end_matches`, and integer parsing
  with Rust's accepted syntax and i32/i64/u64 ranges.

Two behaviours of the code are modelled as written:

- In `get_memory`, a line without ':' leaves the figures unchanged, unless
  its trimmed text is one of the eight tracked keys. Then `fields[1]`
  panics (src/memory.rs:28-31, `Memory.PanicLine`).
- The u64 subtractions in `Process::refresh` are taken with debug-build
  semantics: a counter that went backwards panics.

## Model

| member | source | states |
|---|---|---|
| Processor.CpuCounters.Work | src/processor.rs:16-21 | busy ticks are the total less idle and iowait |
| Processor.CoreUsage | src/processor.rs:101-109 | usage is 0 when the total did not move; otherwise usage × Δtotal = Δwork |
| Processor.CoreUsageBounded | src/processor.rs:101-109 | when no counter decreased and the total grew, usage lies in [0, 1] |
| Processor.ParseCounters | src/processor.rs:56-65 | a counter line parses iff it has at least 8 fields and fields 1..7 are i64; each counter is the value of its field; failure is a panic |
| Processor.GetProcessorStat | src/processor.rs:46-69 | the loop over /proc/stat returns exactly the core counters of the specification fold, or its error |
| Processor.CoreStats | src/processor.rs:54-68 | reading the core lines fails only by a panic: a line without fields or a core line whose counters do not parse |
| Processor.CoreStatsOk | src/processor.rs:54-68 | reading the core lines succeeds iff every line is non-blank and every core line has parseable counters |
| Processor.CoreStatsAppend | src/processor.rs:54-68 | the core counters of two runs of lines are those of each, in order |
| Processor.CoreStatsOfLine | src/processor.rs:55-66 | one line gives its counters if it is a core line and nothing otherwise |
| Processor.NumberedCpuIsCore | src/processor.rs:56 | "cpuN" is a core line and not the aggregate line; "cpu" is the aggregate line and not a core line |
| Processor.GetTotalProcessorStat | src/processor.rs:70-92 | the loop returns the specification's system counters or error |
| Processor.AggregateStatIsFirst | src/processor.rs:77-90 | the system counters come from a line whose first field is "cpu", and every earlier line is skipped |
| Processor.AggregateStat | src/processor.rs:77-91 | the only failures are a panic and "cannot find the cpu line" |
| Processor.AggregateStatFound | src/processor.rs:77-90 | when line k is a "cpu" line and every earlier line is skipped, the result is the counters parsed from line k |
| Processor.AggregateStatMissing | src/processor.rs:77-91 | "cannot find the cpu line" is returned iff every line is skipped |
| Processor.ParseBlock | src/processor.rs:126-155 | reading one cpuinfo block line by line gives the specification fold started from index -1 |
| Processor.InfoStep | src/processor.rs:131-153 | a line panics only when it is a "processor" or a "cpu MHz" line; only a "processor" line changes the index |
| Processor.InfoFoldLastWins | src/processor.rs:131-153 | vendor, model name, frequency and cache size are the trimmed values of the last line with their key, else unchanged |
| Processor.InfoStepField | src/processor.rs:132-152 | one line sets a text field iff it has that key; otherwise the field is kept |
| Processor.InfoFoldLastIndex | src/processor.rs:135-138 | the index is the i32 value of the last "processor" line, else unchanged |
| Processor.InfoFoldPanics | src/processor.rs:135-147 | a block panics iff one of its lines has a non-i32 index or a non-f32 frequency |
| Processor.UnindexedBlock | src/processor.rs:129-130 | a block without a "processor" line keeps index -1 |
| Processor.IndexedInfos | src/processor.rs:124-157 | the kept blocks are no more than the blocks, and none has index -1 |
| Processor.IndexedInfosOfBlock | src/processor.rs:124-157 | one block that panics fails the read; otherwise it is kept exactly when its index is not -1 |
| Processor.IndexedInfosAppend | src/processor.rs:124-157 | when the first run of blocks reads, the kept blocks of two runs are those of the first followed by those of the second, and a panic in the second run fails the read |
| Processor.IndexedInfosAppendPanic | src/processor.rs:124-157 | a panic in the first run of blocks fails the read, whatever follows |
| Processor.ReadInfos | src/processor.rs:124-157 | the map-and-filter loop gives the indexed blocks of the specification |
| Processor.NewProcessors | src/processor.rs:113-166 | once both files read, the result is `CountMismatch` iff the numbers of indexed blocks and core lines differ, and otherwise processor i pairs block i with core line i as latest, with usage 0 |
| Processor.InitialViews | src/processor.rs:161-164 | processor i gets block i, core line i as latest, no last counters and usage 0 |
| Processor.Build | src/processor.rs:158-164 | builds distinct fresh objects whose states are the initial views |
| Processor.New | src/processor.rs:113-166 | succeeds iff the specification succeeds; it then returns fresh distinct processors in the specified states, else the specified error |
| Processor.Refreshed | src/processor.rs:98-109 | refreshing keeps the info, shifts latest to last, takes the new core line and sets its usage |
| Processor.Processor.constructor | src/processor.rs:129-130 | a processor starts with the block's fields, usage 0 and zero counters |
| Processor.Processor.Refresh | src/processor.rs:38-43 | a read error changes nothing; otherwise latest moves to last and the core line at the index becomes latest; an index outside the lines panics after the shift |
| Processor.RefreshAll | src/processor.rs:93-112 | on a read error or a count mismatch nothing changes; otherwise every processor is refreshed with the core line at its position |
| Process.ProcCounters.TotalWithChildren | src/process.rs:14-19 | the total with children adds cutime and cstime to the total and is at least the total |
| Process.ParseProcStat | src/process.rs:120-126 | parses iff there are at least 17 words and words 13..16 are u64; each counter is the value of its word; failure is a panic |
| Process.StatusFoldLastWins | src/process.rs:87-107 | rss is the last VmRSS value with " kB" removed, and pid is the last Pid value; each is kept when its key is absent |
| Process.StatusFold | src/process.rs:87-107 | rss and pid keep their starting values when no line has their key |
| Process.GetRssPid | src/process.rs:74-109 | the loop over /proc/<id>/status gives the specified (rss, pid) or the read error |
| Process.Share | src/process.rs:49-55 | the share × Δsystem = cores × Δprocess |
| Process.Usages | src/process.rs:42-56 | only the two usages change; the update succeeds iff the system total did not move or neither process total went backwards; a failure is a panic that leaves the usage with children as it was |
| Process.RefreshedWith | src/process.rs:37-61 | a successful refresh read all three files and stores the new system and process counters, the rss and the pid; a failed one keeps the old rss and pid |
| Process.Process.constructor | src/process.rs:21-35 | a process starts with empty strings, zero usages and zero counters |
| Process.Process.UpdateUsages | src/process.rs:42-56 | the usage update leaves the object in the specified state and returns the specified result |
| Process.Process.Refresh | src/process.rs:37-61 | refresh leaves the object in the state the specification gives for the same files and returns its result |
| Process.New | src/process.rs:63-73 | succeeds iff the specification does, and returns a fresh process in the specified state; otherwise the specified error |
| Process.RefreshShifts | src/process.rs:38-39 | whatever happens afterwards, latest moves to last for both the process and the system counters |
| Process.RefreshReadFails | src/process.rs:38-41 | an unreadable system or process stat is returned as the error, with the usages, rss and pid unchanged |
| Process.RefreshIdleSystem | src/process.rs:42-47 | when the system total did not move, both usages become 0 |
| Process.RefreshShares | src/process.rs:48-55 | otherwise usage × Δsystem = cores × Δtotal, and likewise with children |
| Process.RefreshBackwardsPanics | src/process.rs:49-51 | a process total that went backwards panics before either usage is assigned |
| Process.ShareExample | src/process.rs:49-51 | 4 cores, 20 process ticks and 200 system ticks give 0.4 |
| Process.WithChildrenAtLeastUsage | src/process.rs:49-55 | with counters that did not decrease, the usage with children is at least the usage without |
| Process.RefreshResolvesPid | src/process.rs:57-59 | a successful refresh stores the rss and pid read from the status file |
| Memory.Record | src/memory.rs:29-77 | an assigned key sets its own figure and no other; a cache key adds to the cache figure |
| Memory.MemoryStep | src/memory.rs:27-82 | a line fails iff its key is tracked and its value is not an i64; after a successful line, used = total − cache − free and swap used = swap total − swap free |
| Memory.ReadLine | src/memory.rs:28-81 | the loop body gives one specification step, including its panic |
| Memory.GetMemory | src/memory.rs:16-84 | the loop over /proc/meminfo gives the specified record or error |
| Memory.ReadLines | src/memory.rs:27-82 | the loop over the lines returns the specification fold from the zero record, or its panic |
| Memory.UntrackedLineIgnored | src/memory.rs:78-81 | a line whose key is not tracked changes none of the figures read from the file |
| Memory.MemoryFoldPanics | src/memory.rs:28-77 | reading panics iff some line has a tracked key and no i64 value |
| Memory.MemoryFoldLastWins | src/memory.rs:30-47 | each assigned figure is the value of the last line with its key, else unchanged |
| Memory.MemoryFoldCacheSum | src/memory.rs:48-65 | the cache figure grows by the sum of every Buffers, Cached and SReclaimable value |
| Memory.MemoryFoldDerived | src/memory.rs:80-81 | after at least one line, used = total − cache − free and swap used = swap total − swap free |
| Memory.MemoryMeaning | src/memory.rs:26-83 | a successful read has figures from the last lines (0 if absent), the cache sum and consistent derived figures |
| Memory.KeyValueOfLine | src/memory.rs:28-34 | for `key:value` text with no other ':', the key is the trimmed text before ':' and the value is the i64 of the trimmed text after it without " kB" |
| Memory.MemTotalLine | src/memory.rs:28-34 | the line "MemTotal:       1000 kB" has key MemTotal and value 1000 |
| Memory.TotalStep | src/memory.rs:30-35 | MemTotal 1000 read into an empty record gives total 1000 and used 1000 |
| Memory.FreeStep | src/memory.rs:36-41 | MemFree 200 read next gives free 200 and used 800 |
| Memory.BuffersStep | src/memory.rs:48-53 | Buffers 50 read next gives cache 50 and used 750 |
| Memory.CachedStep | src/memory.rs:54-59 | Cached 50 read next gives cache 100 and used 700 |
| Memory.UsedExample | src/memory.rs:27-82 | the four lines MemTotal 1000, MemFree 200, Buffers 50 and Cached 50 read from zero give used 700 and cache 100 |
| Disk.Genre | src/disk.rs:61-71 | "HDD" iff the file reads "1" after trimming, "SDD" iff it reads "0", "Unknown" otherwise or when it cannot be opened |
| Disk.DeviceName | src/disk.rs:24-52 | a mapper or root name keeps the resolved path; any other name gives a prefix of the resolved path without its leading "/dev/"s; never longer than the resolved path (the exact suffixes removed: Disk.SdPartition, Disk.PartitionSuffix, Disk.WholeDiskNumberDropped, Disk.OtherDevice) |
| Disk.FindTypeForName | src/disk.rs:20-72 | every device name is classified as one of the three genres |
| Disk.FindType | src/disk.rs:20-72 | the step-by-step normalisation gives the specified genre |
| Disk.IndirectResolvedOnce | src/disk.rs:24-42 | a mapper or root name that resolves elsewhere is classified by its resolved device |
| Disk.SdPartition | src/disk.rs:29-32 | /dev/sdXN names the disk sdX |
| Disk.PartitionSuffix | src/disk.rs:33-47 | /dev/<disk>p<N> under nvme or mmcblk names the disk whose name ends in a digit |
| Disk.WholeDiskNumberDropped | src/disk.rs:33-37 | a whole nvme or mmcblk disk loses its trailing number |
| Disk.OtherDevice | src/disk.rs:48-52 | any other /dev name only loses the /dev/ prefix |
| Disk.SdExample | src/disk.rs:29-32 | /dev/sda1 names sda |
| Disk.NvmeExample | src/disk.rs:33-37 | /dev/nvme0n1p1 names nvme0n1 |
| Disk.WholeNvmeExample | src/disk.rs:33-37 | the whole disk /dev/nvme0n1 names nvme0n |
| Disk.RotationalPathOfDevice | src/disk.rs:54-58 | a relative device name is looked up at /sys/block/<name>/queue/rotational |
| Disk.PathJoin | src/disk.rs:55-58 | an absolute component replaces the base; a relative one is appended after it |
| Disk.MountFieldsOfWords | src/disk.rs:80-85 | when the words of a line start with three words, those are its spec, mount point and type |
| Disk.MountFieldsOfLine | src/disk.rs:80-85 | the line `spec file vfstype` followed by whitespace or nothing reads as those three fields |
| Disk.MountFieldsTwo | src/disk.rs:80-85 | a line with two fields followed by blanks has type "" |
| Disk.MountFieldsOne | src/disk.rs:80-85 | a line with one field followed by blanks has mount point and type "" |
| Disk.MountFieldsBlank | src/disk.rs:80-85 | a blank line reads as three empty fields |
| Disk.DisksOfLine | src/disk.rs:87-127 | one mount line gives no disk if it is excluded, else the disk built from its fields |
| Disk.Disks | src/disk.rs:77-128 | the pipeline gives no more disks than there are mount lines |
| Disk.GetDisk | src/disk.rs:73-129 | it fails, by a panic, exactly when /proc/mounts cannot be opened; otherwise it has at most one disk per line |
| Disk.DisksAppend | src/disk.rs:77-128 | disks keep the order of their lines |
| Disk.DisksKept | src/disk.rs:87-127 | no more disks than lines; none is excluded; each carries its genre and the filesystem sizes |
| Disk.IsExcluded | src/disk.rs:87-108 | the filter of `get_disk`, as a definition: one of the thirteen pseudo file system types, a mount point starting with /sys, /proc or /run, or a source starting with sunrpc; its consequences are the next two rows and Disk.DisksKept |
| Disk.ProcMountExcluded | src/disk.rs:88-108 | proc mounts and anything mounted under /run are dropped |
| Disk.RootMountKept | src/disk.rs:88-108 | an ext4 root on /dev/sda1 is kept |
| Text.JoinSplit | src/processor.rs:54 | splitting on a separator loses nothing: joining the pieces restores the text |
| Text.SplitWithoutSeparator | src/memory.rs:28 | text without the separator splits into itself alone |
| Text.WordsAreWords | src/processor.rs:55 | every whitespace-separated word is non-empty and contains no whitespace |
| Text.TrimStartRemovesWhitespace | src/processor.rs:54 | trimming the start leaves a suffix of the text; everything removed is whitespace and what is left does not start with whitespace |
| Text.TrimEndWhere | src/disk.rs:32 | trimming the end leaves a prefix of the text |
| Text.TrimEndWhereRemoves | src/disk.rs:32 | trimming the end leaves a prefix; everything removed is dropped by the predicate and the last character left is not |
| Text.TrimEndWhereSuffix | src/disk.rs:32 | trimming a tail of dropped characters restores exactly the head |
| Text.TrimPadded | src/memory.rs:31 | trimming leading whitespace off text that neither starts nor ends with whitespace gives that text |
| Text.WordsCons | src/disk.rs:81 | a word followed by whitespace or the end is the first word, and the rest of the words follow it |
| Text.WordsOfTrim | src/disk.rs:80-81 | trimming a line does not change its whitespace-separated words |
| Text.TrimStartMatchesOnce | src/disk.rs:31 | stripping a prefix that occurs once restores the rest |
| Text.SplitAtChar | src/memory.rs:28 | text whose first ':' follows `a` splits into `a` followed by the pieces after that ':' |
| Text.ReplaceAtEnd | src/memory.rs:32 | removing " kB" at the very end of text that has no space before it gives the text before it |
| Text.ReplaceAbsent | src/memory.rs:31-33 | replacing a pattern that does not occur changes nothing |
| Text.DecimalDigits | src/processor.rs:58 | the decimal text of n is non-empty digits whose value is n |
| Text.ParseDecimal | src/processor.rs:58 | the integer parser reads back the decimal text of any in-range value |

## Left out

- File I/O is a map from path to contents. Failures of `read_to_string` after a successful open are not modelled, and neither is input that is not UTF-8.
- The `println!` of the status file, the serde derives and the `#[test]` functions are left out.
- Processor.InfoStep: `freq` is kept as the trimmed text of the "cpu MHz" line. The model checks that the text has Rust's f32 syntax, which is what decides whether the source panics, but it does not compute the f32 value.
- Processor.CoreUsage: the f32 division is exact division on `real`, with no rounding.
- Process.Share: the same applies to the usage of a process.
- Process.Process.Refresh: the call to `processor::new()` only supplies the number of cores. It is the `cores` parameter, so its possible error is not modelled.
- Integer widths: the i64 and u64 additions are unbounded, and so are the i64 subtractions in `get_memory` (src/memory.rs:80-81), the `total_diff` and work differences in `refresh_all` (src/processor.rs:101-108) and `total_diff` in `Process::refresh` (src/process.rs:42-43). Overflow is not modelled. Parsing does enforce the i32, i64 and u64 ranges.
- Process.RefreshedWith: a u64 subtraction that would underflow is a panic, as in a debug build. A release build would wrap.
- Disk.MountDisk: the `statvfs("/")` sizes are the `total` and `available` parameters. The source queries "/" for every mount, so all disks share them.
- Disk.FindTypeForName: `fs::canonicalize` is the `canon` parameter. It is required to be idempotent, as resolving symbolic links is. Lossy conversion of non-UTF-8 paths is not modelled.

/**
 * Mounted disks (src/disk.rs): the mounts of /proc/mounts that are real
 * storage, each with its device classified as rotating (HDD), solid state
 * (SDD) or unknown from /sys/block/<device>/queue/rotational.
 */
module Disk {
  import opened Text
  import opened Procfs

  /** One mounted file system; sizes in bytes, as u64. */
  datatype Disk = Disk(
    name: string, fileSystem: string, mountPoint: string,
    totalSpace: nat, availableSpace: nat, genre: string)

  // ---------------------------------------------------------------------
  // Device classification

  /** `s` starts with `prefix`. */
  predicate StartsWith(s: string, prefix: string) {
    prefix <= s
  }

  /** A name that `find_type_for_name` resolves again when it resolves to something else. */
  predicate IsIndirectName(name: string) {
    StartsWith(name, "/dev/mapper/") || StartsWith(name, "/dev/root")
  }

  /**
   * The device directory name under /sys/block for a mount source `name`
   * whose resolved path is `resolved`: the branch is chosen by `name`, the
   * trimming applied to `resolved`.
   */
  function DeviceName(name: string, resolved: string): (r: string)
    ensures |r| <= |resolved|
    ensures IsIndirectName(name) ==> r == resolved
    ensures !IsIndirectName(name) ==> r <= TrimStartMatches(resolved, "/dev/")
  {
    if StartsWith(name, "/dev/mapper/") then resolved
    else if StartsWith(name, "/dev/sd") then
      assert name[5] == 's';
      TrimEndWhere(TrimStartMatches(resolved, "/dev/"), IsDigit)
    else if StartsWith(name, "/dev/nvme") then
      assert name[5] == 'n';
      TrimEndWhere(TrimEndWhere(TrimStartMatches(resolved, "/dev/"), IsDigit), IsP)
    else if StartsWith(name, "/dev/root") then resolved
    else if StartsWith(name, "/dev/mmcblk") then TrimEndWhere(TrimEndWhere(TrimStartMatches(resolved, "/dev/"), IsDigit), IsP)
    else TrimStartMatches(resolved, "/dev/")
  }

  /** `Path::join` on text: an absolute component replaces the path, otherwise a '/' separates them when needed. */
  function PathJoin(base: string, component: string): (r: string)
    ensures component != [] && component[0] == '/' ==> r == component
    ensures (component == [] || component[0] != '/') ==> base <= r && |r| >= |component| && r[|r| - |component|..] == component
  {
    if component != [] && component[0] == '/' then component
    else if base == [] || base[|base| - 1] == '/' then base + component
    else base + "/" + component
  }

  /** The rotational flag file of a device. */
  function RotationalPath(device: string): string {
    PathJoin(PathJoin("/sys/block/", device), "queue/rotational")
  }

  /** The classification of the rotational flag file: "1" rotates, "0" does not, anything else or no file is unknown. */
  function Genre(content: Result<string>): (g: string)
    ensures g == "HDD" <==> content.Ok? && Trim(content.value) == "1"
    ensures g == "SDD" <==> content.Ok? && Trim(content.value) == "0"
    ensures g == "Unknown" <==> !(content.Ok? && (Trim(content.value) == "1" || Trim(content.value) == "0"))
  {
    if content.Err? then "Unknown"
    else
      var flag := Trim(content.value);
      if flag == "1" then "HDD" else if flag == "0" then "SDD" else "Unknown"
  }

  /**
   * `find_type_for_name`, with `fs::canonicalize` (falling back to the name
   * itself) given as `canon`. Device-mapper and root names are resolved
   * again while the resolved path differs from the name; since resolving a
   * resolved path changes nothing, that happens at most once.
   */
  function FindTypeForName(fs: FileSystem, canon: string -> string, name: string): (g: string)
    requires canon(canon(name)) == canon(name)
    ensures g == "HDD" || g == "SDD" || g == "Unknown"
    decreases if canon(name) == name then 0 else 1
  {
    var resolved := canon(name);
    if IsIndirectName(name) && resolved != name then FindTypeForName(fs, canon, resolved)
    else Genre(ReadFile(fs, RotationalPath(DeviceName(name, resolved))))
  }

  /** `find_type_for_name` step by step: the resolved path is trimmed in place, then the flag file is read. */
  method FindType(fs: FileSystem, canon: string -> string, name: string) returns (g: string)
    requires canon(canon(name)) == canon(name)
    ensures g == FindTypeForName(fs, canon, name)
    decreases if canon(name) == name then 0 else 1
  {
    var path := canon(name);
    if StartsWith(name, "/dev/mapper/") {
      if path != name {
        g := FindType(fs, canon, path);
        return;
      }
    } else if StartsWith(name, "/dev/sd") {
      assert name[5] == 's';
      path := TrimStartMatches(path, "/dev/");
      path := TrimEndWhere(path, IsDigit);
    } else if StartsWith(name, "/dev/nvme") {
      assert name[5] == 'n';
      path := TrimStartMatches(path, "/dev/");
      path := TrimEndWhere(path, IsDigit);
      path := TrimEndWhere(path, IsP);
    } else if StartsWith(name, "/dev/root") {
      if path != name {
        g := FindType(fs, canon, path);
        return;
      }
    } else if StartsWith(name, "/dev/mmcblk") {
      assert name[5] == 'm';
      path := TrimStartMatches(path, "/dev/");
      path := TrimEndWhere(path, IsDigit);
      path := TrimEndWhere(path, IsP);
    } else {
      path := TrimStartMatches(path, "/dev/");
    }
    assert !(IsIndirectName(name) && canon(name) != name);
    assert path == DeviceName(name, canon(name));
    var flagFile := PathJoin(PathJoin("/sys/block/", path), "queue/rotational");
    assert FindTypeForName(fs, canon, name) == Genre(ReadFile(fs, flagFile));
    if flagFile !in fs {
      return "Unknown";
    }
    var flag := Trim(fs[flagFile]);
    if flag == "1" {
      return "HDD";
    } else if flag == "0" {
      return "SDD";
    }
    return "Unknown";
  }

  /** A mapper or root name that resolves elsewhere is classified as the path it resolves to, and that path is read directly. */
  lemma IndirectResolvedOnce(fs: FileSystem, canon: string -> string, name: string)
    requires canon(canon(name)) == canon(name)
    requires IsIndirectName(name) && canon(name) != name
    ensures FindTypeForName(fs, canon, name) == Genre(ReadFile(fs, RotationalPath(DeviceName(canon(name), canon(name)))))
  {
  }

  /**
   * "/dev/sdXN": the leading "/dev/" and every trailing digit go, so
   * "/dev/sda1" names the device "sda".
   */
  lemma SdPartition(name: string, disk: string, digits: string)
    requires StartsWith(name, "/dev/sd")
    requires disk != [] && !IsDigit(disk[|disk| - 1]) && AllDigits(digits)
    requires !StartsWith(disk + digits, "/dev/")
    ensures DeviceName(name, "/dev/" + disk + digits) == disk
  {
    assert !StartsWith(name, "/dev/mapper/") by {
      assert name[5] == 's';
    }
    assert "/dev/" + disk + digits == "/dev/" + (disk + digits);
    TrimStartMatchesOnce("/dev/", disk + digits);
    TrimEndWhereSuffix(disk, digits, IsDigit);
  }

  /**
   * "/dev/nvme…" and "/dev/mmcblk…" partitions: "/dev/", the partition
   * number and then the 'p' before it go, so "/dev/nvme0n1p1" names
   * "nvme0n1" and "/dev/mmcblk0p1" names "mmcblk0".
   */
  lemma PartitionSuffix(name: string, disk: string, digits: string)
    requires StartsWith(name, "/dev/nvme") || StartsWith(name, "/dev/mmcblk")
    requires disk != [] && IsDigit(disk[|disk| - 1]) && AllDigits(digits)
    requires !StartsWith(disk + "p" + digits, "/dev/")
    ensures DeviceName(name, "/dev/" + disk + "p" + digits) == disk
  {
    assert !StartsWith(name, "/dev/mapper/") && !StartsWith(name, "/dev/sd") && !StartsWith(name, "/dev/root") by {
      assert name[5] == 'n' || name[5] == 'm';
      assert name[6] == 'v' || name[6] == 'm';
    }
    var rest := disk + "p" + digits;
    assert "/dev/" + disk + "p" + digits == "/dev/" + rest;
    TrimStartMatchesOnce("/dev/", rest);
    assert rest == (disk + "p") + digits;
    TrimEndWhereSuffix(disk + "p", digits, IsDigit);
    TrimEndWhereSuffix(disk, "p", IsP);
  }

  /**
   * A whole nvme or mmc disk loses its trailing number: "/dev/nvme0n1"
   * names "nvme0n", and "/dev/mmcblk0" names "mmcblk", neither of which is
   * a directory of /sys/block.
   */
  lemma WholeDiskNumberDropped(name: string, disk: string, digits: string)
    requires StartsWith(name, "/dev/nvme") || StartsWith(name, "/dev/mmcblk")
    requires disk != [] && !IsDigit(disk[|disk| - 1]) && !IsP(disk[|disk| - 1]) && AllDigits(digits)
    requires !StartsWith(disk + digits, "/dev/")
    ensures DeviceName(name, "/dev/" + disk + digits) == disk
  {
    assert !StartsWith(name, "/dev/mapper/") && !StartsWith(name, "/dev/sd") && !StartsWith(name, "/dev/root") by {
      assert name[5] == 'n' || name[5] == 'm';
      assert name[6] == 'v' || name[6] == 'm';
    }
    assert "/dev/" + disk + digits == "/dev/" + (disk + digits);
    TrimStartMatchesOnce("/dev/", disk + digits);
    TrimEndWhereSuffix(disk, digits, IsDigit);
    TrimEndWhereSuffix(disk, [], IsP);
    assert disk + [] == disk;
  }

  /** Any other name only loses its leading "/dev/": "/dev/dm-0" names "dm-0". */
  lemma OtherDevice(name: string, device: string)
    requires StartsWith(name, "/dev/") && !StartsWith(device, "/dev/")
    requires !StartsWith(name, "/dev/mapper/") && !StartsWith(name, "/dev/sd") && !StartsWith(name, "/dev/nvme")
    requires !StartsWith(name, "/dev/root") && !StartsWith(name, "/dev/mmcblk")
    ensures DeviceName(name, "/dev/" + device) == device
  {
    TrimStartMatchesOnce("/dev/", device);
  }

  /** "/dev/sda1" names "sda". */
  lemma SdExample()
    ensures DeviceName("/dev/sda1", "/dev/sda1") == "sda"
  {
    assert "/dev/" + "sda" + "1" == "/dev/sda1";
    assert "/dev/sd" <= "/dev/sda1";
    assert !("/dev/" <= "sda1") by { assert "sda1"[0] != '/'; }
    SdPartition("/dev/sda1", "sda", "1");
  }

  /** "/dev/nvme0n1p1" names "nvme0n1". */
  lemma NvmeExample()
    ensures DeviceName("/dev/nvme0n1p1", "/dev/nvme0n1p1") == "nvme0n1"
  {
    assert "/dev/" + "nvme0n1" + "p" + "1" == "/dev/nvme0n1p1";
    assert "/dev/nvme" <= "/dev/nvme0n1p1";
    assert !("/dev/" <= "nvme0n1p1") by { assert "nvme0n1p1"[0] != '/'; }
    PartitionSuffix("/dev/nvme0n1p1", "nvme0n1", "1");
  }

  /** The whole disk "/dev/nvme0n1" names "nvme0n". */
  lemma WholeNvmeExample()
    ensures DeviceName("/dev/nvme0n1", "/dev/nvme0n1") == "nvme0n"
  {
    assert "/dev/" + "nvme0n" + "1" == "/dev/nvme0n1";
    assert "/dev/nvme" <= "/dev/nvme0n1";
    assert !("/dev/" <= "nvme0n1") by { assert "nvme0n1"[0] != '/'; }
    WholeDiskNumberDropped("/dev/nvme0n1", "nvme0n", "1");
  }

  /** A relative device name gives /sys/block/<device>/queue/rotational. */
  lemma RotationalPathOfDevice(device: string)
    requires device != [] && device[0] != '/' && device[|device| - 1] != '/'
    ensures RotationalPath(device) == "/sys/block/" + device + "/" + "queue/rotational"
  {
    var base := "/sys/block/";
    var tail := "queue/rotational";
    assert base[|base| - 1] == '/' && tail[0] != '/';
    var dir := PathJoin(base, device);
    assert dir == base + device;
    assert dir[|dir| - 1] == device[|device| - 1];
  }

  // ---------------------------------------------------------------------
  // Mounts

  /** The first three whitespace-separated fields of a trimmed /proc/mounts line: spec, mount point and type, "" when missing. */
  function MountFields(line: string): (string, string, string) {
    var words := Words(Trim(line), false);
    (if |words| > 0 then words[0] else "", if |words| > 1 then words[1] else "", if |words| > 2 then words[2] else "")
  }

  /** A non-empty run of characters none of which is whitespace. */
  predicate IsField(w: string) {
    w != [] && forall i :: 0 <= i < |w| ==> !IsWhitespace(w[i])
  }

  /** Text made only of whitespace. */
  predicate IsBlank(t: string) {
    forall i :: 0 <= i < |t| ==> IsWhitespace(t[i])
  }

  /** A field followed by a space is the first word, and the words after the space follow it. */
  lemma WordsOfSpaced(w: string, t: string)
    requires IsField(w)
    ensures Words(w + " " + t, false) == [w] + Words(t, false)
  {
    var rest := " " + t;
    assert w + " " + t == w + rest;
    WordsCons(w, rest, false);
    assert Words(rest, false) == Words(t, false) by {
      assert rest[0] == ' ' && rest[1..] == t;
    }
  }

  /** The first three fields of a line, whatever follows them. */
  lemma MountFieldsOfWords(line: string, spec: string, file: string, vfstype: string, more: seq<string>)
    requires Words(line, false) == [spec, file, vfstype] + more
    ensures MountFields(line) == (spec, file, vfstype)
  {
    WordsOfTrim(line);
  }

  /**
   * A line of /proc/mounts, `spec file vfstype` followed by more fields
   * (dump and pass numbers), reads as its first three fields.
   */
  lemma MountFieldsOfLine(spec: string, file: string, vfstype: string, rest: string)
    requires IsField(spec) && IsField(file) && IsField(vfstype)
    requires rest == [] || IsWhitespace(rest[0])
    ensures MountFields(spec + " " + file + " " + vfstype + rest) == (spec, file, vfstype)
  {
    var t3 := vfstype + rest;
    var t2 := file + " " + t3;
    var t1 := spec + " " + t2;
    var more := Words(rest, false);
    WordsCons(vfstype, rest, false);
    WordsOfSpaced(file, t3);
    WordsOfSpaced(spec, t2);
    assert [spec] + ([file] + ([vfstype] + more)) == [spec, file, vfstype] + more;
    MountLineShape(spec, file, vfstype, rest);
    MountFieldsOfWords(t1, spec, file, vfstype, more);
  }

  /** The same line, grouped from the right. */
  lemma MountLineShape(spec: string, file: string, vfstype: string, rest: string)
    ensures spec + " " + file + " " + vfstype + rest == spec + " " + (file + " " + (vfstype + rest))
  {
  }

  /** A line with only two fields has no type. */
  lemma MountFieldsTwo(spec: string, file: string, blank: string)
    requires IsField(spec) && IsField(file) && IsBlank(blank)
    ensures MountFields(spec + " " + file + blank) == (spec, file, "")
  {
    var t2 := file + blank;
    WordsSpaceTail(file, blank, false);
    WordsOfWord(file, false);
    WordsOfSpaced(spec, t2);
    assert spec + " " + file + blank == spec + " " + t2;
    WordsOfTrim(spec + " " + t2);
  }

  /** A line with a single field has neither mount point nor type. */
  lemma MountFieldsOne(spec: string, blank: string)
    requires IsField(spec) && IsBlank(blank)
    ensures MountFields(spec + blank) == (spec, "", "")
  {
    WordsOfTrim(spec + blank);
    WordsSpaceTail(spec, blank, false);
    WordsOfWord(spec, false);
  }

  /** A blank line has no fields at all. */
  lemma MountFieldsBlank(blank: string)
    requires IsBlank(blank)
    ensures MountFields(blank) == ("", "", "")
  {
    WordsOfTrim(blank);
    WordsOfSpaces(blank, false);
  }

  /** The file system types that are not storage. */
  predicate IsPseudoFileSystem(vfstype: string) {
    || vfstype == "devpts" || vfstype == "mqueue" || vfstype == "hugetlbfs" || vfstype == "sysfs"
    || vfstype == "proc" || vfstype == "tmpfs" || vfstype == "devtmpfs" || vfstype == "cgroup"
    || vfstype == "cgroup2" || vfstype == "pstore" || vfstype == "squashfs" || vfstype == "rpc_pipefs"
    || vfstype == "iso9660"
  }

  /** A mount `get_disk` leaves out: a pseudo file system, a mount point under /sys, /proc or /run, or an RPC source. */
  predicate IsExcluded(spec: string, file: string, vfstype: string) {
    || IsPseudoFileSystem(vfstype)
    || StartsWith(file, "/sys") || StartsWith(file, "/proc") || StartsWith(file, "/run")
    || StartsWith(spec, "sunrpc")
  }

  /** The `Disk` of a kept mount. */
  function MountDisk(fs: FileSystem, canon: string -> string, total: nat, available: nat, spec: string, file: string, vfstype: string): (d: Disk)
    requires canon(canon(spec)) == canon(spec)
  {
    Disk(spec, vfstype, file, total, available, FindTypeForName(fs, canon, spec))
  }

  /** Every path resolves to a path that resolves to itself. */
  ghost predicate Idempotent(canon: string -> string) {
    forall s :: canon(canon(s)) == canon(s)
  }

  /**
   * The map, filter and map of `get_disk` over the lines of /proc/mounts.
   * `total` and `available` are the sizes of the file system at "/", which
   * every disk gets.
   */
  function Disks(fs: FileSystem, canon: string -> string, total: nat, available: nat, lines: seq<string>): (r: seq<Disk>)
    requires Idempotent(canon)
    ensures |r| <= |lines|
    decreases |lines|
  {
    if lines == [] then []
    else
      var (spec, file, vfstype) := MountFields(lines[0]);
      var rest := Disks(fs, canon, total, available, lines[1..]);
      if IsExcluded(spec, file, vfstype) then rest
      else [MountDisk(fs, canon, total, available, spec, file, vfstype)] + rest
  }

  /** `get_disk`: the disks of /proc/mounts in the order of its lines; no /proc/mounts panics. */
  function GetDisk(fs: FileSystem, canon: string -> string, total: nat, available: nat): (r: Result<seq<Disk>>)
    requires Idempotent(canon)
    ensures r.Err? <==> "/proc/mounts" !in fs
    ensures r.Err? ==> r.error == Panic
    ensures r.Ok? ==> |r.value| <= |Lines(fs["/proc/mounts"])|
  {
    if "/proc/mounts" !in fs then Err(Panic)
    else Ok(Disks(fs, canon, total, available, Lines(fs["/proc/mounts"])))
  }

  /** One line gives its disk exactly when the mount is not excluded. */
  lemma DisksOfLine(fs: FileSystem, canon: string -> string, total: nat, available: nat, line: string)
    requires Idempotent(canon)
    ensures var (spec, file, vfstype) := MountFields(line);
      Disks(fs, canon, total, available, [line])
      == if IsExcluded(spec, file, vfstype) then [] else [MountDisk(fs, canon, total, available, spec, file, vfstype)]
  {
    assert [line][1..] == [];
  }

  /** The pipeline keeps the order of the lines: the disks of two blocks of lines are those of each, one after the other. */
  lemma {:induction false} DisksAppend(fs: FileSystem, canon: string -> string, total: nat, available: nat, a: seq<string>, b: seq<string>)
    requires Idempotent(canon)
    ensures Disks(fs, canon, total, available, a + b) == Disks(fs, canon, total, available, a) + Disks(fs, canon, total, available, b)
    decreases |a|
  {
    if a == [] {
      assert a + b == b;
    } else {
      assert (a + b)[0] == a[0];
      assert (a + b)[1..] == a[1..] + b;
      DisksAppend(fs, canon, total, available, a[1..], b);
    }
  }

  /** Every disk comes from a mount that is not excluded, keeps its fields and has a genre. */
  lemma {:induction false} DisksKept(fs: FileSystem, canon: string -> string, total: nat, available: nat, lines: seq<string>)
    requires Idempotent(canon)
    ensures var ds := Disks(fs, canon, total, available, lines);
      && |ds| <= |lines|
      && forall k :: 0 <= k < |ds| ==>
        && !IsExcluded(ds[k].name, ds[k].mountPoint, ds[k].fileSystem)
        && ds[k].genre == FindTypeForName(fs, canon, ds[k].name)
        && ds[k].totalSpace == total && ds[k].availableSpace == available
    decreases |lines|
  {
    if lines != [] {
      DisksKept(fs, canon, total, available, lines[1..]);
    }
  }

  /** The proc file system mounted at /proc is left out, and so is anything mounted under /run. */
  lemma ProcMountExcluded(spec: string, vfstype: string, rest: string)
    ensures IsExcluded("proc", "/proc", "proc")
    ensures IsExcluded(spec, "/run" + rest, vfstype)
  {
    assert "/run" <= "/run" + rest;
  }

  /** An ext4 root file system on a disk partition is kept. */
  lemma RootMountKept()
    ensures !IsExcluded("/dev/sda1", "/", "ext4")
  {
    assert !("/sys" <= "/") && !("/proc" <= "/") && !("/run" <= "/");
    assert !("sunrpc" <= "/dev/sda1") by {
      assert "/dev/sda1"[0] == '/';
    }
  }
}

/** Host resource detection (internal/system/system.go). The probes the tool runs — the CPU count,
    `/proc/meminfo`, `sysctl -n hw.memsize`, `vm_stat`, `sysctl -n hw.pagesize` — are inputs:
    `None` stands for a probe that failed. */
module System {
  import opened Wrappers
  import opened Text
  import opened Numeric

  /** What the operating system reported, as the detectors see it. */
  datatype Probes = Probes(
    numCPU: int,
    meminfo: Option<seq<string>>,   // lines of /proc/meminfo
    memsize: Option<string>,        // output of `sysctl -n hw.memsize`
    vmStat: Option<seq<string>>,    // lines of `vm_stat`
    pageSize: Option<string>)       // output of `sysctl -n hw.pagesize`

  datatype DetectError =
    | MeminfoUnreadable
    | MemSizeUnavailable
    | MemSizeUnparsable
    | VMStatUnavailable
    | UnsupportedPlatform(platform: string)

  /** System resource information; the detectors fill it in place. */
  class Info {
    var CPUCores: int
    var MemTotalMB: int
    var MemFreeMB: int
    var MemAvailMB: int
    var MemUsedMB: int
    var Platform: string

    constructor (platform: string)
      ensures CPUCores == 0 && MemTotalMB == 0 && MemFreeMB == 0 && MemAvailMB == 0 && MemUsedMB == 0
      ensures Platform == platform
    {
      CPUCores := 0;
      MemTotalMB := 0;
      MemFreeMB := 0;
      MemAvailMB := 0;
      MemUsedMB := 0;
      Platform := platform;
    }
  }

  // ---------------------------------------------------------------------------------------------
  // Linux

  /** The value of a `/proc/meminfo` line in MB: its second field read as kB and divided by 1024;
      `None` for a line the scan skips (fewer than two fields, or a second field that is no integer). */
  function MemInfoValueMB(line: string): Option<int>
  {
    var fields := Fields(line);
    if |fields| < 2 then None
    else
      match ParseInt(fields[1])
      case None => None
      case Some(value) => Some(TruncDiv(value, 1024))
  }

  /** What one line does to the field of the key `prefix`: a line with that prefix and a value
      sets it, any other line leaves it. */
  function MemInfoUpdate(line: string, prefix: string, current: int): int
  {
    if HasPrefix(line, prefix) && MemInfoValueMB(line).Some? then MemInfoValueMB(line).value else current
  }

  /** The value the scan leaves for the key `prefix`: that of the last line with that prefix
      and a value, or `initial` when there is none. */
  function MemInfoField(lines: seq<string>, prefix: string, initial: int): int
  {
    if lines == [] then initial
    else MemInfoUpdate(lines[|lines| - 1], prefix, MemInfoField(lines[..|lines| - 1], prefix, initial))
  }

  lemma MemInfoFieldStep(lines: seq<string>, i: nat, prefix: string, initial: int)
    requires i < |lines|
    ensures MemInfoField(lines[..i + 1], prefix, initial)
      == MemInfoUpdate(lines[i], prefix, MemInfoField(lines[..i], prefix, initial))
  {
    assert lines[..i + 1][..i] == lines[..i];
  }

  /** No line starts with two of the keys, so the order of the scan's cases does not matter. */
  lemma MemInfoKeysExclusive(line: string)
    ensures !(HasPrefix(line, "MemTotal:") && HasPrefix(line, "MemFree:"))
    ensures !(HasPrefix(line, "MemTotal:") && HasPrefix(line, "MemAvailable:"))
    ensures !(HasPrefix(line, "MemFree:") && HasPrefix(line, "MemAvailable:"))
  {
    if HasPrefix(line, "MemTotal:") { assert line[3] == 'T'; }
    if HasPrefix(line, "MemFree:") { assert line[3] == 'F'; }
  }

  /** One line of the `/proc/meminfo` scan: a line with a value and one of the three keys
      overwrites that field. */
  method ScanMemInfoLine(info: Info, line: string)
    modifies info
    ensures info.CPUCores == old(info.CPUCores) && info.Platform == old(info.Platform)
    ensures info.MemUsedMB == old(info.MemUsedMB)
    ensures info.MemTotalMB == MemInfoUpdate(line, "MemTotal:", old(info.MemTotalMB))
    ensures info.MemFreeMB == MemInfoUpdate(line, "MemFree:", old(info.MemFreeMB))
    ensures info.MemAvailMB == MemInfoUpdate(line, "MemAvailable:", old(info.MemAvailMB))
  {
    MemInfoKeysExclusive(line);
    var value := MemInfoValueMB(line);
    if value.Some? {
      var valueMB := value.value;
      if HasPrefix(line, "MemTotal:") {
        info.MemTotalMB := valueMB;
      } else if HasPrefix(line, "MemFree:") {
        info.MemFreeMB := valueMB;
      } else if HasPrefix(line, "MemAvailable:") {
        info.MemAvailMB := valueMB;
      }
    }
  }

  /** The `/proc/meminfo` scan of `detectLinux`: each line with one of the three keys and a value
      overwrites that field. */
  method ScanMemInfo(info: Info, lines: seq<string>)
    modifies info
    ensures info.CPUCores == old(info.CPUCores) && info.Platform == old(info.Platform)
    ensures info.MemUsedMB == old(info.MemUsedMB)
    ensures info.MemTotalMB == MemInfoField(lines, "MemTotal:", old(info.MemTotalMB))
    ensures info.MemFreeMB == MemInfoField(lines, "MemFree:", old(info.MemFreeMB))
    ensures info.MemAvailMB == MemInfoField(lines, "MemAvailable:", old(info.MemAvailMB))
  {
    ghost var total0, free0, avail0 := info.MemTotalMB, info.MemFreeMB, info.MemAvailMB;
    var i := 0;
    while i < |lines|
      invariant 0 <= i <= |lines|
      invariant info.CPUCores == old(info.CPUCores) && info.Platform == old(info.Platform)
      invariant info.MemUsedMB == old(info.MemUsedMB)
      invariant info.MemTotalMB == MemInfoField(lines[..i], "MemTotal:", total0)
      invariant info.MemFreeMB == MemInfoField(lines[..i], "MemFree:", free0)
      invariant info.MemAvailMB == MemInfoField(lines[..i], "MemAvailable:", avail0)
    {
      MemInfoFieldStep(lines, i, "MemTotal:", total0);
      MemInfoFieldStep(lines, i, "MemFree:", free0);
      MemInfoFieldStep(lines, i, "MemAvailable:", avail0);
      ScanMemInfoLine(info, lines[i]);
      i := i + 1;
    }
    assert lines[..i] == lines;
  }

  /** `detectLinux`: the CPU count, then the three memory keys of `/proc/meminfo` (kB → MB),
      with `MemFree` standing in for a missing or zero `MemAvailable`. */
  method DetectLinux(info: Info, probes: Probes) returns (err: Option<DetectError>)
    modifies info
    ensures info.CPUCores == probes.numCPU && info.Platform == old(info.Platform)
    ensures probes.meminfo.None? ==>
      err == Some(MeminfoUnreadable)
      && info.MemTotalMB == old(info.MemTotalMB) && info.MemFreeMB == old(info.MemFreeMB)
      && info.MemAvailMB == old(info.MemAvailMB) && info.MemUsedMB == old(info.MemUsedMB)
    ensures probes.meminfo.Some? ==>
      var lines := probes.meminfo.value;
      var avail := MemInfoField(lines, "MemAvailable:", old(info.MemAvailMB));
      err.None?
      && info.MemTotalMB == MemInfoField(lines, "MemTotal:", old(info.MemTotalMB))
      && info.MemFreeMB == MemInfoField(lines, "MemFree:", old(info.MemFreeMB))
      && info.MemAvailMB == (if avail == 0 then info.MemFreeMB else avail)
      && info.MemUsedMB == info.MemTotalMB - info.MemAvailMB
  {
    info.CPUCores := probes.numCPU;
    if probes.meminfo.None? {
      return Some(MeminfoUnreadable);
    }
    ScanMemInfo(info, probes.meminfo.value);
    if info.MemAvailMB == 0 {
      info.MemAvailMB := info.MemFreeMB;
    }
    info.MemUsedMB := info.MemTotalMB - info.MemAvailMB;
    return None;
  }

  /** The last line with the key and a value decides the key's value. */
  lemma {:induction false} MemInfoLastWins(lines: seq<string>, prefix: string, initial: int, j: nat)
    requires j < |lines| && HasPrefix(lines[j], prefix) && MemInfoValueMB(lines[j]).Some?
    requires forall k :: j < k < |lines| ==> !(HasPrefix(lines[k], prefix) && MemInfoValueMB(lines[k]).Some?)
    ensures MemInfoField(lines, prefix, initial) == MemInfoValueMB(lines[j]).value
    decreases |lines|
  {
    if j < |lines| - 1 {
      var init := lines[..|lines| - 1];
      assert init[j] == lines[j];
      assert forall k :: j < k < |init| ==> init[k] == lines[k];
      MemInfoLastWins(init, prefix, initial, j);
    }
  }

  /** Without a line for the key, the field keeps its value. */
  lemma {:induction false} MemInfoMissing(lines: seq<string>, prefix: string, initial: int)
    requires forall k :: 0 <= k < |lines| ==> !(HasPrefix(lines[k], prefix) && MemInfoValueMB(lines[k]).Some?)
    ensures MemInfoField(lines, prefix, initial) == initial
    decreases |lines|
  {
    if lines != [] {
      var init := lines[..|lines| - 1];
      assert forall k :: 0 <= k < |init| ==> init[k] == lines[k];
      MemInfoMissing(init, prefix, initial);
    }
  }

  // ---------------------------------------------------------------------------------------------
  // macOS

  /** `parseVMStatValue`: the number after the only colon of a `vm_stat` line, without its final
      period; 0 when the line does not have exactly one colon or the number does not parse. */
  function ParseVMStatValue(line: string): (v: int)
    ensures ':' !in line ==> v == 0
  {
    var parts := Split(line, ':');
    if |parts| != 2 then 0
    else
      var valStr := TrimSpace(TrimSuffix(parts[1], "."));
      ParseInt(valStr).GetOr(0)
  }

  /** A padded count followed by a period has no colon. */
  lemma NoColonInCount(pad: string, n: int)
    requires AllSpace(pad)
    ensures ':' !in pad + FormatInt(n) + "."
  {
    var f := FormatInt(n);
    var rest := pad + f + ".";
    forall i | 0 <= i < |rest|
      ensures rest[i] != ':'
    {
      if i < |pad| {
        assert IsSpace(pad[i]);
      } else if i < |pad| + |f| {
        assert rest[i] == f[i - |pad|];
      }
    }
  }

  /** Trimming a padded count gives the count. */
  lemma TrimPaddedCount(pad: string, n: int)
    requires AllSpace(pad)
    ensures TrimSpace(TrimSuffix(pad + FormatInt(n) + ".", ".")) == FormatInt(n)
  {
    var f := FormatInt(n);
    assert (pad + f + ".")[..|pad + f|] == pad + f;
    assert TrimSuffix(pad + f + ".", ".") == pad + f;
    TrimSpaceSurrounded(pad, f, []);
    assert pad + f + [] == pad + f;
    assert !IsSpace(f[0]);
    TrimSpaceNoop(f);
  }

  /** A line with exactly one colon yields the integer after it, trimmed and without a final
      period; 0 when that text is not an integer. */
  lemma ParseVMStatOneColon(key: string, rest: string)
    requires ':' !in key && ':' !in rest
    ensures ParseVMStatValue(key + ":" + rest) == ParseInt(TrimSpace(TrimSuffix(rest, "."))).GetOr(0)
  {
    assert key + ":" + rest == Join([key, rest], ':');
    SplitJoin([key, rest], ':');
  }

  /** A line with two or more colons yields 0. */
  lemma ParseVMStatManyColons(line: string, i: nat, j: nat)
    requires i < j < |line| && line[i] == ':' && line[j] == ':'
    ensures ParseVMStatValue(line) == 0
  {
    var f := FirstIndex(line, ':');
    var piece, rest := line[..f], line[f + 1..];
    assert line == piece + [':'] + rest;
    SplitAtFirst(piece, ':', rest);
    assert rest[j - f - 1] == ':';
    SplitCount(rest, ':');
  }

  /** A `vm_stat` line of the usual shape, `<key>:<padding><count>.`, yields the count. */
  lemma ParseVMStatLine(key: string, pad: string, n: int)
    requires ':' !in key && AllSpace(pad)
    ensures ParseVMStatValue(key + ":" + pad + FormatInt(n) + ".") == n
  {
    var rest := pad + FormatInt(n) + ".";
    NoColonInCount(pad, n);
    assert key + ":" + pad + FormatInt(n) + "." == key + ":" + rest;
    ParseVMStatOneColon(key, rest);
    TrimPaddedCount(pad, n);
    ParseFormatInt(n);
  }

  /** The free-page count the scan leaves: from the last line mentioning `Pages free:`. */
  function FreePages(lines: seq<string>): int
  {
    if lines == [] then 0
    else
      var line := lines[|lines| - 1];
      if Contains(line, "Pages free:") then ParseVMStatValue(line) else FreePages(lines[..|lines| - 1])
  }

  /** The inactive-page count the scan leaves: from the last line mentioning `Pages inactive:`
      but not `Pages free:` (the free case is checked first). */
  function InactivePages(lines: seq<string>): int
  {
    if lines == [] then 0
    else
      var line := lines[|lines| - 1];
      if !Contains(line, "Pages free:") && Contains(line, "Pages inactive:") then ParseVMStatValue(line)
      else InactivePages(lines[..|lines| - 1])
  }

  lemma VMStatStep(lines: seq<string>, i: nat)
    requires i < |lines|
    ensures FreePages(lines[..i + 1])
      == if Contains(lines[i], "Pages free:") then ParseVMStatValue(lines[i]) else FreePages(lines[..i])
    ensures InactivePages(lines[..i + 1])
      == if !Contains(lines[i], "Pages free:") && Contains(lines[i], "Pages inactive:") then ParseVMStatValue(lines[i])
         else InactivePages(lines[..i])
  {
    assert lines[..i + 1][..i] == lines[..i];
  }

  /** Available pages: the free ones and the inactive ones. */
  function AvailablePages(lines: seq<string>): int
  {
    FreePages(lines) + InactivePages(lines)
  }

  /** The page size: the `hw.pagesize` output when it is an integer, else 16384 (Apple Silicon). */
  function PageSize(out: Option<string>): int
  {
    match out
    case Some(s) => ParseInt(TrimSpace(s)).GetOr(16384)
    case None => 16384
  }

  /** The page size of `detectDarwin`: `hw.pagesize` when it parses, else 16384 bytes. */
  method ReadPageSize(out: Option<string>) returns (pageSize: int)
    ensures pageSize == PageSize(out)
    ensures out.None? ==> pageSize == 16384
  {
    pageSize := 16384;
    if out.Some? {
      var ps := ParseInt(TrimSpace(out.value));
      if ps.Some? {
        pageSize := ps.value;
      }
    }
  }

  /** Pages to MB: `pages * pageSize / 1024 / 1024` with Go's truncating division. */
  function PagesToMB(pages: int, pageSize: int): int
  {
    TruncDiv(TruncDiv(pages * pageSize, 1024), 1024)
  }

  /** The `hw.memsize` output read as a number of bytes, if it is one. */
  function MemSizeBytes(probes: Probes): Option<int>
  {
    if probes.memsize.Some? then ParseInt(TrimSpace(probes.memsize.value)) else None
  }

  /** The `vm_stat` scan of `detectDarwin`: the last free and inactive page counts. */
  method ScanVMStat(lines: seq<string>) returns (freePages: int, availPages: int)
    ensures freePages == FreePages(lines) && availPages == AvailablePages(lines)
  {
    freePages := 0;
    var inactivePages := 0;
    var i := 0;
    while i < |lines|
      invariant 0 <= i <= |lines|
      invariant freePages == FreePages(lines[..i]) && inactivePages == InactivePages(lines[..i])
    {
      var line := lines[i];
      VMStatStep(lines, i);
      if Contains(line, "Pages free:") {
        freePages := ParseVMStatValue(line);
      } else if Contains(line, "Pages inactive:") {
        inactivePages := ParseVMStatValue(line);
      }
      i := i + 1;
    }
    assert lines[..i] == lines;
    availPages := freePages + inactivePages;
  }

  /** `detectDarwin`: total memory from `hw.memsize` (bytes → MB); free and available memory
      from the free and inactive page counts of `vm_stat`. */
  method DetectDarwin(info: Info, probes: Probes) returns (err: Option<DetectError>)
    modifies info
    ensures info.CPUCores == probes.numCPU && info.Platform == old(info.Platform)
    ensures probes.memsize.None? ==> err == Some(MemSizeUnavailable)
    ensures probes.memsize.Some? && MemSizeBytes(probes).None? ==> err == Some(MemSizeUnparsable)
    ensures MemSizeBytes(probes).None? ==>
      info.MemTotalMB == old(info.MemTotalMB) && info.MemFreeMB == old(info.MemFreeMB)
      && info.MemAvailMB == old(info.MemAvailMB) && info.MemUsedMB == old(info.MemUsedMB)
    ensures MemSizeBytes(probes).Some? ==>
      info.MemTotalMB == TruncDiv(TruncDiv(MemSizeBytes(probes).value, 1024), 1024)
    ensures MemSizeBytes(probes).Some? && probes.vmStat.None? ==>
      err == Some(VMStatUnavailable)
      && info.MemFreeMB == old(info.MemFreeMB) && info.MemAvailMB == old(info.MemAvailMB)
      && info.MemUsedMB == old(info.MemUsedMB)
    ensures MemSizeBytes(probes).Some? && probes.vmStat.Some? ==>
      var lines := probes.vmStat.value;
      err.None?
      && info.MemFreeMB == PagesToMB(FreePages(lines), PageSize(probes.pageSize))
      && info.MemAvailMB == PagesToMB(AvailablePages(lines), PageSize(probes.pageSize))
      && info.MemUsedMB == info.MemTotalMB - info.MemAvailMB
  {
    info.CPUCores := probes.numCPU;
    if probes.memsize.None? {
      return Some(MemSizeUnavailable);
    }
    var memBytes := ParseInt(TrimSpace(probes.memsize.value));
    assert memBytes == MemSizeBytes(probes);
    if memBytes.None? {
      return Some(MemSizeUnparsable);
    }
    info.MemTotalMB := TruncDiv(TruncDiv(memBytes.value, 1024), 1024);
    if probes.vmStat.None? {
      return Some(VMStatUnavailable);
    }
    var pageSize := ReadPageSize(probes.pageSize);
    var lines := probes.vmStat.value;
    var freePages, availPages := ScanVMStat(lines);
    info.MemFreeMB := PagesToMB(freePages, pageSize);
    info.MemAvailMB := PagesToMB(availPages, pageSize);
    info.MemUsedMB := info.MemTotalMB - info.MemAvailMB;
    return None;
  }

  /** With non-negative page counts and a positive page size, free memory never exceeds
      available memory and neither is negative. */
  lemma DarwinFreeAtMostAvailable(free: int, inactive: int, pageSize: int)
    requires free >= 0 && inactive >= 0 && pageSize > 0
    ensures 0 <= PagesToMB(free, pageSize) <= PagesToMB(free + inactive, pageSize)
  {
    MulMonotone(free, free + inactive, pageSize);
    TruncDivMonotone(0, free * pageSize, 1024);
    TruncDivMonotone(free * pageSize, (free + inactive) * pageSize, 1024);
    TruncDivMonotone(0, TruncDiv(free * pageSize, 1024), 1024);
    TruncDivMonotone(TruncDiv(free * pageSize, 1024), TruncDiv((free + inactive) * pageSize, 1024), 1024);
  }

  // ---------------------------------------------------------------------------------------------

  /** `Detect`: a fresh `Info` for the platform filled by its detector, or the detector's error;
      platforms other than Linux and macOS are unsupported. */
  method Detect(platform: string, probes: Probes) returns (info: Info?, err: Option<DetectError>)
    ensures err.None? <==> info != null
    ensures info != null ==> fresh(info) && info.Platform == platform && info.CPUCores == probes.numCPU
    ensures platform != "linux" && platform != "darwin" ==> err == Some(UnsupportedPlatform(platform))
    ensures platform == "linux" ==> (err.None? <==> probes.meminfo.Some?)
    ensures platform == "darwin" ==>
      (err.None? <==> probes.memsize.Some? && ParseInt(TrimSpace(probes.memsize.value)).Some? && probes.vmStat.Some?)
    ensures info != null && platform == "linux" ==>
      var lines := probes.meminfo.value;
      var avail := MemInfoField(lines, "MemAvailable:", 0);
      && info.MemTotalMB == MemInfoField(lines, "MemTotal:", 0)
      && info.MemFreeMB == MemInfoField(lines, "MemFree:", 0)
      && info.MemAvailMB == (if avail == 0 then info.MemFreeMB else avail)
      && info.MemUsedMB == info.MemTotalMB - info.MemAvailMB
    ensures info != null && platform == "darwin" ==>
      var lines := probes.vmStat.value;
      && info.MemTotalMB == TruncDiv(TruncDiv(MemSizeBytes(probes).value, 1024), 1024)
      && info.MemFreeMB == PagesToMB(FreePages(lines), PageSize(probes.pageSize))
      && info.MemAvailMB == PagesToMB(AvailablePages(lines), PageSize(probes.pageSize))
      && info.MemUsedMB == info.MemTotalMB - info.MemAvailMB
  {
    var i := new Info(platform);
    if platform == "linux" {
      err := DetectLinux(i, probes);
    } else if platform == "darwin" {
      err := DetectDarwin(i, probes);
    } else {
      return null, Some(UnsupportedPlatform(platform));
    }
    if err.Some? {
      return null, err;
    }
    return i, None;
  }
}

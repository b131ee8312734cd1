/** PHP-FPM process detection and the `memory_limit` parser (internal/php/php.go).
    The `ps` and `php` invocations and the reads of `/proc/<pid>/status` are inputs here:
    the caller passes the lines they produced, or `None` when the command failed. */
module Php {
  import opened Wrappers
  import opened Text
  import opened Numeric

  /** One detected worker process. */
  datatype Process = Process(PID: int, MemoryKB: int, Command: string)

  /** The aggregate the detectors return. */
  datatype ProcessInfo = ProcessInfo(ProcessCount: int, AvgMemoryMB: real, TotalMemMB: real, Processes: seq<Process>)

  /** `&ProcessInfo{}`: what is returned when no process could be listed. */
  const NoProcesses := ProcessInfo(0, 0.0, 0.0, [])

  // ---------------------------------------------------------------------------------------------
  // memory_limit

  /** `parseMemoryLimit`: a php.ini size in megabytes; `-1` means unlimited; `None` is the parse error. */
  function ParseMemoryLimit(limit: string): (r: Option<int>)
  {
    ParseNormalizedLimit(ToUpper(TrimSpace(limit)))
  }

  /** The unit dispatch of `parseMemoryLimit`, applied after trimming and upper-casing. */
  function ParseNormalizedLimit(l: string): (r: Option<int>)
  {
    if l == "-1" then Some(-1)
    else if HasSuffix(l, "G") then
      match ParseInt(TrimSuffix(l, "G"))
      case Some(v) => Some(v * 1024)
      case None => None
    else if HasSuffix(l, "M") then
      match ParseInt(TrimSuffix(l, "M"))
      case Some(v) => Some(v * 1)
      case None => None
    else if HasSuffix(l, "K") then
      match ParseInt(TrimSuffix(l, "K"))
      case Some(v) => Some(TruncDiv(v, 1024))
      case None => None
    else
      match ParseInt(l)
      case Some(v) => Some(v * 1)
      case None => None
  }

  /** A number followed by one non-space character survives trimming and upper-casing intact,
      apart from that character being upper-cased. */
  lemma NormalizeWithUnit(n: int, c: char)
    requires !IsSpace(c)
    ensures ToUpper(TrimSpace(FormatInt(n) + [c])) == FormatInt(n) + [UpperChar(c)]
    ensures TrimSuffix(FormatInt(n) + [UpperChar(c)], [UpperChar(c)]) == FormatInt(n)
  {
    var s := FormatInt(n) + [c];
    assert !IsSpace(s[0]);
    assert !IsSpace(s[|s| - 1]);
    TrimSpaceNoop(s);
  }

  /** The last character of a formatted integer is a digit, so it carries no unit. */
  lemma FormatIntNoUnit(n: int)
    ensures var f := FormatInt(n); !HasSuffix(f, "G") && !HasSuffix(f, "M") && !HasSuffix(f, "K")
  {
  }

  /** Trimming and upper-casing a formatted integer with a unit letter only upper-cases the unit. */
  lemma ParseWithUnit(n: int, c: char)
    requires !IsSpace(c)
    ensures ParseMemoryLimit(FormatInt(n) + [c]) == ParseNormalizedLimit(FormatInt(n) + [UpperChar(c)])
  {
    NormalizeWithUnit(n, c);
  }

  /** The unit dispatch on a formatted integer followed by an upper-case unit letter. */
  lemma NormalizedWithUnit(n: int, u: char)
    requires u == 'G' || u == 'M' || u == 'K'
    ensures u == 'G' ==> ParseNormalizedLimit(FormatInt(n) + [u]) == Some(n * 1024)
    ensures u == 'M' ==> ParseNormalizedLimit(FormatInt(n) + [u]) == Some(n)
    ensures u == 'K' ==> ParseNormalizedLimit(FormatInt(n) + [u]) == Some(TruncDiv(n, 1024))
  {
    ParseFormatInt(n);
    var f := FormatInt(n);
    var l := f + [u];
    assert l[|l| - 1] != '1';
    assert l[..|l| - 1] == f;
  }

  /** `G` and `g` mean gigabytes: n·1024 MB. */
  lemma ParseMemoryLimitGigabytes(n: int)
    ensures ParseMemoryLimit(FormatInt(n) + "G") == Some(n * 1024)
    ensures ParseMemoryLimit(FormatInt(n) + "g") == Some(n * 1024)
  {
    ParseWithUnit(n, 'G');
    ParseWithUnit(n, 'g');
    NormalizedWithUnit(n, 'G');
    assert "G" == ['G'] && "g" == ['g'];
  }

  /** `M` and `m` mean megabytes. */
  lemma ParseMemoryLimitMegabytes(n: int)
    ensures ParseMemoryLimit(FormatInt(n) + "M") == Some(n)
    ensures ParseMemoryLimit(FormatInt(n) + "m") == Some(n)
  {
    ParseWithUnit(n, 'M');
    ParseWithUnit(n, 'm');
    NormalizedWithUnit(n, 'M');
    assert "M" == ['M'] && "m" == ['m'];
  }

  /** `K` and `k` mean kilobytes: n/1024 MB, truncated toward zero as Go's integer division does. */
  lemma ParseMemoryLimitKilobytes(n: int)
    ensures ParseMemoryLimit(FormatInt(n) + "K") == Some(TruncDiv(n, 1024))
    ensures ParseMemoryLimit(FormatInt(n) + "k") == Some(TruncDiv(n, 1024))
  {
    ParseWithUnit(n, 'K');
    ParseWithUnit(n, 'k');
    NormalizedWithUnit(n, 'K');
    assert "K" == ['K'] && "k" == ['k'];
  }

  /** A bare number is megabytes. */
  lemma ParseMemoryLimitPlain(n: int)
    ensures ParseMemoryLimit(FormatInt(n)) == Some(n)
  {
    var f := FormatInt(n);
    ParseFormatInt(n);
    assert !IsSpace(f[0]);
    TrimSpaceNoop(f);
    assert ToUpper(f) == f;
    FormatIntNoUnit(n);
  }

  /** White space around the setting does not change the parse. */
  lemma ParseMemoryLimitIgnoresSpace(pre: string, limit: string, post: string)
    requires AllSpace(pre) && AllSpace(post)
    ensures ParseMemoryLimit(pre + limit + post) == ParseMemoryLimit(limit)
  {
    TrimSpaceSurrounded(pre, limit, post);
  }

  /** The number part of a normalized setting: without its unit letter, if it has one. */
  function UnitBody(u: string): string {
    if HasSuffix(u, "G") then TrimSuffix(u, "G")
    else if HasSuffix(u, "M") then TrimSuffix(u, "M")
    else if HasSuffix(u, "K") then TrimSuffix(u, "K")
    else u
  }

  /** `parseMemoryLimit` fails exactly when the trimmed, upper-cased setting is not "-1" and its
      number part, once a G, M or K unit is stripped, is not an integer. */
  lemma ParseMemoryLimitFails(limit: string)
    ensures var u := ToUpper(TrimSpace(limit));
      ParseMemoryLimit(limit).None? <==> u != "-1" && ParseInt(UnitBody(u)).None?
  {
    NormalizedFails(ToUpper(TrimSpace(limit)));
  }

  lemma NormalizedFails(u: string)
    ensures ParseNormalizedLimit(u).None? <==> u != "-1" && ParseInt(UnitBody(u)).None?
  {
  }

  /** An empty or blank setting is an error. */
  lemma ParseMemoryLimitBlank(limit: string)
    requires AllSpace(limit)
    ensures ParseMemoryLimit(limit) == None
  {
    TrimSpaceSurrounded(limit, [], []);
    assert limit + [] + [] == limit;
    var u := ToUpper(TrimSpace(limit));
    assert u == [];
    NormalizedFails(u);
  }

  /** The parse does not depend on letter case. */
  lemma ParseMemoryLimitIgnoresCase(limit: string)
    ensures ParseMemoryLimit(ToUpper(limit)) == ParseMemoryLimit(limit)
  {
    TrimSpaceUpper(limit);
    UpperIdempotent(TrimSpace(limit));
  }

  lemma UpperIdempotent(s: string)
    ensures ToUpper(ToUpper(s)) == ToUpper(s)
  {
  }

  lemma UpperCharSpace(c: char)
    ensures IsSpace(UpperChar(c)) <==> IsSpace(c)
  {
  }

  lemma {:induction false} TrimLeftUpper(s: string)
    ensures TrimLeft(ToUpper(s)) == ToUpper(TrimLeft(s))
    decreases |s|
  {
    var u := ToUpper(s);
    if |s| == 0 {
      assert u == [];
    } else {
      UpperCharSpace(s[0]);
      if IsSpace(s[0]) {
        assert u[1..] == ToUpper(s[1..]);
        TrimLeftUpper(s[1..]);
      }
    }
  }

  lemma {:induction false} TrimRightUpper(s: string)
    ensures TrimRight(ToUpper(s)) == ToUpper(TrimRight(s))
    decreases |s|
  {
    var u := ToUpper(s);
    if |s| == 0 {
      assert u == [];
    } else {
      UpperCharSpace(s[|s| - 1]);
      if IsSpace(s[|s| - 1]) {
        assert u[..|s| - 1] == ToUpper(s[..|s| - 1]);
        TrimRightUpper(s[..|s| - 1]);
      }
    }
  }

  lemma TrimSpaceUpper(s: string)
    ensures TrimSpace(ToUpper(s)) == ToUpper(TrimSpace(s))
  {
    TrimLeftUpper(s);
    TrimRightUpper(TrimLeft(s));
  }

  // ---------------------------------------------------------------------------------------------
  // Linux: `ps -eo pid,comm` lines, memory from /proc/<pid>/status

  /** A status line that `getProcessMemoryLinux` stops at: `VmRSS:` with a value field. */
  predicate IsVmRSSLine(line: string) {
    HasPrefix(line, "VmRSS:") && |Fields(line)| >= 2
  }

  /** `getProcessMemoryLinux` on the lines of a status file: the first `VmRSS:` line with a value
      field gives the resident size in kB (0 when that field does not parse); 0 without one. */
  function VmRSSKB(status: seq<string>): (kb: int)
    ensures status == [] ==> kb == 0
  {
    if status == [] then 0
    else if IsVmRSSLine(status[0]) then ParseInt(Fields(status[0])[1]).GetOr(0)
    else VmRSSKB(status[1..])
  }

  /** The first `VmRSS:` line with a value decides the size; the lines after it do not matter. */
  lemma {:induction false} VmRSSFirst(status: seq<string>, i: nat)
    requires i < |status| && IsVmRSSLine(status[i])
    requires forall j :: 0 <= j < i ==> !IsVmRSSLine(status[j])
    ensures VmRSSKB(status) == ParseInt(Fields(status[i])[1]).GetOr(0)
    decreases i
  {
    if i > 0 {
      var tail := status[1..];
      assert !IsVmRSSLine(status[0]);
      assert tail[i - 1] == status[i];
      assert forall j :: 0 <= j < i - 1 ==> !IsVmRSSLine(tail[j]) by {
        forall j | 0 <= j < i - 1 ensures !IsVmRSSLine(tail[j]) {
          assert tail[j] == status[j + 1];
        }
      }
      VmRSSFirst(tail, i - 1);
    }
  }

  /** A status file without a `VmRSS:` line carrying a value gives 0 kB. */
  lemma {:induction false} VmRSSMissing(status: seq<string>)
    requires forall j :: 0 <= j < |status| ==> !IsVmRSSLine(status[j])
    ensures VmRSSKB(status) == 0
    decreases |status|
  {
    if status != [] {
      var tail := status[1..];
      assert !IsVmRSSLine(status[0]);
      assert forall j :: 0 <= j < |tail| ==> !IsVmRSSLine(tail[j]) by {
        forall j | 0 <= j < |tail| ensures !IsVmRSSLine(tail[j]) {
          assert tail[j] == status[j + 1];
        }
      }
      VmRSSMissing(tail);
    }
  }

  /** The resident size of `pid`: 0 when its status file cannot be opened. */
  function ProcessMemoryLinux(status: map<int, seq<string>>, pid: int): (kb: int)
    ensures pid !in status ==> kb == 0
  {
    if pid in status then VmRSSKB(status[pid]) else 0
  }

  /** What one `ps` line contributes on Linux. */
  function LinuxEntry(line: string, status: map<int, seq<string>>): (p: Option<Process>)
    ensures p.Some? ==> p.value.MemoryKB > 0 && !Contains(p.value.Command, "grep")
  {
    var fields := Fields(line);
    if |fields| < 2 then None
    else
      match ParseInt(fields[0])
      case None => None
      case Some(pid) =>
        if Contains(fields[1], "grep") then None
        else
          var memKB := ProcessMemoryLinux(status, pid);
          if memKB > 0 then Some(Process(pid, memKB, fields[1])) else None
  }

  /** A Linux `ps` line is recorded exactly when it has at least two fields, the first an integer
      pid, the second a command without "grep", and the pid's resident size is positive; the
      process then carries that pid, size and command. */
  lemma LinuxEntryRule(line: string, status: map<int, seq<string>>, p: Process)
    ensures LinuxEntry(line, status) == Some(p) <==>
      var fields := Fields(line);
      && |fields| >= 2 && ParseInt(fields[0]) == Some(p.PID)
      && !Contains(fields[1], "grep") && p.Command == fields[1]
      && p.MemoryKB == ProcessMemoryLinux(status, p.PID) && p.MemoryKB > 0
  {
  }

  /** Every other line is skipped: too few fields, a pid that does not parse, the grep process
      itself, or a process whose size reads as 0. */
  lemma LinuxEntrySkipped(line: string, status: map<int, seq<string>>)
    ensures LinuxEntry(line, status).None? <==>
      var fields := Fields(line);
      || |fields| < 2 || ParseInt(fields[0]).None?
      || Contains(fields[1], "grep") || ProcessMemoryLinux(status, ParseInt(fields[0]).value) <= 0
  {
  }

  /** The processes recorded from the first lines of the listing, in order. */
  function LinuxProcesses(lines: seq<string>, status: map<int, seq<string>>): (ps: seq<Process>)
    ensures |ps| <= |lines|
  {
    if lines == [] then []
    else
      LinuxProcesses(lines[..|lines| - 1], status)
      + match LinuxEntry(lines[|lines| - 1], status) case Some(p) => [p] case None => []
  }

  lemma LinuxProcessesStep(lines: seq<string>, i: nat, status: map<int, seq<string>>)
    requires i < |lines|
    ensures LinuxEntry(lines[i], status).None? ==>
      LinuxProcesses(lines[..i + 1], status) == LinuxProcesses(lines[..i], status)
    ensures LinuxEntry(lines[i], status).Some? ==>
      LinuxProcesses(lines[..i + 1], status) == LinuxProcesses(lines[..i], status) + [LinuxEntry(lines[i], status).value]
  {
    assert lines[..i + 1][..i] == lines[..i];
    var prev := LinuxProcesses(lines[..i], status);
    assert prev + [] == prev;
  }

  /** Sum of the processes' memory in MB (kB / 1024 as a float). */
  function TotalMB(ps: seq<Process>): real
  {
    if ps == [] then 0.0 else TotalMB(ps[..|ps| - 1]) + KBToMB(ps[|ps| - 1].MemoryKB)
  }

  /** `float64(kb) / 1024`. */
  function KBToMB(kb: int): (mb: real)
    ensures kb > 0 ==> mb > 0.0
  {
    kb as real / 1024.0
  }

  lemma TotalMBAppend(ps: seq<Process>, p: Process)
    ensures TotalMB(ps + [p]) == TotalMB(ps) + KBToMB(p.MemoryKB)
  {
    assert (ps + [p])[..|ps|] == ps;
  }

  /** Count and average of a process list, as both detectors compute them. */
  function Aggregate(ps: seq<Process>): (info: ProcessInfo)
    ensures info.ProcessCount == |ps| && info.Processes == ps && info.TotalMemMB == TotalMB(ps)
    ensures |ps| > 0 ==> info.AvgMemoryMB * |ps| as real == info.TotalMemMB
    ensures |ps| == 0 ==> info.AvgMemoryMB == 0.0
  {
    ProcessInfo(|ps|, if |ps| > 0 then TotalMB(ps) / |ps| as real else 0.0, TotalMB(ps), ps)
  }

  /** `detectLinux`: scans the listing, keeps real worker processes with a known memory size,
      and aggregates them. `psOutput == None` is a failed `ps`, which is not an error. */
  method DetectLinux(psOutput: Option<seq<string>>, status: map<int, seq<string>>) returns (info: ProcessInfo)
    ensures psOutput.None? ==> info == NoProcesses
    ensures psOutput.Some? ==> info == Aggregate(LinuxProcesses(psOutput.value, status))
  {
    info := NoProcesses;
    if psOutput.None? {
      return;
    }
    var lines := psOutput.value;
    var i := 0;
    while i < |lines|
      invariant 0 <= i <= |lines|
      invariant info.Processes == LinuxProcesses(lines[..i], status)
      invariant info.TotalMemMB == TotalMB(info.Processes)
      invariant info.ProcessCount == 0 && info.AvgMemoryMB == 0.0
    {
      LinuxProcessesStep(lines, i, status);
      var entry := LinuxEntry(lines[i], status);
      if entry.Some? {
        var proc := entry.value;
        ghost var before := info.Processes;
        info := info.(Processes := info.Processes + [proc],
                      TotalMemMB := info.TotalMemMB + KBToMB(proc.MemoryKB));
        TotalMBAppend(before, proc);
      }
      i := i + 1;
    }
    assert lines[..i] == lines;
    info := info.(ProcessCount := |info.Processes|);
    if info.ProcessCount > 0 {
      info := info.(AvgMemoryMB := info.TotalMemMB / info.ProcessCount as real);
    }
  }

  lemma {:induction false} TotalMBPositive(ps: seq<Process>)
    requires forall i :: 0 <= i < |ps| ==> ps[i].MemoryKB > 0
    ensures |ps| > 0 ==> TotalMB(ps) > 0.0
    ensures TotalMB(ps) >= 0.0
  {
    if ps != [] {
      TotalMBPositive(ps[..|ps| - 1]);
    }
  }

  lemma {:induction false} LinuxProcessesPositive(lines: seq<string>, status: map<int, seq<string>>)
    ensures forall i :: 0 <= i < |LinuxProcesses(lines, status)| ==>
      LinuxProcesses(lines, status)[i].MemoryKB > 0 && !Contains(LinuxProcesses(lines, status)[i].Command, "grep")
  {
    if lines != [] {
      var init := lines[..|lines| - 1];
      LinuxProcessesPositive(init, status);
      var e := LinuxEntry(lines[|lines| - 1], status);
      var tail := match e case Some(p) => [p] case None => [];
      assert LinuxProcesses(lines, status) == LinuxProcesses(init, status) + tail;
      assert forall p :: p in tail ==> p.MemoryKB > 0 && !Contains(p.Command, "grep");
    }
  }

  /** On Linux every recorded process has a positive size and is not `grep`, and the average the
      calculator consumes is positive exactly when some process was recorded. */
  lemma LinuxAverageDetected(lines: seq<string>, status: map<int, seq<string>>)
    ensures var info := Aggregate(LinuxProcesses(lines, status));
      (info.AvgMemoryMB > 0.0 <==> info.ProcessCount > 0)
      && forall p :: p in info.Processes ==> p.MemoryKB > 0 && !Contains(p.Command, "grep")
  {
    var ps := LinuxProcesses(lines, status);
    LinuxProcessesPositive(lines, status);
    TotalMBPositive(ps);
    if |ps| > 0 {
      QuotientPositive(TotalMB(ps), |ps| as real);
    }
  }

  lemma QuotientPositive(a: real, b: real)
    requires a > 0.0 && b > 0.0
    ensures a / b > 0.0
  {
    assert (a / b) * b == a;
  }

  // ---------------------------------------------------------------------------------------------
  // macOS: `ps -eo pid,rss,comm | grep ... | grep -v grep` lines

  /** What one `ps` line contributes on macOS: at least three fields, an integer pid and rss. */
  function DarwinEntry(line: string): (p: Option<Process>)
  {
    var fields := Fields(line);
    if |fields| < 3 then None
    else
      match ParseInt(fields[0])
      case None => None
      case Some(pid) =>
        match ParseInt(fields[1])
        case None => None
        case Some(rssKB) => Some(Process(pid, rssKB, fields[2]))
  }

  /** A macOS `ps` line is recorded exactly when it has at least three fields and the first two are
      integers: the pid and the resident size, with the third field as the command. */
  lemma DarwinEntryRule(line: string, p: Process)
    ensures DarwinEntry(line) == Some(p) <==>
      var fields := Fields(line);
      && |fields| >= 3 && ParseInt(fields[0]) == Some(p.PID)
      && ParseInt(fields[1]) == Some(p.MemoryKB) && p.Command == fields[2]
  {
  }

  function DarwinProcesses(lines: seq<string>): (ps: seq<Process>)
    ensures |ps| <= |lines|
  {
    if lines == [] then []
    else
      DarwinProcesses(lines[..|lines| - 1])
      + match DarwinEntry(lines[|lines| - 1]) case Some(p) => [p] case None => []
  }

  lemma DarwinProcessesStep(lines: seq<string>, i: nat)
    requires i < |lines|
    ensures DarwinEntry(lines[i]).None? ==> DarwinProcesses(lines[..i + 1]) == DarwinProcesses(lines[..i])
    ensures DarwinEntry(lines[i]).Some? ==>
      DarwinProcesses(lines[..i + 1]) == DarwinProcesses(lines[..i]) + [DarwinEntry(lines[i]).value]
  {
    assert lines[..i + 1][..i] == lines[..i];
    var prev := DarwinProcesses(lines[..i]);
    assert prev + [] == prev;
  }

  /** `detectDarwin`: like `detectLinux`, but the size comes from the listing and is not filtered. */
  method DetectDarwin(psOutput: Option<seq<string>>) returns (info: ProcessInfo)
    ensures psOutput.None? ==> info == NoProcesses
    ensures psOutput.Some? ==> info == Aggregate(DarwinProcesses(psOutput.value))
  {
    info := NoProcesses;
    if psOutput.None? {
      return;
    }
    var lines := psOutput.value;
    var i := 0;
    while i < |lines|
      invariant 0 <= i <= |lines|
      invariant info.Processes == DarwinProcesses(lines[..i])
      invariant info.TotalMemMB == TotalMB(info.Processes)
      invariant info.ProcessCount == 0 && info.AvgMemoryMB == 0.0
    {
      DarwinProcessesStep(lines, i);
      var fields := Fields(lines[i]);
      if |fields| < 3 {
        assert DarwinEntry(lines[i]) == None;
        i := i + 1;
        continue;
      }
      var pid := ParseInt(fields[0]);
      if pid.None? {
        assert DarwinEntry(lines[i]) == None;
        i := i + 1;
        continue;
      }
      var rssKB := ParseInt(fields[1]);
      if rssKB.None? {
        assert DarwinEntry(lines[i]) == None;
        i := i + 1;
        continue;
      }
      var proc := Process(pid.value, rssKB.value, fields[2]);
      assert DarwinEntry(lines[i]) == Some(proc);
      ghost var before := info.Processes;
      info := info.(Processes := info.Processes + [proc],
                    TotalMemMB := info.TotalMemMB + KBToMB(rssKB.value));
      TotalMBAppend(before, proc);
      i := i + 1;
    }
    assert lines[..i] == lines;
    info := info.(ProcessCount := |info.Processes|);
    if info.ProcessCount > 0 {
      info := info.(AvgMemoryMB := info.TotalMemMB / info.ProcessCount as real);
    }
  }
}

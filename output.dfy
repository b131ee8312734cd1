/** Terminal output (internal/output/output.go). Each `Print*` method of the `Printer` is the
    sequence of lines it writes to its writer, line breaks left off; the writer itself is the
    returned sequence. `%d` of an integer is `FormatInt`, `%s` of a string is the string, and the
    `%.1f` rendering of a float is the parameter `fixed1`. */
module Output {
  import opened Text
  import Seqs
  import Calculator
  import FrankenPHP
  import Php
  import System
  import Apply
  import ApplyProperties

  // ---------------------------------------------------------------------------------------------
  // Colours

  const Esc: char := '\U{1B}'
  const Reset: string := [Esc] + "[0m"
  const Bold: string := [Esc] + "[1m"
  const Dim: string := [Esc] + "[2m"
  const Red: string := [Esc] + "[31m"
  const Green: string := [Esc] + "[32m"
  const Yellow: string := [Esc] + "[33m"
  const Blue: string := [Esc] + "[34m"
  const Magenta: string := [Esc] + "[35m"
  const Cyan: string := [Esc] + "[36m"

  /** The printer's two switches. */
  datatype Printer = Printer(noColor: bool, onlyConf: bool)

  /** `color`: the text between the escape `c` and a reset, or the bare text when colours are
      off. */
  function Color(p: Printer, c: string, text: string): (r: string)
    ensures r == text <==> p.noColor
    ensures !p.noColor ==> |r| == |c| + |text| + |Reset|
    ensures !p.noColor ==> HasPrefix(r, c) && HasSuffix(r, Reset) && r[|c|..|r| - |Reset|] == text
  {
    if p.noColor then text else c + text + Reset
  }

  /** `%-20s`: `s` followed by as many spaces as make it `width` characters long. */
  function PadRight(s: string, width: nat): (r: string)
    ensures |r| == if |s| < width then width else |s|
    ensures HasPrefix(r, s) && forall i :: |s| <= i < |r| ==> r[i] == ' '
  {
    if |s| < width then s + seq(width - |s|, _ => ' ') else s
  }

  /** `printRow`: two spaces, the dimmed name padded to 20 columns, a space and the value. */
  function Row(p: Printer, name: string, value: string): (r: string)
    ensures |r| > 2 && r[..2] == "  " && HasPrefix(r[2..], Color(p, Dim, name)) && HasSuffix(r, " " + value)
  {
    var padded := PadRight(Color(p, Dim, name), 20);
    assert ("  " + padded + " " + value)[2..][..|Color(p, Dim, name)|] == padded[..|Color(p, Dim, name)|];
    "  " + padded + " " + value
  }

  // ---------------------------------------------------------------------------------------------
  // Sections that only `onlyConf` switches off

  /** The layout of the informational sections: a bold title, a blank line, the body, a blank
      line; nothing in `onlyConf` mode. */
  function Section(p: Printer, title: string, body: seq<string>): (out: seq<string>)
    ensures out == [] <==> p.onlyConf
    ensures !p.onlyConf ==> |out| == |body| + 3 && out[0] == Color(p, Bold, title) && out[1] == ""
                            && out[2..|out| - 1] == body && out[|out| - 1] == ""
  {
    if p.onlyConf then [] else [Color(p, Bold, title), ""] + body + [""]
  }

  /** The banner of `PrintHeader` and `PrintFrankenPHPHeader`. */
  function Banner(p: Printer, title: string): (out: seq<string>)
    ensures out == [] <==> p.onlyConf
    ensures !p.onlyConf ==> |out| == 4 && out[0] == "" && out[1] == Color(p, Bold + Cyan, title) && out[3] == ""
  {
    if p.onlyConf then [] else ["", Color(p, Bold + Cyan, title), Color(p, Dim, Repeat("─", 40)), ""]
  }

  function PrintHeader(p: Printer): (out: seq<string>)
    ensures out == [] <==> p.onlyConf
    ensures !p.onlyConf ==> |out| == 4 && out[1] == Color(p, Bold + Cyan, "PHP-FPM Process Manager Optimizer")
  {
    Banner(p, "PHP-FPM Process Manager Optimizer")
  }

  function PrintFrankenPHPHeader(p: Printer): (out: seq<string>)
    ensures out == [] <==> p.onlyConf
    ensures !p.onlyConf ==> |out| == 4 && out[1] == Color(p, Bold + Cyan, "FrankenPHP Optimizer")
  {
    Banner(p, "FrankenPHP Optimizer")
  }

  function PrintSystemInfo(p: Printer, info: System.Info): (out: seq<string>)
    reads info
    ensures out == [] <==> p.onlyConf
    ensures !p.onlyConf ==> |out| == 8 && out[2] == Row(p, "Platform", info.Platform)
  {
    Section(p, "System Information",
      [ Row(p, "Platform", info.Platform),
        Row(p, "CPU Cores", FormatInt(info.CPUCores)),
        Row(p, "Total Memory", FormatInt(info.MemTotalMB) + " MB"),
        Row(p, "Available Memory", FormatInt(info.MemAvailMB) + " MB"),
        Row(p, "Used Memory", FormatInt(info.MemUsedMB) + " MB") ])
  }

  /** The notice `PrintPHPInfo` gives when no process was found. */
  function NoProcessesLine(p: Printer): string
  {
    Color(p, Yellow, "  No PHP-FPM processes detected")
  }

  function PrintPHPInfo(p: Printer, info: Php.ProcessInfo, fixed1: real -> string): (out: seq<string>)
    ensures out == [] <==> p.onlyConf
    ensures !p.onlyConf ==> |out| == if info.ProcessCount == 0 then 5 else 6
  {
    Section(p, "PHP-FPM Processes",
      if info.ProcessCount == 0 then
        [ NoProcessesLine(p),
          Color(p, Dim, "  Using estimates based on php.ini memory_limit") ]
      else
        [ Row(p, "Process Count", FormatInt(info.ProcessCount)),
          Row(p, "Average Memory", fixed1(info.AvgMemoryMB) + " MB"),
          Row(p, "Total Memory", fixed1(info.TotalMemMB) + " MB") ])
  }

  /** The notice is printed exactly when no PHP-FPM process was counted. */
  lemma NoProcessesNotice(p: Printer, info: Php.ProcessInfo, fixed1: real -> string)
    requires !p.onlyConf
    ensures NoProcessesLine(p) in PrintPHPInfo(p, info, fixed1) <==> info.ProcessCount == 0
  {
    if info.ProcessCount != 0 {
      NoticeAbsent(p, info, fixed1);
    } else {
      NoticePresent(p, info, fixed1);
    }
  }

  lemma NoticeAbsent(p: Printer, info: Php.ProcessInfo, fixed1: real -> string)
    requires !p.onlyConf && info.ProcessCount != 0
    ensures NoProcessesLine(p) !in PrintPHPInfo(p, info, fixed1)
  {
    var count, avg, total := FormatInt(info.ProcessCount), fixed1(info.AvgMemoryMB) + " MB", fixed1(info.TotalMemMB) + " MB";
    assert PrintPHPInfo(p, info, fixed1) == ProcessRows(p, count, avg, total);
    RowsLackNotice(p, count, avg, total);
  }

  lemma NoticePresent(p: Printer, info: Php.ProcessInfo, fixed1: real -> string)
    requires !p.onlyConf && info.ProcessCount == 0
    ensures NoProcessesLine(p) in PrintPHPInfo(p, info, fixed1)
  {
    assert PrintPHPInfo(p, info, fixed1)[2] == NoProcessesLine(p);
  }

  /** What `PrintPHPInfo` prints when processes were found. */
  function ProcessRows(p: Printer, count: string, avg: string, total: string): seq<string>
  {
    [ Color(p, Bold, "PHP-FPM Processes"), "",
      Row(p, "Process Count", count), Row(p, "Average Memory", avg), Row(p, "Total Memory", total),
      "" ]
  }

  lemma RowsLackNotice(p: Printer, count: string, avg: string, total: string)
    ensures NoProcessesLine(p) !in ProcessRows(p, count, avg, total)
  {
    var names := ["Process Count", "Average Memory", "Total Memory"];
    assert names[0][0] == 'P' && names[1][0] == 'A' && names[2][0] == 'T';
    TitleNotNotice(p);
    RowNotNotice(p, names[0], count);
    RowNotNotice(p, names[1], avg);
    RowNotNotice(p, names[2], total);
    assert |NoProcessesLine(p)| > 0;
  }

  lemma TitleNotNotice(p: Printer)
    ensures Color(p, Bold, "PHP-FPM Processes") != NoProcessesLine(p)
  {
    var title, notice := Color(p, Bold, "PHP-FPM Processes"), NoProcessesLine(p);
    if p.noColor {
      assert title[0] != notice[0];
    } else {
      assert title[|Bold| - 2] != notice[|Yellow| - 2];
    }
  }

  /** A row is never the notice: coloured, it opens with a space rather than an escape; plain,
      its third character is the first of a name that does not start with `N`. */
  lemma RowNotNotice(p: Printer, name: string, value: string)
    requires |name| > 0 && name[0] != 'N'
    ensures Row(p, name, value) != NoProcessesLine(p)
  {
    var row, notice := Row(p, name, value), NoProcessesLine(p);
    if p.noColor {
      assert row[2] == Color(p, Dim, name)[0] == name[0];
      assert notice[2] == 'N';
    } else {
      assert row[0] == ' ' && notice[0] == Esc;
    }
  }

  function PrintCalculation(p: Printer, cfg: Calculator.Config, fixed1: real -> string): (out: seq<string>)
    reads cfg
    ensures out == [] <==> p.onlyConf
    ensures !p.onlyConf ==> |out| == 7
  {
    Section(p, "Calculation",
      [ Row(p, "Reserved Memory", FormatInt(cfg.ReservedMemoryMB) + " MB (for OS/services)"),
        Row(p, "Available for PHP", FormatInt(cfg.AvailableMemoryMB) + " MB"),
        Row(p, "Process Memory", fixed1(cfg.ProcessMemoryMB) + " MB"),
        Row(p, "Formula", FormatInt(cfg.AvailableMemoryMB) + " MB / " + fixed1(cfg.ProcessMemoryMB) + " MB = "
                          + FormatInt(cfg.MaxChildren) + " workers") ])
  }

  function PrintFrankenPHPCalculation(p: Printer, cfg: FrankenPHP.Config, fixed1: real -> string): (out: seq<string>)
    reads cfg
    ensures out == [] <==> p.onlyConf
    ensures !p.onlyConf ==> |out| == 7
  {
    Section(p, "Calculation",
      [ Row(p, "Reserved Memory", FormatInt(cfg.ReservedMemoryMB) + " MB (for OS/Caddy)"),
        Row(p, "Available for PHP", FormatInt(cfg.AvailableMemoryMB) + " MB"),
        Row(p, "Thread Memory", fixed1(cfg.ThreadMemoryMB) + " MB"),
        Row(p, "Formula", FormatInt(cfg.AvailableMemoryMB) + " MB / " + fixed1(cfg.ThreadMemoryMB) + " MB = "
                          + FormatInt(cfg.NumThreads) + " threads") ])
  }

  function PrintUsage(p: Printer): (out: seq<string>)
    ensures out == [] <==> p.onlyConf
    ensures !p.onlyConf ==> |out| == 8
  {
    Section(p, "How to Apply",
      [ "  1. Edit your PHP-FPM pool configuration:",
        Color(p, Dim, "     /etc/php/8.x/fpm/pool.d/www.conf"),
        "",
        "  2. Restart PHP-FPM:",
        Color(p, Dim, "     sudo systemctl restart php-fpm") ])
  }

  function PrintFrankenPHPUsage(p: Printer): (out: seq<string>)
    ensures out == [] <==> p.onlyConf
    ensures !p.onlyConf ==> |out| == 11
  {
    Section(p, "How to Apply",
      [ "  1. Add the configuration to your Caddyfile:",
        Color(p, Dim, "     /etc/frankenphp/Caddyfile"),
        Color(p, Dim, "     or ./Caddyfile (current directory)"),
        "",
        "  2. Restart FrankenPHP:",
        Color(p, Dim, "     frankenphp reload"),
        Color(p, Dim, "     # or with Docker:"),
        Color(p, Dim, "     docker compose restart") ])
  }

  // ---------------------------------------------------------------------------------------------
  // Warning and recommendation lists

  /** One entry of a list: two spaces, the coloured mark, a space and the entry. */
  function NoteLine(p: Printer, c: string, mark: string, item: string): string
  {
    "  " + Color(p, c, mark) + " " + item
  }

  function NoteLineOf(p: Printer, c: string, mark: string): string -> string
  {
    item => NoteLine(p, c, mark, item)
  }

  /** A titled list: nothing in `onlyConf` mode or for an empty list, otherwise the title, a
      blank line, one line per entry in list order and a blank line. */
  function Notes(p: Printer, titleColor: string, title: string, markColor: string, mark: string,
                 items: seq<string>): (out: seq<string>)
    ensures out == [] <==> p.onlyConf || items == []
    ensures out != [] ==> |out| == |items| + 3 && out[0] == Color(p, titleColor, title) && out[1] == ""
                          && out[|out| - 1] == ""
                          && forall i :: 0 <= i < |items| ==> out[i + 2] == NoteLine(p, markColor, mark, items[i])
  {
    if p.onlyConf || items == [] then [] else
      var lines := Seqs.Map(NoteLineOf(p, markColor, mark), items);
      Seqs.MapAll(NoteLineOf(p, markColor, mark), items);
      [Color(p, titleColor, title), ""] + lines + [""]
  }

  function PrintWarnings(p: Printer, cfg: Calculator.Config): (out: seq<string>)
    reads cfg
    ensures out == [] <==> p.onlyConf || cfg.Warnings == []
    ensures out != [] ==> |out| == |cfg.Warnings| + 3
                          && forall i :: 0 <= i < |cfg.Warnings| ==> out[i + 2] == NoteLine(p, Yellow, "!", cfg.Warnings[i])
  {
    Notes(p, Bold + Yellow, "Warnings", Yellow, "!", cfg.Warnings)
  }

  function PrintRecommendations(p: Printer, cfg: Calculator.Config): (out: seq<string>)
    reads cfg
    ensures out == [] <==> p.onlyConf || cfg.Recommendations == []
    ensures out != [] ==> |out| == |cfg.Recommendations| + 3
                          && forall i :: 0 <= i < |cfg.Recommendations| ==>
                               out[i + 2] == NoteLine(p, Cyan, "*", cfg.Recommendations[i])
  {
    Notes(p, Bold + Blue, "Recommendations", Cyan, "*", cfg.Recommendations)
  }

  function PrintFrankenPHPWarnings(p: Printer, cfg: FrankenPHP.Config): (out: seq<string>)
    reads cfg
    ensures out == [] <==> p.onlyConf || cfg.Warnings == []
    ensures out != [] ==> |out| == |cfg.Warnings| + 3
                          && forall i :: 0 <= i < |cfg.Warnings| ==> out[i + 2] == NoteLine(p, Yellow, "!", cfg.Warnings[i])
  {
    Notes(p, Bold + Yellow, "Warnings", Yellow, "!", cfg.Warnings)
  }

  function PrintFrankenPHPRecommendations(p: Printer, cfg: FrankenPHP.Config): (out: seq<string>)
    reads cfg
    ensures out == [] <==> p.onlyConf || cfg.Recommendations == []
    ensures out != [] ==> |out| == |cfg.Recommendations| + 3
                          && forall i :: 0 <= i < |cfg.Recommendations| ==>
                               out[i + 2] == NoteLine(p, Cyan, "*", cfg.Recommendations[i])
  {
    Notes(p, Bold + Blue, "Recommendations", Cyan, "*", cfg.Recommendations)
  }

  // ---------------------------------------------------------------------------------------------
  // The PHP-FPM key/value block

  /** `%s = %s`: a key and its value as `PrintConfig` formats them. */
  function Assign(name: string, value: string): string
  {
    name + " = " + value
  }

  /** The key lines of `PrintConfig`, in the order it prints them. */
  function ConfigLines(s: Apply.Settings): seq<string>
  {
    [Assign("pm", s.PM.Name()), Assign("pm.max_children", FormatInt(s.MaxChildren))]
    + (if s.PM == Calculator.Dynamic || s.PM == Calculator.OnDemand
       then [Assign("pm.process_idle_timeout", s.ProcessIdleTimeout)] else [])
    + (if s.PM == Calculator.Dynamic
       then [ Assign("pm.start_servers", FormatInt(s.StartServers)),
              Assign("pm.min_spare_servers", FormatInt(s.MinSpareServers)),
              Assign("pm.max_spare_servers", FormatInt(s.MaxSpareServers)) ]
       else [])
    + [Assign("pm.max_requests", FormatInt(s.MaxRequests))]
  }

  /** A key line as the patcher writes it into the pool file. */
  function KeyLine(s: Apply.Settings, k: Apply.Key): string
  {
    Apply.SettingLine(k, Apply.Value(s, k))
  }

  /** The keys behind `ConfigLines`, in its order. */
  function PrintedKeys(pm: Calculator.PMType): seq<Apply.Key>
  {
    [Apply.PMKey, Apply.MaxChildrenKey]
    + (if pm == Calculator.Dynamic || pm == Calculator.OnDemand then [Apply.IdleTimeoutKey] else [])
    + (if pm == Calculator.Dynamic
       then [Apply.StartServersKey, Apply.MinSpareServersKey, Apply.MaxSpareServersKey] else [])
    + [Apply.MaxRequestsKey]
  }

  lemma PrintedKeysRelevant(pm: Calculator.PMType)
    ensures forall k :: k in PrintedKeys(pm) <==> Apply.IsSettingRelevant(k, pm)
  {
  }

  /** Each printed line is the patcher's line for the printed key at the same place. */
  lemma PrintedKeyLines(s: Apply.Settings)
    ensures |ConfigLines(s)| == |PrintedKeys(s.PM)|
    ensures forall i :: 0 <= i < |ConfigLines(s)| ==> ConfigLines(s)[i] == KeyLine(s, PrintedKeys(s.PM)[i])
  {
    var lines, keys := ConfigLines(s), PrintedKeys(s.PM);
    var values := seq(|keys|, i requires 0 <= i < |keys| => Apply.Value(s, keys[i]));
    match s.PM
    case Static =>
      assert lines == [Assign("pm", values[0]), Assign("pm.max_children", values[1]),
                       Assign("pm.max_requests", values[2])];
    case OnDemand =>
      assert lines == [Assign("pm", values[0]), Assign("pm.max_children", values[1]),
                       Assign("pm.process_idle_timeout", values[2]), Assign("pm.max_requests", values[3])];
    case Dynamic =>
      assert lines == [Assign("pm", values[0]), Assign("pm.max_children", values[1]),
                       Assign("pm.process_idle_timeout", values[2]), Assign("pm.start_servers", values[3]),
                       Assign("pm.min_spare_servers", values[4]), Assign("pm.max_spare_servers", values[5]),
                       Assign("pm.max_requests", values[6])];
  }

  /** `PrintConfig` prints `pm` and `pm.max_children` first and `pm.max_requests` last. */
  lemma ConfigEnds(s: Apply.Settings)
    ensures var out := ConfigLines(s);
      |out| >= 3 && out[0] == KeyLine(s, Apply.PMKey) && out[1] == KeyLine(s, Apply.MaxChildrenKey)
      && out[|out| - 1] == KeyLine(s, Apply.MaxRequestsKey)
  {
    PrintedKeyLines(s);
  }

  /** The keys `PrintConfig` prints are exactly those `isSettingRelevant` selects, each line as
      the patcher would write it. */
  lemma ConfigKeySet(s: Apply.Settings, k: Apply.Key)
    ensures KeyLine(s, k) in ConfigLines(s) <==> Apply.IsSettingRelevant(k, s.PM)
  {
    var out, keys := ConfigLines(s), PrintedKeys(s.PM);
    PrintedKeyLines(s);
    PrintedKeysRelevant(s.PM);
    if KeyLine(s, k) in out {
      var i :| 0 <= i < |out| && out[i] == KeyLine(s, k);
      ApplyProperties.SettingLineInjective(k, Apply.Value(s, k), keys[i], Apply.Value(s, keys[i]));
    }
    if Apply.IsSettingRelevant(k, s.PM) {
      var i :| 0 <= i < |keys| && keys[i] == k;
      assert out[i] == KeyLine(s, k);
    }
  }

  /** Every line `PrintConfig` prints is a relevant key's line. */
  lemma ConfigLinesKeyed(s: Apply.Settings, i: nat)
    requires i < |ConfigLines(s)|
    ensures exists k :: Apply.IsSettingRelevant(k, s.PM) && ConfigLines(s)[i] == KeyLine(s, k)
  {
    PrintedKeyLines(s);
    PrintedKeysRelevant(s.PM);
    var k := PrintedKeys(s.PM)[i];
    assert Apply.IsSettingRelevant(k, s.PM) && ConfigLines(s)[i] == KeyLine(s, k);
  }

  function PrintConfig(p: Printer, cfg: Calculator.Config): (out: seq<string>)
    reads cfg
    ensures p.onlyConf ==> out == ConfigLines(Apply.SettingsOf(cfg))
    ensures !p.onlyConf ==> |out| == |ConfigLines(Apply.SettingsOf(cfg))| + 3
                            && out[0] == Color(p, Bold + Green, "Recommended Configuration") && out[1] == ""
                            && out[2..|out| - 1] == ConfigLines(Apply.SettingsOf(cfg)) && out[|out| - 1] == ""
  {
    var lines := ConfigLines(Apply.SettingsOf(cfg));
    if p.onlyConf then lines else [Color(p, Bold + Green, "Recommended Configuration"), ""] + lines + [""]
  }

  // ---------------------------------------------------------------------------------------------
  // The Caddyfile block

  const WorkerOpen: string := "        worker {"

  function NumThreadsLine(n: int): string { "        num_threads " + FormatInt(n) }

  function MaxThreadsLine(n: int): string { "        max_threads " + FormatInt(n) }

  function MaxWaitLine(w: string): string { "        max_wait_time " + w }

  function WorkerBlock(n: int): seq<string>
  {
    [WorkerOpen, "            file /path/to/your/public/index.php", "            num " + FormatInt(n), "        }"]
  }

  function CaddyHead(n: int): seq<string>
  {
    ["{", "    frankenphp {", NumThreadsLine(n)]
  }

  const CaddyTail: seq<string> := ["    }", "}"]

  /** The Caddyfile global-options block of `PrintFrankenPHPConfig`. */
  function CaddyBlock(cfg: FrankenPHP.Config, workerMode: bool): seq<string>
    reads cfg
  {
    CaddyHead(cfg.NumThreads)
    + (if cfg.MaxThreads > cfg.NumThreads then [MaxThreadsLine(cfg.MaxThreads)] else [])
    + (if cfg.MaxWaitTime != "" then [MaxWaitLine(cfg.MaxWaitTime)] else [])
    + (if workerMode && cfg.WorkerNum > 0 then WorkerBlock(cfg.WorkerNum) else [])
    + CaddyTail
  }

  /** The characters at positions 8 and 12 of a line longer than 12. */
  predicate Signature(line: string, a: char, b: char)
  {
    |line| > 12 && line[8] == a && line[12] == b
  }

  /** No fixed line of the block reads like an optional one. */
  lemma FixedLinesDistinct(n: int, k: int, line: string, a: char, b: char)
    requires Signature(line, a, b) && (a, b) in {('m', 't'), ('m', 'w'), ('w', 'e')}
    ensures line !in CaddyHead(n) && line !in CaddyTail
    ensures (a, b) != ('w', 'e') ==> line !in WorkerBlock(k)
  {
    var head, wb := CaddyHead(n), WorkerBlock(k);
    assert |head[0]| == 1 && head[1][8] == 'k' && head[2][8] == 'n';
    assert |CaddyTail[0]| == 5 && |CaddyTail[1]| == 1;
    assert wb[0][8] == 'w' && wb[1][8] == ' ' && wb[2][8] == ' ' && |wb[3]| == 9;
  }

  lemma OptionalSignatures(m: int, w: string)
    ensures Signature(MaxThreadsLine(m), 'm', 't') && Signature(MaxWaitLine(w), 'm', 'w')
    ensures Signature(WorkerOpen, 'w', 'e')
  {
  }

  /** The block opens `{` / `frankenphp {` / `num_threads`, closes with the two braces, and holds
      `max_threads`, `max_wait_time` and the worker sub-block exactly when the source prints
      them. */
  lemma CaddyShape(cfg: FrankenPHP.Config, workerMode: bool)
    ensures var out := CaddyBlock(cfg, workerMode);
      |out| >= 5 && out[..3] == ["{", "    frankenphp {", NumThreadsLine(cfg.NumThreads)]
      && out[|out| - 2..] == ["    }", "}"]
    ensures MaxThreadsLine(cfg.MaxThreads) in CaddyBlock(cfg, workerMode) <==> cfg.MaxThreads > cfg.NumThreads
    ensures MaxWaitLine(cfg.MaxWaitTime) in CaddyBlock(cfg, workerMode) <==> cfg.MaxWaitTime != ""
    ensures WorkerOpen in CaddyBlock(cfg, workerMode) <==> workerMode && cfg.WorkerNum > 0
    ensures workerMode && cfg.WorkerNum > 0 ==>
      var out := CaddyBlock(cfg, workerMode);
      out[|out| - 6..|out| - 2] == WorkerBlock(cfg.WorkerNum)
  {
    var mt, mw := MaxThreadsLine(cfg.MaxThreads), MaxWaitLine(cfg.MaxWaitTime);
    OptionalSignatures(cfg.MaxThreads, cfg.MaxWaitTime);
    FixedLinesDistinct(cfg.NumThreads, cfg.WorkerNum, mt, 'm', 't');
    FixedLinesDistinct(cfg.NumThreads, cfg.WorkerNum, mw, 'm', 'w');
    FixedLinesDistinct(cfg.NumThreads, cfg.WorkerNum, WorkerOpen, 'w', 'e');
    assert mt != mw && WorkerOpen != mt && WorkerOpen != mw;
  }

  function PrintFrankenPHPConfig(p: Printer, cfg: FrankenPHP.Config, workerMode: bool): (out: seq<string>)
    reads cfg
    ensures p.onlyConf ==> out == CaddyBlock(cfg, workerMode)
    ensures !p.onlyConf ==> |out| == |CaddyBlock(cfg, workerMode)| + 3
                            && out[0] == Color(p, Bold + Green, "Recommended Configuration") && out[1] == ""
                            && out[2..|out| - 1] == CaddyBlock(cfg, workerMode) && out[|out| - 1] == ""
  {
    var block := CaddyBlock(cfg, workerMode);
    if p.onlyConf then block else [Color(p, Bold + Green, "Recommended Configuration"), ""] + block + [""]
  }

  // ---------------------------------------------------------------------------------------------
  // What `onlyConf` leaves of a whole report

  /** With `onlyConf`, the PHP-FPM report, printed section by section as `php-tuner php-fpm` does,
      is the key lines alone. */
  lemma OnlyConfReport(p: Printer, sysInfo: System.Info, phpInfo: Php.ProcessInfo, cfg: Calculator.Config,
                       fixed1: real -> string)
    requires p.onlyConf
    ensures PrintHeader(p) + PrintSystemInfo(p, sysInfo) + PrintPHPInfo(p, phpInfo, fixed1)
            + PrintCalculation(p, cfg, fixed1) + PrintConfig(p, cfg) + PrintWarnings(p, cfg)
            + PrintRecommendations(p, cfg) + PrintUsage(p)
            == ConfigLines(Apply.SettingsOf(cfg))
  {
  }

  /** With `onlyConf`, the FrankenPHP report is the Caddyfile block alone. */
  lemma OnlyConfFrankenPHPReport(p: Printer, sysInfo: System.Info, cfg: FrankenPHP.Config, workerMode: bool,
                                 fixed1: real -> string)
    requires p.onlyConf
    ensures PrintFrankenPHPHeader(p) + PrintSystemInfo(p, sysInfo) + PrintFrankenPHPCalculation(p, cfg, fixed1)
            + PrintFrankenPHPConfig(p, cfg, workerMode) + PrintFrankenPHPWarnings(p, cfg)
            + PrintFrankenPHPRecommendations(p, cfg) + PrintFrankenPHPUsage(p)
            == CaddyBlock(cfg, workerMode)
  {
  }
}

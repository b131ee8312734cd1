# PHP-Tuner in Dafny

PHP-Tuner is a command-line tool that reads the host's memory and CPU count and the PHP processes
already running. From those it computes settings for one of two targets:

- a PHP-FPM process-manager pool: `pm`, `pm.max_children`, the spare-server counts,
  `pm.process_idle_timeout` and `pm.max_requests`;
- a FrankenPHP/Caddy thread pool: `num_threads`, `max_threads`, the worker count and `max_wait_time`.

It prints a report or only the configuration block, and it can patch a PHP-FPM pool file in place.
Before patching it keeps a backup, and after patching it may restart the service.

This project models the tool's core and proves properties of it:

| module | file | models |
|---|---|---|
| `Calculator` | `calculator.dfy` | PHP-FPM pool sizing (`internal/calculator/calculator.go`) |
| `FrankenPHP` | `frankenphp.dfy` | FrankenPHP thread sizing (`internal/calculator/frankenphp.go`) |
| `Php` | `php.dfy` | PHP process detection from `ps` listings, plus the `memory_limit` parser (`internal/php/php.go`) |
| `System` | `system.dfy` | Host memory detection from `/proc/meminfo`, `sysctl` and `vm_stat` text (`internal/system/system.go`) |
| `Apply` | `apply.dfy` | The pool-file patcher, the backup/write/restart sequence and path validation (`internal/apply/apply.go`) |
| `ApplyProperties` | `apply_properties.dfy` | The patcher's properties: rewrite rule, unique insertion, placement, order independence, idempotence |
| `Output` | `output.dfy` | The report printer as a function from its inputs to lines of text (`internal/output/output.go`) |

Three support modules hold the Go library behaviour the core relies on:

- `Text` covers `strings.TrimSpace`, `Fields`, `Split`/`Join`, `ToUpper`, `strconv.Atoi` and `%d`.
- `Numeric` covers Go's truncating integer division and the truncating float-to-int conversion.
- `Seqs` covers map, filter, flat-map and collect over sequences.

`Wrappers` holds `Option`.

How the model is shaped:

- **Stateful code.** Structs that the Go code fills in field by field are classes with methods:
  `Calculator.Config`, `FrankenPHP.Config`, `System.Info`, and `Apply.FileStore` for the file system.
  The scanning and rewriting loops are methods with loop invariants. Each is proved equal to a
  specification function, and the properties are proved about those functions.
- **Each platform probe is a parameter.** The `exec` output and file contents become a
  `System.Probes` value or an `Option<seq<string>>` argument, in which `None` stands for the failed
  command or file read.
- **Go map order is a parameter.** The patcher walks a Go map, whose iteration order is not fixed.
  The model takes that order as an `order: seq<Key>` argument, which must be a permutation of the
  seven keys. `ApplyProperties.OrderIndependence` shows that the order affects only how the inserted
  lines are arranged inside their block, and the order of the "Added" change entries.

## Model

| member | source | states |
|---|---|---|
| `Numeric.TruncDiv` | internal/calculator/calculator.go:177 | Go's integer division: truncates toward zero, so it agrees with Euclidean division on non-negative dividends and is the negated quotient of the negated dividend otherwise |
| `Numeric.Trunc` | internal/calculator/frankenphp.go:80 | Go's `int(float64)`: the floor for non-negative values, rounding toward zero for negative ones |
| `Text.TrimSpace` | internal/php/php.go:167 | The result neither starts nor ends with white space |
| `Text.TrimSpaceSlice` | internal/php/php.go:167 | The trimmed text is a contiguous slice of the input, and everything cut before and after it is white space |
| `Text.JoinSplit` | internal/apply/apply.go:144 | Joining the pieces of `strings.Split` with the same separator gives back the original text |
| `Text.SplitJoin` | internal/apply/apply.go:206 | Splitting a join of separator-free pieces gives back those pieces |
| `Text.Fields` | internal/php/php.go:53 | Every field is non-empty and contains no white space |
| `Text.FieldsBlank` | internal/system/system.go:61 | White space alone has no fields |
| `Text.FieldsSpacePrefix` | internal/system/system.go:61 | Leading white space does not change the fields |
| `Text.FieldsWord` | internal/php/php.go:53 | A single word without white space is its own only field |
| `Text.FieldsCons` | internal/php/php.go:53 | A word followed by white space is the first field, and the rest of the text gives the others. With the three lemmas above this fixes the fields of every string |
| `Text.SplitCount` | internal/system/system.go:144 | A split has more than one piece exactly when the separator occurs |
| `Text.ParseFormatInt` | internal/php/php.go:190 | `strconv.Atoi` of the `%d` rendering of any integer gives that integer back |
| `Calculator.When` | internal/calculator/calculator.go:92-103 | A conditional warning list holds the message exactly when the condition is true, and at most once |
| `Calculator.ProcessMemoryTiers` | internal/calculator/calculator.go:151-167 | Per-process memory is the user option if positive, else the measured average if positive, else half of `memory_limit` if positive, else 0. It is positive exactly when one of those sources is positive |
| `Calculator.ReservedMemoryRule` | internal/calculator/calculator.go:169-185 | Reserved memory is the user option if positive. Otherwise it is 512 MB plus the whole megabytes of 15% of total memory, lies between 512 and 4096 for non-negative totals, and equals the 4096 MB cap exactly from 23894 MB of total memory on |
| `Calculator.ReservedMemoryMonotone` | internal/calculator/calculator.go:169-185 | More total memory never reserves less |
| `Calculator.PMTypeRule` | internal/calculator/calculator.go:187-202 | An explicit pm type wins. Otherwise low traffic gives `ondemand`, high traffic gives `static` and anything else gives `dynamic` |
| `Calculator.AvailableMemoryFloor` | internal/calculator/calculator.go:78-82 | Available memory is total minus reserved, but never below 256 MB |
| `Calculator.ChildrenByMemoryFits` | internal/calculator/calculator.go:88-92 | The child count by memory is the largest number of processes that fit in available memory. The 64 MB fallback applies when no process size is known |
| `Calculator.MaxChildren` | internal/calculator/calculator.go:88-104 | `pm.max_children` always lies between 5 and 1000 |
| `Calculator.MaxChildrenClamp` | internal/calculator/calculator.go:93-104 | The child count by memory is kept when it lies within 5 to 1000, and is otherwise raised to 5 or cut to 1000 |
| `Calculator.MaxChildrenMonotone` | internal/calculator/calculator.go:88-104 | More available memory never gives fewer children |
| `Calculator.MaxChildrenAntitone` | internal/calculator/calculator.go:88-104 | A larger per-process size never gives more children |
| `Calculator.WarningsExact` | internal/calculator/calculator.go:78-104 | Each of the four warnings appears exactly when its condition holds: low memory, estimated process size, child count raised to 5, child count capped at 1000 |
| `Calculator.SizeChildren` | internal/calculator/calculator.go:88-104 | The max_children step computes the clamped count and the clamp warnings |
| `Calculator.SizeSpareServers` | internal/calculator/calculator.go:106-130 | The spare-server step computes start and min spare servers, sets max spare to start, and keeps 0 <= min <= start <= max <= max_children |
| `Calculator.SpareServersOrdered` | internal/calculator/calculator.go:106-130 | For any non-negative core count and at least 5 children: min spare <= start <= max_children, and min spare is at least 1 when there is a core |
| `Calculator.Config.constructor` | internal/calculator/calculator.go:29-44 | A new pool configuration holds the given values and no recommendations |
| `Calculator.AddRecommendations` | internal/calculator/calculator.go:204-235 | Appends the recommendation list for the pm type, total memory and child count, and changes no other field |
| `Calculator.RecommendationsShape` | internal/calculator/calculator.go:204-235 | The list opens with the pm-type advice and has no other pm-type advice. It has the low-memory advice exactly below 2048 MB, the many-children advice exactly above 100 children, and always ends with the max_requests and pools advice |
| `Calculator.Calculate` | internal/calculator/calculator.go:65-149 | Every field of the result is the corresponding sizing rule applied to the inputs, with `pm.max_requests` = 500 and the idle timeout taken from the traffic profile. max_children lies in 5..1000 and the spare servers are ordered |
| `Calculator.Scenario4096` | internal/calculator/calculator.go:65-149 | With 4096 MB, 4 cores, default options and nothing measured: 1126 MB reserved, 2970 MB available, 46 children, `dynamic`, 16 start and 8 min spare servers, idle timeout "5s", and only the estimate warning |
| `FrankenPHP.ThreadMemoryRule` | internal/calculator/frankenphp.go:50-55 | Thread memory is the user option when non-zero, else 30 MB, and is never zero |
| `FrankenPHP.ReservedMemoryRule` | internal/calculator/frankenphp.go:58-65 | Reserved memory is the user option when non-zero. Otherwise it is 256 MB plus the whole megabytes of 10% of total memory, lies within 256..2048 MB for non-negative totals, and equals the 2048 MB cap exactly from 17920 MB of total memory on |
| `FrankenPHP.ThreadsByMemoryDefault` | internal/calculator/frankenphp.go:79-80 | With the 30 MB default the thread count by memory is the number of whole threads that fit |
| `FrankenPHP.NumThreads` | internal/calculator/frankenphp.go:83-97 | `num_threads` always lies between 2 and 1000 |
| `FrankenPHP.NumThreadsRule` | internal/calculator/frankenphp.go:83-107 | `num_threads` is twice the cores when memory allows it and there are 1 to 500 cores, is the memory bound when that is lower and within 2..1000, and never exceeds `max_threads` |
| `FrankenPHP.SizeThreads` | internal/calculator/frankenphp.go:79-107 | The thread step computes num_threads, max_threads and the memory-limited and cap warnings, with 2 <= num_threads <= max_threads |
| `FrankenPHP.SizeMemory` | internal/calculator/frankenphp.go:50-72 | The memory step computes thread memory, reserved and available memory, and the estimate and low-memory warnings |
| `FrankenPHP.WarningsExact` | internal/calculator/frankenphp.go:50-97 | Each of the four warnings appears exactly when its condition holds |
| `FrankenPHP.ThreadsMonotone` | internal/calculator/frankenphp.go:79-107 | More available memory never gives fewer threads, for either num_threads or max_threads |
| `FrankenPHP.Config.constructor` | internal/calculator/frankenphp.go:8-20 | A new thread configuration holds the given values and no recommendations |
| `FrankenPHP.AddRecommendations` | internal/calculator/frankenphp.go:131-150 | Appends the worker-mode-dependent recommendation list and changes no other field |
| `FrankenPHP.RecommendationsShape` | internal/calculator/frankenphp.go:131-150 | The list opens with the worker-mode advice or the advice to enable it, never repeats either, has the low-memory advice exactly below 1024 MB, and ends with the shared-memory advice and the `watch` hot-reload advice |
| `FrankenPHP.Calculate` | internal/calculator/frankenphp.go:41-129 | Every field is the corresponding rule. The worker count equals num_threads in worker mode and is 0 otherwise, max_wait_time follows the traffic profile, and 2 <= num_threads <= max_threads |
| `Php.ParseMemoryLimitPlain` | internal/php/php.go:190-195 | A bare integer, including "-1" for unlimited, parses to itself |
| `Php.ParseMemoryLimitGigabytes` | internal/php/php.go:174-176 | "nG" and "ng" parse to n*1024 MB |
| `Php.ParseMemoryLimitMegabytes` | internal/php/php.go:177-179 | "nM" and "nm" parse to n MB |
| `Php.ParseMemoryLimitKilobytes` | internal/php/php.go:180-188 | "nK" and "nk" parse to n/1024 MB, truncated toward zero |
| `Php.ParseMemoryLimitIgnoresSpace` | internal/php/php.go:167 | Surrounding white space does not change the parse |
| `Php.ParseMemoryLimitFails` | internal/php/php.go:166-196 | The parse fails exactly when the trimmed, upper-cased setting is not "-1" and its number part, after stripping a G, M or K unit, is not an integer |
| `Php.ParseMemoryLimitBlank` | internal/php/php.go:167-193 | An empty or blank setting is an error |
| `Php.ParseMemoryLimitIgnoresCase` | internal/php/php.go:167 | Upper-casing the input first does not change the parse |
| `Php.VmRSSFirst` | internal/php/php.go:97-106 | The first `VmRSS:` line with a value field gives the size: its second field as an integer, or 0 when that does not parse. Later lines do not matter |
| `Php.VmRSSMissing` | internal/php/php.go:97-109 | A status file without a `VmRSS:` line carrying a value gives 0 kB |
| `Php.ProcessMemoryLinux` | internal/php/php.go:90-94 | A process whose status file cannot be opened has size 0 |
| `Php.LinuxEntry` | internal/php/php.go:53-77 | A `ps` line yields a process only with positive resident memory and a command not containing "grep" |
| `Php.LinuxEntryRule` | internal/php/php.go:53-77 | A Linux `ps` line yields a given process exactly when it has at least two fields, the first parses as that pid, the second is that command and has no "grep", and the pid's resident size is that positive size |
| `Php.LinuxEntrySkipped` | internal/php/php.go:54-69 | A line is skipped exactly when it has fewer than two fields, its pid does not parse, its command contains "grep", or its size is not positive |
| `Php.DarwinEntryRule` | internal/php/php.go:124-143 | A macOS `ps` line yields a given process exactly when it has at least three fields, the first two parse as its pid and size, and the third is its command |
| `Php.LinuxProcessesPositive` | internal/php/php.go:53-77 | Every collected Linux process has positive memory and is not the grep process |
| `Php.Aggregate` | internal/php/php.go:80-83 | The count is the number of processes, the total is the sum of their sizes in MB, and the average times the count is the total (0 with no processes) |
| `Php.LinuxAverageDetected` | internal/php/php.go:53-83 | On Linux the average is positive exactly when at least one process was found |
| `Php.DetectLinux` | internal/php/php.go:41-86 | A failed `ps` gives the empty result. Otherwise the scan loop gives the aggregate of the collected processes |
| `Php.DetectDarwin` | internal/php/php.go:112-154 | A failed `ps` gives the empty result. Otherwise the scan loop gives the aggregate of the well-formed lines |
| `System.Info.constructor` | internal/system/system.go:14-21 | A new host description is zeroed apart from its platform |
| `System.MemInfoKeysExclusive` | internal/system/system.go:62-80 | No meminfo line can start with two of the three keys |
| `System.ScanMemInfo` | internal/system/system.go:59-82 | The meminfo loop sets each of total, free and available to the last parsable line with its key, and leaves the other fields alone |
| `System.MemInfoLastWins` | internal/system/system.go:59-82 | The last parsable line for a key decides that key's value |
| `System.MemInfoMissing` | internal/system/system.go:59-82 | A key with no parsable line keeps its previous value |
| `System.DetectLinux` | internal/system/system.go:47-92 | An unreadable meminfo is an error and changes no memory field. Otherwise available falls back to free when it is 0, and used is total minus available. The core count is recorded in both cases |
| `System.ParseVMStatValue` | internal/system/system.go:143-151 | A line without a colon parses to 0 |
| `System.ParseVMStatOneColon` | internal/system/system.go:144-150 | A line with exactly one colon parses to the integer after it, trimmed and without a final period, or to 0 when that is not an integer |
| `System.ParseVMStatManyColons` | internal/system/system.go:144-147 | A line with two or more colons parses to 0 |
| `System.ParseVMStatLine` | internal/system/system.go:143-151 | "key:  n." parses to n |
| `System.ScanVMStat` | internal/system/system.go:125-134 | The vm_stat loop gives the free page count, plus free and inactive together as available pages |
| `System.DarwinFreeAtMostAvailable` | internal/system/system.go:136-138 | On macOS free memory is non-negative and at most available memory |
| `System.DetectDarwin` | internal/system/system.go:94-141 | Distinguishes three errors: sysctl failing, its output not being a number, and vm_stat failing. Total is the byte count in MB, free and available follow from the page counts and page size, and used is total minus available |
| `System.Detect` | internal/system/system.go:24-45 | Succeeds exactly when the platform's probes succeed and fails for other platforms. On success it returns a fresh description with the platform and core count, and total, free, available and used memory as the Linux or macOS detector computes them from a zeroed start |
| `Apply.FirstMatch` | internal/apply/apply.go:168-184 | Finds a listed key that is relevant and whose pattern matches, or reports that none does |
| `Apply.MatchKey` | internal/apply/apply.go:168-184 | The key loop returns the first relevant matching key |
| `Apply.RewriteLine` | internal/apply/apply.go:160-185 | One line's rewrite is the specified rewritten line, matched key and change entry |
| `Apply.KeyedLine` | internal/apply/apply.go:174-183 | A line matching a key becomes `key = value`. A change is logged, old value to new, only if the line differs |
| `Apply.UnkeyedLine` | internal/apply/apply.go:160-185 | A line matching no key is kept and logs nothing |
| `Apply.RewriteAll` | internal/apply/apply.go:160-185 | The rewrite loop gives the rewritten lines, the set of keys seen and the change log |
| `Apply.Anchor` | internal/apply/apply.go:191-198 | The insertion anchor is the first line containing `[www]` at or after the given line, or else the last line |
| `Apply.FindInsertIndex` | internal/apply/apply.go:191-198 | The insertion-point loop finds the specified insertion point |
| `Apply.InsertMissing` | internal/apply/apply.go:187-204 | Inserting grows the file by exactly the number of missing keys |
| `Apply.InsertKey` | internal/apply/apply.go:188-203 | A missing key's line is inserted at the insertion point and logged as added. A present key changes nothing |
| `Apply.InsertAll` | internal/apply/apply.go:187-204 | The insertion loop gives the specified lines and the added-entries log |
| `Apply.UpdateConfig` | internal/apply/apply.go:142-207 | The patched text and change log are those of the specified patch |
| `Apply.FileStore.constructor` | internal/apply/apply.go:114-126 | A file store holds the given files and read-only paths |
| `Apply.FileStore.WriteFile` | internal/apply/apply.go:115-126 | A write succeeds exactly on a writable path, sets that file's content and changes nothing else |
| `Apply.Apply` | internal/apply/apply.go:102-140 | Checks in order: an unreadable file, an unwritable backup, an unwritable target. Each failure leaves the files as they were, apart from a backup already written. On success the original content is backed up and the patched text written, and a failed restart is reported with the result |
| `Apply.Base` | internal/apply/apply.go:285 | The base name is the longest suffix of the path without a slash |
| `ApplyProperties.RelevantKeys` | internal/apply/apply.go:209-219 | `pm`, `max_children` and `max_requests` are always patched. The idle timeout only for dynamic and ondemand, the spare-server keys only for dynamic |
| `ApplyProperties.AllKeysListed` | internal/apply/apply.go:146-154 | The settings table has every key |
| `ApplyProperties.NameInjective` | internal/apply/apply.go:146-154 | No two keys share a directive name |
| `ApplyProperties.NamePrefix` | internal/apply/apply.go:146-154 | The only key name that is a prefix of another is `pm` |
| `ApplyProperties.MatchUnique` | internal/apply/apply.go:174-175 | A line matches at most one key's pattern, so the map order of the key loop does not decide the match |
| `ApplyProperties.LineKeyIff` | internal/apply/apply.go:160-184 | A line is assigned a key exactly when it is not a comment or blank, the key is relevant, and its pattern matches |
| `ApplyProperties.LineKeyNone` | internal/apply/apply.go:160-184 | A line gets no key exactly when it is skipped or no relevant key matches |
| `ApplyProperties.SettingLineKey` | internal/apply/apply.go:177 | A written `key = value` line is matched back to its key |
| `ApplyProperties.SettingLineInjective` | internal/apply/apply.go:177 | Different keys never write the same line |
| `ApplyProperties.RewriteRule` | internal/apply/apply.go:160-185 | A matching line becomes the key's setting line, and every other line is untouched |
| `ApplyProperties.ChangeLogged` | internal/apply/apply.go:176-180 | A change is logged exactly when a key matched and the line changed |
| `ApplyProperties.LoggedValue` | internal/apply/apply.go:221-230 | Matched lines contain "=" and the logged old value is the trimmed text after the first "=" |
| `ApplyProperties.UpdatedKeysIff` | internal/apply/apply.go:181 | A key counts as present exactly when some line of the file matched it |
| `ApplyProperties.InsertAfterSection` | internal/apply/apply.go:191-198 | Missing keys go right after the first line containing `[www]` when it is not the last line |
| `ApplyProperties.InsertBeforeLast` | internal/apply/apply.go:191-198 | Without an earlier line containing `[www]`, missing keys go before the last line |
| `ApplyProperties.InsertShape` | internal/apply/apply.go:187-204 | Inserting leaves the rewritten lines before and after the insertion point intact, with one contiguous block of the inserted lines between them |
| `ApplyProperties.MissingOnce` | internal/apply/apply.go:188-189 | Each key is inserted once if it is relevant and absent, and otherwise not at all |
| `ApplyProperties.MissingPermutation` | internal/apply/apply.go:188 | The set of inserted keys is the same under every map order |
| `ApplyProperties.AddedEntryInjective` | internal/apply/apply.go:199 | Different keys never give the same "(added)" entry |
| `ApplyProperties.AddedOnce` | internal/apply/apply.go:188-199 | The log has one "(added)" entry per inserted key: exactly one for each relevant key the file lacked, none for any other |
| `ApplyProperties.PatchShape` | internal/apply/apply.go:142-206 | The patched file is the rewritten file with one block of setting lines at the insertion point, holding one line per missing key |
| `ApplyProperties.BlockOrder` | internal/apply/apply.go:187-204 | Any two map orders give the same prefix, suffix and multiset of inserted lines |
| `ApplyProperties.AddedOrder` | internal/apply/apply.go:199 | Any two map orders log the same added entries, up to order |
| `ApplyProperties.OrderIndependence` | internal/apply/apply.go:142-207 | Two map orders produce the same text outside the inserted block, the same block contents and the same rewrite log |
| `ApplyProperties.SettingLineNoBreak` | internal/apply/apply.go:177 | A setting line has no line break when the idle timeout has none |
| `ApplyProperties.SettingLineStable` | internal/apply/apply.go:177 | A written setting line is recognised again, rewritten to itself and logs nothing |
| `ApplyProperties.RewrittenStable` | internal/apply/apply.go:160-185 | Rewriting a line twice is the same as once, and the second pass logs nothing |
| `ApplyProperties.PatchedLineStable` | internal/apply/apply.go:142-207 | Every line of a patched file is a fixed point of the rewrite |
| `ApplyProperties.PatchedKeysUpdated` | internal/apply/apply.go:142-207 | After a patch every relevant key is present |
| `ApplyProperties.NothingMissing` | internal/apply/apply.go:187-204 | When the file is already rewritten and every relevant key is present, the insert step changes nothing and logs nothing |
| `ApplyProperties.Idempotence` | internal/apply/apply.go:142-207 | Patching a patched file again, under any map order, gives the same text and no changes |
| `ApplyProperties.ExtEmpty` | internal/apply/apply.go:285 | A path has no extension exactly when its base name has no dot |
| `ApplyProperties.ExtShape` | internal/apply/apply.go:285 | An extension starts with its only dot and ends the base name |
| `ApplyProperties.ExtConf` | internal/apply/apply.go:285-288 | The extension is ".conf" exactly when the path ends in ".conf" |
| `ApplyProperties.ValidateRule` | internal/apply/apply.go:275-291 | A path is accepted exactly when it exists, is not a directory, and ends in ".conf" or has no extension. Otherwise a missing path, then a directory, then a wrong extension each give their own error |
| `Output.Color` | internal/output/output.go:38-43 | Without colour the text is unchanged. With colour it is wrapped in the code and the reset sequence |
| `Output.PadRight` | internal/output/output.go:287 | `%-20s`: the text followed by spaces up to the width, never truncated |
| `Output.Row` | internal/output/output.go:286-288 | A row is indented by two spaces, starts with the dimmed label and ends with the value |
| `Output.Section` | internal/output/output.go:57-70 | Sections are suppressed by `--only-conf`. Otherwise a section is its bold title, a blank line, its body and a closing blank line |
| `Output.Banner` | internal/output/output.go:46-54 | A banner is suppressed by `--only-conf`. Otherwise it is four lines with the bold cyan title second |
| `Output.PrintHeader` | internal/output/output.go:46-54 | The PHP-FPM banner names the optimizer and is suppressed by `--only-conf` |
| `Output.PrintFrankenPHPHeader` | internal/output/output.go:179-187 | The FrankenPHP banner names the optimizer and is suppressed by `--only-conf` |
| `Output.PrintSystemInfo` | internal/output/output.go:57-70 | The system section has eight lines, with the platform row first, and is suppressed by `--only-conf` |
| `Output.PrintPHPInfo` | internal/output/output.go:73-89 | The process section has six lines, or five with the no-processes notice, and is suppressed by `--only-conf` |
| `Output.NoProcessesNotice` | internal/output/output.go:80-87 | The no-processes notice is printed exactly when no process was found |
| `Output.NoticeAbsent` | internal/output/output.go:80-87 | With processes found, no line of the section is the notice |
| `Output.NoticePresent` | internal/output/output.go:80-82 | With no processes found, the notice is printed |
| `Output.RowsLackNotice` | internal/output/output.go:83-86 | None of the process rows is the notice |
| `Output.TitleNotNotice` | internal/output/output.go:78 | The section title is not the notice |
| `Output.RowNotNotice` | internal/output/output.go:286-288 | A row is never the notice when its label does not start with "N" |
| `Output.PrintCalculation` | internal/output/output.go:92-105 | The calculation section has seven lines and is suppressed by `--only-conf` |
| `Output.PrintFrankenPHPCalculation` | internal/output/output.go:190-203 | The FrankenPHP calculation section has seven lines and is suppressed by `--only-conf` |
| `Output.PrintUsage` | internal/output/output.go:164-176 | The usage hints have eight lines and are suppressed by `--only-conf` |
| `Output.PrintFrankenPHPUsage` | internal/output/output.go:269-284 | The FrankenPHP usage hints have eleven lines and are suppressed by `--only-conf` |
| `Output.Notes` | internal/output/output.go:136-161 | A list section is absent when suppressed or empty. Otherwise it is the title, a blank line, one marked line per item in order, and a blank line |
| `Output.PrintWarnings` | internal/output/output.go:136-147 | One "!" line per warning in order, and nothing when there are none |
| `Output.PrintRecommendations` | internal/output/output.go:150-161 | One "*" line per recommendation in order, and nothing when there are none |
| `Output.PrintFrankenPHPWarnings` | internal/output/output.go:241-252 | One "!" line per FrankenPHP warning in order, and nothing when there are none |
| `Output.PrintFrankenPHPRecommendations` | internal/output/output.go:255-266 | One "*" line per FrankenPHP recommendation in order, and nothing when there are none |
| `Output.PrintedKeysRelevant` | internal/output/output.go:115-128 | The printed directives are exactly the ones the patcher writes for that pm type |
| `Output.PrintedKeyLines` | internal/output/output.go:115-128 | There is one printed `key = value` line per printed directive, in order |
| `Output.ConfigEnds` | internal/output/output.go:115-128 | The block starts with `pm` and `pm.max_children` and ends with `pm.max_requests` |
| `Output.ConfigKeySet` | internal/output/output.go:115-128 | A directive's line is printed exactly when it is relevant to the pm type |
| `Output.ConfigLinesKeyed` | internal/output/output.go:115-128 | Every printed line is some relevant directive's line |
| `Output.PrintConfig` | internal/output/output.go:108-133 | With `--only-conf` only the directive lines are printed. Otherwise they are framed by the green title and blank lines |
| `Output.OptionalSignatures` | internal/output/output.go:217-230 | Each optional Caddyfile line has its own signature |
| `Output.FixedLinesDistinct` | internal/output/output.go:213-233 | No optional Caddyfile line coincides with a fixed line of the block |
| `Output.CaddyShape` | internal/output/output.go:213-233 | The block opens with `{`, `frankenphp {` and `num_threads`, and closes with two braces. `max_threads` is printed exactly when above `num_threads`, `max_wait_time` exactly when set, and the worker block exactly in worker mode with a positive worker count |
| `Output.PrintFrankenPHPConfig` | internal/output/output.go:206-238 | With `--only-conf` only the Caddyfile block is printed. Otherwise it is framed by the green title and blank lines |
| `Output.OnlyConfReport` | cmd/php-tuner/phpfpm.go:63-126 | With `--only-conf` the whole PHP-FPM report is exactly the directive lines |
| `Output.OnlyConfFrankenPHPReport` | cmd/php-tuner/frankenphp.go:52-91 | With `--only-conf` the whole FrankenPHP report is exactly the Caddyfile block |

## Left out

- Running programs and reading the OS are left out. The model does not run `ps`, `sysctl`, `vm_stat`
  or `php -r`, and does not read `/proc/meminfo` or `/proc/<pid>/status`. Their output is passed in
  (`System.Probes`, the `psOutput` and `status` arguments, and `memoryLimit` for
  `GetPHPMemoryLimit`), with `None` for a failed command or read.
- `runtime.NumCPU` and `runtime.GOOS` are parameters (`Probes.numCPU`, `platform`).
- `DetectProcesses` is not modelled as a member. It only dispatches on `runtime.GOOS` to the Linux or
  Darwin detector, and both detectors are modelled.
- Finding and restarting the service becomes two parameters of `Apply.Apply`. `FindServiceName`'s
  `systemctl` probing becomes `serviceName`, and the outcome of `restartService` becomes `restartOk`.
- `FindConfigFile`, `ListConfigFiles` and `Confirm` are left out. They search fixed directories on
  disk or read the terminal, and their results only feed the command line.
- The command-line layer under `cmd/` is left out: flag parsing, the subcommands and the legacy
  `php-fpm-optimizer` entry point. Only each subcommand's print order appears, in the two `OnlyConf`
  lemmas.
- `float64` is modelled as exact `real`. Rounding, NaN, infinities and the range of `int(float64)` are
  not modelled.
- `fmt`'s `%.1f` is the `fixed1` function parameter in `Output`, because the model has no
  floating-point formatting.
- The `io.Writer` becomes a returned sequence of lines. `fmt.Fprintln`'s newlines are not modelled as
  characters.
- Go's fixed-width `int`/`int64` arithmetic is unbounded here. Overflow and `strconv`'s 64-bit range
  errors are not modelled.
- The patcher's `regexp` is replaced by a hand-written predicate for the same pattern: start of
  line, optional `;`, optional `\s*`, the escaped name, `\s*=`.
- `strings.ToUpper` is ASCII only. White space follows `unicode.IsSpace` in full for `TrimSpace` and `Fields`, and RE2's `\s` for the pattern match.
- `bufio.Scanner`'s token-size limit and its `Err` are not modelled: every line is delivered.
- `filepath.Base` and `filepath.Ext` are modelled for plain slash-separated paths. Trailing slashes
  and the empty path are not special-cased.
- File permissions, partial writes and the file mode passed to `os.WriteFile` are not modelled. A
  path in `FileStore.readOnly` is one that cannot be written, and a path outside `files` is one that
  cannot be read.
- `Output.OnlyConfReport` covers the report without `--apply` only. With `--apply`, the
  `applyConfiguration` messages (`cmd/php-tuner/phpfpm.go:141-219`) are printed unconditionally and
  are not modelled.
- `ApplyProperties.Idempotence` and `ApplyProperties.PatchedLineStable` assume that the idle timeout
  contains no line break, since such a value would split a written line in two.

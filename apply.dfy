/** Writing a calculated configuration into a PHP-FPM pool file (internal/apply/apply.go): the
    line-by-line patcher `updateConfig`, the backup-then-write sequence of `Apply` over a store of
    files, and the extension check of `ValidateConfigPath`. The order in which Go ranges over the
    settings map is the parameter `order`. */
module Apply {
  import opened Wrappers
  import opened Text
  import Seqs
  import Calculator

  // ---------------------------------------------------------------------------------------------
  // The settings written

  /** The keys of the settings map. */
  datatype Key = PMKey | MaxChildrenKey | StartServersKey | MinSpareServersKey | MaxSpareServersKey
               | MaxRequestsKey | IdleTimeoutKey
  {
    /** The key as it appears in the pool file. */
    function Name(): string
    {
      match this
      case PMKey => "pm"
      case MaxChildrenKey => "pm.max_children"
      case StartServersKey => "pm.start_servers"
      case MinSpareServersKey => "pm.min_spare_servers"
      case MaxSpareServersKey => "pm.max_spare_servers"
      case MaxRequestsKey => "pm.max_requests"
      case IdleTimeoutKey => "pm.process_idle_timeout"
    }
  }

  /** The keys of the settings map, in the order the source declares them. */
  const SettingKeys: seq<Key> :=
    [PMKey, MaxChildrenKey, StartServersKey, MinSpareServersKey, MaxSpareServersKey, MaxRequestsKey, IdleTimeoutKey]

  /** The figures of a `Config` that the patcher writes. */
  datatype Settings = Settings(
    PM: Calculator.PMType,
    MaxChildren: int,
    StartServers: int,
    MinSpareServers: int,
    MaxSpareServers: int,
    MaxRequests: int,
    ProcessIdleTimeout: string)

  function SettingsOf(cfg: Calculator.Config): Settings
    reads cfg
  {
    Settings(cfg.PM, cfg.MaxChildren, cfg.StartServers, cfg.MinSpareServers, cfg.MaxSpareServers,
             cfg.MaxRequests, cfg.ProcessIdleTimeout)
  }

  /** The settings map: the PM name, the counts in decimal, the idle timeout as it is. */
  function Value(s: Settings, key: Key): string
  {
    match key
    case PMKey => s.PM.Name()
    case MaxChildrenKey => FormatInt(s.MaxChildren)
    case StartServersKey => FormatInt(s.StartServers)
    case MinSpareServersKey => FormatInt(s.MinSpareServers)
    case MaxSpareServersKey => FormatInt(s.MaxSpareServers)
    case MaxRequestsKey => FormatInt(s.MaxRequests)
    case IdleTimeoutKey => s.ProcessIdleTimeout
  }

  /** `isSettingRelevant`: which keys the process manager type uses. */
  predicate IsSettingRelevant(key: Key, pm: Calculator.PMType)
  {
    match key
    case PMKey | MaxChildrenKey | MaxRequestsKey => true
    case IdleTimeoutKey => pm == Calculator.Dynamic || pm == Calculator.OnDemand
    case StartServersKey | MinSpareServersKey | MaxSpareServersKey => pm == Calculator.Dynamic
  }

  // ---------------------------------------------------------------------------------------------
  // Recognising a setting line

  /** Lines the rewrite loop passes over: blank ones and `;` comments (after trimming). */
  predicate IsSkipped(trimmed: string)
  {
    trimmed == "" || HasPrefix(trimmed, ";")
  }

  /** Drops leading RE2 `\s` characters. */
  function SkipRegexSpace(s: string): (r: string)
    ensures |r| <= |s| && r == s[|s| - |r|..]
    ensures r == [] || !IsRegexSpace(r[0])
    decreases |s|
  {
    if |s| > 0 && IsRegexSpace(s[0]) then SkipRegexSpace(s[1..]) else s
  }

  /** The pattern `^;?\s*KEY\s*=` (the key quoted literally) matches `trimmed`. Every key starts
      with `p`, which is neither `;` nor white space, so taking the optional `;` and each `\s*` as
      far as they go is the only way the pattern can match. */
  predicate MatchesSetting(trimmed: string, key: Key)
  {
    var t := PatternStart(trimmed);
    var name := key.Name();
    HasPrefix(t, name) && FollowedByEquals(t[|name|..])
  }

  /** Where `^;?\s*` leaves off. */
  function PatternStart(trimmed: string): string
  {
    SkipRegexSpace(if HasPrefix(trimmed, ";") then trimmed[1..] else trimmed)
  }

  /** `\s*=` matches at the start. */
  predicate FollowedByEquals(s: string)
  {
    var rest := SkipRegexSpace(s);
    |rest| > 0 && rest[0] == '='
  }

  /** The first key of `keys` that is relevant and whose pattern matches. */
  function FirstMatch(trimmed: string, pm: Calculator.PMType, keys: seq<Key>): (r: Option<Key>)
    ensures r.Some? ==> r.value in keys && IsSettingRelevant(r.value, pm) && MatchesSetting(trimmed, r.value)
    ensures r.None? ==> forall k :: k in keys ==> !(IsSettingRelevant(k, pm) && MatchesSetting(trimmed, k))
  {
    if keys == [] then None
    else if IsSettingRelevant(keys[0], pm) && MatchesSetting(trimmed, keys[0]) then Some(keys[0])
    else FirstMatch(trimmed, pm, keys[1..])
  }

  /** The key whose line this is, if the rewrite loop rewrites it. */
  function LineKey(line: string, pm: Calculator.PMType): Option<Key>
  {
    var trimmed := TrimSpace(line);
    if IsSkipped(trimmed) then None else FirstMatch(trimmed, pm, SettingKeys)
  }

  function KeySet(key: Option<Key>): set<Key>
  {
    if key.Some? then {key.value} else {}
  }

  // ---------------------------------------------------------------------------------------------
  // The text the patcher writes

  /** A setting line as the patcher writes it. */
  function SettingLine(key: Key, value: string): string
  {
    key.Name() + " = " + value
  }

  function ChangeEntry(key: Key, oldValue: string, value: string): string
  {
    key.Name() + ": " + oldValue + " -> " + value
  }

  function AddedEntry(key: Key, value: string): string
  {
    key.Name() + ": (added) " + value
  }

  /** `extractValue`: the trimmed text after the first `=`, with markers for a commented-out
      line and for a line without `=`. */
  function ExtractValue(line: string): string
  {
    if HasPrefix(TrimSpace(line), ";") then "(commented out)"
    else if '=' in line then TrimSpace(line[FirstIndex(line, '=') + 1..])
    else "(unknown)"
  }

  // ---------------------------------------------------------------------------------------------
  // The rewrite pass, as functions

  /** What the rewrite loop leaves in the place of `line`. */
  function RewrittenLine(line: string, s: Settings): string
  {
    match LineKey(line, s.PM)
    case Some(key) => SettingLine(key, Value(s, key))
    case None => line
  }

  /** The change entry the rewrite loop logs for `line`: one exactly when it rewrites the line
      into different text. */
  function LineChanges(line: string, s: Settings): seq<string>
  {
    match LineKey(line, s.PM)
    case Some(key) =>
      var value := Value(s, key);
      if SettingLine(key, value) != line then [ChangeEntry(key, ExtractValue(line), value)] else []
    case None => []
  }

  function RewrittenLineOf(s: Settings): string -> string
  {
    (line: string) => RewrittenLine(line, s)
  }

  function RewriteLines(lines: seq<string>, s: Settings): seq<string>
  {
    Seqs.Map(RewrittenLineOf(s), lines)
  }

  function LineChangesOf(s: Settings): string -> seq<string>
  {
    (line: string) => LineChanges(line, s)
  }

  function LineKeyOf(pm: Calculator.PMType): string -> Option<Key>
  {
    (line: string) => LineKey(line, pm)
  }

  /** The change log of the rewrite loop, line by line. */
  function RewriteChanges(lines: seq<string>, s: Settings): seq<string>
  {
    Seqs.FlatMap(LineChangesOf(s), lines)
  }

  /** The keys the rewrite loop marks as updated. */
  function UpdatedKeys(lines: seq<string>, pm: Calculator.PMType): set<Key>
  {
    Seqs.Collect(LineKeyOf(pm), lines)
  }

  // ---------------------------------------------------------------------------------------------
  // The insert pass, as functions

  /** The insertion anchor test: the line contains `[www]` anywhere, so a comment naming the pool
      anchors too, and another pool's header does not. */
  predicate IsSection(line: string)
  {
    Contains(line, "[www]")
  }

  /** The first index from `i` on whose line contains `[www]`, or else the last index. */
  function Anchor(lines: seq<string>, i: nat): (r: nat)
    requires i < |lines|
    ensures i <= r < |lines|
    ensures IsSection(lines[r]) || r == |lines| - 1
    ensures forall m :: i <= m < r ==> !IsSection(lines[m])
    decreases |lines| - i
  {
    if IsSection(lines[i]) || i == |lines| - 1 then i else Anchor(lines, i + 1)
  }

  /** Where a missing setting goes: just after the first `[www]` line, but before the last line
      when that comes first. */
  function InsertIndex(lines: seq<string>): nat
    requires |lines| > 0
  {
    var a := Anchor(lines, 0);
    if a == |lines| - 1 then a else a + 1
  }

  function InsertAt(lines: seq<string>, i: nat, line: string): seq<string>
    requires i <= |lines|
  {
    lines[..i] + [line] + lines[i..]
  }

  predicate IsMissing(key: Key, updated: set<Key>, pm: Calculator.PMType)
  {
    key !in updated && IsSettingRelevant(key, pm)
  }

  function IsMissingOf(updated: set<Key>, pm: Calculator.PMType): Key -> bool
  {
    (key: Key) => IsMissing(key, updated, pm)
  }

  /** The keys of `keys` the insert loop adds, in its order. */
  function MissingKeys(keys: seq<Key>, updated: set<Key>, pm: Calculator.PMType): seq<Key>
  {
    Seqs.Filter(IsMissingOf(updated, pm), keys)
  }

  function SettingLineOf(s: Settings): Key -> string
  {
    (key: Key) => SettingLine(key, Value(s, key))
  }

  function AddedEntryOf(s: Settings): Key -> string
  {
    (key: Key) => AddedEntry(key, Value(s, key))
  }

  function KeyLines(keys: seq<Key>, s: Settings): seq<string>
  {
    Seqs.Map(SettingLineOf(s), keys)
  }

  function AddedChanges(keys: seq<Key>, updated: set<Key>, s: Settings): seq<string>
  {
    Seqs.Map(AddedEntryOf(s), MissingKeys(keys, updated, s.PM))
  }

  /** The lines after an insert loop has visited `keys`: each key with `missing` adds its line
      `lineOf` at the insertion point of the lines so far. */
  function InsertMissing(lines: seq<string>, keys: seq<Key>, missing: Key -> bool, lineOf: Key -> string): (r: seq<string>)
    requires |lines| > 0
    ensures |r| == |lines| + |Seqs.Filter(missing, keys)|
  {
    if keys == [] then lines
    else
      var prev := InsertMissing(lines, keys[..|keys| - 1], missing, lineOf);
      var key := keys[|keys| - 1];
      if missing(key) then InsertAt(prev, InsertIndex(prev), lineOf(key)) else prev
  }

  lemma InsertStep(lines: seq<string>, keys: seq<Key>, i: nat, missing: Key -> bool, lineOf: Key -> string)
    requires |lines| > 0 && i < |keys|
    ensures var prev := InsertMissing(lines, keys[..i], missing, lineOf);
      InsertMissing(lines, keys[..i + 1], missing, lineOf)
      == if missing(keys[i]) then InsertAt(prev, InsertIndex(prev), lineOf(keys[i])) else prev
  {
    assert keys[..i + 1][..i] == keys[..i];
  }

  lemma AddedStep(keys: seq<Key>, i: nat, updated: set<Key>, s: Settings)
    requires i < |keys|
    ensures AddedChanges(keys[..i + 1], updated, s)
      == AddedChanges(keys[..i], updated, s)
         + (if IsMissing(keys[i], updated, s.PM) then [AddedEntry(keys[i], Value(s, keys[i]))] else [])
  {
    Seqs.FilterStep(IsMissingOf(updated, s.PM), keys, i);
    var m := if IsMissing(keys[i], updated, s.PM) then [keys[i]] else [];
    Seqs.MapAppend(AddedEntryOf(s), MissingKeys(keys[..i], updated, s.PM), m);
  }

  /** The result of `updateConfig`: the new text and the change log. */
  datatype Patched = Patched(text: string, changes: seq<string>)

  /** The lines `updateConfig` joins: the rewritten lines with the missing keys inserted, the
      settings map visited in `order` by the insert loop. */
  function PatchLines(lines: seq<string>, s: Settings, order: seq<Key>): seq<string>
    requires |lines| > 0
  {
    InsertMissing(RewriteLines(lines, s), order, IsMissingOf(UpdatedKeys(lines, s.PM), s.PM), SettingLineOf(s))
  }

  /** `updateConfig`, with the settings map visited in `order` by the insert loop. */
  function PatchText(content: string, s: Settings, order: seq<Key>): Patched
  {
    var lines := Split(content, '\n');
    Patched(Join(PatchLines(lines, s, order), '\n'),
            RewriteChanges(lines, s) + AddedChanges(order, UpdatedKeys(lines, s.PM), s))
  }

  // ---------------------------------------------------------------------------------------------
  // The patcher

  /** The key loop for one trimmed line: the first relevant key whose pattern matches. Keys are
      visited in `SettingKeys` order; no line matches two keys, so any order finds the same one. */
  method MatchKey(trimmed: string, pm: Calculator.PMType) returns (key: Option<Key>)
    ensures key == FirstMatch(trimmed, pm, SettingKeys)
  {
    key := None;
    var keys := SettingKeys;
    while keys != []
      invariant FirstMatch(trimmed, pm, SettingKeys) == FirstMatch(trimmed, pm, keys)
    {
      var k := keys[0];
      keys := keys[1..];
      if !IsSettingRelevant(k, pm) {
        continue;
      }
      if MatchesSetting(trimmed, k) {
        key := Some(k);
        return;
      }
    }
  }

  /** The body of the rewrite loop for one line. */
  method RewriteLine(line: string, s: Settings) returns (newLine: string, key: Option<Key>, change: seq<string>)
    ensures newLine == RewrittenLine(line, s)
    ensures key == LineKey(line, s.PM)
    ensures change == LineChanges(line, s)
  {
    var trimmed := TrimSpace(line);
    if trimmed == "" || HasPrefix(trimmed, ";") {
      key := None;
    } else {
      key := MatchKey(trimmed, s.PM);
    }
    assert key == LineKey(line, s.PM);
    newLine, change := line, [];
    if key.Some? {
      var value := Value(s, key.value);
      newLine := SettingLine(key.value, value);
      if line != newLine {
        change := [ChangeEntry(key.value, ExtractValue(line), value)];
      }
      KeyedLine(line, s, key.value);
    } else {
      UnkeyedLine(line, s);
    }
  }

  /** What the rewrite pass does with a line that has a key. */
  lemma KeyedLine(line: string, s: Settings, k: Key)
    requires LineKey(line, s.PM) == Some(k)
    ensures RewrittenLine(line, s) == SettingLine(k, Value(s, k))
    ensures LineChanges(line, s) ==
      if SettingLine(k, Value(s, k)) != line then [ChangeEntry(k, ExtractValue(line), Value(s, k))] else []
  {
  }

  /** What the rewrite pass does with a line that has no key. */
  lemma UnkeyedLine(line: string, s: Settings)
    requires LineKey(line, s.PM) == None
    ensures RewrittenLine(line, s) == line && LineChanges(line, s) == []
  {
  }

  /** The rewrite loop: every line is replaced in place by what `RewrittenLine` says. */
  method RewriteAll(lines0: seq<string>, s: Settings) returns (lines: seq<string>, updated: set<Key>, changes: seq<string>)
    ensures lines == RewriteLines(lines0, s)
    ensures updated == UpdatedKeys(lines0, s.PM)
    ensures changes == RewriteChanges(lines0, s)
  {
    lines, updated, changes := lines0, {}, [];
    for i := 0 to |lines0|
      invariant |lines| == |lines0|
      invariant forall j :: 0 <= j < i ==> lines[j] == RewrittenLine(lines0[j], s)
      invariant forall j :: i <= j < |lines| ==> lines[j] == lines0[j]
      invariant updated == UpdatedKeys(lines0[..i], s.PM)
      invariant changes == RewriteChanges(lines0[..i], s)
    {
      Seqs.FlatMapStep(LineChangesOf(s), lines0, i);
      Seqs.CollectStep(LineKeyOf(s.PM), lines0, i);
      var newLine, key, change := RewriteLine(lines[i], s);
      lines := lines[i := newLine];
      changes := changes + change;
      updated := updated + KeySet(key);
    }
    forall j | 0 <= j < |lines0| ensures RewriteLines(lines0, s)[j] == lines[j] {
      Seqs.MapAt(RewrittenLineOf(s), lines0, j);
    }
    assert lines0[..|lines0|] == lines0;
  }

  /** The `[www]` search of the insert loop. */
  method FindInsertIndex(lines: seq<string>) returns (idx: nat)
    requires |lines| > 0
    ensures idx == InsertIndex(lines)
  {
    var i := 0;
    while true
      invariant 0 <= i < |lines|
      invariant Anchor(lines, 0) == Anchor(lines, i)
      decreases |lines| - i
    {
      if IsSection(lines[i]) || i == |lines| - 1 {
        idx := if i == |lines| - 1 then i else i + 1;
        return;
      }
      i := i + 1;
    }
  }

  /** The body of the insert loop for one key. */
  method InsertKey(lines: seq<string>, key: Key, updated: set<Key>, s: Settings)
    returns (newLines: seq<string>, entry: seq<string>)
    requires |lines| > 0
    ensures newLines == if IsMissing(key, updated, s.PM) then InsertAt(lines, InsertIndex(lines), SettingLine(key, Value(s, key))) else lines
    ensures entry == if IsMissing(key, updated, s.PM) then [AddedEntry(key, Value(s, key))] else []
  {
    newLines, entry := lines, [];
    if key !in updated && IsSettingRelevant(key, s.PM) {
      var idx := FindInsertIndex(lines);
      var value := Value(s, key);
      newLines := InsertAt(lines, idx, SettingLine(key, value));
      entry := [AddedEntry(key, value)];
    }
  }

  /** The insert loop: each relevant key the rewrite loop did not see gets a line and an entry. */
  method InsertAll(lines0: seq<string>, order: seq<Key>, updated: set<Key>, s: Settings)
    returns (lines: seq<string>, added: seq<string>)
    requires |lines0| > 0
    ensures lines == InsertMissing(lines0, order, IsMissingOf(updated, s.PM), SettingLineOf(s))
    ensures added == AddedChanges(order, updated, s)
  {
    lines, added := lines0, [];
    for i := 0 to |order|
      invariant lines == InsertMissing(lines0, order[..i], IsMissingOf(updated, s.PM), SettingLineOf(s))
      invariant added == AddedChanges(order[..i], updated, s)
    {
      InsertStep(lines0, order, i, IsMissingOf(updated, s.PM), SettingLineOf(s));
      AddedStep(order, i, updated, s);
      var entry;
      lines, entry := InsertKey(lines, order[i], updated, s);
      added := added + entry;
    }
    assert order[..|order|] == order;
  }

  /** `updateConfig`: split into lines, rewrite, insert what is missing, join. */
  method UpdateConfig(content: string, cfg: Calculator.Config, order: seq<Key>) returns (newContent: string, changes: seq<string>)
    ensures Patched(newContent, changes) == PatchText(content, SettingsOf(cfg), order)
  {
    var s := SettingsOf(cfg);
    var lines := Split(content, '\n');
    var rewritten, updated, rewriteChanges := RewriteAll(lines, s);
    var patched, added := InsertAll(rewritten, order, updated, s);
    newContent := Join(patched, '\n');
    changes := rewriteChanges + added;
  }

  // ---------------------------------------------------------------------------------------------
  // Apply

  /** The files the tool reads and writes, and the paths a write to fails. */
  class FileStore {
    var files: map<string, string>
    var readOnly: set<string>

    constructor (files: map<string, string>, readOnly: set<string>)
      ensures this.files == files && this.readOnly == readOnly
    {
      this.files := files;
      this.readOnly := readOnly;
    }

    /** `os.WriteFile`: replaces (or creates) the file unless the path is read-only. */
    method WriteFile(path: string, content: string) returns (ok: bool)
      modifies this
      ensures ok <==> path !in old(readOnly)
      ensures readOnly == old(readOnly)
      ensures files == if ok then old(files)[path := content] else old(files)
    {
      ok := path !in readOnly;
      if ok {
        files := files[path := content];
      }
    }
  }

  datatype ApplyError = ReadFailed | BackupFailed | WriteFailed | RestartFailed

  /** `Result`. */
  datatype ApplyResult = ApplyResult(
    ConfigPath: string,
    BackupPath: string,
    ServiceName: string,
    Restarted: bool,
    Changes: seq<string>)

  function BackupPath(configPath: string): string
  {
    configPath + ".backup"
  }

  /** `Apply`: read the pool file, write its exact copy to the backup path, write the patched
      text, then restart the service when asked. `serviceName` is what service detection found
      ("" for none) and `restartOk` whether the restart command succeeded. */
  method Apply(store: FileStore, cfg: Calculator.Config, configPath: string, restart: bool, order: seq<Key>,
               serviceName: string, restartOk: bool)
    returns (result: Option<ApplyResult>, err: Option<ApplyError>)
    modifies store
    ensures store.readOnly == old(store.readOnly)
    ensures configPath !in old(store.files) ==>
      result == None && err == Some(ReadFailed) && store.files == old(store.files)
    ensures configPath in old(store.files) ==>
      var content := old(store.files)[configPath];
      var backup := BackupPath(configPath);
      var patch := PatchText(content, SettingsOf(cfg), order);
      if backup in store.readOnly then
        result == None && err == Some(BackupFailed) && store.files == old(store.files)
      else if configPath in store.readOnly then
        result == None && err == Some(WriteFailed) && store.files == old(store.files)[backup := content]
      else (
        var service := if restart then serviceName else "";
        var restarted := service != "" && restartOk;
        && store.files == old(store.files)[backup := content][configPath := patch.text]
        && result == Some(ApplyResult(configPath, backup, service, restarted, patch.changes))
        && err == (if service != "" && !restartOk then Some(RestartFailed) else None))
  {
    if configPath !in store.files {
      return None, Some(ReadFailed);
    }
    var content := store.files[configPath];

    var backup := BackupPath(configPath);
    var ok := store.WriteFile(backup, content);
    if !ok {
      return None, Some(BackupFailed);
    }

    var newContent, changes := UpdateConfig(content, cfg, order);

    ok := store.WriteFile(configPath, newContent);
    if !ok {
      return None, Some(WriteFailed);
    }

    var service := "";
    var restarted := false;
    err := None;
    if restart {
      service := serviceName;
      if service != "" {
        if !restartOk {
          return Some(ApplyResult(configPath, backup, service, false, changes)), Some(RestartFailed);
        }
        restarted := true;
      }
    }
    result := Some(ApplyResult(configPath, backup, service, restarted, changes));
  }

  // ---------------------------------------------------------------------------------------------
  // ValidateConfigPath

  /** `filepath.Base` without its special cases: the text after the last `/`, that is the
      longest suffix without a slash. */
  function Base(path: string): (b: string)
    ensures HasSuffix(path, b) && '/' !in b
    ensures b == path || path[|path| - |b| - 1] == '/'
    decreases |path|
  {
    if |path| == 0 || path[|path| - 1] == '/' then ""
    else
      var p := path[..|path| - 1];
      var b := Base(p);
      assert path[|path| - |b| - 1..] == p[|p| - |b|..] + [path[|path| - 1]];
      assert b == p || path[|path| - |b| - 2] == p[|p| - |b| - 1];
      b + [path[|path| - 1]]
  }

  /** `filepath.Ext`: the final element from its last dot on, or "" when it has no dot. */
  function Ext(path: string): (e: string)
    decreases |path|
  {
    if |path| == 0 || path[|path| - 1] == '/' then ""
    else if path[|path| - 1] == '.' then "."
    else
      var e := Ext(path[..|path| - 1]);
      if e == [] then "" else e + [path[|path| - 1]]
  }

  datatype PathError = NotFound | IsDirectory | NotConf

  /** `ValidateConfigPath`: the path must exist, must not be a directory, and must end in
      `.conf` or have no extension. Whether it exists and is a directory come from `os.Stat`. */
  function ValidateConfigPath(path: string, exists_: bool, isDir: bool): Option<PathError>
  {
    if !exists_ then Some(NotFound)
    else if isDir then Some(IsDirectory)
    else
      var ext := Ext(path);
      if ext != ".conf" && ext != "" then Some(NotConf) else None
  }
}

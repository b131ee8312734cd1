/** What the pool-file patcher of internal/apply/apply.go guarantees: which lines it rewrites and
    logs, where and how often it inserts, that iteration order only permutes the inserted block,
    that patching twice changes nothing, and the extension rule of `ValidateConfigPath`. */
module ApplyProperties {
  import opened Wrappers
  import opened Text
  import Seqs
  import Calculator
  import opened Apply

  // ---------------------------------------------------------------------------------------------
  // Keys

  /** `isSettingRelevant`'s table: three keys always, the idle timeout for dynamic and ondemand,
      the three spare/start keys for dynamic only. */
  lemma RelevantKeys(pm: Calculator.PMType)
    ensures IsSettingRelevant(PMKey, pm) && IsSettingRelevant(MaxChildrenKey, pm) && IsSettingRelevant(MaxRequestsKey, pm)
    ensures IsSettingRelevant(IdleTimeoutKey, pm) <==> pm == Calculator.Dynamic || pm == Calculator.OnDemand
    ensures IsSettingRelevant(StartServersKey, pm) <==> pm == Calculator.Dynamic
    ensures IsSettingRelevant(MinSpareServersKey, pm) <==> pm == Calculator.Dynamic
    ensures IsSettingRelevant(MaxSpareServersKey, pm) <==> pm == Calculator.Dynamic
  {
  }

  lemma AllKeysListed(k: Key)
    ensures k in SettingKeys
  {
  }

  /** Every key name reads `pm` and then, unless it is `pm` itself, a dot. */
  lemma NameShape(k: Key)
    ensures |k.Name()| >= 2 && k.Name()[0] == 'p' && k.Name()[1] == 'm'
    ensures k != PMKey ==> |k.Name()| > 2 && k.Name()[2] == '.'
  {
  }

  /** The only key name that begins another one is `pm`. */
  lemma NamePrefix(k1: Key, k2: Key)
    requires k1 != k2 && |k1.Name()| <= |k2.Name()| && k2.Name()[..|k1.Name()|] == k1.Name()
    ensures k1 == PMKey
  {
    if k1 != PMKey {
      NameShape(k1);
      NameSignature(k1);
      NameSignature(k2);
    }
  }

  /** The characters at positions 3, 4 and 7 tell the dotted key names apart. */
  lemma NameSignature(k: Key)
    ensures k == PMKey ==> |k.Name()| == 2
    ensures k != PMKey ==> |k.Name()| >= 15
    ensures k.MaxChildrenKey? ==> k.Name()[3] == 'm' && k.Name()[4] == 'a' && k.Name()[7] == 'c'
    ensures k.MaxRequestsKey? ==> k.Name()[3] == 'm' && k.Name()[4] == 'a' && k.Name()[7] == 'r'
    ensures k.MaxSpareServersKey? ==> k.Name()[3] == 'm' && k.Name()[4] == 'a' && k.Name()[7] == 's'
    ensures k.MinSpareServersKey? ==> k.Name()[3] == 'm' && k.Name()[4] == 'i'
    ensures k.StartServersKey? ==> k.Name()[3] == 's'
    ensures k.IdleTimeoutKey? ==> k.Name()[3] == 'p'
  {
  }

  lemma NameInjective(k1: Key, k2: Key)
    requires k1.Name() == k2.Name()
    ensures k1 == k2
  {
  }

  // ---------------------------------------------------------------------------------------------
  // Matching

  lemma SkipRegexSpaceNoop(s: string)
    requires |s| > 0 && !IsRegexSpace(s[0])
    ensures SkipRegexSpace(s) == s
  {
  }

  /** No trimmed line matches the patterns of two different keys, so the order in which the key
      loop tries them does not matter. */
  lemma MatchUnique(trimmed: string, k1: Key, k2: Key)
    requires MatchesSetting(trimmed, k1) && MatchesSetting(trimmed, k2)
    ensures k1 == k2
  {
    if |k1.Name()| <= |k2.Name()| {
      MatchUniqueOrdered(trimmed, k1, k2);
    } else {
      MatchUniqueOrdered(trimmed, k2, k1);
    }
  }

  lemma MatchUniqueOrdered(trimmed: string, short: Key, long: Key)
    requires MatchesSetting(trimmed, short) && MatchesSetting(trimmed, long)
    requires |short.Name()| <= |long.Name()|
    ensures short == long
  {
    if short != long {
      SharedPrefix(PatternStart(trimmed), short.Name(), long.Name());
      NamePrefix(short, long);
      PMExcludes(trimmed, long);
    }
  }

  lemma SharedPrefix(t: string, a: string, b: string)
    requires HasPrefix(t, a) && HasPrefix(t, b) && |a| <= |b|
    ensures b[..|a|] == a
  {
    assert b[..|a|] == t[..|b|][..|a|];
  }

  /** A line that a dotted key's pattern matches is not a `pm` line. */
  lemma PMExcludes(trimmed: string, k: Key)
    requires k != PMKey && MatchesSetting(trimmed, k)
    ensures !MatchesSetting(trimmed, PMKey)
  {
    ShortNameNotMatched(PatternStart(trimmed), k);
  }

  /** Text that begins with a longer key name does not continue `pm` with `\s*=`. */
  lemma ShortNameNotMatched(t: string, k: Key)
    requires k != PMKey && HasPrefix(t, k.Name())
    ensures !FollowedByEquals(t[2..])
  {
    NameShape(k);
    assert t[2] == k.Name()[2] == '.';
    SkipRegexSpaceNoop(t[2..]);
  }

  /** A line gets key `k` exactly when its trimmed text is not blank or a comment, `k` is
      relevant, and `k`'s pattern matches. */
  lemma LineKeyIff(line: string, pm: Calculator.PMType, k: Key)
    ensures LineKey(line, pm) == Some(k) <==>
      var trimmed := TrimSpace(line);
      !IsSkipped(trimmed) && IsSettingRelevant(k, pm) && MatchesSetting(trimmed, k)
  {
    var trimmed := TrimSpace(line);
    if !IsSkipped(trimmed) && IsSettingRelevant(k, pm) && MatchesSetting(trimmed, k) {
      AllKeysListed(k);
      var r := FirstMatch(trimmed, pm, SettingKeys);
      MatchUnique(trimmed, r.value, k);
    }
  }

  /** A line no key claims. */
  lemma LineKeyNone(line: string, pm: Calculator.PMType)
    ensures LineKey(line, pm) == None <==>
      var trimmed := TrimSpace(line);
      IsSkipped(trimmed) || forall k: Key :: !(IsSettingRelevant(k, pm) && MatchesSetting(trimmed, k))
  {
    var trimmed := TrimSpace(line);
    if !IsSkipped(trimmed) && LineKey(line, pm) == None {
      forall k: Key ensures !(IsSettingRelevant(k, pm) && MatchesSetting(trimmed, k)) {
        AllKeysListed(k);
      }
    }
  }

  /** A line the patcher writes is claimed by its own key again (when that key is relevant). */
  lemma SettingLineKey(k: Key, value: string, pm: Calculator.PMType)
    requires IsSettingRelevant(k, pm)
    ensures LineKey(SettingLine(k, value), pm) == Some(k)
  {
    var n := k.Name();
    NameShape(k);
    TrimKeyLine(n, value);
    var t := TrimSpace(SettingLine(k, value));
    KeyLineMatches(t, n);
    assert MatchesSetting(t, k);
    LineKeyIff(SettingLine(k, value), pm, k);
  }

  /** Two lines the patcher writes for different keys differ, whatever their values. */
  lemma SettingLineInjective(k1: Key, v1: string, k2: Key, v2: string)
    requires SettingLine(k1, v1) == SettingLine(k2, v2)
    ensures k1 == k2
  {
    if k1 != k2 {
      SettingLinePrefix(k1, v1);
      SettingLinePrefix(k2, v2);
      if |k1.Name()| <= |k2.Name()| {
        SharedPrefix(SettingLine(k1, v1), k1.Name(), k2.Name());
        NamePrefix(k1, k2);
        LineThirdChar(k1, v1);
        LineThirdChar(k2, v2);
      } else {
        SharedPrefix(SettingLine(k1, v1), k2.Name(), k1.Name());
        NamePrefix(k2, k1);
        LineThirdChar(k1, v1);
        LineThirdChar(k2, v2);
      }
    }
  }

  lemma SettingLinePrefix(k: Key, v: string)
    ensures HasPrefix(SettingLine(k, v), k.Name())
  {
  }

  /** The third character of a written line is the space after `pm` or the dot of a longer key. */
  lemma LineThirdChar(k: Key, v: string)
    ensures |SettingLine(k, v)| > 2
    ensures SettingLine(k, v)[2] == if k == PMKey then ' ' else '.'
  {
    NameShape(k);
  }

  /** Trimming `name = value` keeps its `name =` start when the name starts with a visible
      character. */
  lemma TrimKeyLine(name: string, value: string)
    requires |name| > 0 && !IsSpace(name[0])
    ensures var t := TrimSpace(name + " = " + value);
      |t| > |name| + 1 && t[..|name|] == name && t[|name|] == ' ' && t[|name| + 1] == '='
  {
    var line := name + " = " + value;
    assert line[0] == name[0] && line[..|name|] == name && line[|name|] == ' ' && line[|name| + 1] == '=';
    var left := TrimLeft(line);
    assert left == line;
    var t := TrimRight(left);
    assert |t| > |name| + 1;
    assert t == line[..|t|];
  }

  /** Text starting `name =`, with a name that starts with neither `;` nor white space, is no
      comment, and the pattern for `name` matches it. */
  lemma KeyLineMatches(t: string, name: string)
    requires |name| > 0 && !IsRegexSpace(name[0]) && name[0] != ';'
    requires |t| > |name| + 1 && t[..|name|] == name && t[|name|] == ' ' && t[|name| + 1] == '='
    ensures !IsSkipped(t) && PatternStart(t) == t && HasPrefix(t, name) && FollowedByEquals(t[|name|..])
  {
    assert t[0] == name[0];
    SkipRegexSpaceNoop(t);
    assert t[|name|..][1..] == t[|name| + 1..];
    SkipRegexSpaceNoop(t[|name| + 1..]);
  }

  // ---------------------------------------------------------------------------------------------
  // The rewrite pass

  /** A line is rewritten exactly when its trimmed text is not blank or a comment and a relevant
      key's pattern matches it; it then reads `key = value`. Every other line is kept. */
  lemma RewriteRule(line: string, s: Settings, k: Key)
    ensures var trimmed := TrimSpace(line);
      !IsSkipped(trimmed) && IsSettingRelevant(k, s.PM) && MatchesSetting(trimmed, k) ==>
        RewrittenLine(line, s) == SettingLine(k, Value(s, k))
    ensures var trimmed := TrimSpace(line);
      (IsSkipped(trimmed) || forall k': Key :: !(IsSettingRelevant(k', s.PM) && MatchesSetting(trimmed, k'))) ==>
        RewrittenLine(line, s) == line
  {
    LineKeyIff(line, s.PM, k);
    LineKeyNone(line, s.PM);
  }

  /** A rewrite is logged exactly when it changes the text. */
  lemma ChangeLogged(line: string, s: Settings)
    ensures LineChanges(line, s) != [] <==> LineKey(line, s.PM).Some? && RewrittenLine(line, s) != line
  {
  }

  /** The old value logged for a rewritten line is the trimmed text after its first `=`: the
      `(commented out)` and `(unknown)` markers of `extractValue` are never reached from the
      rewrite loop. */
  lemma LoggedValue(line: string, pm: Calculator.PMType, k: Key)
    requires LineKey(line, pm) == Some(k)
    ensures '=' in line && ExtractValue(line) == TrimSpace(line[FirstIndex(line, '=') + 1..])
  {
    LineKeyIff(line, pm, k);
    var t := TrimSpace(line);
    MatchedHasEquals(t, k);
    TrimmedIn(line, '=');
    ValueAfterEquals(line);
  }

  lemma ValueAfterEquals(line: string)
    requires !IsSkipped(TrimSpace(line)) && '=' in line
    ensures ExtractValue(line) == TrimSpace(line[FirstIndex(line, '=') + 1..])
  {
  }

  /** Text a key's pattern matches holds an `=`. */
  lemma MatchedHasEquals(t: string, k: Key)
    requires MatchesSetting(t, k)
    ensures '=' in t
  {
    var name := k.Name();
    assert HasPrefix(PatternStart(t), name) && FollowedByEquals(PatternStart(t)[|name|..]);
    PatternHasEquals(t, name);
  }

  lemma PatternHasEquals(t: string, name: string)
    requires HasPrefix(PatternStart(t), name) && FollowedByEquals(PatternStart(t)[|name|..])
    ensures '=' in t
  {
    var u := PatternStart(t);
    PatternStartSuffix(t);
    var w := u[|name|..];
    var rest := SkipRegexSpace(w);
    assert rest[0] == w[|w| - |rest|] == u[|u| - |rest|] == t[|t| - |rest|];
  }

  /** What the pattern's start leaves of a line is a suffix of it. */
  lemma PatternStartSuffix(t: string)
    ensures |PatternStart(t)| <= |t| && PatternStart(t) == t[|t| - |PatternStart(t)|..]
  {
    if HasPrefix(t, ";") {
      var r := SkipRegexSpace(t[1..]);
      assert t[1..][|t| - 1 - |r|..] == t[|t| - |r|..];
    }
  }

  lemma TrimmedIn(line: string, c: char)
    requires c in TrimSpace(line)
    ensures c in line
  {
    var start := TrimSpaceSlice(line);
    var t := TrimSpace(line);
    var i :| 0 <= i < |t| && t[i] == c;
    assert line[start + i] == c;
  }

  lemma InSuffix(s: string, r: string, c: char)
    requires |r| <= |s| && r == s[|s| - |r|..] && c in r
    ensures c in s
  {
    var i :| 0 <= i < |r| && r[i] == c;
    assert s[|s| - |r| + i] == c;
  }

  /** A key is marked as updated exactly when some line is claimed by it. */
  lemma UpdatedKeysIff(lines: seq<string>, pm: Calculator.PMType, k: Key)
    ensures k in UpdatedKeys(lines, pm) <==> exists j :: 0 <= j < |lines| && LineKey(lines[j], pm) == Some(k)
  {
    Seqs.CollectIff(LineKeyOf(pm), lines, k);
  }

  // ---------------------------------------------------------------------------------------------
  // Where inserted lines go

  /** After the first line containing `[www]` when that is not the last line. */
  lemma InsertAfterSection(lines: seq<string>, j: nat)
    requires j < |lines| - 1 && IsSection(lines[j])
    requires forall m :: 0 <= m < j ==> !IsSection(lines[m])
    ensures InsertIndex(lines) == j + 1
  {
  }

  /** Before the last line when no earlier line contains `[www]`, even when the last one does. */
  lemma InsertBeforeLast(lines: seq<string>)
    requires |lines| > 0
    requires forall m :: 0 <= m < |lines| - 1 ==> !IsSection(lines[m])
    ensures InsertIndex(lines) == |lines| - 1
  {
  }

  /** Lines inserted at the insertion point of `lines` move the next insertion point at most to
      the end of the inserted block. */
  lemma InsertIndexRange(lines: seq<string>, cur: seq<string>, m: nat)
    requires |lines| > 0 && |cur| == |lines| + m
    requires var p := InsertIndex(lines); cur[..p] == lines[..p] && cur[p + m..] == lines[p..]
    ensures InsertIndex(lines) <= InsertIndex(cur) <= InsertIndex(lines) + m
  {
    var p := InsertIndex(lines);
    var a := Anchor(lines, 0);
    var r := Anchor(cur, 0);
    assert forall j :: 0 <= j < p ==> cur[j] == lines[j] by {
      forall j | 0 <= j < p ensures cur[j] == lines[j] {
        assert cur[..p][j] == lines[..p][j];
      }
    }
    if a < |lines| - 1 {
      assert r >= a;
      assert r == a;
    } else {
      assert r >= a;
    }
  }

  /** `r` is `lines` with a block of `m` lines, holding `bag`, put in at index `p`. */
  predicate HasBlock(r: seq<string>, lines: seq<string>, p: nat, m: nat, bag: multiset<string>)
  {
    && p <= |lines|
    && |r| == |lines| + m
    && r[..p] == lines[..p]
    && r[p + m..] == lines[p..]
    && multiset(r[p..p + m]) == bag
  }

  /** Putting `x` at a position `q` inside the block keeps what lies around the block and grows
      the block by `x`. */
  lemma SpliceBlock(prev: seq<string>, lines: seq<string>, p: nat, m: nat, bag: multiset<string>, q: nat, x: string)
    requires HasBlock(prev, lines, p, m, bag) && p <= q <= p + m
    ensures HasBlock(prev[..q] + [x] + prev[q..], lines, p, m + 1, bag + multiset{x})
  {
    var r := prev[..q] + [x] + prev[q..];
    assert r[..p] == prev[..p];
    assert r[p + m + 1..] == prev[p + m..];
    assert r[p..p + m + 1] == prev[p..q] + [x] + prev[q..p + m];
    assert prev[p..p + m] == prev[p..q] + prev[q..p + m];
  }

  /** The insert loop puts one line per missing key into one block at the first insertion point,
      and leaves the lines around the block as they were. */
  lemma {:induction false} InsertShape(lines: seq<string>, keys: seq<Key>, missing: Key -> bool, lineOf: Key -> string)
    requires |lines| > 0
    ensures HasBlock(InsertMissing(lines, keys, missing, lineOf), lines, InsertIndex(lines),
                     |Seqs.Filter(missing, keys)|, multiset(Seqs.Map(lineOf, Seqs.Filter(missing, keys))))
    decreases |keys|
  {
    if keys != [] {
      var i := |keys| - 1;
      var front, k := keys[..i], keys[i];
      var prev, before := InsertMissing(lines, front, missing, lineOf), Seqs.Filter(missing, front);
      assert keys[..i + 1] == keys;
      InsertStep(lines, keys, i, missing, lineOf);
      Seqs.FilterStep(missing, keys, i);
      InsertShape(lines, front, missing, lineOf);
      if missing(k) {
        GrowBlock(lines, prev, |before|, multiset(Seqs.Map(lineOf, before)), lineOf(k));
        MapSnoc(lineOf, before, k);
      } else {
        assert Seqs.Filter(missing, keys) == before;
        assert InsertMissing(lines, keys, missing, lineOf) == prev;
      }
    } else {
      assert InsertIndex(lines) <= |lines|;
    }
  }

  lemma MapSnoc(lineOf: Key -> string, before: seq<Key>, k: Key)
    ensures multiset(Seqs.Map(lineOf, before + [k])) == multiset(Seqs.Map(lineOf, before)) + multiset{lineOf(k)}
  {
    assert Seqs.Map(lineOf, [k]) == [lineOf(k)];
    Seqs.MapAppend(lineOf, before, [k]);
  }

  /** One more line at the insertion point grows the block by that line. */
  lemma GrowBlock(lines: seq<string>, prev: seq<string>, m: nat, bag: multiset<string>, x: string)
    requires |lines| > 0
    requires HasBlock(prev, lines, InsertIndex(lines), m, bag)
    ensures HasBlock(InsertAt(prev, InsertIndex(prev), x), lines, InsertIndex(lines), m + 1, bag + multiset{x})
  {
    InsertIndexRange(lines, prev, m);
    SpliceBlock(prev, lines, InsertIndex(lines), m, bag, InsertIndex(prev), x);
  }

  // ---------------------------------------------------------------------------------------------
  // How often keys are inserted

  /** The insert loop visits every key of the settings map once, in some order. */
  predicate IsKeyOrder(order: seq<Key>)
  {
    multiset(order) == multiset(SettingKeys)
  }

  lemma SettingKeysOnce(k: Key)
    ensures multiset(SettingKeys)[k] == 1
  {
  }

  /** Each relevant key that no line claims is inserted exactly once, whatever the order. */
  lemma MissingOnce(order: seq<Key>, updated: set<Key>, pm: Calculator.PMType, k: Key)
    requires IsKeyOrder(order)
    ensures multiset(MissingKeys(order, updated, pm))[k] == if IsMissing(k, updated, pm) then 1 else 0
  {
    Seqs.FilterCount(IsMissingOf(updated, pm), order, k);
    SettingKeysOnce(k);
  }

  /** Two iteration orders insert the same keys. */
  lemma MissingPermutation(o1: seq<Key>, o2: seq<Key>, updated: set<Key>, pm: Calculator.PMType)
    requires IsKeyOrder(o1) && IsKeyOrder(o2)
    ensures multiset(MissingKeys(o1, updated, pm)) == multiset(MissingKeys(o2, updated, pm))
  {
    forall k: Key ensures multiset(MissingKeys(o1, updated, pm))[k] == multiset(MissingKeys(o2, updated, pm))[k] {
      MissingOnce(o1, updated, pm, k);
      MissingOnce(o2, updated, pm, k);
    }
  }

  /** Two "(added)" entries for different keys differ, whatever their values. */
  lemma AddedEntryInjective(k1: Key, v1: string, k2: Key, v2: string)
    requires AddedEntry(k1, v1) == AddedEntry(k2, v2)
    ensures k1 == k2
  {
    if k1 != k2 {
      var e := AddedEntry(k1, v1);
      NameShape(k1);
      NameShape(k2);
      assert HasPrefix(e, k1.Name()) && HasPrefix(e, k2.Name());
      assert e[2] == (if k1 == PMKey then ':' else '.');
      assert e[2] == (if k2 == PMKey then ':' else '.');
      if |k1.Name()| <= |k2.Name()| {
        SharedPrefix(e, k1.Name(), k2.Name());
        NamePrefix(k1, k2);
      } else {
        SharedPrefix(e, k2.Name(), k1.Name());
        NamePrefix(k2, k1);
      }
    }
  }

  lemma AddedEntryOfInjective(s: Settings)
    ensures forall a: Key, b: Key :: AddedEntryOf(s)(a) == AddedEntryOf(s)(b) ==> a == b
  {
    forall a: Key, b: Key | AddedEntryOf(s)(a) == AddedEntryOf(s)(b) ensures a == b {
      AddedEntryInjective(a, Value(s, a), b, Value(s, b));
    }
  }

  /** The change log gets one "(added)" entry per inserted key: exactly one for each relevant key
      the file lacked, none for the others. */
  lemma AddedOnce(order: seq<Key>, updated: set<Key>, s: Settings, k: Key)
    requires IsKeyOrder(order)
    ensures |AddedChanges(order, updated, s)| == |MissingKeys(order, updated, s.PM)|
    ensures multiset(AddedChanges(order, updated, s))[AddedEntry(k, Value(s, k))]
      == if IsMissing(k, updated, s.PM) then 1 else 0
  {
    AddedEntryOfInjective(s);
    Seqs.MapCountInjective(AddedEntryOf(s), MissingKeys(order, updated, s.PM), k);
    MissingOnce(order, updated, s.PM, k);
  }

  // ---------------------------------------------------------------------------------------------
  // The whole patch

  /** The patched lines are the rewritten lines with one block of `key = value` lines, one per
      missing key, at the insertion point. */
  lemma PatchShape(lines: seq<string>, s: Settings, order: seq<Key>)
    requires |lines| > 0 && IsKeyOrder(order)
    ensures var updated := UpdatedKeys(lines, s.PM);
      var missing := MissingKeys(order, updated, s.PM);
      && HasBlock(PatchLines(lines, s, order), RewriteLines(lines, s), InsertIndex(RewriteLines(lines, s)),
                  |missing|, multiset(KeyLines(missing, s)))
      && forall k: Key :: multiset(missing)[k] == if IsMissing(k, updated, s.PM) then 1 else 0
  {
    var updated := UpdatedKeys(lines, s.PM);
    InsertShape(RewriteLines(lines, s), order, IsMissingOf(updated, s.PM), SettingLineOf(s));
    forall k: Key ensures multiset(MissingKeys(order, updated, s.PM))[k] == if IsMissing(k, updated, s.PM) then 1 else 0 {
      MissingOnce(order, updated, s.PM, k);
    }
  }

  /** Two iteration orders of the settings map give the same lines around the inserted block, a
      block of the same size at the same place, and the same block contents up to order. */
  lemma BlockOrder(lines: seq<string>, s: Settings, o1: seq<Key>, o2: seq<Key>)
    requires |lines| > 0 && IsKeyOrder(o1) && IsKeyOrder(o2)
    ensures var rewritten := RewriteLines(lines, s);
      var missing := MissingKeys(o1, UpdatedKeys(lines, s.PM), s.PM);
      var p, m, bag := InsertIndex(rewritten), |missing|, multiset(KeyLines(missing, s));
      && HasBlock(PatchLines(lines, s, o1), rewritten, p, m, bag)
      && HasBlock(PatchLines(lines, s, o2), rewritten, p, m, bag)
  {
    var updated := UpdatedKeys(lines, s.PM);
    var m1 := MissingKeys(o1, updated, s.PM);
    var m2 := MissingKeys(o2, updated, s.PM);
    var missing := IsMissingOf(updated, s.PM);
    InsertShape(RewriteLines(lines, s), o1, missing, SettingLineOf(s));
    InsertShape(RewriteLines(lines, s), o2, missing, SettingLineOf(s));
    MissingPermutation(o1, o2, updated, s.PM);
    assert |m1| == |multiset(m1)| == |multiset(m2)| == |m2|;
    Seqs.MapPermutation(SettingLineOf(s), m1, m2);
  }

  /** Two iteration orders log the same entries up to the order of the added ones. */
  lemma AddedOrder(lines: seq<string>, s: Settings, o1: seq<Key>, o2: seq<Key>)
    requires IsKeyOrder(o1) && IsKeyOrder(o2)
    ensures var updated := UpdatedKeys(lines, s.PM);
      multiset(AddedChanges(o1, updated, s)) == multiset(AddedChanges(o2, updated, s))
  {
    var updated := UpdatedKeys(lines, s.PM);
    MissingPermutation(o1, o2, updated, s.PM);
    Seqs.MapPermutation(AddedEntryOf(s), MissingKeys(o1, updated, s.PM), MissingKeys(o2, updated, s.PM));
  }

  /** Whatever order the settings map is visited in, the patched text is the same rewritten lines
      with the same block of inserted lines at the same place, up to the order inside the block,
      and the change log is the same rewrite entries followed by the same added entries, up to
      their order. */
  lemma OrderIndependence(content: string, s: Settings, o1: seq<Key>, o2: seq<Key>)
    requires IsKeyOrder(o1) && IsKeyOrder(o2)
    ensures var lines := Split(content, '\n');
      var rewritten := RewriteLines(lines, s);
      var missing := MissingKeys(o1, UpdatedKeys(lines, s.PM), s.PM);
      var p, m, bag := InsertIndex(rewritten), |missing|, multiset(KeyLines(missing, s));
      && PatchText(content, s, o1).text == Join(PatchLines(lines, s, o1), '\n')
      && PatchText(content, s, o2).text == Join(PatchLines(lines, s, o2), '\n')
      && HasBlock(PatchLines(lines, s, o1), rewritten, p, m, bag)
      && HasBlock(PatchLines(lines, s, o2), rewritten, p, m, bag)
    ensures var lines := Split(content, '\n');
      var updated := UpdatedKeys(lines, s.PM);
      var rc := RewriteChanges(lines, s);
      && PatchText(content, s, o1).changes == rc + AddedChanges(o1, updated, s)
      && PatchText(content, s, o2).changes == rc + AddedChanges(o2, updated, s)
      && multiset(AddedChanges(o1, updated, s)) == multiset(AddedChanges(o2, updated, s))
  {
    var lines := Split(content, '\n');
    BlockOrder(lines, s, o1, o2);
    AddedOrder(lines, s, o1, o2);
  }

  /** No `key = value` line the patcher writes holds a line break, as long as the idle timeout
      does not. */
  lemma SettingLineNoBreak(k: Key, s: Settings)
    requires '\n' !in s.ProcessIdleTimeout
    ensures '\n' !in SettingLine(k, Value(s, k))
  {
    assert '\n' !in k.Name();
  }

  /** A `key = value` line for a relevant key is claimed by that key and left as it is. */
  lemma SettingLineStable(k: Key, s: Settings)
    requires IsSettingRelevant(k, s.PM)
    ensures var x := SettingLine(k, Value(s, k));
      LineKey(x, s.PM) == Some(k) && RewrittenLine(x, s) == x && LineChanges(x, s) == []
  {
    SettingLineKey(k, Value(s, k), s.PM);
  }

  /** A line the rewrite loop has been over is left as it is by a second pass. */
  lemma RewrittenStable(line: string, s: Settings)
    requires '\n' !in line && '\n' !in s.ProcessIdleTimeout
    ensures var x := RewrittenLine(line, s);
      '\n' !in x && RewrittenLine(x, s) == x && LineChanges(x, s) == []
  {
    match LineKey(line, s.PM)
    case Some(k) =>
      LineKeyIff(line, s.PM, k);
      SettingLineStable(k, s);
      SettingLineNoBreak(k, s);
    case None =>
  }

  /** Each line of `r` is a line of `lines` around the block or a line of the block. */
  lemma BlockIndex(r: seq<string>, lines: seq<string>, p: nat, m: nat, bag: multiset<string>, i: nat)
    requires HasBlock(r, lines, p, m, bag) && i < |r|
    ensures i < p ==> r[i] == lines[i]
    ensures p + m <= i ==> r[i] == lines[i - m]
    ensures p <= i < p + m ==> r[i] in bag
  {
    if i < p {
      assert r[i] == r[..p][i];
    } else if p + m <= i {
      assert r[i] == r[p + m..][i - p - m];
    } else {
      assert r[i] == r[p..p + m][i - p];
    }
  }

  /** Every line of `lines` and of the block is somewhere in `r`. */
  lemma BlockKeeps(r: seq<string>, lines: seq<string>, p: nat, m: nat, bag: multiset<string>, x: string)
    requires HasBlock(r, lines, p, m, bag) && (x in lines || x in bag)
    ensures x in r
  {
    if x in bag {
      var i :| 0 <= i < m && r[p..p + m][i] == x;
      assert r[p + i] == x;
    } else {
      var j :| 0 <= j < |lines| && lines[j] == x;
      if j < p {
        assert r[j] == r[..p][j];
      } else {
        assert r[j + m] == r[p + m..][j - p];
      }
    }
  }

  /** A line of the inserted block is the line of one missing key. */
  lemma KeyLineOf(missing: seq<Key>, s: Settings, x: string)
    requires x in multiset(KeyLines(missing, s))
    ensures exists j :: 0 <= j < |missing| && x == SettingLine(missing[j], Value(s, missing[j]))
  {
    var j :| 0 <= j < |KeyLines(missing, s)| && KeyLines(missing, s)[j] == x;
    Seqs.MapAt(SettingLineOf(s), missing, j);
  }

  /** Every patched line has no line break and is left as it is by a second pass. */
  lemma PatchedLineStable(lines: seq<string>, s: Settings, order: seq<Key>, i: nat)
    requires |lines| > 0 && forall j :: 0 <= j < |lines| ==> '\n' !in lines[j]
    requires '\n' !in s.ProcessIdleTimeout && i < |PatchLines(lines, s, order)|
    ensures var x := PatchLines(lines, s, order)[i];
      '\n' !in x && RewrittenLine(x, s) == x && LineChanges(x, s) == []
  {
    var updated := UpdatedKeys(lines, s.PM);
    var rewritten := RewriteLines(lines, s);
    var missing := MissingKeys(order, updated, s.PM);
    var p, m := InsertIndex(rewritten), |missing|;
    var r := PatchLines(lines, s, order);
    InsertShape(rewritten, order, IsMissingOf(updated, s.PM), SettingLineOf(s));
    BlockIndex(r, rewritten, p, m, multiset(KeyLines(missing, s)), i);
    if i < p || p + m <= i {
      var j := if i < p then i else i - m;
      Seqs.MapAt(RewrittenLineOf(s), lines, j);
      RewrittenStable(lines[j], s);
    } else {
      KeyLineOf(missing, s, r[i]);
      var j :| 0 <= j < |missing| && r[i] == SettingLine(missing[j], Value(s, missing[j]));
      Seqs.FilterHolds(IsMissingOf(updated, s.PM), order);
      SettingLineStable(missing[j], s);
      SettingLineNoBreak(missing[j], s);
    }
  }

  /** A key some line claims has its `key = value` line among the rewritten lines. */
  lemma ClaimedKeyLine(lines: seq<string>, s: Settings, k: Key)
    requires k in UpdatedKeys(lines, s.PM)
    ensures SettingLine(k, Value(s, k)) in RewriteLines(lines, s)
  {
    UpdatedKeysIff(lines, s.PM, k);
    var j :| 0 <= j < |lines| && LineKey(lines[j], s.PM) == Some(k);
    Seqs.MapAt(RewrittenLineOf(s), lines, j);
  }

  /** A missing key has its `key = value` line in the inserted block. */
  lemma MissingKeyLine(order: seq<Key>, updated: set<Key>, s: Settings, k: Key)
    requires IsKeyOrder(order) && IsMissing(k, updated, s.PM)
    ensures SettingLine(k, Value(s, k)) in multiset(KeyLines(MissingKeys(order, updated, s.PM), s))
  {
    var missing := MissingKeys(order, updated, s.PM);
    MissingOnce(order, updated, s.PM, k);
    var j :| 0 <= j < |missing| && missing[j] == k;
    Seqs.MapAt(SettingLineOf(s), missing, j);
    assert KeyLines(missing, s)[j] == SettingLine(k, Value(s, k));
  }

  /** After one patch every relevant key is claimed by some patched line. */
  lemma PatchedKeysUpdated(lines: seq<string>, s: Settings, order: seq<Key>, k: Key)
    requires |lines| > 0 && IsKeyOrder(order) && IsSettingRelevant(k, s.PM)
    ensures k in UpdatedKeys(PatchLines(lines, s, order), s.PM)
  {
    KeyLineInPatch(lines, s, order, k);
    PresentLineClaims(PatchLines(lines, s, order), s, k);
  }

  /** After one patch every relevant key's `key = value` line is present. */
  lemma KeyLineInPatch(lines: seq<string>, s: Settings, order: seq<Key>, k: Key)
    requires |lines| > 0 && IsKeyOrder(order) && IsSettingRelevant(k, s.PM)
    ensures SettingLine(k, Value(s, k)) in PatchLines(lines, s, order)
  {
    var updated := UpdatedKeys(lines, s.PM);
    var rewritten := RewriteLines(lines, s);
    var missing := MissingKeys(order, updated, s.PM);
    PatchShape(lines, s, order);
    if k in updated {
      ClaimedKeyLine(lines, s, k);
    } else {
      MissingKeyLine(order, updated, s, k);
    }
    BlockKeeps(PatchLines(lines, s, order), rewritten, InsertIndex(rewritten), |missing|,
               multiset(KeyLines(missing, s)), SettingLine(k, Value(s, k)));
  }

  /** A relevant key whose line is present is claimed by that line. */
  lemma PresentLineClaims(r: seq<string>, s: Settings, k: Key)
    requires IsSettingRelevant(k, s.PM) && SettingLine(k, Value(s, k)) in r
    ensures k in UpdatedKeys(r, s.PM)
  {
    var idx :| 0 <= idx < |r| && r[idx] == SettingLine(k, Value(s, k));
    SettingLineStable(k, s);
    UpdatedKeysIff(r, s.PM, k);
  }

  /** An insert loop with nothing to insert leaves the lines alone. */
  lemma {:induction false} InsertNone(lines: seq<string>, keys: seq<Key>, missing: Key -> bool, lineOf: Key -> string)
    requires |lines| > 0 && Seqs.Filter(missing, keys) == []
    ensures InsertMissing(lines, keys, missing, lineOf) == lines
    decreases |keys|
  {
    if keys != [] {
      var i := |keys| - 1;
      assert keys[..i + 1] == keys;
      Seqs.FilterStep(missing, keys, i);
      InsertNone(lines, keys[..i], missing, lineOf);
    }
  }

  /** Lines a second pass leaves alone are neither rewritten nor logged. */
  lemma StablePass(r: seq<string>, s: Settings)
    requires forall i :: 0 <= i < |r| ==> RewrittenLine(r[i], s) == r[i] && LineChanges(r[i], s) == []
    ensures RewriteLines(r, s) == r && RewriteChanges(r, s) == []
  {
    forall i | 0 <= i < |r| ensures RewriteLines(r, s)[i] == r[i] {
      Seqs.MapAt(RewrittenLineOf(s), r, i);
    }
    Seqs.FlatMapEmpty(LineChangesOf(s), r);
  }

  /** When every relevant key is claimed, the insert loop adds nothing, whatever its order. */
  lemma NothingMissing(r: seq<string>, s: Settings, order: seq<Key>)
    requires |r| > 0 && RewriteLines(r, s) == r
    requires forall k: Key :: IsSettingRelevant(k, s.PM) ==> k in UpdatedKeys(r, s.PM)
    ensures PatchLines(r, s, order) == r && AddedChanges(order, UpdatedKeys(r, s.PM), s) == []
  {
    var missing := IsMissingOf(UpdatedKeys(r, s.PM), s.PM);
    Seqs.FilterNone(missing, order);
    InsertNone(r, order, missing, SettingLineOf(s));
  }

  /** Patching the patched text again, with the same settings and in whatever order, changes
      nothing and logs nothing (as long as the idle timeout holds no line break). */
  lemma Idempotence(content: string, s: Settings, o1: seq<Key>, o2: seq<Key>)
    requires IsKeyOrder(o1) && '\n' !in s.ProcessIdleTimeout
    ensures var once := PatchText(content, s, o1);
      PatchText(once.text, s, o2) == Patched(once.text, [])
  {
    var lines := Split(content, '\n');
    var r := PatchLines(lines, s, o1);
    forall i | 0 <= i < |r|
      ensures '\n' !in r[i] && RewrittenLine(r[i], s) == r[i] && LineChanges(r[i], s) == []
    {
      PatchedLineStable(lines, s, o1, i);
    }
    SplitJoin(r, '\n');
    StablePass(r, s);
    forall k: Key | IsSettingRelevant(k, s.PM) ensures k in UpdatedKeys(r, s.PM) {
      PatchedKeysUpdated(lines, s, o1, k);
    }
    NothingMissing(r, s, o2);
  }

  // ---------------------------------------------------------------------------------------------
  // The extension check

  /** The extension is empty exactly when the final element has no dot. */
  lemma {:induction false} ExtEmpty(path: string)
    ensures Ext(path) == [] <==> '.' !in Base(path)
    decreases |path|
  {
    if |path| == 0 || path[|path| - 1] == '/' {
    } else if path[|path| - 1] == '.' {
      assert Base(path) == Base(path[..|path| - 1]) + ['.'];
    } else {
      var front := path[..|path| - 1];
      ExtEmpty(front);
      assert Base(path) == Base(front) + [path[|path| - 1]];
    }
  }

  /** A non-empty extension is a suffix of the final element that starts with its last dot. */
  lemma {:induction false} ExtShape(path: string)
    ensures Ext(path) != [] ==> Ext(path)[0] == '.' && HasSuffix(Base(path), Ext(path)) && '.' !in Ext(path)[1..]
    decreases |path|
  {
    if |path| == 0 || path[|path| - 1] == '/' {
    } else if path[|path| - 1] == '.' {
      assert Base(path) == Base(path[..|path| - 1]) + ['.'];
    } else {
      var c := path[|path| - 1];
      var front := path[..|path| - 1];
      ExtShape(front);
      var e, b := Ext(front), Base(front);
      if e != [] {
        assert Base(path) == b + [c];
        assert Ext(path) == e + [c];
        SuffixSnoc(b, e, c);
      }
    }
  }

  lemma SuffixSnoc(b: string, e: string, c: char)
    requires e != [] && e[0] == '.' && HasSuffix(b, e) && '.' !in e[1..] && c != '.'
    ensures (e + [c])[0] == '.' && HasSuffix(b + [c], e + [c]) && '.' !in (e + [c])[1..]
  {
    assert (b + [c])[|b| + 1 - |e| - 1..] == b[|b| - |e|..] + [c];
    assert (e + [c])[1..] == e[1..] + [c];
  }

  /** A path ending in a dot and a dot-free, slash-free word has that dot and word as extension. */
  lemma {:induction false} ExtOfSuffix(front: string, w: string)
    requires '.' !in w && '/' !in w
    ensures Ext(front + "." + w) == "." + w
    decreases |w|
  {
    var path := front + "." + w;
    if w == [] {
      assert path == front + ".";
    } else {
      var w', c := w[..|w| - 1], w[|w| - 1];
      var shorter := front + "." + w';
      assert w == w' + [c];
      assert c in w;
      assert path == shorter + [c];
      ExtOfSuffix(front, w');
      ExtSnoc(shorter, c);
      assert Ext(path) == ("." + w') + [c];
      assert ("." + w') + [c] == "." + w;
    }
  }

  lemma ExtSnoc(path: string, c: char)
    requires c != '.' && c != '/' && Ext(path) != []
    ensures Ext(path + [c]) == Ext(path) + [c]
  {
    assert (path + [c])[..|path|] == path;
  }

  /** The extension is `.conf` exactly when the path ends in `.conf`. */
  lemma ExtConf(path: string)
    ensures Ext(path) == ".conf" <==> HasSuffix(path, ".conf")
  {
    if Ext(path) == ".conf" {
      ExtShape(path);
      var b := Base(path);
      assert b[|b| - 5..] == ".conf";
      assert path[|path| - 5..] == path[|path| - |b|..][|b| - 5..];
    }
    if HasSuffix(path, ".conf") {
      var front := path[..|path| - 5];
      assert path == front + "." + "conf";
      ExtOfSuffix(front, "conf");
    }
  }

  /** `ValidateConfigPath` accepts exactly an existing file whose path ends in `.conf` or whose
      final element has no dot; otherwise it reports the first failing check: a missing path,
      then a directory, then the wrong extension. */
  lemma ValidateRule(path: string, exists_: bool, isDir: bool)
    ensures ValidateConfigPath(path, exists_, isDir) == None <==>
      exists_ && !isDir && (HasSuffix(path, ".conf") || '.' !in Base(path))
    ensures !exists_ ==> ValidateConfigPath(path, exists_, isDir) == Some(NotFound)
    ensures exists_ && isDir ==> ValidateConfigPath(path, exists_, isDir) == Some(IsDirectory)
    ensures exists_ && !isDir && !(HasSuffix(path, ".conf") || '.' !in Base(path)) ==>
      ValidateConfigPath(path, exists_, isDir) == Some(NotConf)
  {
    ExtEmpty(path);
    ExtConf(path);
  }
}

/** The string and number-formatting primitives of Go's standard library that the tool uses
    (`strings.TrimSpace`, `strings.Split`, `strings.Join`, `strings.Fields`, `strings.HasPrefix`,
    `strings.Contains`, `strings.ToUpper`, `strconv.Atoi`/`ParseInt` in base 10, and `%d`),
    written over `seq<char>`. */
module Text {
  import opened Wrappers

  // ---------------------------------------------------------------------------------------------
  // Character classes

  /** `unicode.IsSpace`: the white-space characters `strings.TrimSpace` and `strings.Fields` drop. */
  predicate IsSpace(c: char) {
    c == ' ' || ('\t' <= c <= '\r') || c == '\U{85}' || c == '\U{A0}' || c == '\U{1680}'
    || ('\U{2000}' <= c <= '\U{200A}') || c == '\U{2028}' || c == '\U{2029}'
    || c == '\U{202F}' || c == '\U{205F}' || c == '\U{3000}'
  }

  /** The RE2 class `\s` used by Go's `regexp` package: only `[\t\n\f\r ]`. */
  predicate IsRegexSpace(c: char) {
    c == ' ' || c == '\t' || c == '\n' || c == '\U{C}' || c == '\r'
  }

  predicate IsDigit(c: char) {
    '0' <= c <= '9'
  }

  predicate AllSpace(s: string) {
    forall i :: 0 <= i < |s| ==> IsSpace(s[i])
  }

  predicate NoSpace(s: string) {
    forall i :: 0 <= i < |s| ==> !IsSpace(s[i])
  }

  predicate AllDigits(s: string) {
    forall i :: 0 <= i < |s| ==> IsDigit(s[i])
  }

  // ---------------------------------------------------------------------------------------------
  // Prefixes, suffixes, substrings

  predicate HasPrefix(s: string, prefix: string) {
    |prefix| <= |s| && s[..|prefix|] == prefix
  }

  predicate HasSuffix(s: string, suffix: string) {
    |suffix| <= |s| && s[|s| - |suffix|..] == suffix
  }

  /** `strings.TrimSuffix`: drops one occurrence of `suffix` at the end, if present. */
  function TrimSuffix(s: string, suffix: string): (r: string)
    ensures HasSuffix(s, suffix) ==> r + suffix == s
    ensures !HasSuffix(s, suffix) ==> r == s
  {
    if HasSuffix(s, suffix) then s[..|s| - |suffix|] else s
  }

  /** `sub` occurs in `s` starting at position `i`. */
  predicate OccursAt(s: string, sub: string, i: int) {
    0 <= i && i + |sub| <= |s| && s[i..i + |sub|] == sub
  }

  /** `strings.Contains`: `sub` occurs somewhere in `s`. */
  predicate Contains(s: string, sub: string) {
    exists i :: 0 <= i <= |s| - |sub| && OccursAt(s, sub, i)
  }

  /** `Contains` of a part of a string carries over to the whole. */
  lemma ContainsAppend(s: string, t: string, sub: string)
    requires Contains(s, sub)
    ensures Contains(s + t, sub) && Contains(t + s, sub)
  {
    var i :| 0 <= i <= |s| - |sub| && OccursAt(s, sub, i);
    assert (s + t)[i..i + |sub|] == s[i..i + |sub|];
    assert OccursAt(s + t, sub, i);
    assert (t + s)[|t| + i..|t| + i + |sub|] == s[i..i + |sub|];
    assert OccursAt(t + s, sub, |t| + i);
  }

  /** A string none of whose characters is `c` does not contain a string that starts with `c`. */
  lemma NotContainsChar(s: string, sub: string)
    requires |sub| > 0 && sub[0] !in s
    ensures !Contains(s, sub)
  {
    forall i | 0 <= i && i + |sub| <= |s|
      ensures !OccursAt(s, sub, i)
    {
      assert s[i..i + |sub|][0] == s[i];
    }
  }

  // ---------------------------------------------------------------------------------------------
  // Trimming

  /** Drops leading white space. */
  function TrimLeft(s: string): (r: string)
    ensures |r| <= |s| && r == s[|s| - |r|..]
    ensures r == [] || !IsSpace(r[0])
    ensures AllSpace(s[..|s| - |r|])
    decreases |s|
  {
    if |s| > 0 && IsSpace(s[0]) then
      var r := TrimLeft(s[1..]);
      assert s[..|s| - |r|] == [s[0]] + s[1..][..|s| - 1 - |r|];
      r
    else
      s
  }

  /** Drops trailing white space. */
  function TrimRight(s: string): (r: string)
    ensures |r| <= |s| && r == s[..|r|]
    ensures r == [] || !IsSpace(r[|r| - 1])
    ensures AllSpace(s[|r|..])
    decreases |s|
  {
    if |s| > 0 && IsSpace(s[|s| - 1]) then
      var r := TrimRight(s[..|s| - 1]);
      assert s[|r|..] == s[..|s| - 1][|r|..] + [s[|s| - 1]];
      r
    else
      s
  }

  /** `strings.TrimSpace`: drops leading and trailing white space. */
  function TrimSpace(s: string): (r: string)
    ensures |r| <= |s|
    ensures r == [] || (!IsSpace(r[0]) && !IsSpace(r[|r| - 1]))
  {
    TrimRight(TrimLeft(s))
  }

  /** The trimmed text is a slice of the original, and only white space is cut on either side. */
  lemma TrimSpaceSlice(s: string) returns (start: nat)
    ensures start + |TrimSpace(s)| <= |s|
    ensures TrimSpace(s) == s[start..start + |TrimSpace(s)|]
    ensures AllSpace(s[..start]) && AllSpace(s[start + |TrimSpace(s)|..])
  {
    var l := TrimLeft(s);
    start := |s| - |l|;
    var r := TrimRight(l);
    PrefixOfSuffix(s, l, r);
  }

  lemma PrefixOfSuffix(s: string, l: string, r: string)
    requires |l| <= |s| && l == s[|s| - |l|..] && |r| <= |l| && r == l[..|r|]
    ensures r == s[|s| - |l|..|s| - |l| + |r|] && s[|s| - |l| + |r|..] == l[|r|..]
  {
  }

  lemma {:induction false} TrimLeftSpacePrefix(pre: string, x: string)
    requires AllSpace(pre)
    ensures TrimLeft(pre + x) == TrimLeft(x)
    decreases |pre|
  {
    if |pre| > 0 {
      assert (pre + x)[1..] == pre[1..] + x;
      TrimLeftSpacePrefix(pre[1..], x);
    } else {
      assert pre + x == x;
    }
  }

  lemma {:induction false} TrimRightSpaceSuffix(x: string, post: string)
    requires AllSpace(post)
    ensures TrimRight(x + post) == TrimRight(x)
    decreases |post|
  {
    if |post| > 0 {
      assert (x + post)[..|x + post| - 1] == x + post[..|post| - 1];
      TrimRightSpaceSuffix(x, post[..|post| - 1]);
    } else {
      assert x + post == x;
    }
  }

  lemma {:induction false} TrimLeftAppend(s: string, y: string)
    requires TrimLeft(s) != []
    ensures TrimLeft(s + y) == TrimLeft(s) + y
    decreases |s|
  {
    if IsSpace(s[0]) {
      assert (s + y)[1..] == s[1..] + y;
      TrimLeftAppend(s[1..], y);
    }
  }

  /** `strings.TrimSpace` ignores white space around its argument. */
  lemma TrimSpaceSurrounded(pre: string, s: string, post: string)
    requires AllSpace(pre) && AllSpace(post)
    ensures TrimSpace(pre + s + post) == TrimSpace(s)
  {
    assert pre + s + post == pre + (s + post);
    TrimLeftSpacePrefix(pre, s + post);
    if TrimLeft(s) != [] {
      TrimLeftAppend(s, post);
      TrimRightSpaceSuffix(TrimLeft(s), post);
    } else {
      assert AllSpace(s + post) by {
        assert AllSpace(s[..|s|]);
        assert s[..|s|] == s;
      }
      assert s + post == (s + post) + [];
      TrimLeftSpacePrefix(s + post, []);
    }
  }

  /** `TrimSpace` of a string without white space at either end is the string itself. */
  lemma TrimSpaceNoop(s: string)
    requires s == [] || (!IsSpace(s[0]) && !IsSpace(s[|s| - 1]))
    ensures TrimSpace(s) == s
  {
  }

  // ---------------------------------------------------------------------------------------------
  // Splitting and joining on a single-character separator

  /** The index of the first `c` in `s`. */
  function FirstIndex(s: string, c: char): (i: nat)
    requires c in s
    ensures i < |s| && s[i] == c && c !in s[..i]
  {
    if s[0] == c then 0 else
      var j := FirstIndex(s[1..], c);
      assert s[..j + 1] == [s[0]] + s[1..][..j];
      j + 1
  }

  /** `strings.Split(s, string(sep))`: the pieces between occurrences of `sep`; never empty. */
  function Split(s: string, sep: char): (parts: seq<string>)
    ensures |parts| >= 1
    ensures forall i :: 0 <= i < |parts| ==> sep !in parts[i]
    decreases |s|
  {
    if sep in s then
      var i := FirstIndex(s, sep);
      [s[..i]] + Split(s[i + 1..], sep)
    else
      [s]
  }

  /** `strings.Join(parts, string(sep))`. */
  function Join(parts: seq<string>, sep: char): string
  {
    if |parts| == 0 then ""
    else if |parts| == 1 then parts[0]
    else parts[0] + [sep] + Join(parts[1..], sep)
  }

  /** Joining the pieces of a split gives back the original text. */
  lemma {:induction false} JoinSplit(s: string, sep: char)
    ensures Join(Split(s, sep), sep) == s
    decreases |s|
  {
    if sep in s {
      var i := FirstIndex(s, sep);
      var piece, rest := s[..i], s[i + 1..];
      assert s == piece + [sep] + rest;
      SplitAtFirst(piece, sep, rest);
      JoinSplit(rest, sep);
      JoinCons(piece, Split(rest, sep), sep);
    }
  }

  lemma JoinCons(piece: string, parts: seq<string>, sep: char)
    requires |parts| >= 1
    ensures Join([piece] + parts, sep) == piece + [sep] + Join(parts, sep)
  {
    assert ([piece] + parts)[1..] == parts;
  }

  /** Splitting joined pieces that do not contain the separator gives back the pieces. */
  lemma {:induction false} SplitJoin(parts: seq<string>, sep: char)
    requires |parts| >= 1
    requires forall i :: 0 <= i < |parts| ==> sep !in parts[i]
    ensures Split(Join(parts, sep), sep) == parts
    decreases |parts|
  {
    if |parts| > 1 {
      var rest := Join(parts[1..], sep);
      assert Join(parts, sep) == parts[0] + [sep] + rest;
      SplitAtFirst(parts[0], sep, rest);
      SplitJoin(parts[1..], sep);
    }
  }

  /** A split has more than one piece exactly when the separator occurs. */
  lemma SplitCount(s: string, sep: char)
    ensures sep in s <==> |Split(s, sep)| >= 2
  {
  }

  /** A piece without `sep`, then `sep`: the split takes that piece first. */
  lemma SplitAtFirst(piece: string, sep: char, rest: string)
    requires sep !in piece
    ensures Split(piece + [sep] + rest, sep) == [piece] + Split(rest, sep)
  {
    var s := piece + [sep] + rest;
    assert s[|piece|] == sep;
    assert s[..|piece|] == piece;
    assert FirstIndex(s, sep) == |piece|;
    assert s[|piece| + 1..] == rest;
  }

  // ---------------------------------------------------------------------------------------------
  // Fields

  /** The longest prefix without white space. */
  function Word(s: string): (w: string)
    ensures |w| <= |s| && w == s[..|w|] && NoSpace(w)
    ensures |w| == |s| || IsSpace(s[|w|])
    ensures |s| > 0 && !IsSpace(s[0]) ==> |w| > 0
    decreases |s|
  {
    if |s| == 0 || IsSpace(s[0]) then ""
    else
      var w := Word(s[1..]);
      assert [s[0]] + w == s[..|w| + 1];
      [s[0]] + w
  }

  /** `strings.Fields`: the maximal runs of non-white-space characters, in order. */
  function Fields(s: string): (fs: seq<string>)
    ensures forall i :: 0 <= i < |fs| ==> |fs[i]| > 0 && NoSpace(fs[i])
    decreases |s|
  {
    var t := TrimLeft(s);
    if t == [] then []
    else
      var w := Word(t);
      var rest := Fields(t[|w|..]);
      ConsFields(w, rest);
      [w] + rest
  }

  /** Text of white space alone has no fields. */
  lemma FieldsBlank(s: string)
    requires AllSpace(s)
    ensures Fields(s) == []
  {
  }

  /** Leading white space does not change the fields. */
  lemma FieldsSpacePrefix(pre: string, s: string)
    requires AllSpace(pre)
    ensures Fields(pre + s) == Fields(s)
  {
    TrimLeftSpacePrefix(pre, s);
  }

  /** A word, then white space: the word is the first field and the rest of the text gives the
      others. */
  lemma FieldsCons(w: string, pad: string, rest: string)
    requires |w| > 0 && NoSpace(w) && |pad| > 0 && AllSpace(pad)
    ensures Fields(w + pad + rest) == [w] + Fields(rest)
  {
    var s := w + pad + rest;
    assert s == w + (pad + rest);
    assert s[0] == w[0];
    assert TrimLeft(s) == s;
    WordOf(w, pad + rest);
    assert s[|w|..] == pad + rest;
    FieldsSpacePrefix(pad, rest);
  }

  /** A single word is its own only field. */
  lemma FieldsWord(w: string)
    requires |w| > 0 && NoSpace(w)
    ensures Fields(w) == [w]
  {
    assert TrimLeft(w) == w;
    WordOf(w, []);
    assert w + [] == w;
    assert w[|w|..] == [];
  }

  /** The first word of a word followed by white space (or nothing) is that word. */
  lemma {:induction false} WordOf(w: string, x: string)
    requires NoSpace(w) && (x == [] || IsSpace(x[0]))
    ensures Word(w + x) == w
    decreases |w|
  {
    if |w| > 0 {
      assert (w + x)[1..] == w[1..] + x;
      WordOf(w[1..], x);
    } else {
      assert w + x == x;
    }
  }

  lemma ConsFields(w: string, rest: seq<string>)
    requires |w| > 0 && NoSpace(w)
    requires forall i :: 0 <= i < |rest| ==> |rest[i]| > 0 && NoSpace(rest[i])
    ensures forall i :: 0 <= i < |[w] + rest| ==> |([w] + rest)[i]| > 0 && NoSpace(([w] + rest)[i])
  {
  }

  // ---------------------------------------------------------------------------------------------
  // Case mapping

  function UpperChar(c: char): char {
    if 'a' <= c <= 'z' then (c as int - 'a' as int + 'A' as int) as char else c
  }

  /** `strings.ToUpper`, for the ASCII letters (the only ones that decide a parse here). */
  function ToUpper(s: string): (r: string)
    ensures |r| == |s| && forall i :: 0 <= i < |s| ==> r[i] == UpperChar(s[i])
  {
    seq(|s|, i requires 0 <= i < |s| => UpperChar(s[i]))
  }

  // ---------------------------------------------------------------------------------------------
  // Decimal integers: strconv.Atoi / strconv.ParseInt(s, 10, 64) and fmt's %d

  function DigitValue(c: char): nat
    requires IsDigit(c)
  {
    c as int - '0' as int
  }

  function DigitChar(d: nat): (c: char)
    requires d < 10
    ensures IsDigit(c) && DigitValue(c) == d
  {
    ('0' as int + d) as char
  }

  /** The value of a string of decimal digits. */
  function DigitsValue(s: string): nat
    requires AllDigits(s)
  {
    if |s| == 0 then 0 else DigitsValue(s[..|s| - 1]) * 10 + DigitValue(s[|s| - 1])
  }

  /** `strconv.Atoi`: an optional sign followed by at least one decimal digit; anything else fails.
      (The 64-bit range check is not modelled.) */
  function ParseInt(s: string): (r: Option<int>)
    ensures r.Some? ==> |s| > 0
  {
    if |s| > 0 && (s[0] == '+' || s[0] == '-') then
      if |s| > 1 && AllDigits(s[1..]) then
        var v: int := DigitsValue(s[1..]);
        Some(if s[0] == '-' then -v else v)
      else None
    else if |s| > 0 && AllDigits(s) then Some(DigitsValue(s))
    else None
  }

  /** The decimal digits of a natural number, without leading zeros. */
  function FormatNat(n: nat): (s: string)
    ensures |s| > 0 && AllDigits(s)
    decreases n
  {
    if n < 10 then [DigitChar(n)] else FormatNat(n / 10) + [DigitChar(n % 10)]
  }

  /** `fmt.Sprintf("%d", n)`. */
  function FormatInt(n: int): (s: string)
    ensures |s| > 0 && (n < 0 <==> s[0] == '-')
    ensures forall i :: 0 <= i < |s| ==> s[i] == '-' || IsDigit(s[i])
    ensures IsDigit(s[|s| - 1])
  {
    if n < 0 then "-" + FormatNat(-n) else FormatNat(n)
  }

  lemma {:induction false} DigitsOfFormatNat(n: nat)
    ensures DigitsValue(FormatNat(n)) == n
    decreases n
  {
    if n >= 10 {
      var s := FormatNat(n);
      DigitsOfFormatNat(n / 10);
      assert s[..|s| - 1] == FormatNat(n / 10);
    }
  }

  /** Parsing a formatted integer gives it back: `strconv.Atoi(fmt.Sprintf("%d", n)) == n`. */
  lemma ParseFormatInt(n: int)
    ensures ParseInt(FormatInt(n)) == Some(n)
  {
    DigitsOfFormatNat(if n < 0 then -n else n);
    if n < 0 {
      assert FormatInt(n)[1..] == FormatNat(-n);
    }
  }

  /** `strings.Repeat`. */
  function Repeat(s: string, n: nat): (r: string)
    ensures |r| == |s| * n
  {
    if n == 0 then "" else s + Repeat(s, n - 1)
  }
}

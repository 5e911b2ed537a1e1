/** The handful of Python `str` operations the services rely on, written out
    over `seq<char>` (a Python string is a sequence of code points). */
module Text {

  /** `c.isspace()`: the code points Python's `str.strip()` removes. */
  predicate IsSpace(c: char)
  {
    || ('\t' <= c <= '\r')
    || ('\U{1C}' <= c <= '\U{1F}')
    || c == ' ' || c == '\U{85}' || c == '\U{A0}' || c == '\U{1680}'
    || ('\U{2000}' <= c <= '\U{200A}')
    || c == '\U{2028}' || c == '\U{2029}' || c == '\U{202F}' || c == '\U{205F}'
    || c == '\U{3000}'
  }

  /** True of every character of `s`. */
  ghost predicate AllAre(s: string, p: char -> bool)
  {
    forall i :: 0 <= i < |s| ==> p(s[i])
  }

  /** The first index at or after `i` whose character `drop` keeps, or `|s|`. */
  function SkipFrom(s: string, drop: char -> bool, i: nat): (k: nat)
    requires i <= |s|
    ensures i <= k <= |s|
    ensures forall j :: i <= j < k ==> drop(s[j])
    ensures k < |s| ==> !drop(s[k])
    decreases |s| - i
  {
    if i < |s| && drop(s[i]) then SkipFrom(s, drop, i + 1) else i
  }

  /** The smallest `k` in `lo..j` such that `drop` holds for every character
      of `s[k..j]`. */
  function SkipBack(s: string, drop: char -> bool, lo: nat, j: nat): (k: nat)
    requires lo <= j <= |s|
    ensures lo <= k <= j
    ensures forall m :: k <= m < j ==> drop(s[m])
    ensures k > lo ==> !drop(s[k - 1])
    decreases j
  {
    if lo < j && drop(s[j - 1]) then SkipBack(s, drop, lo, j - 1) else j
  }

  /** `SkipFrom` is determined by its contract. */
  lemma {:induction false} SkipFromExact(s: string, drop: char -> bool, i: nat, k: nat)
    requires i <= k <= |s|
    requires forall j :: i <= j < k ==> drop(s[j])
    requires k < |s| ==> !drop(s[k])
    ensures SkipFrom(s, drop, i) == k
    decreases |s| - i
  {
    if i < k {
      SkipFromExact(s, drop, i + 1, k);
    }
  }

  /** `SkipBack` is determined by its contract. */
  lemma {:induction false} SkipBackExact(s: string, drop: char -> bool, lo: nat, j: nat, k: nat)
    requires lo <= k <= j <= |s|
    requires forall m :: k <= m < j ==> drop(s[m])
    requires k > lo ==> !drop(s[k - 1])
    ensures SkipBack(s, drop, lo, j) == k
    decreases j
  {
    if k < j {
      SkipBackExact(s, drop, lo, j - 1, k);
    }
  }

  /** Drops the longest prefix whose characters all satisfy `drop`
      (`s.lstrip()`, `s.lstrip(chars)`). */
  function LStripBy(s: string, drop: char -> bool): (r: string)
    ensures |r| <= |s| && r == s[|s| - |r|..]
    ensures forall i :: 0 <= i < |s| - |r| ==> drop(s[i])
    ensures r != [] ==> !drop(r[0])
  {
    s[SkipFrom(s, drop, 0)..]
  }

  /** Drops the longest suffix whose characters all satisfy `drop`
      (`s.rstrip()`). */
  function RStripBy(s: string, drop: char -> bool): (r: string)
    ensures |r| <= |s| && r == s[..|r|]
    ensures forall i :: |r| <= i < |s| ==> drop(s[i])
    ensures r != [] ==> !drop(r[|r| - 1])
  {
    s[..SkipBack(s, drop, 0, |s|)]
  }

  /** Stripping a suffix of `s` from the left stops where scanning `s` from
      the suffix's start does. */
  lemma LStripFrom(s: string, drop: char -> bool, i: nat)
    requires i <= |s|
    ensures LStripBy(s[i..], drop) == s[SkipFrom(s, drop, i)..]
  {
    var k := SkipFrom(s, drop, i);
    var t := s[i..];
    assert forall j :: 0 <= j < |t| ==> t[j] == s[i + j];
    SkipFromExact(t, drop, 0, k - i);
    assert t[k - i..] == s[k..];
  }

  /** Where the text `s.strip()` keeps begins. */
  function StripStart(s: string): nat
    ensures StripStart(s) <= |s|
  {
    SkipFrom(s, IsSpace, 0)
  }

  /** `s.strip()`: the text left after removing leading and trailing
      whitespace, which is all that comes before and after it. */
  function Strip(s: string): (r: string)
    ensures StripStart(s) + |r| <= |s| && r == s[StripStart(s)..StripStart(s) + |r|]
    ensures forall i :: 0 <= i < StripStart(s) ==> IsSpace(s[i])
    ensures forall i :: StripStart(s) + |r| <= i < |s| ==> IsSpace(s[i])
    ensures r != [] ==> !IsSpace(r[0]) && !IsSpace(r[|r| - 1])
  {
    var a := StripStart(s);
    s[a..SkipBack(s, IsSpace, a, |s|)]
  }

  /** Stripping stops exactly at the first character that is kept. */
  lemma LStripConcat(a: string, b: string, drop: char -> bool)
    requires AllAre(a, drop) && (b == [] || !drop(b[0]))
    ensures LStripBy(a + b, drop) == b
  {
    var s := a + b;
    assert forall j :: 0 <= j < |a| ==> s[j] == a[j];
    assert |a| < |s| ==> s[|a|] == b[0];
    SkipFromExact(s, drop, 0, |a|);
    assert s[|a|..] == b;
  }

  lemma RStripConcat(a: string, b: string, drop: char -> bool)
    requires AllAre(b, drop) && (a == [] || !drop(a[|a| - 1]))
    ensures RStripBy(a + b, drop) == a
  {
    var s := a + b;
    assert forall m :: |a| <= m < |s| ==> s[m] == b[m - |a|];
    assert |a| > 0 ==> s[|a| - 1] == a[|a| - 1];
    SkipBackExact(s, drop, 0, |s|, |a|);
    assert s[..|a|] == a;
  }

  /** Text with no whitespace at either end is left as it is by `strip()`. */
  lemma StripKeeps(s: string)
    requires s == [] || (!IsSpace(s[0]) && !IsSpace(s[|s| - 1]))
    ensures Strip(s) == s
  {
    SkipFromExact(s, IsSpace, 0, 0);
    SkipBackExact(s, IsSpace, 0, |s|, |s|);
    assert s[0..|s|] == s;
  }

  predicate StartsWith(s: string, prefix: string)
  {
    |prefix| <= |s| && s[..|prefix|] == prefix
  }

  predicate EndsWith(s: string, suffix: string)
  {
    |suffix| <= |s| && s[|s| - |suffix|..] == suffix
  }

  /** `s[i:i+|t|] == t` for some `i`: Python's substring test `t in s`. */
  ghost predicate OccursAt(s: string, t: string, i: int)
  {
    0 <= i && i + |t| <= |s| && s[i..i + |t|] == t
  }

  /** `t in s` for two strings, computed by scanning `s` from the left. */
  function Contains(s: string, t: string): bool
    decreases |s|
  {
    StartsWith(s, t) || (s != [] && Contains(s[1..], t))
  }

  /** `Contains` is exactly the substring relation. */
  lemma {:induction false} ContainsIff(s: string, t: string)
    ensures Contains(s, t) <==> exists i :: OccursAt(s, t, i)
    decreases |s|
  {
    if StartsWith(s, t) {
      assert OccursAt(s, t, 0);
    } else if s == [] {
      assert forall i :: !OccursAt(s, t, i);
    } else {
      ContainsIff(s[1..], t);
      if Contains(s[1..], t) {
        var i :| OccursAt(s[1..], t, i);
        assert s[1..][i..i + |t|] == s[i + 1..i + 1 + |t|];
        assert OccursAt(s, t, i + 1);
      } else {
        forall i | OccursAt(s, t, i) ensures false {
          assert i != 0;
          assert s[1..][i - 1..i - 1 + |t|] == s[i..i + |t|];
          assert OccursAt(s[1..], t, i - 1);
        }
      }
    }
  }

  /** `s.split(c)[-1]`: the text after the last `c`, or all of `s` when it
      holds no `c`. */
  function AfterLast(s: string, c: char): (r: string)
    ensures |r| <= |s| && r == s[|s| - |r|..]
    ensures c !in r
    ensures |r| < |s| ==> s[|s| - |r| - 1] == c
  {
    if s == [] || s[|s| - 1] == c then [] else AfterLast(s[..|s| - 1], c) + [s[|s| - 1]]
  }

  lemma AfterLastWhole(s: string, c: char)
    ensures c !in s <==> AfterLast(s, c) == s
  {
  }

  /** The text after the last `c` is whatever follows a final `c`. */
  lemma {:induction false} AfterLastJoin(a: string, c: char, b: string)
    requires c !in b
    ensures AfterLast(a + [c] + b, c) == b
  {
    if b == [] {
      assert a + [c] + b == a + [c];
    } else {
      var s := a + [c] + b;
      assert s[|s| - 1] == b[|b| - 1];
      assert s[..|s| - 1] == a + [c] + b[..|b| - 1];
      AfterLastJoin(a, c, b[..|b| - 1]);
    }
  }

  /** Lower-cases the ASCII letters A-Z. */
  function LowerChar(c: char): char
  {
    if 'A' <= c <= 'Z' then (c as int - 'A' as int + 'a' as int) as char else c
  }

  /** `s.lower()` restricted to ASCII letters. */
  function Lower(s: string): (r: string)
    ensures |r| == |s|
    ensures forall i :: 0 <= i < |s| ==> r[i] == LowerChar(s[i])
  {
    if s == [] then [] else [LowerChar(s[0])] + Lower(s[1..])
  }

  predicate IsDot(c: char) { c == '.' }

  /** The POSIX `os.path.splitext(p)[1]`: from the last `.` of the last
      path component, provided that component has something other than dots
      before it; otherwise the empty string. */
  function SplitExt(p: string): (r: string)
    ensures r == [] || (r[0] == '.' && EndsWith(p, r) && '.' !in r[1..] && '/' !in r)
    ensures r != [] <==> HasStem(AfterLast(p, '/'))
    ensures r != [] ==> r == AfterLast(p, '/')[LastDot(AfterLast(p, '/'))..]
  {
    var base := AfterLast(p, '/');
    var r := BaseExt(base);
    if r == [] then r else EndsWithTrans(p, base, r); NotInSuffix(base, r, '/'); r
  }

  /** A suffix of a suffix is a suffix. */
  lemma EndsWithTrans(a: string, b: string, c: string)
    requires EndsWith(a, b) && EndsWith(b, c)
    ensures EndsWith(a, c)
  {
    assert a[|a| - |c|..] == a[|a| - |b|..][|b| - |c|..];
  }

  /** A character missing from a text is missing from its suffixes. */
  lemma NotInSuffix(b: string, c: string, x: char)
    requires EndsWith(b, c) && x !in b
    ensures x !in c
  {
  }

  /** Index of the last `.` of `base`, or -1. */
  function LastDot(base: string): (k: int)
    ensures '.' in base ==> 0 <= k < |base| && base[k] == '.'
    ensures '.' !in base ==> k == -1
  {
    AfterLastWhole(base, '.');
    |base| - |AfterLast(base, '.')| - 1
  }

  /** `base` has a last dot with something other than a dot before it. */
  ghost predicate HasStem(base: string)
  {
    '.' in base && exists i :: 0 <= i < LastDot(base) && base[i] != '.'
  }

  /** `splitext` on a path component (a text without `/`): the text from
      its last dot, when something other than a dot comes before that dot. */
  function BaseExt(base: string): (r: string)
    ensures r == [] || (r[0] == '.' && EndsWith(base, r) && '.' !in r[1..])
    ensures r != [] <==> HasStem(base)
    ensures r != [] ==> r == base[LastDot(base)..]
  {
    var tail := AfterLast(base, '.');
    var k := LastDot(base);
    if |tail| == |base| then
      AfterLastWhole(base, '.');
      []
    else if SkipFrom(base, IsDot, 0) >= k then
      assert forall i :: 0 <= i < k ==> base[i] == '.';
      []
    else
      var j := SkipFrom(base, IsDot, 0);
      assert 0 <= j < k && base[j] != '.';
      assert base[k..][1..] == tail;
      base[k..]
  }

  /** The extension of a name with one dot and no dot before it. */
  lemma BaseExtJoin(stem: string, ext: string)
    requires stem != [] && '.' !in stem && '.' !in ext
    ensures BaseExt(stem + ['.'] + ext) == ['.'] + ext
  {
    var base := stem + ['.'] + ext;
    AfterLastJoin(stem, '.', ext);
    assert |base| - |ext| - 1 == |stem|;
    assert base[0] == stem[0];
    SkipFromExact(base, IsDot, 0, 0);
    assert base[|stem|..] == ['.'] + ext;
  }

  function DigitChar(d: int): char
    requires 0 <= d < 10
  {
    ('0' as int + d) as char
  }

  /** Decimal digits of a natural number. */
  function NatText(n: nat): (r: string)
    ensures r != [] && forall i :: 0 <= i < |r| ==> '0' <= r[i] <= '9'
  {
    if n < 10 then [DigitChar(n)] else NatText(n / 10) + [DigitChar(n % 10)]
  }

  /** `str(n)` for an integer. */
  function IntText(n: int): string
  {
    if n < 0 then "-" + NatText(-n) else NatText(n)
  }
}

/** Python string and list primitives the core relies on, written out:
    `lower`/`upper` (ASCII letters only), `isspace`, `strip`, `split` on one
    character, `in`, `find`, `startswith`, `count`, `replace(c, "")`, slicing
    with Python's index normalisation, and `<` on strings (code-point order). */
module Text {

  // ---------------------------------------------------------------- characters

  function LowerChar(c: char): char {
    if 'A' <= c <= 'Z' then (c as int + 32) as char else c
  }

  function UpperChar(c: char): char {
    if 'a' <= c <= 'z' then (c as int - 32) as char else c
  }

  /** `str.isspace` for one character: every code point Python counts as white space. */
  predicate IsSpace(c: char) {
    var n := c as int;
    (9 <= n <= 13) || (28 <= n <= 32) || n == 0x85 || n == 0xA0 || n == 0x1680
    || (0x2000 <= n <= 0x200A) || n == 0x2028 || n == 0x2029 || n == 0x202F
    || n == 0x205F || n == 0x3000
  }

  // ---------------------------------------------------------------- case

  function Lower(s: string): string {
    seq(|s|, i requires 0 <= i < |s| => LowerChar(s[i]))
  }

  function Upper(s: string): string {
    seq(|s|, i requires 0 <= i < |s| => UpperChar(s[i]))
  }

  lemma LowerSlice(s: string, a: nat, b: nat)
    requires a <= b <= |s|
    ensures Lower(s[a..b]) == Lower(s)[a..b]
  {
  }

  // ---------------------------------------------------------------- strip

  function StripLeft(s: string): string
    decreases |s|
  {
    if |s| > 0 && IsSpace(s[0]) then StripLeft(s[1..]) else s
  }

  function StripRight(s: string): string
    decreases |s|
  {
    if |s| > 0 && IsSpace(s[|s| - 1]) then StripRight(s[..|s| - 1]) else s
  }

  /** `s.strip()` */
  function Strip(s: string): string {
    StripRight(StripLeft(s))
  }

  /** A string that neither starts nor ends with white space is its own strip. */
  lemma StripUntouched(s: string)
    requires |s| > 0 && !IsSpace(s[0]) && !IsSpace(s[|s| - 1])
    ensures Strip(s) == s
  {
  }

  /** `s.lstrip(chars)` */
  function StripLeftOf(s: string, chars: set<char>): string
    decreases |s|
  {
    if |s| > 0 && s[0] in chars then StripLeftOf(s[1..], chars) else s
  }

  /** The stripped strings are contiguous pieces of the original. */
  lemma {:induction false} StripLeftIsSuffix(s: string)
    ensures exists k :: 0 <= k <= |s| && StripLeft(s) == s[k..]
  {
    if |s| > 0 && IsSpace(s[0]) {
      StripLeftIsSuffix(s[1..]);
      var k :| 0 <= k <= |s| - 1 && StripLeft(s[1..]) == s[1..][k..];
      assert s[1..][k..] == s[k + 1..];
    } else {
      assert s == s[0..];
    }
  }

  lemma {:induction false} StripRightIsPrefix(s: string)
    ensures exists k :: 0 <= k <= |s| && StripRight(s) == s[..k]
  {
    if |s| > 0 && IsSpace(s[|s| - 1]) {
      StripRightIsPrefix(s[..|s| - 1]);
      var k :| 0 <= k <= |s| - 1 && StripRight(s[..|s| - 1]) == s[..|s| - 1][..k];
      assert s[..|s| - 1][..k] == s[..k];
    } else {
      assert s == s[..|s|];
    }
  }

  lemma {:induction false} StripLeftOfIsSuffix(s: string, chars: set<char>)
    ensures exists k :: 0 <= k <= |s| && StripLeftOf(s, chars) == s[k..]
  {
    if |s| > 0 && s[0] in chars {
      StripLeftOfIsSuffix(s[1..], chars);
      var k :| 0 <= k <= |s| - 1 && StripLeftOf(s[1..], chars) == s[1..][k..];
      assert s[1..][k..] == s[k + 1..];
    } else {
      assert s == s[0..];
    }
  }

  lemma StripIsSlice(s: string)
    ensures exists a, b :: 0 <= a <= b <= |s| && Strip(s) == s[a..b]
  {
    StripLeftIsSuffix(s);
    var a :| 0 <= a <= |s| && StripLeft(s) == s[a..];
    StripRightIsPrefix(s[a..]);
    var k :| 0 <= k <= |s| - a && StripRight(s[a..]) == s[a..][..k];
    assert s[a..][..k] == s[a..a + k];
  }

  /** Stripping adds no character. */
  lemma StripChars(s: string)
    ensures forall c | c in Strip(s) :: c in s
  {
    StripIsSlice(s);
    var a, b :| 0 <= a <= b <= |s| && Strip(s) == s[a..b];
    forall c | c in Strip(s) ensures c in s {
      var k :| 0 <= k < |Strip(s)| && Strip(s)[k] == c;
      assert s[a + k] == c;
    }
  }

  lemma {:induction false} StripLeftStartsNonSpace(s: string)
    ensures |StripLeft(s)| > 0 ==> !IsSpace(StripLeft(s)[0])
  {
    if |s| > 0 && IsSpace(s[0]) {
      StripLeftStartsNonSpace(s[1..]);
    }
  }

  lemma {:induction false} StripRightKeepsFirst(s: string)
    requires |s| > 0 && !IsSpace(s[0])
    ensures |StripRight(s)| > 0 && StripRight(s)[0] == s[0]
  {
    if IsSpace(s[|s| - 1]) {
      assert |s| > 1;
      StripRightKeepsFirst(s[..|s| - 1]);
    }
  }

  // ---------------------------------------------------------------- search

  /** `t` occurs in `s` at index `i`. */
  predicate OccursAt(s: string, t: string, i: int) {
    0 <= i && i + |t| <= |s| && s[i..i + |t|] == t
  }

  /** `t in s` */
  predicate Contains(s: string, t: string) {
    exists i | 0 <= i <= |s| :: OccursAt(s, t, i)
  }

  /** `s.startswith(p)` */
  predicate StartsWith(s: string, p: string) {
    |p| <= |s| && s[..|p|] == p
  }

  /** `s.endswith(p)` */
  predicate EndsWith(s: string, p: string) {
    |p| <= |s| && s[|s| - |p|..] == p
  }

  /** `s.find(t, start)`: the first index at or after `start` where `t` occurs, or -1. */
  function FindFrom(s: string, t: string, start: nat): (r: int)
    ensures r == -1 || (start <= r && OccursAt(s, t, r))
    ensures r == -1 <==> forall j :: start <= j ==> !OccursAt(s, t, j)
    ensures r != -1 ==> forall j :: start <= j < r ==> !OccursAt(s, t, j)
    decreases |s| - start
  {
    if start + |t| > |s| then -1
    else if OccursAt(s, t, start) then start
    else FindFrom(s, t, start + 1)
  }

  /** `s.find(t)` */
  function Find(s: string, t: string): (r: int)
    ensures r == -1 <==> !Contains(s, t)
    ensures r != -1 ==> OccursAt(s, t, r) && forall j :: 0 <= j < r ==> !OccursAt(s, t, j)
  {
    var r := FindFrom(s, t, 0);
    assert r != -1 ==> OccursAt(s, t, r) && r <= |s|;
    r
  }

  /** The first occurrence at or after `start` is the scan's answer. */
  lemma FindFromAt(s: string, t: string, start: nat, k: int)
    requires start <= k && OccursAt(s, t, k)
    requires forall j | start <= j < k :: !OccursAt(s, t, j)
    ensures FindFrom(s, t, start) == k
  {
  }

  lemma FindAt(s: string, t: string, k: int)
    requires OccursAt(s, t, k)
    requires forall j | 0 <= j < k :: !OccursAt(s, t, j)
    ensures Find(s, t) == k
  {
    FindFromAt(s, t, 0, k);
  }

  lemma ContainsSlice(s: string, a: nat, b: nat, t: string)
    requires a <= b <= |s| && Contains(s[a..b], t)
    ensures Contains(s, t)
  {
    var i :| 0 <= i <= b - a && OccursAt(s[a..b], t, i);
    assert i + |t| <= b - a;
    forall k | 0 <= k < |t| ensures s[a + i + k] == t[k] {
      assert t[k] == s[a..b][i..i + |t|][k];
    }
    assert s[a + i..a + i + |t|] == t;
    assert OccursAt(s, t, a + i);
  }

  /** `s.count(t)`: non-overlapping occurrences scanning left to right (t non-empty). */
  function CountFrom(s: string, t: string, start: nat): nat
    requires |t| > 0
    decreases |s| - start
  {
    if start + |t| > |s| then 0
    else if OccursAt(s, t, start) then 1 + CountFrom(s, t, start + |t|)
    else CountFrom(s, t, start + 1)
  }

  function Count(s: string, t: string): nat
    requires |t| > 0
  {
    CountFrom(s, t, 0)
  }

  lemma {:induction false} CountFromPositive(s: string, t: string, start: nat, i: int)
    requires |t| > 0 && start <= i && OccursAt(s, t, i)
    ensures CountFrom(s, t, start) >= 1
    decreases |s| - start
  {
    if start + |t| > |s| {
    } else if OccursAt(s, t, start) {
    } else {
      CountFromPositive(s, t, start + 1, i);
    }
  }

  /** A keyword that occurs is counted at least once. */
  lemma CountPositive(s: string, t: string)
    requires |t| > 0 && Contains(s, t)
    ensures Count(s, t) >= 1
  {
    var i :| 0 <= i <= |s| && OccursAt(s, t, i);
    CountFromPositive(s, t, 0, i);
  }

  // ---------------------------------------------------------------- split, replace

  /** `s.split(sep)` for a one-character separator: always at least one piece. */
  function Split(s: string, sep: char): (parts: seq<string>)
    ensures |parts| >= 1
    decreases |s|
  {
    if |s| == 0 then [""]
    else
      var rest := Split(s[1..], sep);
      if s[0] == sep then [""] + rest else [[s[0]] + rest[0]] + rest[1..]
  }

  /** `sep.join(parts)` */
  function Join(parts: seq<string>, sep: char): string
    requires |parts| >= 1
    decreases |parts|
  {
    if |parts| == 1 then parts[0] else parts[0] + [sep] + Join(parts[1..], sep)
  }

  lemma {:induction false} SplitPiecesHaveNoSeparator(s: string, sep: char)
    ensures forall p | p in Split(s, sep) :: sep !in p
    decreases |s|
  {
    if |s| > 0 {
      SplitPiecesHaveNoSeparator(s[1..], sep);
    }
  }

  /** Splitting loses nothing: joining the pieces back gives the string. */
  lemma {:induction false} JoinSplit(s: string, sep: char)
    ensures Join(Split(s, sep), sep) == s
    decreases |s|
  {
    if |s| > 0 {
      var rest := Split(s[1..], sep);
      JoinSplit(s[1..], sep);
      if s[0] == sep {
        assert Split(s, sep)[1..] == rest;
      } else {
        var parts := Split(s, sep);
        assert parts[1..] == rest[1..];
        if |rest| == 1 {
        } else {
          assert Join(rest, sep) == rest[0] + [sep] + Join(rest[1..], sep);
        }
      }
    }
  }

  lemma {:induction false} SplitNoSeparator(s: string, sep: char)
    requires sep !in s
    ensures Split(s, sep) == [s]
    decreases |s|
  {
    if |s| > 0 {
      SplitNoSeparator(s[1..], sep);
      assert [s[0]] + s[1..] == s;
    }
  }

  /** The first piece ends at the first separator. */
  lemma {:induction false} SplitFirstPiece(a: string, sep: char, b: string)
    requires sep !in a
    ensures Split(a + [sep] + b, sep) == [a] + Split(b, sep)
    decreases |a|
  {
    var s := a + [sep] + b;
    if |a| == 0 {
      assert s[1..] == b;
    } else {
      assert s[1..] == a[1..] + [sep] + b;
      SplitFirstPiece(a[1..], sep, b);
      assert [a[0]] + a[1..] == a;
    }
  }

  /** `s.replace(c, "")` */
  function RemoveChar(s: string, c: char): (r: string)
    ensures c !in r
    ensures |r| <= |s|
    ensures forall x | x in r :: x in s
  {
    if |s| == 0 then "" else (if s[0] == c then "" else [s[0]]) + RemoveChar(s[1..], c)
  }

  // ---------------------------------------------------------------- slicing

  /** Python's normalisation of a slice bound `i` against length `n`. */
  function SliceIndex(i: int, n: nat): (k: nat)
    ensures k <= n
  {
    if i < 0 then (if n + i < 0 then 0 else n + i) else if i > n then n else i
  }

  /** `s[:i]` */
  function SliceTo<T>(s: seq<T>, i: int): seq<T> {
    s[..SliceIndex(i, |s|)]
  }

  /** `s[i:]` */
  function SliceFrom<T>(s: seq<T>, i: int): seq<T> {
    s[SliceIndex(i, |s|)..]
  }

  lemma SliceToBound<T>(s: seq<T>, i: int)
    requires i >= 0
    ensures |SliceTo(s, i)| == if i < |s| then i else |s|
    ensures SliceTo(s, i) == s[..|SliceTo(s, i)|]
  {
  }

  /** The first `k` elements, or all of them when there are fewer: `s[:k]`
      for a `k` that is not negative, and what a loop guarded by
      `len(out) < k` collects. */
  function Take<T>(s: seq<T>, k: int): (r: seq<T>)
    ensures |r| == if k <= 0 then 0 else if |s| <= k then |s| else k
    ensures r == s[..|r|]
  {
    if k <= 0 then [] else if |s| <= k then s else s[..k]
  }

  // ---------------------------------------------------------------- order

  /** `a <= b` on Python strings: lexicographic by code point. */
  predicate StrLe(a: string, b: string)
    decreases |a|
  {
    if |a| == 0 then true
    else if |b| == 0 then false
    else if a[0] != b[0] then a[0] < b[0]
    else StrLe(a[1..], b[1..])
  }

  lemma {:induction false} StrLeTotal(a: string, b: string)
    ensures StrLe(a, b) || StrLe(b, a)
    decreases |a|
  {
    if |a| > 0 && |b| > 0 && a[0] == b[0] {
      StrLeTotal(a[1..], b[1..]);
    }
  }

  lemma {:induction false} StrLeRefl(a: string)
    ensures StrLe(a, a)
    decreases |a|
  {
    if |a| > 0 {
      StrLeRefl(a[1..]);
    }
  }

  lemma {:induction false} StrLeTrans(a: string, b: string, c: string)
    requires StrLe(a, b) && StrLe(b, c)
    ensures StrLe(a, c)
    decreases |a|
  {
    if |a| > 0 && |b| > 0 && |c| > 0 && a[0] == b[0] && b[0] == c[0] {
      StrLeTrans(a[1..], b[1..], c[1..]);
    }
  }

  lemma {:induction false} StrLeAntisym(a: string, b: string)
    requires StrLe(a, b) && StrLe(b, a)
    ensures a == b
    decreases |a|
  {
    if |a| > 0 && |b| > 0 {
      StrLeAntisym(a[1..], b[1..]);
      assert a == [a[0]] + a[1..] && b == [b[0]] + b[1..];
    }
  }
}

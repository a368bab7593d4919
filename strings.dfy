/** The string operations the journal relies on: `startsWith`, `endsWith`,
    `indexOf`, `replace` with a string pattern (first occurrence only),
    `path.join`/`path.dirname`/`path.basename` on '/'-separated paths,
    `Number.prototype.toString` on non-negative integers, and the BINARY
    collation SQLite uses to compare text. */
module Strings {
  import opened Common

  /** `p` occurs in `s` starting at index `i`. */
  predicate OccursAt(s: string, p: string, i: int) {
    0 <= i && i + |p| <= |s| && s[i..i + |p|] == p
  }

  /** `p` is a substring of `s` (SQL `s LIKE '%p%'` without case folding). */
  predicate Contains(s: string, p: string) {
    exists i | 0 <= i <= |s| :: OccursAt(s, p, i)
  }

  predicate StartsWith(s: string, p: string) {
    |p| <= |s| && s[..|p|] == p
  }

  predicate EndsWith(s: string, p: string) {
    |p| <= |s| && s[|s| - |p|..] == p
  }

  lemma OccursInTail(s: string, p: string, i: int)
    requires |s| > 0 && 1 <= i
    ensures OccursAt(s, p, i) <==> OccursAt(s[1..], p, i - 1)
  {
    if i + |p| <= |s| {
      assert s[1..][i - 1..i - 1 + |p|] == s[i..i + |p|];
    }
  }

  /** The index of the first occurrence of `p` in `s`, as `s.indexOf(p)`
      (`None` for -1). */
  function IndexOf(s: string, p: string): (r: Option<nat>)
    ensures r.Some? ==> OccursAt(s, p, r.value)
    ensures r.Some? ==> forall j | 0 <= j < r.value :: !OccursAt(s, p, j)
    ensures r.None? <==> !Contains(s, p)
    decreases |s|
  {
    if |s| < |p| then
      None
    else if s[..|p|] == p then
      assert OccursAt(s, p, 0);
      Some(0)
    else
      var rest := IndexOf(s[1..], p);
      assert !OccursAt(s, p, 0);
      assert forall i | 1 <= i :: OccursAt(s, p, i) <==> OccursAt(s[1..], p, i - 1) by {
        forall i | 1 <= i { OccursInTail(s, p, i); }
      }
      match rest
      case None => None
      case Some(k) => Some(k + 1)
  }

  /** `s.replace(p, '')`: the first occurrence of `p` removed, or `s` itself. */
  function RemoveFirst(s: string, p: string): string {
    match IndexOf(s, p)
    case None => s
    case Some(i) => s[..i] + s[i + |p|..]
  }

  /** Removing the first occurrence of a prefix leaves what follows it. */
  lemma RemovePrefix(p: string, rest: string)
    ensures RemoveFirst(p + rest, p) == rest
  {
    assert OccursAt(p + rest, p, 0);
    assert IndexOf(p + rest, p) == Some(0);
  }

  /** ".wav" cannot start inside a string that does not contain it and end
      inside the suffix ".wav" appended to it, because no proper prefix of
      ".wav" is also a suffix of it. */
  lemma {:induction false} FirstWavIsSuffix(stem: string)
    requires !Contains(stem, ".wav")
    ensures IndexOf(stem + ".wav", ".wav") == Some(|stem|)
  {
    var s := stem + ".wav";
    assert OccursAt(s, ".wav", |stem|) by { assert s[|stem|..|stem| + 4] == ".wav"; }
    forall j | 0 <= j < |stem| ensures !OccursAt(s, ".wav", j) {
      if j + 4 <= |stem| {
        assert s[j..j + 4] == stem[j..j + 4];
        assert !OccursAt(stem, ".wav", j);
      } else {
        // an occurrence here would overlap the appended suffix
        var k := |stem| - j;
        assert s[j..j + 4][k] == '.';
        assert ".wav"[k] != '.';
      }
    }
  }

  /** The last index of `c` in `s`, as `s.lastIndexOf(c)`. */
  function LastIndexOf(s: string, c: char): (r: Option<nat>)
    ensures r.Some? ==> r.value < |s| && s[r.value] == c
    ensures r.Some? ==> forall k | r.value < k < |s| :: s[k] != c
    ensures r.None? ==> forall k | 0 <= k < |s| :: s[k] != c
  {
    if s == [] then None
    else if s[|s| - 1] == c then Some(|s| - 1)
    else
      var r := LastIndexOf(s[..|s| - 1], c);
      match r
      case None => None
      case Some(i) => Some(i)
  }

  /** `path.join(dir, name)`, taken as plain '/' concatenation. */
  function Join(dir: string, name: string): string {
    dir + "/" + name
  }

  /** `path.dirname(p)`: everything before the last '/'. */
  function Parent(p: string): string {
    match LastIndexOf(p, '/')
    case None => "."
    case Some(i) => p[..i]
  }

  /** `path.basename(p)`: everything after the last '/'. */
  function BaseName(p: string): string {
    match LastIndexOf(p, '/')
    case None => p
    case Some(i) => p[i + 1..]
  }

  /** Joining a '/'-free name to a directory can be undone by `Parent` and `BaseName`. */
  lemma JoinSplits(dir: string, name: string)
    requires '/' !in name
    ensures LastIndexOf(Join(dir, name), '/') == Some(|dir|)
    ensures Parent(Join(dir, name)) == dir && BaseName(Join(dir, name)) == name
  {
    var p := Join(dir, name);
    assert p[|dir|] == '/';
    assert p[|dir| + 1..] == name;
    assert forall k | |dir| < k < |p| :: p[k] == name[k - |dir| - 1];
    var r := LastIndexOf(p, '/');
    assert r.Some?;
    assert r.value == |dir|;
  }

  /** Every path holding a '/' is its parent joined with its base name. */
  lemma SplitJoins(p: string)
    requires '/' in p
    ensures Join(Parent(p), BaseName(p)) == p && '/' !in BaseName(p)
  {
    var i := LastIndexOf(p, '/').value;
    assert p == p[..i] + "/" + p[i + 1..];
  }

  /** A decimal digit. */
  predicate IsDigit(c: char) {
    '0' <= c <= '9'
  }

  predicate AllDigits(s: string) {
    forall i | 0 <= i < |s| :: IsDigit(s[i])
  }

  function DigitChar(d: nat): (c: char)
    requires d < 10
    ensures IsDigit(c)
  {
    "0123456789"[d]
  }

  /** The value of a string of decimal digits. */
  function DigitsValue(s: string): nat
    requires AllDigits(s)
  {
    if s == [] then 0 else 10 * DigitsValue(s[..|s| - 1]) + (s[|s| - 1] as int - '0' as int)
  }

  /** `n.toString()` for a non-negative integer such as `Date.now()`. */
  function DecimalString(n: nat): (s: string)
    ensures |s| > 0 && AllDigits(s)
    ensures DigitsValue(s) == n
  {
    if n < 10 then
      [DigitChar(n)]
    else
      var s := DecimalString(n / 10) + [DigitChar(n % 10)];
      assert s[..|s| - 1] == DecimalString(n / 10);
      s
  }

  /** Different clock readings give different identifiers. */
  lemma DecimalStringInjective(m: nat, n: nat)
    requires DecimalString(m) == DecimalString(n)
    ensures m == n
  {
  }

  /** A string of digits contains no '/' and no ".wav". */
  lemma DigitsAreSafe(s: string)
    requires AllDigits(s)
    ensures '/' !in s && !Contains(s, ".wav")
  {
    forall i | 0 <= i <= |s| ensures !OccursAt(s, ".wav", i) {
      if i + 4 <= |s| {
        assert s[i..i + 4][0] == s[i];
      }
    }
  }

  /** SQLite's BINARY collation on text: lexicographic by character. */
  predicate TextLe(a: string, b: string)
    decreases |a|
  {
    a == [] || (b != [] && (a[0] < b[0] || (a[0] == b[0] && TextLe(a[1..], b[1..]))))
  }

  lemma {:induction false} TextLeTotal(a: string, b: string)
    ensures TextLe(a, b) || TextLe(b, a)
    decreases |a|
  {
    if a != [] && b != [] && a[0] == b[0] {
      TextLeTotal(a[1..], b[1..]);
    }
  }

  lemma {:induction false} TextLeTransitive(a: string, b: string, c: string)
    requires TextLe(a, b) && TextLe(b, c)
    ensures TextLe(a, c)
    decreases |a|
  {
    if a != [] && a[0] == b[0] && b[0] == c[0] {
      TextLeTransitive(a[1..], b[1..], c[1..]);
    }
  }
}

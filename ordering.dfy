/** What `ORDER BY column ASC|DESC`, `WHERE` and `LIMIT` do to a result
    set. Values compare as SQLite compares them: NULL first, then numbers,
    then text in BINARY collation. SQL leaves the order of rows with equal
    keys open; the sort below keeps them in table (rowid) order, and the
    contracts promise only what SQL promises. */
module Ordering {
  import opened Strings

  /** A column value as a sort key. */
  datatype Key = Null | Number(n: real) | Text(s: string)

  predicate KeyLe(a: Key, b: Key) {
    match (a, b)
    case (Null, _) => true
    case (_, Null) => false
    case (Number(x), Number(y)) => x <= y
    case (Number(_), Text(_)) => true
    case (Text(_), Number(_)) => false
    case (Text(x), Text(y)) => TextLe(x, y)
  }

  datatype Direction = Asc | Desc

  /** `a` may come before `b` in a result ordered in direction `dir`. */
  predicate InOrder(a: Key, b: Key, dir: Direction) {
    if dir == Asc then KeyLe(a, b) else KeyLe(b, a)
  }

  lemma InOrderTotal(a: Key, b: Key, dir: Direction)
    ensures InOrder(a, b, dir) || InOrder(b, a, dir)
  {
    if a.Text? && b.Text? { TextLeTotal(a.s, b.s); }
  }

  lemma InOrderTransitive(a: Key, b: Key, c: Key, dir: Direction)
    requires InOrder(a, b, dir) && InOrder(b, c, dir)
    ensures InOrder(a, c, dir)
  {
    if a.Text? && b.Text? && c.Text? {
      if dir == Asc { TextLeTransitive(a.s, b.s, c.s); } else { TextLeTransitive(c.s, b.s, a.s); }
    }
  }

  ghost predicate SortedBy<T>(s: seq<T>, key: T -> Key, dir: Direction) {
    forall i, j | 0 <= i < j < |s| :: InOrder(key(s[i]), key(s[j]), dir)
  }

  /** Inserts `x` before the first element it may precede. */
  function Insert<T>(x: T, s: seq<T>, key: T -> Key, dir: Direction): (r: seq<T>)
    ensures multiset(r) == multiset(s) + multiset{x}
    ensures |r| == |s| + 1
  {
    if s == [] then [x]
    else if InOrder(key(x), key(s[0]), dir) then [x] + s
    else
      assert s == [s[0]] + s[1..];
      [s[0]] + Insert(x, s[1..], key, dir)
  }

  /** Prepending an element that may precede every element keeps a
      sequence sorted. */
  lemma ConsSorted<T>(x: T, s: seq<T>, key: T -> Key, dir: Direction)
    requires SortedBy(s, key, dir)
    requires forall k | 0 <= k < |s| :: InOrder(key(x), key(s[k]), dir)
    ensures SortedBy([x] + s, key, dir)
  {
    var r := [x] + s;
    forall i, j | 0 <= i < j < |r| ensures InOrder(key(r[i]), key(r[j]), dir) {
      assert r[j] == s[j - 1];
      if i > 0 { assert r[i] == s[i - 1]; }
    }
  }

  /** An element that may precede `x` and every element of `s` may precede
      every element of `Insert(x, s)`. */
  lemma InsertBound<T>(y: T, x: T, s: seq<T>, key: T -> Key, dir: Direction)
    requires InOrder(key(y), key(x), dir)
    requires forall k | 0 <= k < |s| :: InOrder(key(y), key(s[k]), dir)
    ensures forall k | 0 <= k < |Insert(x, s, key, dir)| :: InOrder(key(y), key(Insert(x, s, key, dir)[k]), dir)
  {
    var r := Insert(x, s, key, dir);
    forall k | 0 <= k < |r| ensures InOrder(key(y), key(r[k]), dir) {
      assert r[k] in multiset(r);
      if r[k] != x {
        assert r[k] in multiset(s);
        var m :| 0 <= m < |s| && s[m] == r[k];
      }
    }
  }

  lemma {:induction false} InsertSorted<T>(x: T, s: seq<T>, key: T -> Key, dir: Direction)
    requires SortedBy(s, key, dir)
    ensures SortedBy(Insert(x, s, key, dir), key, dir)
  {
    if s == [] {
      ConsSorted(x, s, key, dir);
    } else if InOrder(key(x), key(s[0]), dir) {
      forall k | 0 <= k < |s| ensures InOrder(key(x), key(s[k]), dir) {
        if k > 0 { InOrderTransitive(key(x), key(s[0]), key(s[k]), dir); }
      }
      ConsSorted(x, s, key, dir);
    } else {
      var rest := s[1..];
      assert SortedBy(rest, key, dir) by {
        forall i, j | 0 <= i < j < |rest| ensures InOrder(key(rest[i]), key(rest[j]), dir) {
          assert rest[i] == s[i + 1] && rest[j] == s[j + 1];
        }
      }
      InsertSorted(x, rest, key, dir);
      InOrderTotal(key(x), key(s[0]), dir);
      forall k | 0 <= k < |rest| ensures InOrder(key(s[0]), key(rest[k]), dir) {
        assert rest[k] == s[k + 1];
      }
      InsertBound(s[0], x, rest, key, dir);
      ConsSorted(s[0], Insert(x, rest, key, dir), key, dir);
    }
  }

  /** The rows of `s` ordered by `key` in direction `dir` (stable insertion sort). */
  function SortBy<T>(s: seq<T>, key: T -> Key, dir: Direction): (r: seq<T>)
    ensures multiset(r) == multiset(s) && |r| == |s|
    ensures SortedBy(r, key, dir)
  {
    if s == [] then []
    else
      assert s == [s[0]] + s[1..];
      var rest := SortBy(s[1..], key, dir);
      InsertSorted(s[0], rest, key, dir);
      Insert(s[0], rest, key, dir)
  }

  /** The elements of `s` that satisfy `p`, in their original order (`WHERE`). */
  function Filter<T>(s: seq<T>, p: T -> bool): (r: seq<T>)
    ensures forall i | 0 <= i < |r| :: r[i] in s && p(r[i])
    ensures forall i | 0 <= i < |s| && p(s[i]) :: s[i] in r
    ensures multiset(r) <= multiset(s)
    ensures |r| <= |s|
  {
    if s == [] then []
    else
      assert s == [s[0]] + s[1..];
      if p(s[0]) then [s[0]] + Filter(s[1..], p) else Filter(s[1..], p)
  }

  /** `WHERE p ORDER BY key`: exactly the rows satisfying `p`, in order. */
  function SelectWhere<T>(s: seq<T>, p: T -> bool, key: T -> Key, dir: Direction): (r: seq<T>)
    ensures forall i | 0 <= i < |r| :: r[i] in s && p(r[i])
    ensures forall i | 0 <= i < |s| && p(s[i]) :: s[i] in r
    ensures multiset(r) <= multiset(s)
    ensures SortedBy(r, key, dir)
  {
    var matching := Filter(s, p);
    var r := SortBy(matching, key, dir);
    forall i | 0 <= i < |r| ensures r[i] in s && p(r[i]) {
      assert r[i] in multiset(matching);
      var k :| 0 <= k < |matching| && matching[k] == r[i];
    }
    forall i | 0 <= i < |s| && p(s[i]) ensures s[i] in r {
      assert s[i] in multiset(matching);
    }
    r
  }

  /** A sorted permutation cut at `k` (`LIMIT k`) holds rows that come no later
      than any row it leaves out. */
  lemma TakeIsFirst<T>(s: seq<T>, rows: seq<T>, key: T -> Key, dir: Direction, k: nat)
    requires multiset(s) == multiset(rows) && SortedBy(s, key, dir) && k <= |s|
    ensures forall i, e | 0 <= i < k && e in rows && e !in s[..k] :: InOrder(key(s[i]), key(e), dir)
  {
    forall i, e | 0 <= i < k && e in rows && e !in s[..k] ensures InOrder(key(s[i]), key(e), dir) {
      assert e in multiset(rows);
      assert e in s;
      var j :| 0 <= j < |s| && s[j] == e;
      assert j >= k;
    }
  }
}

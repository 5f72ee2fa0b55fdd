/**
 * The list machinery shared by the admin and browse pages: `Array.prototype.filter`,
 * `Array.prototype.map` over the rows that match an id, and `Array.prototype.sort`
 * with the comparator every page writes out,
 *
 *     (a, b) => a < b ? -1 * sortOrder : a > b ? 1 * sortOrder : 0
 *
 * with `sortOrder` 1 for "asc" and -1 for "desc", together with the sort-header
 * state machine (`handleSort`).
 *
 * A sort key is either a number (ids, prices, ratings, dates as timestamps) or a
 * string; strings compare as JavaScript compares them, code unit by code unit.
 */
module Sorting {

  datatype Direction = Asc | Desc

  /** The value a comparator reads off a row. */
  datatype Key = Num(n: int) | Text(s: string)

  /** `a < b` on two strings: lexicographic on code units, a proper prefix first. */
  predicate TextLess(a: string, b: string)
    decreases |a|
  {
    if b == [] then false
    else if a == [] then true
    else if a[0] != b[0] then a[0] < b[0]
    else TextLess(a[1..], b[1..])
  }

  lemma {:induction false} TextLessIrreflexive(a: string)
    ensures !TextLess(a, a)
    decreases |a|
  {
    if a != [] {
      TextLessIrreflexive(a[1..]);
    }
  }

  lemma {:induction false} TextLessTransitive(a: string, b: string, c: string)
    requires TextLess(a, b) && TextLess(b, c)
    ensures TextLess(a, c)
    decreases |a|
  {
    if a != [] && a[0] == b[0] && b[0] == c[0] {
      TextLessTransitive(a[1..], b[1..], c[1..]);
    }
  }

  /** Two different strings are always ordered one way or the other. */
  lemma {:induction false} TextLessTotal(a: string, b: string)
    ensures a == b || TextLess(a, b) || TextLess(b, a)
    decreases |a|
  {
    if a != [] && b != [] && a[0] == b[0] {
      TextLessTotal(a[1..], b[1..]);
      if a[1..] == b[1..] {
        assert a == [a[0]] + a[1..] && b == [b[0]] + b[1..];
      }
    }
  }

  /**
   * The strict order on keys. For one sort field the pages' key functions yield
   * keys of one kind; placing numbers before strings only makes the order total.
   */
  predicate Less(x: Key, y: Key) {
    match (x, y)
    case (Num(a), Num(b)) => a < b
    case (Text(a), Text(b)) => TextLess(a, b)
    case (Num(_), Text(_)) => true
    case (Text(_), Num(_)) => false
  }

  /** The comparator's return value for keys `x` and `y`. */
  function Compare(dir: Direction, x: Key, y: Key): (c: int)
    ensures c == 0 <==> !Less(x, y) && !Less(y, x)
    ensures dir == Asc ==> (c < 0 <==> Less(x, y))
    ensures dir == Desc ==> (c < 0 <==> Less(y, x))
  {
    var sign := if dir == Asc then 1 else -1;
    if Less(x, y) then LessAsymmetric(x, y); -1 * sign
    else if Less(y, x) then 1 * sign
    else 0
  }

  lemma LessAsymmetric(x: Key, y: Key)
    requires Less(x, y)
    ensures !Less(y, x)
  {
    if Less(y, x) {
      LessTransitive(x, y, x);
      LessIrreflexive(x);
    }
  }

  lemma LessIrreflexive(x: Key)
    ensures !Less(x, x)
  {
    if x.Text? {
      TextLessIrreflexive(x.s);
    }
  }

  lemma LessTransitive(x: Key, y: Key, z: Key)
    requires Less(x, y) && Less(y, z)
    ensures Less(x, z)
  {
    if x.Text? && y.Text? && z.Text? {
      TextLessTransitive(x.s, y.s, z.s);
    }
  }

  lemma LessTotal(x: Key, y: Key)
    ensures x == y || Less(x, y) || Less(y, x)
  {
    if x.Text? && y.Text? {
      TextLessTotal(x.s, y.s);
    }
  }

  /** `x` may stand before `y` in the sorted output: the comparator does not put it after. */
  predicate InOrder(dir: Direction, x: Key, y: Key) {
    Compare(dir, x, y) <= 0
  }

  /** Any two keys can be placed one way or the other. */
  lemma InOrderTotal(dir: Direction, x: Key, y: Key)
    ensures InOrder(dir, x, y) || InOrder(dir, y, x)
  {
    LessTotal(x, y);
    LessIrreflexive(x);
  }

  lemma InOrderTransitive(dir: Direction, x: Key, y: Key, z: Key)
    requires InOrder(dir, x, y) && InOrder(dir, y, z)
    ensures InOrder(dir, x, z)
  {
    LessTotal(x, y);
    LessTotal(y, z);
    LessTotal(x, z);
    if Less(x, z) && Less(z, y) { LessTransitive(x, z, y); }
    if Less(z, x) && Less(x, y) { LessTransitive(z, x, y); }
    if Less(y, x) && Less(z, y) { LessTransitive(z, y, x); }
    if Less(x, y) && Less(y, z) { LessTransitive(x, y, z); }
    if Less(z, y) && Less(y, x) { LessTransitive(z, y, x); }
    if Less(y, z) && Less(x, y) { LessTransitive(x, y, z); }
    if Less(y, z) && Less(z, x) { LessTransitive(y, z, x); }
    if Less(x, z) && Less(y, x) { LessTransitive(y, x, z); }
  }

  /** Every earlier row may stand before every later one. */
  predicate SortedBy<T>(s: seq<T>, key: T -> Key, dir: Direction) {
    forall i, j | 0 <= i < j < |s| :: InOrder(dir, key(s[i]), key(s[j]))
  }

  /** Places `x` in front of the first row it may stand before. */
  function InsertBy<T(==)>(x: T, s: seq<T>, key: T -> Key, dir: Direction): (r: seq<T>)
    requires SortedBy(s, key, dir)
    ensures multiset(r) == multiset(s) + multiset{x}
    ensures SortedBy(r, key, dir)
    decreases |s|
  {
    if s == [] || InOrder(dir, key(x), key(s[0])) then
      InsertFront(x, s, key, dir);
      [x] + s
    else
      InOrderTotal(dir, key(x), key(s[0]));
      var rest := InsertBy(x, s[1..], key, dir);
      assert s == [s[0]] + s[1..];
      InsertBehind(s[0], rest, key, dir);
      [s[0]] + rest
  }

  lemma InsertFront<T>(x: T, s: seq<T>, key: T -> Key, dir: Direction)
    requires SortedBy(s, key, dir)
    requires s == [] || InOrder(dir, key(x), key(s[0]))
    ensures SortedBy([x] + s, key, dir)
  {
    var r := [x] + s;
    forall i, j | 0 <= i < j < |r| ensures InOrder(dir, key(r[i]), key(r[j])) {
      if i == 0 && j > 1 {
        InOrderTransitive(dir, key(x), key(s[0]), key(s[j - 1]));
      }
    }
  }

  lemma InsertBehind<T>(y: T, rest: seq<T>, key: T -> Key, dir: Direction)
    requires SortedBy(rest, key, dir)
    requires forall z | z in multiset(rest) :: InOrder(dir, key(y), key(z))
    ensures SortedBy([y] + rest, key, dir)
  {
    var r := [y] + rest;
    forall i, j | 0 <= i < j < |r| ensures InOrder(dir, key(r[i]), key(r[j])) {
      if i == 0 {
        assert r[j] == rest[j - 1];
        assert rest[j - 1] in multiset(rest);
      }
    }
  }

  /**
   * `Array.prototype.sort` with the page comparator: the rows rearranged so that
   * each may stand before every later one.
   */
  function SortBy<T(==)>(s: seq<T>, key: T -> Key, dir: Direction): (r: seq<T>)
    ensures multiset(r) == multiset(s)
    ensures SortedBy(r, key, dir)
    decreases |s|
  {
    if s == [] then []
    else
      assert s == [s[0]] + s[1..];
      InsertBy(s[0], SortBy(s[1..], key, dir), key, dir)
  }

  /** `Array.prototype.filter`: the rows that pass, each as often as in the input. */
  function Filter<T(==,!new)>(s: seq<T>, keep: T -> bool): (r: seq<T>)
    ensures forall x :: multiset(r)[x] == if keep(x) then multiset(s)[x] else 0
    ensures |r| <= |s|
    decreases |s|
  {
    if s == [] then []
    else
      assert s == [s[0]] + s[1..];
      (if keep(s[0]) then [s[0]] else []) + Filter(s[1..], keep)
  }

  /** A row is kept by `Filter` exactly when it is in the input and passes. */
  lemma FilterMembers<T(!new)>(s: seq<T>, keep: T -> bool, x: T)
    ensures x in Filter(s, keep) <==> x in s && keep(x)
  {
    var r := Filter(s, keep);
    assert x in r <==> x in multiset(r);
    assert x in s <==> x in multiset(s);
  }

  /** When every row passes, `Filter` gives the rows back unchanged and in order. */
  lemma {:induction false} FilterKeepsAll<T(!new)>(s: seq<T>, keep: T -> bool)
    requires forall x | x in s :: keep(x)
    ensures Filter(s, keep) == s
    decreases |s|
  {
    if s != [] {
      FilterKeepsAll(s[1..], keep);
      assert s == [s[0]] + s[1..];
    }
  }

  /** `rows.map(p => hit(p) ? change(p) : p)`: the rows that match are replaced, the rest kept. */
  function MapWhere<T>(s: seq<T>, hit: T -> bool, change: T -> T): (r: seq<T>)
    ensures |r| == |s|
    ensures forall i | 0 <= i < |s| :: r[i] == if hit(s[i]) then change(s[i]) else s[i]
  {
    seq(|s|, i requires 0 <= i < |s| => if hit(s[i]) then change(s[i]) else s[i])
  }

  /** The sort header: which column orders the table and in which direction. */
  datatype SortState = SortState(field: string, dir: Direction)

  function Flip(d: Direction): Direction {
    if d == Asc then Desc else Asc
  }

  /**
   * `handleSort(field)`: a click on the current column flips its direction; a click
   * on another column selects it in the page's starting direction `initial`.
   */
  function Click(st: SortState, field: string, initial: Direction): (r: SortState)
    ensures r.field == field
    ensures st.field == field ==> r.dir != st.dir
    ensures st.field != field ==> r.dir == initial
  {
    if st.field == field then SortState(field, Flip(st.dir)) else SortState(field, initial)
  }

  /** Two clicks on the current column give the table back as it was. */
  lemma ClickTwiceRestores(st: SortState, initial: Direction)
    ensures Click(Click(st, st.field, initial), st.field, initial) == st
  {
  }

  /** A click on a new column and a second click on it leave it in the opposite direction. */
  lemma ClickNewThenSame(st: SortState, field: string, initial: Direction)
    requires st.field != field
    ensures Click(Click(st, field, initial), field, initial) == SortState(field, Flip(initial))
  {
  }
}

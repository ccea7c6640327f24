/**
 * The dashboard tables: the column-sort toggle and comparator, the
 * case-insensitive row search, the raw-telemetry cell rule and the CSV
 * export.
 */
module Tables {
  import opened Values
  import opened Seqs
  import opened Sorting

  // ---------------------------------------------------------------------
  // Sort state and the toggle

  datatype SortDir = Asc | Desc

  /** `{ column, dir }`; both are null until the first click. */
  datatype SortState = SortState(column: Option<string>, dir: Option<SortDir>)

  const Unsorted := SortState(None, None)

  /** A click on `column`: the column currently sorted ascending turns
      descending, anything else sorts ascending. */
  function NextSort(current: SortState, column: string): SortState {
    SortState(Some(column),
      Some(if current.column == Some(column) && current.dir == Some(Asc) then Desc else Asc))
  }

  lemma NextSortToggle(current: SortState, column: string)
    ensures NextSort(current, column).column == Some(column)
    ensures NextSort(current, column).dir == Some(Desc) <==> current == SortState(Some(column), Some(Asc))
    ensures NextSort(NextSort(current, column), column).dir != NextSort(current, column).dir
    ensures NextSort(NextSort(NextSort(current, column), column), column) == NextSort(current, column)
  {
  }

  // ---------------------------------------------------------------------
  // Sort keys

  /** What `<` compares once the comparator has converted the two cells:
      numbers, lower-cased strings, Date time values (None for an invalid
      date, whose time value is NaN) or anything else. */
  datatype Key = NumKey(n: real) | TextKey(s: string) | TimeKey(t: Option<real>) | OtherKey

  /** `column.includes('Reporte') || column.includes('time')`. */
  predicate IsDateColumn(column: string) {
    Contains(column, "Reporte") || Contains(column, "time")
  }

  /** ToIntegerOrInfinity on a finite number: truncation toward zero. */
  function Trunc(x: real): (r: int)
    ensures x >= 0.0 ==> r as real <= x < r as real + 1.0
    ensures x < 0.0 ==> r as real - 1.0 < x <= r as real
  {
    if x >= 0.0 then x.Floor else -((-x).Floor)
  }

  /** TimeClip: a time value beyond 8.64e15 ms is NaN. */
  function TimeClip(x: real): Option<real> {
    if x > 8640000000000000.0 || x < -8640000000000000.0 then None else Some(Trunc(x) as real)
  }

  /** `new Date(v)` as a time value; `parse` is Date.parse on strings. */
  function DateValue(v: Value, parse: string -> Option<real>): Option<real> {
    match v
    case Str(s) => parse(s)
    case Num(n) => TimeClip(n)
    case Bool(b) => Some(if b then 1.0 else 0.0)
    case Null => Some(0.0)
    case Arr(_) => None
    case Obj(_) => None
  }

  function KeyOf(v: Value, column: string, parse: string -> Option<real>): Key {
    if IsDateColumn(column) then TimeKey(DateValue(v, parse))
    else
      match v
      case Str(s) => TextKey(Lower(s))
      case Num(n) => NumKey(n)
      case Bool(b) => NumKey(if b then 1.0 else 0.0)
      case Null => NumKey(0.0)
      case Arr(_) => OtherKey
      case Obj(_) => OtherKey
  }

  /** The key of a row's cell; rows whose cell is null or undefined are
      handled before any key is computed. */
  function RowKey(r: Row, column: string, parse: string -> Option<real>): Key {
    var v := Get(r, column);
    if Nullish(v) then OtherKey else KeyOf(v.value, column, parse)
  }

  /** String `<`: lexicographic by character. */
  predicate TextLess(a: string, b: string) {
    if a == [] then b != []
    else if b == [] then false
    else if a[0] < b[0] then true
    else if a[0] == b[0] then TextLess(a[1..], b[1..])
    else false
  }

  /** `<` after conversion; values of different kinds are never less. */
  predicate KeyLess(a: Key, b: Key) {
    match (a, b)
    case (NumKey(x), NumKey(y)) => x < y
    case (TextKey(s), TextKey(t)) => TextLess(s, t)
    case (TimeKey(Some(x)), TimeKey(Some(y))) => x < y
    case _ => false
  }

  /** Two keys `<` can order: both numbers, both strings, or both valid
      dates. */
  predicate Comparable(a: Key, b: Key) {
    (a.NumKey? && b.NumKey?) || (a.TextKey? && b.TextKey?)
    || (a.TimeKey? && b.TimeKey? && a.t.Some? && b.t.Some?)
  }

  lemma {:induction false} TextLessIrreflexive(a: string)
    ensures !TextLess(a, a)
  {
    if a != [] {
      TextLessIrreflexive(a[1..]);
    }
  }

  lemma {:induction false} TextLessTransitive(a: string, b: string, c: string)
    requires TextLess(a, b) && TextLess(b, c)
    ensures TextLess(a, c)
  {
    if a != [] && a[0] == b[0] && b[0] == c[0] {
      TextLessTransitive(a[1..], b[1..], c[1..]);
    }
  }

  lemma {:induction false} TextLessTotal(a: string, b: string)
    requires a != b
    ensures TextLess(a, b) || TextLess(b, a)
  {
    if a != [] && b != [] && a[0] == b[0] {
      assert a == [a[0]] + a[1..] && b == [b[0]] + b[1..];
      TextLessTotal(a[1..], b[1..]);
    }
  }

  /** `<` on converted cells is a strict order, total on comparable keys. */
  lemma KeyLessOrder(a: Key, b: Key, c: Key)
    ensures !KeyLess(a, a)
    ensures KeyLess(a, b) && KeyLess(b, c) ==> KeyLess(a, c)
    ensures Comparable(a, b) && a != b ==> KeyLess(a, b) || KeyLess(b, a)
  {
    if a.TextKey? {
      TextLessIrreflexive(a.s);
      if b.TextKey? && c.TextKey? && KeyLess(a, b) && KeyLess(b, c) {
        TextLessTransitive(a.s, b.s, c.s);
      }
      if b.TextKey? && a != b {
        TextLessTotal(a.s, b.s);
      }
    }
  }

  // ---------------------------------------------------------------------
  // The comparator

  /** The comparator of the sort handler: a null or undefined cell on the
      left sorts after, on the right before; then `<` and `>` on the
      converted keys decide, by direction; otherwise a tie. */
  function Compare(a: Row, b: Row, column: string, dir: SortDir, parse: string -> Option<real>): int {
    var av, bv := Get(a, column), Get(b, column);
    if Nullish(av) then 1
    else if Nullish(bv) then -1
    else
      var ka, kb := KeyOf(av.value, column, parse), KeyOf(bv.value, column, parse);
      if KeyLess(ka, kb) then (if dir == Asc then -1 else 1)
      else if KeyLess(kb, ka) then (if dir == Asc then 1 else -1)
      else 0
  }

  function Comparator(column: string, dir: SortDir, parse: string -> Option<real>): (Row, Row) -> int {
    (a: Row, b: Row) => Compare(a, b, column, dir, parse)
  }

  function AbsentIn(column: string): Row -> bool {
    (r: Row) => Nullish(Get(r, column))
  }

  /** The rows with a value in `column`, and those without, in input order. */
  function Present(rows: seq<Row>, column: string): seq<Row> {
    Reject(rows, AbsentIn(column))
  }

  function Absent(rows: seq<Row>, column: string): seq<Row> {
    Filter(rows, AbsentIn(column))
  }

  /** `[...data].sort(comparator)`: a sorted copy. */
  function SortRows(rows: seq<Row>, column: string, dir: SortDir, parse: string -> Option<real>): seq<Row> {
    InsertionSort(rows, Comparator(column, dir, parse))
  }

  /** All present cells of the column convert to keys `<` can order. */
  ghost predicate UniformColumn(rows: seq<Row>, column: string, parse: string -> Option<real>) {
    forall a, b {:trigger a in rows, b in rows} ::
      a in rows && b in rows && !Nullish(Get(a, column)) && !Nullish(Get(b, column))
      ==> Comparable(RowKey(a, column, parse), RowKey(b, column, parse))
  }

  lemma NullsAfterEverything(column: string, dir: SortDir, parse: string -> Option<real>)
    ensures BottomLast(Comparator(column, dir, parse), AbsentIn(column))
  {
  }

  /** Rows without a value go last, in input order, in both directions; the
      rows with a value are sorted among themselves. The result is a
      permutation of the input. */
  lemma SortRowsNullsLast(rows: seq<Row>, column: string, dir: SortDir, parse: string -> Option<real>)
    ensures SortRows(rows, column, dir, parse)
      == InsertionSort(Present(rows, column), Comparator(column, dir, parse)) + Absent(rows, column)
    ensures multiset(SortRows(rows, column, dir, parse)) == multiset(rows)
  {
    NullsAfterEverything(column, dir, parse);
    InsertionSortBottomLast(rows, Comparator(column, dir, parse), AbsentIn(column));
    InsertionSortPermutation(rows, Comparator(column, dir, parse));
  }

  /** Under a uniform column the comparator is consistent on the rows with a
      value. */
  lemma ComparatorConsistent(rows: seq<Row>, column: string, dir: SortDir, parse: string -> Option<real>)
    requires UniformColumn(rows, column, parse)
    ensures Consistent(Present(rows, column), Comparator(column, dir, parse))
  {
    var u := Present(rows, column);
    var cmp := Comparator(column, dir, parse);
    forall a, b | a in u && b in u
      ensures cmp(a, b) < 0 <==> cmp(b, a) > 0
    {
      KeyLessOrder(RowKey(a, column, parse), RowKey(b, column, parse), RowKey(a, column, parse));
      KeyLessOrder(RowKey(b, column, parse), RowKey(a, column, parse), RowKey(b, column, parse));
    }
    forall a, b, c | a in u && b in u && c in u && cmp(a, b) <= 0 && cmp(b, c) <= 0
      ensures cmp(a, c) <= 0
    {
      var ka, kb, kc := RowKey(a, column, parse), RowKey(b, column, parse), RowKey(c, column, parse);
      assert Comparable(ka, kb) && Comparable(kb, kc) && Comparable(kc, ka);
      KeyLessOrder(ka, kb, kc);
      KeyLessOrder(kc, ka, kb);
      KeyLessOrder(kb, kc, ka);
      KeyLessOrder(kc, kb, ka);
      KeyLessOrder(ka, kc, kb);
      KeyLessOrder(kb, ka, kc);
    }
  }

  /** With a uniform column the rows with a value come first, ordered by
      key (ascending, or descending for Desc), then the rows without one. */
  lemma SortRowsOrder(rows: seq<Row>, column: string, dir: SortDir, parse: string -> Option<real>)
    requires UniformColumn(rows, column, parse)
    ensures var s := SortRows(rows, column, dir, parse);
      var n := |Present(rows, column)|;
      |s| == |rows| && n <= |s|
      && (forall i :: 0 <= i < n ==> !Nullish(Get(s[i], column)))
      && (forall i :: n <= i < |s| ==> Nullish(Get(s[i], column)))
      && (forall i, j :: 0 <= i < j < n ==> InOrder(s[i], s[j], column, dir, parse))
  {
    var cmp := Comparator(column, dir, parse);
    var p := Present(rows, column);
    SortRowsNullsLast(rows, column, dir, parse);
    ComparatorConsistent(rows, column, dir, parse);
    InsertionSortSorted(p, cmp);
    var t := InsertionSort(p, cmp);
    assert forall r :: r in p ==> !Nullish(Get(r, column));
    SortedPresentPart(p, column, dir, parse);
    ArrangedConcat(t, Absent(rows, column), column, dir, parse);
  }

  /** Rows with a value in order, followed by rows without one. */
  lemma ArrangedConcat(t: seq<Row>, a: seq<Row>, column: string, dir: SortDir, parse: string -> Option<real>)
    requires forall i :: 0 <= i < |t| ==> !Nullish(Get(t[i], column))
    requires forall i, j :: 0 <= i < j < |t| ==> InOrder(t[i], t[j], column, dir, parse)
    requires forall r :: r in a ==> Nullish(Get(r, column))
    ensures var s := t + a;
      (forall i :: 0 <= i < |t| ==> !Nullish(Get(s[i], column)))
      && (forall i :: |t| <= i < |s| ==> Nullish(Get(s[i], column)))
      && (forall i, j :: 0 <= i < j < |t| ==> InOrder(s[i], s[j], column, dir, parse))
  {
    var s := t + a;
    forall i | |t| <= i < |s|
      ensures Nullish(Get(s[i], column))
    {
      assert s[i] == a[i - |t|];
    }
  }

  /** Row `a` may precede row `b`: not after it by key in the direction. */
  predicate InOrder(a: Row, b: Row, column: string, dir: SortDir, parse: string -> Option<real>) {
    if dir == Asc then !KeyLess(RowKey(b, column, parse), RowKey(a, column, parse))
    else !KeyLess(RowKey(a, column, parse), RowKey(b, column, parse))
  }

  lemma SortedPresentPart(p: seq<Row>, column: string, dir: SortDir, parse: string -> Option<real>)
    requires forall r :: r in p ==> !Nullish(Get(r, column))
    requires Sorted(InsertionSort(p, Comparator(column, dir, parse)), Comparator(column, dir, parse))
    ensures var t := InsertionSort(p, Comparator(column, dir, parse));
      (forall i :: 0 <= i < |t| ==> !Nullish(Get(t[i], column)))
      && (forall i, j :: 0 <= i < j < |t| ==> InOrder(t[i], t[j], column, dir, parse))
  {
    var cmp := Comparator(column, dir, parse);
    var t := InsertionSort(p, cmp);
    InsertionSortPermutation(p, cmp);
    forall i | 0 <= i < |t|
      ensures !Nullish(Get(t[i], column))
    {
      assert t[i] in multiset(p);
    }
    forall i, j | 0 <= i < j < |t|
      ensures InOrder(t[i], t[j], column, dir, parse)
    {
      assert cmp(t[i], t[j]) <= 0;
      CompareInOrder(t[i], t[j], column, dir, parse);
    }
  }

  /** A comparator result of at most 0 between rows with values means the
      first is not after the second by key. */
  lemma CompareInOrder(a: Row, b: Row, column: string, dir: SortDir, parse: string -> Option<real>)
    requires !Nullish(Get(a, column)) && !Nullish(Get(b, column))
    ensures Compare(a, b, column, dir, parse) <= 0 <==> InOrder(a, b, column, dir, parse)
  {
    KeyLessOrder(RowKey(a, column, parse), RowKey(b, column, parse), RowKey(a, column, parse));
  }

  lemma {:induction false} TiesIgnoreAbsent(rows: seq<Row>, x: Row, column: string, dir: SortDir, parse: string -> Option<real>)
    requires !Nullish(Get(x, column))
    ensures Ties(rows, x, Comparator(column, dir, parse)) == Ties(Present(rows, column), x, Comparator(column, dir, parse))
  {
    if rows != [] {
      var cmp := Comparator(column, dir, parse);
      var front, last := rows[..|rows| - 1], rows[|rows| - 1];
      TiesIgnoreAbsent(front, x, column, dir, parse);
      assert Ties(rows, x, cmp) == Ties(front, x, cmp) + (if cmp(x, last) == 0 then [last] else []);
      if Nullish(Get(last, column)) {
        assert cmp(x, last) == -1;
        assert Present(rows, column) == Present(front, column);
      } else {
        assert Present(rows, column) == Present(front, column) + [last];
        TiesAppend(Present(front, column), [last], x, cmp);
        assert Ties([last], x, cmp) == (if cmp(x, last) == 0 then [last] else []);
      }
    }
  }

  lemma {:induction false} NoTiesAmongAbsent(rows: seq<Row>, x: Row, column: string, dir: SortDir, parse: string -> Option<real>)
    requires !Nullish(Get(x, column))
    requires forall i :: 0 <= i < |rows| ==> Nullish(Get(rows[i], column))
    ensures Ties(rows, x, Comparator(column, dir, parse)) == []
  {
    if rows != [] {
      NoTiesAmongAbsent(rows[..|rows| - 1], x, column, dir, parse);
    }
  }

  /** Stability: rows whose keys tie with a row `x` keep their input order,
      since the comparator returns 0 for them. */
  lemma SortRowsStable(rows: seq<Row>, column: string, dir: SortDir, parse: string -> Option<real>, x: Row)
    requires UniformColumn(rows, column, parse)
    requires x in rows && !Nullish(Get(x, column))
    ensures Ties(SortRows(rows, column, dir, parse), x, Comparator(column, dir, parse))
         == Ties(rows, x, Comparator(column, dir, parse))
  {
    var cmp := Comparator(column, dir, parse);
    var p := Present(rows, column);
    var a := Absent(rows, column);
    SortRowsNullsLast(rows, column, dir, parse);
    ComparatorConsistent(rows, column, dir, parse);
    assert x in p;
    assert forall y :: y in p + [x] ==> y in p;
    ConsistentSub(p, p + [x], cmp);
    InsertionSortStable(p, x, cmp);
    TiesAppend(InsertionSort(p, cmp), a, x, cmp);
    assert forall i :: 0 <= i < |a| ==> a[i] in a;
    NoTiesAmongAbsent(a, x, column, dir, parse);
    TiesIgnoreAbsent(rows, x, column, dir, parse);
  }

  /** No two different rows with a value share a key. */
  ghost predicate DistinctKeys(rows: seq<Row>, column: string, parse: string -> Option<real>) {
    forall a, b {:trigger a in rows, b in rows} ::
      a in rows && b in rows && !Nullish(Get(a, column)) && !Nullish(Get(b, column))
      && RowKey(a, column, parse) == RowKey(b, column, parse)
      ==> a == b
  }

  /** The rows are in key order for the direction. */
  predicate InKeyOrder(t: seq<Row>, column: string, dir: SortDir, parse: string -> Option<real>) {
    forall i, j :: 0 <= i < j < |t| ==> InOrder(t[i], t[j], column, dir, parse)
  }

  lemma InKeyOrderTail(t: seq<Row>, column: string, dir: SortDir, parse: string -> Option<real>)
    requires t != [] && InKeyOrder(t, column, dir, parse)
    ensures InKeyOrder(t[1..], column, dir, parse)
  {
    forall i, j | 0 <= i < j < |t| - 1
      ensures InOrder(t[1..][i], t[1..][j], column, dir, parse)
    {
      assert t[1..][i] == t[i + 1] && t[1..][j] == t[j + 1];
    }
  }

  /** With distinct keys there is only one arrangement in key order. */
  lemma {:induction false} SortedUnique(t1: seq<Row>, t2: seq<Row>, rows: seq<Row>, column: string, dir: SortDir, parse: string -> Option<real>)
    requires UniformColumn(rows, column, parse) && DistinctKeys(rows, column, parse)
    requires multiset(t1) == multiset(t2)
    requires forall x :: x in t1 ==> x in rows && !Nullish(Get(x, column))
    requires InKeyOrder(t1, column, dir, parse) && InKeyOrder(t2, column, dir, parse)
    ensures t1 == t2
  {
    if t1 == [] {
      assert |multiset(t2)| == 0;
    } else {
      assert t1[0] in multiset(t2) && t2 != [];
      assert t2[0] in multiset(t1);
      HeadsEqual(t1, t2, rows, column, dir, parse);
      MultisetTail(t1, t2);
      forall x | x in t1[1..]
        ensures x in rows && !Nullish(Get(x, column))
      {
        assert x in t1;
      }
      InKeyOrderTail(t1, column, dir, parse);
      InKeyOrderTail(t2, column, dir, parse);
      SortedUnique(t1[1..], t2[1..], rows, column, dir, parse);
      assert t1 == [t1[0]] + t1[1..];
      assert t2 == [t2[0]] + t2[1..];
    }
  }

  lemma HeadsEqual(t1: seq<Row>, t2: seq<Row>, rows: seq<Row>, column: string, dir: SortDir, parse: string -> Option<real>)
    requires UniformColumn(rows, column, parse) && DistinctKeys(rows, column, parse)
    requires t1 != [] && t2 != [] && t1[0] in t2 && t2[0] in t1
    requires forall x :: x in t1 ==> x in rows && !Nullish(Get(x, column))
    requires InKeyOrder(t1, column, dir, parse) && InKeyOrder(t2, column, dir, parse)
    ensures t1[0] == t2[0]
  {
    var a, b := t1[0], t2[0];
    assert a in t1;
    var k :| 0 <= k < |t2| && t2[k] == a;
    var m :| 0 <= m < |t1| && t1[m] == b;
    var ka, kb := RowKey(a, column, parse), RowKey(b, column, parse);
    KeyLessOrder(ka, kb, ka);
    KeyLessOrder(kb, ka, kb);
    if k > 0 {
      assert InOrder(t2[0], t2[k], column, dir, parse);
    }
    if m > 0 {
      assert InOrder(t1[0], t1[m], column, dir, parse);
    }
    assert Comparable(ka, kb);
  }

  /** With distinct keys, sorting "desc" gives the rows with values in
      exactly the reverse order of "asc"; rows without one stay last, in
      input order. */
  lemma SortDescReversesAsc(rows: seq<Row>, column: string, parse: string -> Option<real>)
    requires UniformColumn(rows, column, parse) && DistinctKeys(rows, column, parse)
    ensures var n := |Present(rows, column)|;
      n <= |rows|
      && SortRows(rows, column, Desc, parse)
         == Reverse(SortRows(rows, column, Asc, parse)[..n]) + Absent(rows, column)
  {
    var p := Present(rows, column);
    var asc, desc := Comparator(column, Asc, parse), Comparator(column, Desc, parse);
    SortRowsNullsLast(rows, column, Asc, parse);
    SortRowsNullsLast(rows, column, Desc, parse);
    ComparatorConsistent(rows, column, Asc, parse);
    ComparatorConsistent(rows, column, Desc, parse);
    InsertionSortSorted(p, asc);
    InsertionSortSorted(p, desc);
    assert forall r :: r in p ==> !Nullish(Get(r, column));
    SortedPresentPart(p, column, Asc, parse);
    SortedPresentPart(p, column, Desc, parse);
    var ta, td := InsertionSort(p, asc), InsertionSort(p, desc);
    assert SortRows(rows, column, Asc, parse)[..|p|] == ta;
    var r := Reverse(ta);
    InsertionSortPermutation(p, asc);
    InsertionSortPermutation(p, desc);
    ReversePermutation(ta);
    forall i, j | 0 <= i < j < |r|
      ensures InOrder(r[i], r[j], column, Desc, parse)
    {
      assert InOrder(ta[|ta| - 1 - j], ta[|ta| - 1 - i], column, Asc, parse);
    }
    forall x | x in r
      ensures x in rows && !Nullish(Get(x, column))
    {
      assert x in multiset(p);
    }
    SortedUnique(r, td, rows, column, Desc, parse);
  }

  /** Between two rows with values, "desc" is exactly "asc" reversed; rows
      without a value sort after in both directions. */
  lemma DescReversesAsc(a: Row, b: Row, column: string, parse: string -> Option<real>)
    ensures !Nullish(Get(a, column)) && !Nullish(Get(b, column)) ==>
      Compare(a, b, column, Desc, parse) == -Compare(a, b, column, Asc, parse)
    ensures Nullish(Get(a, column)) || Nullish(Get(b, column)) ==>
      Compare(a, b, column, Desc, parse) == Compare(a, b, column, Asc, parse)
  {
  }

  // ---------------------------------------------------------------------
  // Formatted cells

  /** `row[column]?.toFixed(n)` throws: the cell is there and is not a
      number, so `toFixed` is undefined and calling it is a TypeError. */
  predicate FixedThrows(row: Row, column: string) {
    !Nullish(Get(row, column)) && !Get(row, column).value.Num?
  }

  /** Drawing `rows` throws at some cell of `columns` formatted with
      `toFixed`. */
  predicate RowsThrow(rows: seq<Row>, columns: seq<string>) {
    exists i, k :: 0 <= i < |rows| && 0 <= k < |columns| && FixedThrows(rows[i], columns[k])
  }

  /** The cells `renderScorecard` formats with `toFixed`. */
  const ScorecardFixed: seq<string> := ["Distancia_Recorrida_(KM)"]

  /** The cells `renderStats` formats with `toFixed`. */
  const StatsFixed: seq<string> :=
    ["Distancia_Recorrida_(KM)", "Velocidad_Promedio_(KPH)", "RPM_Promedio", "Nivel_Combustible_Promedio_%"]

  /** `rows.map(row => ...)` over the formatted cells of a table body, row
      by row and cell by cell; `threw` when a `toFixed` throws, in which
      case the body is not replaced. */
  method FormatRows(rows: seq<Row>, columns: seq<string>) returns (threw: bool)
    ensures threw == RowsThrow(rows, columns)
  {
    var i := 0;
    while i < |rows|
      invariant 0 <= i <= |rows|
      invariant forall j, k :: 0 <= j < i && 0 <= k < |columns| ==> !FixedThrows(rows[j], columns[k])
    {
      var k := 0;
      while k < |columns|
        invariant 0 <= k <= |columns|
        invariant forall c :: 0 <= c < k ==> !FixedThrows(rows[i], columns[c])
      {
        if FixedThrows(rows[i], columns[k]) {
          return true;
        }
        k := k + 1;
      }
      i := i + 1;
    }
    return false;
  }

  /** The scorecard's formatted cell is one of the stats table's, so a
      scorecard that throws would throw in the stats table too. */
  lemma ScorecardThrowInStats(rows: seq<Row>)
    ensures RowsThrow(rows, ScorecardFixed) ==> RowsThrow(rows, StatsFixed)
  {
    if RowsThrow(rows, ScorecardFixed) {
      var i, k :| 0 <= i < |rows| && 0 <= k < |ScorecardFixed| && FixedThrows(rows[i], ScorecardFixed[k]);
      assert FixedThrows(rows[i], StatsFixed[0]);
    }
  }

  // ---------------------------------------------------------------------
  // Search

  /** A body row stays visible iff its upper-cased text contains the
      upper-cased query. */
  predicate Visible(text: string, query: string) {
    Contains(Upper(text), Upper(query))
  }

  /** The search box's keyup handler over the table's rows (row 0 is the
      header row): `display[i]` is whether row i is shown. */
  method ApplySearch(texts: seq<string>, display: array<bool>, query: string)
    requires display.Length == |texts|
    modifies display
    ensures display.Length > 0 ==> display[0] == old(display[0])
    ensures forall i :: 1 <= i < display.Length ==> display[i] == Visible(texts[i], query)
  {
    if display.Length == 0 {
      return;
    }
    var filter := Upper(query);
    for i := 1 to display.Length
      invariant display.Length > 0 ==> display[0] == old(display[0])
      invariant forall k :: 1 <= k < i ==> display[k] == Visible(texts[k], query)
    {
      display[i] := Contains(Upper(texts[i]), filter);
    }
  }

  lemma {:induction false} UpperLower(s: string)
    ensures Upper(Lower(s)) == Upper(s)
  {
    var l := Upper(Lower(s));
    forall i | 0 <= i < |s|
      ensures l[i] == Upper(s)[i]
    {
    }
  }

  /** The search ignores case on both sides, an empty query shows every
      row, and a visible row has the query at some position. */
  lemma SearchProperties(text: string, query: string)
    ensures Visible(text, "")
    ensures Visible(Lower(text), query) == Visible(text, query)
    ensures Visible(text, Lower(query)) == Visible(text, query)
    ensures Visible(text, query) <==> exists i :: OccursAt(Upper(text), Upper(query), i)
    ensures Visible(text, query) ==> |query| <= |text|
  {
    UpperLower(text);
    UpperLower(query);
    ContainsWitness(Upper(text), Upper(query));
  }

  // ---------------------------------------------------------------------
  // Raw telemetry table

  const RawColumns: seq<string> := [
    "imei", "time", "receiveTimestamp", "delay_seconds", "lat", "lng",
    "altitude", "speed", "heading", "lastFixTime", "isMoving",
    "batteryLevelPercentage", "reportMode", "quality", "mileage",
    "ignitionOn", "externalPowerVcc", "digitalInput", "driverId",
    "engineRPM", "vehicleSpeed", "engineCoolantTemperature",
    "totalDistance", "totalFuelUsed", "fuelLevelInput", "event_type"]

  datatype Cell = Blank | Shown(v: Value)

  /** A cell is blank for undefined and null, and shows the value
      otherwise, falsy values included. */
  function RawCell(row: Row, column: string): Cell {
    var v := Get(row, column);
    if v.Some? && !v.value.Null? then Shown(v.value) else Blank
  }

  function RawRow(row: Row): (cells: seq<Cell>)
    ensures |cells| == |RawColumns|
    ensures forall i :: 0 <= i < |RawColumns| ==> cells[i] == RawCell(row, RawColumns[i])
  {
    seq(|RawColumns|, i requires 0 <= i < |RawColumns| => RawCell(row, RawColumns[i]))
  }

  function RawBody(rows: seq<Row>): (body: seq<seq<Cell>>)
    ensures |body| == |rows|
    ensures forall i :: 0 <= i < |rows| ==> body[i] == RawRow(rows[i])
  {
    seq(|rows|, i requires 0 <= i < |rows| => RawRow(rows[i]))
  }

  lemma RawCellRule(row: Row, column: string)
    ensures RawCell(row, column) == Blank <==> Nullish(Get(row, column))
    ensures RawCell(row, column).Shown? ==> Some(RawCell(row, column).v) == Get(row, column)
    ensures Get(row, column) in {Some(Num(0.0)), Some(Bool(false)), Some(Str(""))}
      ==> RawCell(row, column) == Shown(Get(row, column).value)
  {
  }

  /** The raw table: the header row and the body rows as rendered. */
  class RawTable {
    var header: seq<string>
    var body: seq<seq<Cell>>

    constructor ()
      ensures header == [] && body == []
    {
      header := [];
      body := [];
    }

    /** `renderRaw(rows)`: missing or empty rows leave the table as it was. */
    method Render(rows: Option<seq<Row>>)
      modifies this
      ensures rows.None? || rows.value == [] ==> header == old(header) && body == old(body)
      ensures rows.Some? && rows.value != [] ==> header == RawColumns && body == RawBody(rows.value)
    {
      if rows.None? || rows.value == [] {
        return;
      }
      header := RawColumns;
      body := RawBody(rows.value);
    }
  }

  // ---------------------------------------------------------------------
  // CSV export

  function ImeiIs(imei: string): Row -> bool {
    (r: Row) => Get(r, "imei") == Some(Str(imei))
  }

  /** The rows an export covers: the in-memory sample, filtered to the
      selected IMEI unless "all". */
  function SelectDevice(sample: seq<Row>, selectedImei: string): seq<Row> {
    if selectedImei == "all" then sample else Filter(sample, ImeiIs(selectedImei))
  }

  /** One cell: null becomes `""`, undefined an empty field, anything else
      its JSON text. */
  function CsvCell(row: Row, field: string, num: real -> string): string {
    var v := Get(row, field);
    if v.None? then ""
    else if v.value.Null? then Stringify(Str(""), num)
    else Stringify(v.value, num)
  }

  function CsvLine(row: Row, headers: seq<string>, num: real -> string): (cells: seq<string>)
    ensures |cells| == |headers|
    ensures forall i :: 0 <= i < |headers| ==> cells[i] == CsvCell(row, headers[i], num)
  {
    seq(|headers|, i requires 0 <= i < |headers| => CsvCell(row, headers[i], num))
  }

  function CsvLines(rows: seq<Row>, headers: seq<string>, num: real -> string): (lines: seq<string>)
    ensures |lines| == |rows|
    ensures forall i :: 0 <= i < |rows| ==> lines[i] == Join(CsvLine(rows[i], headers, num), ',')
  {
    seq(|rows|, i requires 0 <= i < |rows| => Join(CsvLine(rows[i], headers, num), ','))
  }

  datatype Export = NoData | NothingToExport | Csv(text: string)

  /** `exportCSV()`: nothing without data, the "No data to export" alert
      for an empty selection, else the header line (the first row's keys)
      followed by one line per row, joined by newlines. */
  function ExportCsv(data: Option<Analysis>, selectedImei: string, num: real -> string): Export {
    if data.None? then NoData
    else
      var rows := SelectDevice(data.value.rawDataSample, selectedImei);
      if rows == [] then NothingToExport
      else
        var headers := Keys(rows[0]);
        Csv(Join([Join(headers, ',')] + CsvLines(rows, headers, num), '\n'))
  }

  /** The exported rows are those of the selected device, in sample order. */
  lemma SelectDeviceRows(sample: seq<Row>, selectedImei: string)
    ensures selectedImei == "all" ==> SelectDevice(sample, selectedImei) == sample
    ensures selectedImei != "all" ==>
      (forall r :: r in SelectDevice(sample, selectedImei) <==> r in sample && Get(r, "imei") == Some(Str(selectedImei)))
    ensures Subseq(SelectDevice(sample, selectedImei), sample)
  {
    if selectedImei == "all" {
      SubseqReflexive(sample);
    } else {
      FilterSubseq(sample, ImeiIs(selectedImei));
    }
  }

  lemma {:induction false} SubseqReflexive(s: seq<Row>)
    ensures Subseq(s, s)
  {
    if s != [] {
      SubseqReflexive(s[..|s| - 1]);
    }
  }

  lemma CsvLineHasNoNewline(row: Row, headers: seq<string>, num: real -> string)
    requires forall x :: CountChar(num(x), '\n') == 0
    ensures CountChar(Join(CsvLine(row, headers, num), ','), '\n') == 0
  {
    var cells := CsvLine(row, headers, num);
    forall i | 0 <= i < |cells|
      ensures CountChar(cells[i], '\n') == 0
    {
      var v := Get(row, headers[i]);
      if v.Some? && v.value.Null? {
        StringifyHasNoNewline(Str(""), num);
      } else if v.Some? {
        StringifyHasNoNewline(v.value, num);
      }
    }
    JoinNoSep(cells, ',', '\n');
  }

  lemma {:induction false} JoinNoSep(parts: seq<string>, sep: char, c: char)
    requires sep != c
    requires forall i :: 0 <= i < |parts| ==> CountChar(parts[i], c) == 0
    ensures CountChar(Join(parts, sep), c) == 0
  {
    if |parts| > 1 {
      JoinNoSep(parts[1..], sep, c);
      CountCharConcat3(parts[0], [sep], Join(parts[1..], sep), c);
    }
  }

  /** Splitting the export at newlines gives back the header line and one
      line per exported row, in order, provided no header name contains a
      newline (JSON-encoded cells never do). */
  lemma ExportLines(data: Analysis, selectedImei: string, num: real -> string)
    requires forall x :: CountChar(num(x), '\n') == 0
    requires var rows := SelectDevice(data.rawDataSample, selectedImei);
      rows != [] ==> forall k :: k in Keys(rows[0]) ==> CountChar(k, '\n') == 0
    ensures var rows := SelectDevice(data.rawDataSample, selectedImei);
      var e := ExportCsv(Some(data), selectedImei, num);
      (rows == [] <==> e == NothingToExport)
      && (rows != [] ==>
            e.Csv?
            && Split(e.text, '\n') == [Join(Keys(rows[0]), ',')] + CsvLines(rows, Keys(rows[0]), num)
            && CountChar(e.text, '\n') == |rows|)
  {
    var rows := SelectDevice(data.rawDataSample, selectedImei);
    if rows != [] {
      CsvText(rows, num);
    }
  }

  /** The export text of a non-empty selection splits back into its lines. */
  lemma CsvText(rows: seq<Row>, num: real -> string)
    requires forall x :: CountChar(num(x), '\n') == 0
    requires rows != [] && forall k :: k in Keys(rows[0]) ==> CountChar(k, '\n') == 0
    ensures var lines := [Join(Keys(rows[0]), ',')] + CsvLines(rows, Keys(rows[0]), num);
      Split(Join(lines, '\n'), '\n') == lines && CountChar(Join(lines, '\n'), '\n') == |rows|
  {
    var headers := Keys(rows[0]);
    var lines := [Join(headers, ',')] + CsvLines(rows, headers, num);
    forall i | 0 <= i < |headers|
      ensures CountChar(headers[i], '\n') == 0
    {
      assert headers[i] in headers;
    }
    JoinNoSep(headers, ',', '\n');
    forall i | 0 <= i < |lines|
      ensures CountChar(lines[i], '\n') == 0
    {
      if i > 0 {
        CsvLineHasNoNewline(rows[i - 1], headers, num);
      }
    }
    SplitJoin(lines, '\n');
    JoinCount(lines, '\n');
  }
}

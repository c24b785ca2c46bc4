/** One record's observations in the order identity is read from them: by source column, then by position in the cell. */
module SourceOrder {
  import opened Ordering
  import opened Sequences
  import opened Keys
  import opened Normalization

  predicate PlaceLeq(a: Attribute, b: Attribute) {
    if a.column == b.column then a.index <= b.index else TextLeq(a.column, b.column)
  }

  lemma PlaceLeqTotal(a: Attribute, b: Attribute)
    ensures PlaceLeq(a, b) || PlaceLeq(b, a)
    ensures PlaceLeq(a, b) && PlaceLeq(b, a) ==> SamePlace(a, b)
  {
    TextLeqTotal(a.column, b.column);
    if TextLeq(a.column, b.column) && TextLeq(b.column, a.column) { TextLeqAntisymmetric(a.column, b.column); }
  }

  lemma PlaceLeqTransitive(a: Attribute, b: Attribute, c: Attribute)
    requires PlaceLeq(a, b) && PlaceLeq(b, c)
    ensures PlaceLeq(a, c)
  {
    if a.column != b.column && b.column != c.column {
      TextLeqTransitive(a.column, b.column, c.column);
      if a.column == c.column { TextLeqAntisymmetric(a.column, b.column); }
    }
  }

  ghost predicate Ordered(rows: seq<Attribute>) {
    forall i, j :: 0 <= i < j < |rows| ==> PlaceLeq(rows[i], rows[j])
  }

  /** After the rows it does not precede: the sort is stable. */
  function InsertByPlace(a: Attribute, rows: seq<Attribute>): (r: seq<Attribute>)
    ensures multiset(r) == multiset(rows) + multiset{a}
  {
    if rows == [] then [a]
    else
      var n := |rows| - 1;
      assert rows == rows[..n] + [rows[n]];
      if PlaceLeq(rows[n], a) then rows + [a] else InsertByPlace(a, rows[..n]) + [rows[n]]
  }

  function SortByPlace(rows: seq<Attribute>): (r: seq<Attribute>)
    ensures multiset(r) == multiset(rows)
  {
    if rows == [] then []
    else
      assert rows == rows[..|rows| - 1] + [rows[|rows| - 1]];
      InsertByPlace(rows[|rows| - 1], SortByPlace(rows[..|rows| - 1]))
  }

  lemma AppendKeepsOrder(rows: seq<Attribute>, a: Attribute)
    requires Ordered(rows) && forall b :: b in rows ==> PlaceLeq(b, a)
    ensures Ordered(rows + [a])
  {
    forall i, j | 0 <= i < j < |rows + [a]| ensures PlaceLeq((rows + [a])[i], (rows + [a])[j]) {
      if j == |rows| { assert rows[i] in rows; }
    }
  }

  lemma LastIsGreatest(rows: seq<Attribute>, a: Attribute)
    requires Ordered(rows) && rows != [] && PlaceLeq(rows[|rows| - 1], a)
    ensures forall b :: b in rows ==> PlaceLeq(b, a)
  {
    var n := |rows| - 1;
    forall b | b in rows ensures PlaceLeq(b, a) {
      var i :| 0 <= i <= n && rows[i] == b;
      if i < n { PlaceLeqTransitive(rows[i], rows[n], a); }
    }
  }

  lemma {:induction false} InsertKeepsOrder(a: Attribute, rows: seq<Attribute>)
    requires Ordered(rows)
    ensures Ordered(InsertByPlace(a, rows))
  {
    if rows != [] {
      var n := |rows| - 1;
      if PlaceLeq(rows[n], a) {
        LastIsGreatest(rows, a);
        AppendKeepsOrder(rows, a);
      } else {
        InsertKeepsOrder(a, rows[..n]);
        PlaceLeqTotal(rows[n], a);
        var out := InsertByPlace(a, rows[..n]);
        forall b | b in out ensures PlaceLeq(b, rows[n]) {
          assert b in multiset(out);
          if b != a { var i :| 0 <= i < n && rows[i] == b; }
        }
        AppendKeepsOrder(out, rows[n]);
      }
    }
  }

  lemma {:induction false} SortIsOrdered(rows: seq<Attribute>)
    ensures Ordered(SortByPlace(rows))
  {
    if rows != [] {
      SortIsOrdered(rows[..|rows| - 1]);
      InsertKeepsOrder(rows[|rows| - 1], SortByPlace(rows[..|rows| - 1]));
    }
  }

  /** Distinct places in a list, said so that reordering cannot matter. */
  ghost predicate OneEach(rows: multiset<Attribute>) {
    forall a, b :: a in rows && b in rows && SamePlace(a, b) ==> a == b && rows[a] == 1
  }

  lemma DistinctIsOneEach(rows: seq<Attribute>)
    requires DistinctPlaces(rows)
    ensures OneEach(multiset(rows))
  {
    forall a, b | a in multiset(rows) && b in multiset(rows) && SamePlace(a, b) ensures a == b && multiset(rows)[a] == 1 {
      var i :| 0 <= i < |rows| && rows[i] == a;
      var j :| 0 <= j < |rows| && rows[j] == b;
      assert i == j;
      assert rows == rows[..i] + [rows[i]] + rows[i + 1..];
      assert forall k :: 0 <= k < i ==> rows[k] != a;
      assert forall k :: i < k < |rows| ==> rows[k] != a;
      assert a !in rows[..i] && a !in rows[i + 1..];
    }
  }

  lemma LastsAgree(a: seq<Attribute>, b: seq<Attribute>)
    requires Ordered(a) && Ordered(b) && multiset(a) == multiset(b) && OneEach(multiset(a)) && a != [] && b != []
    ensures a[|a| - 1] == b[|b| - 1]
  {
    var x, y := a[|a| - 1], b[|b| - 1];
    assert x in multiset(a) && y in multiset(b);
    var i :| 0 <= i < |b| && b[i] == x;
    var j :| 0 <= j < |a| && a[j] == y;
    PlaceLeqTotal(x, y);
  }

  lemma SplitLast(rows: seq<Attribute>, all: multiset<Attribute>) returns (init: seq<Attribute>, last: Attribute)
    requires rows != [] && Ordered(rows) && multiset(rows) == all && OneEach(all)
    ensures rows == init + [last] && last == rows[|rows| - 1] && |init| < |rows|
    ensures Ordered(init) && multiset(init) == all - multiset{last} && OneEach(all - multiset{last})
  {
    init, last := rows[..|rows| - 1], rows[|rows| - 1];
    assert rows == init + [last];
  }

  lemma EmptyIsEmpty(a: seq<Attribute>, b: seq<Attribute>)
    requires multiset(a) == multiset(b)
    ensures a == [] <==> b == []
  {
    SameMultisetSameMembers(a, b);
  }

  /** Rows with distinct places have only one order. */
  lemma {:induction false} OrderIsUnique(a: seq<Attribute>, b: seq<Attribute>, all: multiset<Attribute>)
    requires Ordered(a) && Ordered(b) && multiset(a) == all && multiset(b) == all && OneEach(all)
    ensures a == b
    decreases |a|
  {
    EmptyIsEmpty(a, b);
    if a != [] {
      LastsAgree(a, b);
      var aInit, last := SplitLast(a, all);
      var bInit, same := SplitLast(b, all);
      OrderIsUnique(aInit, bInit, all - multiset{last});
    }
  }

  /** Whatever order the rows arrive in, sorting puts them in the same one. */
  lemma SortIgnoresOrder(a: seq<Attribute>, b: seq<Attribute>)
    requires multiset(a) == multiset(b) && DistinctPlaces(a)
    ensures SortByPlace(a) == SortByPlace(b)
  {
    DistinctIsOneEach(a);
    SortIsOrdered(a);
    SortIsOrdered(b);
    OrderIsUnique(SortByPlace(a), SortByPlace(b), multiset(a));
  }

  // ---- confirmed values ---------------------------------------------------------------------

  predicate Tells(a: Attribute, subject: Role) { a.field.Some? && a.normalized.Some? && a.subject == subject }

  /** Field -> values, in the order of the rows, one subject's only. */
  function ValuesOf(rows: seq<Attribute>, subject: Role): Values {
    if rows == [] then map[]
    else
      var init, a := ValuesOf(rows[..|rows| - 1], subject), rows[|rows| - 1];
      if Tells(a, subject) then init[a.field.value := Listed(init, a.field.value) + [a.normalized.value]] else init
  }

  lemma ValuesAppend(rows: seq<Attribute>, a: Attribute, subject: Role)
    ensures ValuesOf([], subject) == map[]
    ensures var init := ValuesOf(rows, subject);
      ValuesOf(rows + [a], subject) ==
        if Tells(a, subject) then init[a.field.value := Listed(init, a.field.value) + [a.normalized.value]] else init
  {
    assert (rows + [a])[..|rows|] == rows;
  }

  /** `_confirmed_values`, and the query resolution makes instead. */
  method ConfirmedValues(rows: seq<Attribute>, subject: Role) returns (values: Values)
    ensures values == ValuesOf(SortByPlace(rows), subject)
  {
    var inOrder := SortByPlace(rows);
    values := map[];
    for i := 0 to |inOrder|
      invariant values == ValuesOf(inOrder[..i], subject)
    {
      assert inOrder[..i + 1][..i] == inOrder[..i];
      var a := inOrder[i];
      if a.field.Some? && a.normalized.Some? && a.subject == subject {
        values := values[a.field.value := Listed(values, a.field.value) + [a.normalized.value]];
      }
    }
    assert inOrder[..|inOrder|] == inOrder;
  }

  /**
   * A record's values hold one subject's confirmed claims and nothing else: a field is there exactly when
   * some row tells it, each of its values comes from such a row, and the other subject never leaks in.
   */
  lemma {:induction false} ValuesAreOneSubjects(rows: seq<Attribute>, subject: Role, f: string, v: string)
    ensures f in ValuesOf(rows, subject) <==> exists a :: a in rows && Tells(a, subject) && a.field.value == f
    ensures v in Listed(ValuesOf(rows, subject), f) <==>
      exists a :: a in rows && Tells(a, subject) && a.field.value == f && a.normalized.value == v
  {
    if rows != [] {
      var n := |rows| - 1;
      ValuesAreOneSubjects(rows[..n], subject, f, v);
      assert rows == rows[..n] + [rows[n]];
      assert forall a :: a in rows <==> a in rows[..n] || a == rows[n];
    }
  }
}

/** The orders the pipeline sorts by: text by code point, and tuples component by component. */
module Ordering {

  datatype Option<+T> = None | Some(value: T)

  /** Text order: by code point, a proper prefix first. */
  predicate TextLeq(a: string, b: string) {
    a == "" || (b != "" && (a[0] < b[0] || (a[0] == b[0] && TextLeq(a[1..], b[1..]))))
  }

  lemma {:induction false} TextLeqTotal(a: string, b: string)
    ensures TextLeq(a, b) || TextLeq(b, a)
  {
    if a != "" && b != "" { TextLeqTotal(a[1..], b[1..]); }
  }

  lemma {:induction false} TextLeqAntisymmetric(a: string, b: string)
    requires TextLeq(a, b) && TextLeq(b, a)
    ensures a == b
  {
    if a != "" && b != "" {
      TextLeqAntisymmetric(a[1..], b[1..]);
      assert a == [a[0]] + a[1..] && b == [b[0]] + b[1..];
    }
  }

  lemma {:induction false} TextLeqTransitive(a: string, b: string, c: string)
    requires TextLeq(a, b) && TextLeq(b, c)
    ensures TextLeq(a, c)
  {
    if a != "" && a[0] == b[0] && b[0] == c[0] { TextLeqTransitive(a[1..], b[1..], c[1..]); }
  }

  /** One component of a sort tuple. Tuples that are compared hold the same kinds in the same places. */
  datatype Atom = Num(n: int) | Text(s: string)

  type Key = seq<Atom>

  predicate AtomLeq(a: Atom, b: Atom) {
    match (a, b)
    case (Num(m), Num(n)) => m <= n
    case (Text(s), Text(t)) => TextLeq(s, t)
    case (Num(_), Text(_)) => true
    case (Text(_), Num(_)) => false
  }

  lemma AtomOrder(a: Atom, b: Atom)
    ensures AtomLeq(a, b) || AtomLeq(b, a)
    ensures AtomLeq(a, b) && AtomLeq(b, a) ==> a == b
  {
    if a.Text? && b.Text? {
      TextLeqTotal(a.s, b.s);
      if AtomLeq(a, b) && AtomLeq(b, a) { TextLeqAntisymmetric(a.s, b.s); }
    }
  }

  /** Tuple order. */
  predicate KeyLeq(a: Key, b: Key) {
    a == [] || (b != [] && (if a[0] == b[0] then KeyLeq(a[1..], b[1..]) else AtomLeq(a[0], b[0])))
  }

  lemma {:induction false} KeyLeqRefl(a: Key)
    ensures KeyLeq(a, a)
  {
    if a != [] { KeyLeqRefl(a[1..]); }
  }

  lemma {:induction false} KeyLeqTotal(a: Key, b: Key)
    ensures KeyLeq(a, b) || KeyLeq(b, a)
  {
    if a != [] && b != [] {
      AtomOrder(a[0], b[0]);
      KeyLeqTotal(a[1..], b[1..]);
    }
  }

  lemma {:induction false} KeyLeqAntisymmetric(a: Key, b: Key)
    requires KeyLeq(a, b) && KeyLeq(b, a)
    ensures a == b
  {
    if a != [] && b != [] {
      AtomOrder(a[0], b[0]);
      KeyLeqAntisymmetric(a[1..], b[1..]);
      assert a == [a[0]] + a[1..] && b == [b[0]] + b[1..];
    }
  }

  lemma {:induction false} KeyLeqTransitive(a: Key, b: Key, c: Key)
    requires KeyLeq(a, b) && KeyLeq(b, c)
    ensures KeyLeq(a, c)
  {
    if a != [] {
      AtomOrder(a[0], b[0]);
      AtomOrder(b[0], c[0]);
      if a[0] == b[0] && b[0] == c[0] {
        KeyLeqTransitive(a[1..], b[1..], c[1..]);
      } else if a[0].Text? && b[0].Text? && c[0].Text? {
        TextLeqTransitive(a[0].s, b[0].s, c[0].s);
      }
    }
  }

  /** A shared leading component does not change the order. */
  lemma KeyLeqTail(x: Atom, a: Key, b: Key)
    ensures KeyLeq([x] + a, [x] + b) <==> KeyLeq(a, b)
  {
    assert ([x] + a)[1..] == a && ([x] + b)[1..] == b;
  }

  /** The index `min` returns: the first of the least keys. */
  function ArgMin(keys: seq<Key>): (i: nat)
    requires keys != []
    ensures i < |keys|
    ensures forall j :: 0 <= j < |keys| ==> KeyLeq(keys[i], keys[j])
    ensures forall j :: 0 <= j < i ==> !KeyLeq(keys[j], keys[i])
  {
    if |keys| == 1 then
      KeyLeqRefl(keys[0]);
      0
    else
      var tail := ArgMin(keys[1..]);
      KeyLeqRefl(keys[0]);
      if KeyLeq(keys[0], keys[1..][tail]) then
        assert forall j :: 1 <= j < |keys| ==> KeyLeq(keys[0], keys[j]) by {
          forall j | 1 <= j < |keys| ensures KeyLeq(keys[0], keys[j]) {
            assert keys[j] == keys[1..][j - 1];
            KeyLeqTransitive(keys[0], keys[1..][tail], keys[j]);
          }
        }
        0
      else
        KeyLeqTotal(keys[0], keys[1..][tail]);
        assert forall j :: 1 <= j < |keys| ==> keys[j] == keys[1..][j - 1];
        tail + 1
  }

  predicate StrictlyAscending(xs: seq<string>) {
    forall i, j :: 0 <= i < j < |xs| ==> TextLeq(xs[i], xs[j]) && xs[i] != xs[j]
  }

  lemma AscendingBehind(head: string, tail: seq<string>)
    requires StrictlyAscending(tail) && forall y :: y in tail ==> TextLeq(head, y) && head != y
    ensures StrictlyAscending([head] + tail)
  {
    var all := [head] + tail;
    forall i, j | 0 <= i < j < |all| ensures TextLeq(all[i], all[j]) && all[i] != all[j] {
      assert all[j] == tail[j - 1] && tail[j - 1] in tail;
      if i > 0 { assert all[i] == tail[i - 1]; }
    }
  }

  lemma BelowTheRest(x: string, xs: seq<string>)
    requires StrictlyAscending(xs) && xs != [] && x != xs[0] && TextLeq(x, xs[0])
    ensures forall y :: y in xs ==> TextLeq(x, y) && x != y
  {
    forall y | y in xs ensures TextLeq(x, y) && x != y {
      var j :| 0 <= j < |xs| && xs[j] == y;
      if j > 0 {
        TextLeqTransitive(x, xs[0], y);
        if x == y { TextLeqAntisymmetric(x, xs[0]); }
      }
    }
  }

  lemma HeadIsBelow(xs: seq<string>)
    requires StrictlyAscending(xs) && xs != []
    ensures StrictlyAscending(xs[1..])
    ensures forall y :: y in xs[1..] ==> TextLeq(xs[0], y) && xs[0] != y
  {
    forall y | y in xs[1..] ensures TextLeq(xs[0], y) && xs[0] != y {
      var j :| 0 <= j < |xs[1..]| && xs[1..][j] == y;
      assert xs[j + 1] == y;
    }
  }

  function InsertText(x: string, xs: seq<string>): (r: seq<string>)
    requires StrictlyAscending(xs)
    ensures StrictlyAscending(r)
    ensures forall y :: y in r <==> y == x || y in xs
  {
    if xs == [] then [x]
    else if x == xs[0] then xs
    else if TextLeq(x, xs[0]) then
      BelowTheRest(x, xs);
      AscendingBehind(x, xs);
      [x] + xs
    else
      TextLeqTotal(x, xs[0]);
      HeadIsBelow(xs);
      var tail := InsertText(x, xs[1..]);
      assert xs == [xs[0]] + xs[1..];
      AscendingBehind(xs[0], tail);
      [xs[0]] + tail
  }

  /** `sorted(set(xs))`. */
  function SortedSet(xs: seq<string>): (r: seq<string>)
    ensures StrictlyAscending(r)
    ensures forall y :: y in r <==> y in xs
  {
    if xs == [] then [] else InsertText(xs[0], SortedSet(xs[1..]))
  }

  /** An ascending list without repeats is determined by its elements. */
  lemma {:induction false} AscendingIsUnique(a: seq<string>, b: seq<string>)
    requires StrictlyAscending(a) && StrictlyAscending(b)
    requires forall y :: y in a <==> y in b
    ensures a == b
  {
    assert a != [] ==> a[0] in b;
    assert b != [] ==> b[0] in a;
    if a != [] && b != [] {
      var i :| 0 <= i < |b| && b[i] == a[0];
      var j :| 0 <= j < |a| && a[j] == b[0];
      if a[0] != b[0] {
        assert TextLeq(a[0], a[j]) && TextLeq(b[0], b[i]);
        TextLeqAntisymmetric(a[0], b[0]);
      }
      forall y ensures y in a[1..] <==> y in b[1..] {
        if y in a[1..] { var k :| 1 <= k < |a| && a[k] == y; assert a[0] != a[k]; assert y in b; }
        if y in b[1..] { var k :| 1 <= k < |b| && b[k] == y; assert b[0] != b[k]; assert y in a; }
      }
      AscendingIsUnique(a[1..], b[1..]);
    }
  }

  /** `sorted(set(xs))` sees neither order nor repetition. */
  lemma SortedSetDependsOnElements(a: seq<string>, b: seq<string>)
    requires forall y :: y in a <==> y in b
    ensures SortedSet(a) == SortedSet(b)
  {
    AscendingIsUnique(SortedSet(a), SortedSet(b));
  }

  /** Sorting again changes nothing. */
  lemma SortedSetIdempotent(a: seq<string>)
    ensures SortedSet(SortedSet(a)) == SortedSet(a)
  {
    SortedSetDependsOnElements(SortedSet(a), a);
  }
}

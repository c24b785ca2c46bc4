/** What one build does to each row of the table, row by row and without its steps. */
module GoldenMeaning {
  import opened Ordering
  import opened Sequences
  import opened Keys
  import opened Survivorship
  import opened GoldenTable

  /** The entity shows this value of the field now. */
  ghost predicate ShownAs(t: Table, e: nat, f: string, value: string) {
    exists i: nat :: IsCurrent(t, i, e, f) && t[i].value == value
  }

  /** A choice becomes a row of its own exactly when its value is not the one shown. */
  ghost function RowsFor(t: Table, e: nat, entityType: EntityType): FieldChoice -> seq<Row> {
    (c: FieldChoice) =>
      if c.choice.None? || ShownAs(t, e, c.field, c.choice.value.value) then []
      else
        var x := c.choice.value;
        [Row(e, entityType, c.field, x.value, x.strategy, x.confidence, x.supporting, x.competing, false, None)]
  }

  /** What became of an old row of the entity once its field has a choice. */
  ghost predicate FollowsChoice(r: Row, u: Table, i: nat, n: nat, x: Choice)
    requires i < |u|
  {
    if r.value == x.value then u[i] == r.(confidence := x.confidence, supporting := x.supporting, competing := x.competing)
    else
      && u[i].supersededBy.Some? && n <= u[i].supersededBy.value < |u|
      && u[u[i].supersededBy.value].field == r.field
      && u[i] == r.(closed := true, supersededBy := u[i].supersededBy)
  }

  /** What became of any old row. */
  ghost predicate Became(t: Table, u: Table, i: nat, e: nat, choices: seq<FieldChoice>)
    requires i < |t| <= |u|
  {
    && (t[i].closed || t[i].entity != e ==> u[i] == t[i])
    && (!t[i].closed && t[i].entity == e && (forall c :: c in choices ==> c.field != t[i].field) ==> u[i] == t[i].(closed := true))
    && (forall c :: c in choices && !t[i].closed && t[i].entity == e && c.field == t[i].field ==>
          if c.choice.None? then u[i] == t[i] else FollowsChoice(t[i], u, i, |t|, c.choice.value))
  }

  ghost predicate PutBecame(t: Table, u: Table, i: nat, e: nat, choices: seq<FieldChoice>)
    requires i < |t| <= |u|
  {
    && (t[i].closed || t[i].entity != e || (forall c :: c in choices ==> c.field != t[i].field) ==> u[i] == t[i])
    && (forall c :: c in choices && !t[i].closed && t[i].entity == e && c.field == t[i].field ==>
          if c.choice.None? then u[i] == t[i] else FollowsChoice(t[i], u, i, |t|, c.choice.value))
  }

  lemma ShownIff(t: Table, u: Table, e: nat, f: string, value: string)
    requires OneCurrent(t) && OneCurrent(u) && CurrentOf(u, e, f) == CurrentOf(t, e, f) && Trusted(u, e, f) == Trusted(t, e, f)
    ensures ShownAs(t, e, f, value) <==> CurrentOf(u, e, f).Some? && u[CurrentOf(u, e, f).value].value == value
  {
    if i: nat :| IsCurrent(t, i, e, f) && t[i].value == value { CurrentIsUnique(t, i, e, f); }
  }

  /** The new rows are exactly those the choices call for, in their order. */
  lemma {:induction false} NewRowsAre(t: Table, e: nat, entityType: EntityType, choices: seq<FieldChoice>)
    requires OneCurrent(t) && DistinctFields(choices)
    ensures |PutFields(t, e, entityType, choices)| >= |t|
    ensures PutFields(t, e, entityType, choices)[|t|..] == FlatMap(choices, RowsFor(t, e, entityType))
  {
    if choices != [] {
      var n := |choices| - 1;
      var init, last := choices[..n], choices[n];
      NewRowsAre(t, e, entityType, init);
      PutFieldsKeepOther(t, e, entityType, init, e, last.field);
      assert last.field !in FieldsOf(init);
      var mid := PutFields(t, e, entityType, init);
      PutOneRow(t, mid, e, entityType, last);
    }
  }

  lemma PutOneRow(t: Table, mid: Table, e: nat, entityType: EntityType, c: FieldChoice)
    requires OneCurrent(t) && OneCurrent(mid) && |mid| >= |t|
    requires CurrentOf(mid, e, c.field) == CurrentOf(t, e, c.field) && Trusted(mid, e, c.field) == Trusted(t, e, c.field)
    ensures |PutChoice(mid, e, entityType, c.field, c.choice)| >= |t|
    ensures PutChoice(mid, e, entityType, c.field, c.choice)[|t|..] == mid[|t|..] + RowsFor(t, e, entityType)(c)
  {
    if c.choice.Some? { ShownIff(t, mid, e, c.field, c.choice.value.value); }
    var at := CurrentOf(t, e, c.field);
    assert at.Some? ==> at.value < |t|;
  }

  /** One more field's turn leaves the rows of every other field, and does to its own what its choice asks. */
  lemma OneTurn(t: Table, mid: Table, e: nat, entityType: EntityType, c: FieldChoice, i: nat)
    requires OneCurrent(t) && OneCurrent(mid) && i < |t| <= |mid|
    requires CurrentOf(mid, e, c.field) == CurrentOf(t, e, c.field)
    ensures var u := PutChoice(mid, e, entityType, c.field, c.choice);
      && |t| <= |mid| <= |u|
      && (mid[i].closed || mid[i].entity != e || mid[i].field != c.field ==> u[i] == mid[i])
      && (IsCurrent(mid, i, e, c.field) ==>
            if c.choice.None? then u[i] == mid[i] else FollowsChoice(mid[i], u, i, |t|, c.choice.value))
      && (forall j :: |t| <= j < |mid| ==> u[j] == mid[j])
  {
    if IsCurrent(mid, i, e, c.field) { CurrentIsUnique(mid, i, e, c.field); }
    var at := CurrentOf(t, e, c.field);
    assert at.Some? ==> at.value < |t|;
  }

  lemma {:induction false} OldRowsBecame(t: Table, e: nat, entityType: EntityType, choices: seq<FieldChoice>, i: nat)
    requires OneCurrent(t) && DistinctFields(choices) && i < |t|
    ensures |PutFields(t, e, entityType, choices)| >= |t|
    ensures PutBecame(t, PutFields(t, e, entityType, choices), i, e, choices)
  {
    if choices != [] {
      hide OneCurrent, Trusted, FieldsOf;
      var n := |choices| - 1;
      var init, last := choices[..n], choices[n];
      OldRowsBecame(t, e, entityType, init, i);
      PutFieldsKeepOther(t, e, entityType, init, e, last.field);
      LastIsNew(choices);
      OneTurn(t, PutFields(t, e, entityType, init), e, entityType, last, i);
      BecameMore(t, PutFields(t, e, entityType, init), PutFields(t, e, entityType, choices), i, e, choices);
    }
  }

  lemma LastIsNew(choices: seq<FieldChoice>)
    requires choices != [] && DistinctFields(choices)
    ensures DistinctFields(choices[..|choices| - 1])
    ensures choices[|choices| - 1].field !in FieldsOf(choices[..|choices| - 1])
    ensures forall c :: c in choices[..|choices| - 1] ==> c.field != choices[|choices| - 1].field
    ensures forall c :: c in choices <==> c in choices[..|choices| - 1] || c == choices[|choices| - 1]
  {
    assert choices == choices[..|choices| - 1] + [choices[|choices| - 1]];
  }

  lemma BecameMore(t: Table, mid: Table, u: Table, i: nat, e: nat, choices: seq<FieldChoice>)
    requires choices != [] && i < |t| <= |mid| <= |u|
    requires var init, last := choices[..|choices| - 1], choices[|choices| - 1];
      && PutBecame(t, mid, i, e, init)
      && (forall c :: c in init ==> c.field != last.field)
      && (forall c :: c in choices <==> c in init || c == last)
      && (mid[i].closed || mid[i].entity != e || mid[i].field != last.field ==> u[i] == mid[i])
      && (IsCurrent(mid, i, e, last.field) ==>
            if last.choice.None? then u[i] == mid[i] else FollowsChoice(mid[i], u, i, |t|, last.choice.value))
      && (forall j :: |t| <= j < |mid| ==> u[j] == mid[j])
    ensures PutBecame(t, u, i, e, choices)
  {
    var init, last := choices[..|choices| - 1], choices[|choices| - 1];
    if !t[i].closed && t[i].entity == e {
      if t[i].field == last.field {
        assert u[i] == u[i] && mid[i] == t[i];
      } else if c :| c in init && c.field == t[i].field {
        assert mid[i].field == t[i].field;
        assert u[i] == mid[i];
      }
    }
  }

  /**
   * A build appends the rows its choices call for, in their order, and does to each old row only this: one of another
   * entity or already closed stays as it is; one nobody reports closes; one whose value is chosen again has its
   * evidence brought up to date; one whose value is not closes and points at the new row of its field.
   */
  lemma BuildDoes(t: Table, e: nat, entityType: EntityType, choices: seq<FieldChoice>, i: nat)
    requires OneCurrent(t) && DistinctFields(choices)
    ensures |Build(t, e, entityType, choices)| >= |t|
    ensures Build(t, e, entityType, choices)[|t|..] == FlatMap(choices, RowsFor(t, e, entityType))
    ensures i < |t| ==> Became(t, Build(t, e, entityType, choices), i, e, choices)
  {
    hide OneCurrent, PutFields;
    NewRowsAre(t, e, entityType, choices);
    var u := PutFields(t, e, entityType, choices);
    NewRowsAreSupported(t, e, entityType, choices);
    assert Retire(u, e, FieldsOf(choices))[|t|..] == u[|t|..] by {
      forall j | |t| <= j < |u| ensures Retire(u, e, FieldsOf(choices))[j] == u[j] {
        assert u[j] == u[|t|..][j - |t|];
        assert u[j] in u[|t|..];
      }
    }
    if i < |t| {
      OldRowsBecame(t, e, entityType, choices, i);
      RetireBecame(t, u, Retire(u, e, FieldsOf(choices)), i, e, choices);
    }
  }

  lemma NewRowsAreSupported(t: Table, e: nat, entityType: EntityType, choices: seq<FieldChoice>)
    ensures forall r :: r in FlatMap(choices, RowsFor(t, e, entityType)) ==> r.field in FieldsOf(choices)
  {
    FlatMapMembers(choices, RowsFor(t, e, entityType));
  }

  lemma RetireBecame(t: Table, u: Table, v: Table, i: nat, e: nat, choices: seq<FieldChoice>)
    requires i < |t| <= |u| && v == Retire(u, e, FieldsOf(choices)) && PutBecame(t, u, i, e, choices)
    ensures Became(t, v, i, e, choices)
  {
    forall c | c in choices && !t[i].closed && t[i].entity == e && c.field == t[i].field
      ensures if c.choice.None? then v[i] == t[i] else FollowsChoice(t[i], v, i, |t|, c.choice.value)
    {
      assert c.field in FieldsOf(choices);
    }
  }

  // ---- what is counted ----------------------------------------------------------------------------------------

  ghost function Calls(t: Table, e: nat, change: Change): FieldChoice -> bool {
    (c: FieldChoice) =>
      match change
      case Skipped => c.choice.None?
      case Written => c.choice.Some? && !ShownAs(t, e, c.field, c.choice.value.value)
      case Refresh =>
        && c.choice.Some? && ShownAs(t, e, c.field, c.choice.value.value)
        && exists i: nat :: IsCurrent(t, i, e, c.field) && EvidenceOf(t[i]) != EvidenceBehind(c.choice.value)
      case Unchanged =>
        && c.choice.Some? && ShownAs(t, e, c.field, c.choice.value.value)
        && exists i: nat :: IsCurrent(t, i, e, c.field) && EvidenceOf(t[i]) == EvidenceBehind(c.choice.value)
  }

  function EvidenceOf(r: Row): (int, nat, nat) { (r.confidence, r.supporting, r.competing) }

  function EvidenceBehind(c: Choice): (int, nat, nat) { (c.confidence, c.supporting, c.competing) }

  lemma ChangeIs(t: Table, e: nat, c: FieldChoice, change: Change)
    requires OneCurrent(t)
    ensures ChangeTo(t, e, c.field, c.choice) == change <==> Calls(t, e, change)(c)
  {
    forall i: nat | IsCurrent(t, i, e, c.field) ensures CurrentOf(t, e, c.field) == Some(i) { CurrentIsUnique(t, i, e, c.field); }
    if c.choice.Some? { ShownIff(t, t, e, c.field, c.choice.value.value); }
  }

  /** Written counts the new rows, refreshed the values kept on other evidence, retired the rows nobody reports. */
  lemma {:induction false} CountsAre(t: Table, e: nat, entityType: EntityType, choices: seq<FieldChoice>, change: Change)
    requires OneCurrent(t)
    ensures CountChanges(t, e, choices, change) == Count(choices, Calls(t, e, change))
    ensures CountChanges(t, e, choices, Written) == |FlatMap(choices, RowsFor(t, e, entityType))|
  {
    if choices != [] {
      hide ChangeTo, OneCurrent, Calls, CurrentOf;
      var n := |choices| - 1;
      CountsAre(t, e, entityType, choices[..n], change);
      ChangeIs(t, e, choices[n], change);
      ChangeIs(t, e, choices[n], Written);
      WrittenIsARow(t, e, entityType, choices[n]);
    }
  }

  lemma WrittenIsARow(t: Table, e: nat, entityType: EntityType, c: FieldChoice)
    ensures |RowsFor(t, e, entityType)(c)| == if Calls(t, e, Written)(c) then 1 else 0
  {
  }

  function Unreported(e: nat, choices: seq<FieldChoice>): Row -> bool {
    (r: Row) => r.entity == e && !r.closed && forall c :: c in choices ==> c.field != r.field
  }

  lemma {:induction false} RetiredAre(t: Table, e: nat, choices: seq<FieldChoice>)
    ensures CountRetired(t, e, FieldsOf(choices)) == Count(t, Unreported(e, choices))
  {
    if t != [] {
      RetiredAre(t[..|t| - 1], e, choices);
      var r := t[|t| - 1];
      assert r.field in FieldsOf(choices) <==> exists c :: c in choices && c.field == r.field;
    }
  }
}

/** The versioned table of trusted values, and the incremental builder that keeps it up to date. */
module GoldenTable {
  import opened Ordering
  import opened Keys
  import opened Survivorship

  /** A row's id is its position: rows are only ever appended. */
  datatype Row = Row(entity: nat, entityType: EntityType, field: string, value: string, strategy: Strategy,
                     confidence: int, supporting: nat, competing: nat, closed: bool, supersededBy: Option<nat>)

  type Table = seq<Row>

  /** One field's observations; the fields of one entity are distinct. */
  datatype FieldReports = FieldReports(field: string, reports: seq<Observation>)

  predicate IsCurrent(t: Table, i: nat, e: nat, f: string) {
    i < |t| && t[i].entity == e && t[i].field == f && !t[i].closed
  }

  /** What the partial unique index enforces. */
  ghost predicate OneCurrent(t: Table) {
    forall i: nat, j: nat :: i < j < |t| && !t[i].closed && !t[j].closed ==> t[i].entity != t[j].entity || t[i].field != t[j].field
  }

  /** `current_values`, one field at a time. */
  function CurrentOf(t: Table, e: nat, f: string): (r: Option<nat>)
    ensures r.Some? ==> IsCurrent(t, r.value, e, f)
    ensures r.None? ==> forall i: nat :: !IsCurrent(t, i, e, f)
  {
    if t == [] then None
    else
      var n := |t| - 1;
      if IsCurrent(t, n, e, f) then Some(n)
      else
        var r := CurrentOf(t[..n], e, f);
        assert forall i: nat :: i < n ==> (IsCurrent(t, i, e, f) <==> IsCurrent(t[..n], i, e, f));
        r
  }

  function Trusted(t: Table, e: nat, f: string): Option<Row> {
    if CurrentOf(t, e, f).None? then None else Some(t[CurrentOf(t, e, f).value])
  }

  lemma CurrentIsUnique(t: Table, i: nat, e: nat, f: string)
    requires OneCurrent(t) && IsCurrent(t, i, e, f)
    ensures CurrentOf(t, e, f) == Some(i) && Trusted(t, e, f) == Some(t[i])
  {
    var j := CurrentOf(t, e, f).value;
    assert IsCurrent(t, j, e, f);
  }

  /** The row shows this choice. */
  predicate Shows(r: Row, c: Choice) {
    r.value == c.value && r.confidence == c.confidence && r.supporting == c.supporting && r.competing == c.competing
  }

  function NewRow(e: nat, entityType: EntityType, f: string, c: Choice): Row {
    Row(e, entityType, f, c.value, c.strategy, c.confidence, c.supporting, c.competing, false, None)
  }

  function Refreshed(r: Row, c: Choice): Row {
    r.(confidence := c.confidence, supporting := c.supporting, competing := c.competing)
  }

  // ---- one build, as a function of the table ---------------------------------------------

  /** A field somebody reports, with the choice its reports make: none when every report is blank. */
  datatype FieldChoice = FieldChoice(field: string, choice: Option<Choice>)

  function ChoicesOf(entityType: EntityType, reports: seq<FieldReports>): (r: seq<FieldChoice>)
    ensures |r| == |reports|
  {
    seq(|reports|, k requires 0 <= k < |reports| =>
      FieldChoice(reports[k].field, Choose(entityType, reports[k].field, reports[k].reports)))
  }

  /** What a build does about one observed field, once the field's choice is made. */
  function PutChoice(t: Table, e: nat, entityType: EntityType, f: string, choice: Option<Choice>): Table {
    if choice.None? then t
    else
      var c := choice.value;
      match CurrentOf(t, e, f)
      case None => t + [NewRow(e, entityType, f, c)]
      case Some(i) =>
        if t[i].value == c.value then t[i := Refreshed(t[i], c)]
        else t[i := t[i].(closed := true, supersededBy := Some(|t|))] + [NewRow(e, entityType, f, c)]
  }

  function PutFields(t: Table, e: nat, entityType: EntityType, choices: seq<FieldChoice>): Table {
    if choices == [] then t
    else
      var last := choices[|choices| - 1];
      PutChoice(PutFields(t, e, entityType, choices[..|choices| - 1]), e, entityType, last.field, last.choice)
  }

  function FieldsOf(choices: seq<FieldChoice>): set<string> { set c | c in choices :: c.field }

  ghost predicate DistinctFields(choices: seq<FieldChoice>) {
    forall i, j :: 0 <= i < j < |choices| ==> choices[i].field != choices[j].field
  }

  predicate Unsupported(r: Row, e: nat, fields: set<string>) { r.entity == e && !r.closed && r.field !in fields }

  /** Fields nobody reports any longer stop being current. */
  function Retire(t: Table, e: nat, fields: set<string>): Table {
    seq(|t|, i requires 0 <= i < |t| => if Unsupported(t[i], e, fields) then t[i].(closed := true) else t[i])
  }

  /** `build_entity`. */
  function Build(t: Table, e: nat, entityType: EntityType, choices: seq<FieldChoice>): Table {
    Retire(PutFields(t, e, entityType, choices), e, FieldsOf(choices))
  }

  // ---- what it counts ---------------------------------------------------------------------

  datatype Change = Written | Refresh | Unchanged | Skipped

  function ChangeTo(t: Table, e: nat, f: string, choice: Option<Choice>): Change {
    if choice.None? then Skipped
    else
      match CurrentOf(t, e, f)
      case None => Written
      case Some(i) =>
        if t[i].value != choice.value.value then Written else if Shows(t[i], choice.value) then Unchanged else Refresh
  }

  function CountChanges(t: Table, e: nat, choices: seq<FieldChoice>, change: Change): nat {
    if choices == [] then 0
    else
      CountChanges(t, e, choices[..|choices| - 1], change)
      + (if ChangeTo(t, e, choices[|choices| - 1].field, choices[|choices| - 1].choice) == change then 1 else 0)
  }

  function CountRetired(t: Table, e: nat, fields: set<string>): nat {
    if t == [] then 0
    else CountRetired(t[..|t| - 1], e, fields) + (if Unsupported(t[|t| - 1], e, fields) then 1 else 0)
  }

  /** What one build reports. */
  datatype BuildCounts = BuildCounts(written: nat, refreshed: nat, same: nat, retired: nat)

  function CountsOf(t: Table, e: nat, choices: seq<FieldChoice>): BuildCounts {
    BuildCounts(CountChanges(t, e, choices, Written), CountChanges(t, e, choices, Refresh),
                CountChanges(t, e, choices, Unchanged), CountRetired(t, e, FieldsOf(choices)))
  }

  // ---- one field --------------------------------------------------------------------------

  /** The table says of this field what the choice says, if there is one. */
  predicate Agrees(t: Table, e: nat, f: string, choice: Option<Choice>) {
    choice.None? || (Trusted(t, e, f).Some? && Shows(Trusted(t, e, f).value, choice.value))
  }

  lemma PutChoiceIsOneCurrent(t: Table, e: nat, entityType: EntityType, f: string, choice: Option<Choice>)
    requires OneCurrent(t)
    ensures OneCurrent(PutChoice(t, e, entityType, f, choice))
  {
    var u := PutChoice(t, e, entityType, f, choice);
    forall i: nat, j: nat | i < j < |u| && !u[i].closed && !u[j].closed
      ensures u[i].entity != u[j].entity || u[i].field != u[j].field
    {
      if j < |t| {
        assert u[i].entity == t[i].entity && u[i].field == t[i].field && !t[i].closed;
        assert u[j].entity == t[j].entity && u[j].field == t[j].field && !t[j].closed;
      } else if u[i].entity == e && u[i].field == f {
        assert IsCurrent(t, i, e, f);
        CurrentIsUnique(t, i, e, f);
      }
    }
  }

  /** The field's own row, whatever was there before. */
  lemma PutChoiceAgrees(t: Table, e: nat, entityType: EntityType, f: string, choice: Option<Choice>)
    requires OneCurrent(t)
    ensures Agrees(PutChoice(t, e, entityType, f, choice), e, f, choice)
    ensures choice.None? ==> PutChoice(t, e, entityType, f, choice) == t
  {
    var u := PutChoice(t, e, entityType, f, choice);
    PutChoiceIsOneCurrent(t, e, entityType, f, choice);
    if choice.Some? {
      var at := CurrentOf(t, e, f);
      var i := if at.Some? && t[at.value].value == choice.value.value then at.value else |u| - 1;
      CurrentIsUnique(u, i, e, f);
    }
  }

  /** Rows that agree on who is current show the same. */
  lemma SameCurrentSameTrust(t: Table, u: Table, e: nat, f: string)
    requires OneCurrent(u)
    requires forall i: nat :: IsCurrent(t, i, e, f) ==> IsCurrent(u, i, e, f) && u[i] == t[i]
    requires forall i: nat :: IsCurrent(u, i, e, f) ==> IsCurrent(t, i, e, f)
    ensures CurrentOf(u, e, f) == CurrentOf(t, e, f) && Trusted(u, e, f) == Trusted(t, e, f)
  {
    if CurrentOf(t, e, f).Some? {
      CurrentIsUnique(u, CurrentOf(t, e, f).value, e, f);
    }
  }

  lemma PutChoiceKeepsOther(t: Table, e: nat, entityType: EntityType, f: string, choice: Option<Choice>, e2: nat, f2: string)
    requires OneCurrent(t) && (e2 != e || f2 != f)
    ensures CurrentOf(PutChoice(t, e, entityType, f, choice), e2, f2) == CurrentOf(t, e2, f2)
    ensures Trusted(PutChoice(t, e, entityType, f, choice), e2, f2) == Trusted(t, e2, f2)
  {
    PutChoiceIsOneCurrent(t, e, entityType, f, choice);
    SameCurrentSameTrust(t, PutChoice(t, e, entityType, f, choice), e2, f2);
  }

  // ---- all fields ---------------------------------------------------------------------------

  lemma {:induction false} PutFieldsKeepOther(t: Table, e: nat, entityType: EntityType, choices: seq<FieldChoice>, e2: nat, f: string)
    requires OneCurrent(t)
    ensures OneCurrent(PutFields(t, e, entityType, choices))
    ensures (e2 != e || f !in FieldsOf(choices)) ==>
      && CurrentOf(PutFields(t, e, entityType, choices), e2, f) == CurrentOf(t, e2, f)
      && Trusted(PutFields(t, e, entityType, choices), e2, f) == Trusted(t, e2, f)
  {
    if choices != [] {
      var n := |choices| - 1;
      var init, last := choices[..n], choices[n];
      PutFieldsKeepOther(t, e, entityType, init, e2, f);
      var mid := PutFields(t, e, entityType, init);
      PutChoiceIsOneCurrent(mid, e, entityType, last.field, last.choice);
      assert FieldsOf(choices) == FieldsOf(init) + {last.field} by { assert choices == init + [last]; }
      if e2 != e || last.field != f {
        PutChoiceKeepsOther(mid, e, entityType, last.field, last.choice, e2, f);
      }
    }
  }

  /** Each reported field ends at its own choice: later fields of the same build leave it alone. */
  lemma {:induction false} PutFieldsAgree(t: Table, e: nat, entityType: EntityType, choices: seq<FieldChoice>, k: nat)
    requires OneCurrent(t) && DistinctFields(choices) && k < |choices|
    ensures var u, c := PutFields(t, e, entityType, choices), choices[k].choice;
      && Agrees(u, e, choices[k].field, c)
      && (c.None? ==> Trusted(u, e, choices[k].field) == Trusted(t, e, choices[k].field))
  {
    var n := |choices| - 1;
    var init, last := choices[..n], choices[n];
    var mid := PutFields(t, e, entityType, init);
    PutFieldsKeepOther(t, e, entityType, init, e, last.field);
    if k == n {
      assert last.field !in FieldsOf(init);
      PutChoiceAgrees(mid, e, entityType, last.field, last.choice);
    } else {
      PutFieldsAgree(t, e, entityType, init, k);
      PutChoiceKeepsOther(mid, e, entityType, last.field, last.choice, e, init[k].field);
    }
  }

  lemma RetireIs(t: Table, e: nat, fields: set<string>, e2: nat, f: string)
    requires OneCurrent(t)
    ensures OneCurrent(Retire(t, e, fields))
    ensures (e2 != e || f in fields) ==> Trusted(Retire(t, e, fields), e2, f) == Trusted(t, e2, f)
    ensures f !in fields ==> Trusted(Retire(t, e, fields), e, f) == None
  {
    var u := Retire(t, e, fields);
    if e2 != e || f in fields { SameCurrentSameTrust(t, u, e2, f); }
  }

  /**
   * The incremental builder refines recomputation, from any earlier state of the table: each observed
   * field shows exactly the choice its observations make, a field nobody observes shows nothing, and
   * nothing else is touched. (A field whose every report is blank makes no choice and keeps its row.)
   */
  lemma BuildRefinesChoice(t: Table, e: nat, entityType: EntityType, choices: seq<FieldChoice>, k: nat)
    requires OneCurrent(t) && DistinctFields(choices) && k < |choices|
    ensures var u, f, c := Build(t, e, entityType, choices), choices[k].field, choices[k].choice;
      && OneCurrent(u)
      && (c.Some? ==> Trusted(u, e, f).Some? && Shows(Trusted(u, e, f).value, c.value))
      && (c.None? ==> Trusted(u, e, f) == Trusted(t, e, f))
  {
    var f := choices[k].field;
    assert choices[k] in choices && f in FieldsOf(choices);
    PutFieldsKeepOther(t, e, entityType, choices, e, f);
    PutFieldsAgree(t, e, entityType, choices, k);
    RetireIs(PutFields(t, e, entityType, choices), e, FieldsOf(choices), e, f);
  }

  lemma BuildDropsUnobserved(t: Table, e: nat, entityType: EntityType, choices: seq<FieldChoice>, f: string)
    requires OneCurrent(t) && f !in FieldsOf(choices)
    ensures Trusted(Build(t, e, entityType, choices), e, f) == None
  {
    PutFieldsKeepOther(t, e, entityType, choices, e, f);
    RetireIs(PutFields(t, e, entityType, choices), e, FieldsOf(choices), e, f);
  }

  lemma BuildKeepsOtherEntities(t: Table, e: nat, entityType: EntityType, choices: seq<FieldChoice>, e2: nat, f: string)
    requires OneCurrent(t)
    ensures OneCurrent(Build(t, e, entityType, choices))
    ensures e2 != e ==> Trusted(Build(t, e, entityType, choices), e2, f) == Trusted(t, e2, f)
  {
    PutFieldsKeepOther(t, e, entityType, choices, e2, f);
    RetireIs(PutFields(t, e, entityType, choices), e, FieldsOf(choices), e2, f);
  }

  // ---- building again --------------------------------------------------------------------------

  ghost predicate AllAgree(t: Table, e: nat, choices: seq<FieldChoice>) {
    forall k :: 0 <= k < |choices| ==> Agrees(t, e, choices[k].field, choices[k].choice)
  }

  ghost predicate NoneUnsupported(t: Table, e: nat, fields: set<string>) {
    forall i :: 0 <= i < |t| ==> !Unsupported(t[i], e, fields)
  }

  /** Every observed field already shows its choice, and no other field of the entity is current. */
  ghost predicate UpToDate(t: Table, e: nat, choices: seq<FieldChoice>) {
    AllAgree(t, e, choices) && NoneUnsupported(t, e, FieldsOf(choices))
  }

  lemma BuildIsUpToDate(t: Table, e: nat, entityType: EntityType, choices: seq<FieldChoice>)
    requires OneCurrent(t) && DistinctFields(choices)
    ensures UpToDate(Build(t, e, entityType, choices), e, choices)
  {
    var u := Build(t, e, entityType, choices);
    forall k | 0 <= k < |choices| ensures Agrees(u, e, choices[k].field, choices[k].choice) {
      BuildRefinesChoice(t, e, entityType, choices, k);
    }
  }

  lemma AgreeingPutsNothing(t: Table, e: nat, entityType: EntityType, f: string, choice: Option<Choice>)
    requires Agrees(t, e, f, choice)
    ensures PutChoice(t, e, entityType, f, choice) == t
  {
  }

  lemma AgreesIffNothingToDo(t: Table, e: nat, f: string, choice: Option<Choice>)
    ensures Agrees(t, e, f, choice) <==> ChangeTo(t, e, f, choice) in {Unchanged, Skipped}
  {
  }

  lemma {:induction false} UpToDatePutsNothing(t: Table, e: nat, entityType: EntityType, choices: seq<FieldChoice>)
    requires AllAgree(t, e, choices)
    ensures PutFields(t, e, entityType, choices) == t
  {
    if choices != [] {
      var n := |choices| - 1;
      UpToDatePutsNothing(t, e, entityType, choices[..n]);
      AgreeingPutsNothing(t, e, entityType, choices[n].field, choices[n].choice);
    }
  }

  lemma NothingToRetire(t: Table, e: nat, fields: set<string>)
    requires NoneUnsupported(t, e, fields)
    ensures Retire(t, e, fields) == t
  {
  }

  /** Rebuilding is idempotent: the second build writes, refreshes and retires nothing at all. */
  lemma SecondBuildChangesNothing(t: Table, e: nat, entityType: EntityType, choices: seq<FieldChoice>)
    requires OneCurrent(t) && DistinctFields(choices)
    ensures var u := Build(t, e, entityType, choices);
      && Build(u, e, entityType, choices) == u
      && CountChanges(u, e, choices, Written) == 0
      && CountChanges(u, e, choices, Refresh) == 0
      && CountRetired(u, e, FieldsOf(choices)) == 0
  {
    var u := Build(t, e, entityType, choices);
    BuildIsUpToDate(t, e, entityType, choices);
    UpToDatePutsNothing(u, e, entityType, choices);
    NothingToRetire(u, e, FieldsOf(choices));
    NothingCountedIffUpToDate(u, e, choices);
  }

  /**
   * A build writes nothing, refreshes nothing and retires nothing exactly when the table already says
   * what the observations say; so its counters are zero only when there was nothing to do.
   */
  lemma NothingCountedIffUpToDate(t: Table, e: nat, choices: seq<FieldChoice>)
    ensures CountChanges(t, e, choices, Written) == 0
         && CountChanges(t, e, choices, Refresh) == 0
         && CountRetired(t, e, FieldsOf(choices)) == 0
       <==> UpToDate(t, e, choices)
  {
    CountsTell(t, e, choices);
    RetiredTells(t, e, FieldsOf(choices));
  }

  lemma AllAgreeSplits(t: Table, e: nat, choices: seq<FieldChoice>)
    requires choices != []
    ensures var n := |choices| - 1;
      AllAgree(t, e, choices) ==
        (AllAgree(t, e, choices[..n]) && Agrees(t, e, choices[n].field, choices[n].choice))
  {
    var n := |choices| - 1;
    if AllAgree(t, e, choices[..n]) {
      forall k | 0 <= k < n ensures Agrees(t, e, choices[k].field, choices[k].choice) {
        assert choices[..n][k] == choices[k];
      }
    }
  }

  lemma {:induction false} CountsTell(t: Table, e: nat, choices: seq<FieldChoice>)
    ensures CountChanges(t, e, choices, Written) == 0 && CountChanges(t, e, choices, Refresh) == 0
       <==> AllAgree(t, e, choices)
  {
    if choices != [] {
      var n := |choices| - 1;
      CountsTell(t, e, choices[..n]);
      var f, c := choices[n].field, choices[n].choice;
      AllAgreeSplits(t, e, choices);
      AgreesIffNothingToDo(t, e, f, c);
    }
  }

  lemma {:induction false} RetiredTells(t: Table, e: nat, fields: set<string>)
    ensures CountRetired(t, e, fields) == 0 <==> NoneUnsupported(t, e, fields)
  {
    if t != [] {
      var n := |t| - 1;
      RetiredTells(t[..n], e, fields);
      assert forall i :: 0 <= i < n ==> t[..n][i] == t[i];
    }
  }

  // ---- from observations ---------------------------------------------------------------------------

  lemma ChoicesAre(entityType: EntityType, reports: seq<FieldReports>)
    ensures forall k :: 0 <= k < |reports| ==> ChoicesOf(entityType, reports)[k].field == reports[k].field
    ensures FieldsOf(ChoicesOf(entityType, reports)) == set fr | fr in reports :: fr.field
  {
    var choices := ChoicesOf(entityType, reports);
    forall f ensures f in FieldsOf(choices) <==> exists fr :: fr in reports && fr.field == f {
      if f in FieldsOf(choices) {
        var c :| c in choices && c.field == f;
        var k :| 0 <= k < |choices| && choices[k] == c;
        assert reports[k] in reports;
      }
      if fr :| fr in reports && fr.field == f {
        var k :| 0 <= k < |reports| && reports[k] == fr;
        assert choices[k] in choices;
      }
    }
  }

  /**
   * The trusted record is the recomputed one: whatever the table held, after a build over an entity's
   * observations every field somebody reports with a non-blank value shows exactly what `choose` makes of
   * its observations now.
   */
  lemma BuiltFieldIsRecomputed(t: Table, e: nat, entityType: EntityType, reports: seq<FieldReports>, k: nat)
    requires OneCurrent(t) && k < |reports|
    requires forall i, j :: 0 <= i < j < |reports| ==> reports[i].field != reports[j].field
    requires exists o :: o in reports[k].reports && o.value != ""
    ensures var shown := Trusted(Build(t, e, entityType, ChoicesOf(entityType, reports)), e, reports[k].field);
      var chosen := Choose(entityType, reports[k].field, reports[k].reports);
      shown.Some? && chosen.Some? && Shows(shown.value, chosen.value)
  {
    var choices := ChoicesOf(entityType, reports);
    ChoicesAre(entityType, reports);
    BuildRefinesChoice(t, e, entityType, choices, k);
    ConfidenceIsBounded(entityType, reports[k].field, reports[k].reports);
  }

  /** And a field nobody reports shows nothing. */
  lemma UnreportedFieldIsEmpty(t: Table, e: nat, entityType: EntityType, reports: seq<FieldReports>, f: string)
    requires OneCurrent(t)
    requires forall k :: 0 <= k < |reports| ==> reports[k].field != f
    ensures Trusted(Build(t, e, entityType, ChoicesOf(entityType, reports)), e, f) == None
  {
    ChoicesAre(entityType, reports);
    BuildDropsUnobserved(t, e, entityType, ChoicesOf(entityType, reports), f);
  }
}

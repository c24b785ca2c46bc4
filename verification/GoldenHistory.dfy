/** The history of trusted values: what no run of builds ever rewrites. */
module GoldenHistory {
  import opened Ordering
  import opened Keys
  import opened Survivorship
  import opened GoldenTable

  /** Rows stay where they are, say what they said, and once closed never change again. */
  ghost predicate Evolves(t: Table, u: Table) {
    && |t| <= |u|
    && forall i :: 0 <= i < |t| ==>
         && u[i].entity == t[i].entity && u[i].entityType == t[i].entityType
         && u[i].field == t[i].field && u[i].value == t[i].value && u[i].strategy == t[i].strategy
         && (t[i].closed ==> u[i] == t[i])
  }

  /** Only one entity's rows of the given fields are written. */
  ghost predicate Touches(t: Table, u: Table, e: nat, fields: set<string>) {
    && |t| <= |u|
    && (forall i :: 0 <= i < |t| && (t[i].entity != e || t[i].field !in fields) ==> u[i] == t[i])
    && (forall i :: |t| <= i < |u| ==> u[i].entity == e && u[i].field in fields)
  }

  /** A superseded row is closed, and points later, within its entity and field, at a different value. */
  ghost predicate WellLinked(t: Table) {
    forall i :: 0 <= i < |t| && t[i].supersededBy.Some? ==>
      var j := t[i].supersededBy.value;
      && t[i].closed && i < j < |t|
      && t[j].entity == t[i].entity && t[j].field == t[i].field && t[j].value != t[i].value
  }

  /** No row replaces two others. */
  ghost predicate LinksOnce(t: Table) {
    forall i, j :: 0 <= i < j < |t| && t[i].supersededBy.Some? ==> t[j].supersededBy != t[i].supersededBy
  }

  lemma EvolvesTransitive(t: Table, u: Table, v: Table)
    requires Evolves(t, u) && Evolves(u, v)
    ensures Evolves(t, v)
  {
  }

  lemma TouchesTransitive(t: Table, u: Table, v: Table, e: nat, some: set<string>, more: set<string>)
    requires Touches(t, u, e, some) && Touches(u, v, e, more) && Evolves(u, v)
    ensures Touches(t, v, e, some + more)
  {
  }

  lemma PutChoiceEvolves(t: Table, e: nat, entityType: EntityType, f: string, choice: Option<Choice>)
    ensures Evolves(t, PutChoice(t, e, entityType, f, choice))
    ensures Touches(t, PutChoice(t, e, entityType, f, choice), e, {f})
  {
  }

  lemma PutChoiceKeepsLinks(t: Table, e: nat, entityType: EntityType, f: string, choice: Option<Choice>)
    requires WellLinked(t)
    ensures WellLinked(PutChoice(t, e, entityType, f, choice))
  {
  }

  lemma PutChoiceLinksOnce(t: Table, e: nat, entityType: EntityType, f: string, choice: Option<Choice>)
    requires WellLinked(t) && LinksOnce(t)
    ensures LinksOnce(PutChoice(t, e, entityType, f, choice))
  {
    var u := PutChoice(t, e, entityType, f, choice);
    forall i, j | 0 <= i < j < |u| && u[i].supersededBy.Some? ensures u[j].supersededBy != u[i].supersededBy {
      if j < |t| {
        assert u[i].supersededBy == t[i].supersededBy || u[i].supersededBy == Some(|t|);
        assert u[j].supersededBy == t[j].supersededBy || u[j].supersededBy == Some(|t|);
      }
    }
  }

  lemma {:induction false} PutFieldsEvolve(t: Table, e: nat, entityType: EntityType, choices: seq<FieldChoice>)
    ensures Evolves(t, PutFields(t, e, entityType, choices))
    ensures Touches(t, PutFields(t, e, entityType, choices), e, FieldsOf(choices))
    ensures WellLinked(t) && LinksOnce(t) ==>
      WellLinked(PutFields(t, e, entityType, choices)) && LinksOnce(PutFields(t, e, entityType, choices))
  {
    if choices != [] {
      var n := |choices| - 1;
      var init, last := choices[..n], choices[n];
      var mid := PutFields(t, e, entityType, init);
      PutFieldsEvolve(t, e, entityType, init);
      PutChoiceEvolves(mid, e, entityType, last.field, last.choice);
      EvolvesTransitive(t, mid, PutFields(t, e, entityType, choices));
      TouchesTransitive(t, mid, PutFields(t, e, entityType, choices), e, FieldsOf(init), {last.field});
      assert FieldsOf(choices) == FieldsOf(init) + {last.field} by { assert choices == init + [last]; }
      if WellLinked(t) && LinksOnce(t) { 
        PutChoiceKeepsLinks(mid, e, entityType, last.field, last.choice);
        PutChoiceLinksOnce(mid, e, entityType, last.field, last.choice);
      }
    }
  }

  lemma RetireEvolves(t: Table, e: nat, fields: set<string>)
    ensures Evolves(t, Retire(t, e, fields))
    ensures WellLinked(t) && LinksOnce(t) ==> WellLinked(Retire(t, e, fields)) && LinksOnce(Retire(t, e, fields))
  {
  }

  lemma BuildEvolves(t: Table, e: nat, entityType: EntityType, choices: seq<FieldChoice>)
    ensures Evolves(t, Build(t, e, entityType, choices))
    ensures WellLinked(t) && LinksOnce(t) ==>
      WellLinked(Build(t, e, entityType, choices)) && LinksOnce(Build(t, e, entityType, choices))
  {
    var mid := PutFields(t, e, entityType, choices);
    PutFieldsEvolve(t, e, entityType, choices);
    RetireEvolves(mid, e, FieldsOf(choices));
    EvolvesTransitive(t, mid, Build(t, e, entityType, choices));
  }

  // ---- whole runs -----------------------------------------------------------------------------

  /** One build of one entity, with what its observations said at the time. */
  datatype BuildOp = BuildOp(entity: nat, entityType: EntityType, choices: seq<FieldChoice>)

  function BuildRun(t: Table, ops: seq<BuildOp>): Table {
    if ops == [] then t
    else
      var last := ops[|ops| - 1];
      Build(BuildRun(t, ops[..|ops| - 1]), last.entity, last.entityType, last.choices)
  }

  /**
   * Over any run of builds, of any entities, with observations changing in between: the table only grows,
   * no row changes what it says or when it was added, a closed row never reopens, and no two rows of a
   * field are current at once.
   */
  lemma {:induction false} HistoryIsAppendOnly(t: Table, ops: seq<BuildOp>)
    ensures Evolves(t, BuildRun(t, ops))
    ensures OneCurrent(t) ==> OneCurrent(BuildRun(t, ops))
    ensures WellLinked(t) && LinksOnce(t) ==> WellLinked(BuildRun(t, ops)) && LinksOnce(BuildRun(t, ops))
  {
    if ops != [] {
      var n := |ops| - 1;
      var mid := BuildRun(t, ops[..n]);
      HistoryIsAppendOnly(t, ops[..n]);
      BuildEvolves(mid, ops[n].entity, ops[n].entityType, ops[n].choices);
      EvolvesTransitive(t, mid, BuildRun(t, ops));
      if OneCurrent(t) {
        BuildKeepsOtherEntities(mid, ops[n].entity, ops[n].entityType, ops[n].choices, ops[n].entity, "");
      }
    }
  }

  // ---- following a value forward -----------------------------------------------------------------

  /** Where the chain of replacements from a row ends. */
  function Latest(t: Table, i: nat): nat
    requires WellLinked(t) && i < |t|
    decreases |t| - i
  {
    if t[i].supersededBy.None? then i else Latest(t, t[i].supersededBy.value)
  }

  /** The chain stays in its entity and field, only moves forward, and ends at a current or a retired row. */
  lemma {:induction false} ChainEnds(t: Table, i: nat)
    requires WellLinked(t) && i < |t|
    ensures i <= Latest(t, i) < |t|
    ensures t[Latest(t, i)].entity == t[i].entity && t[Latest(t, i)].field == t[i].field
    ensures t[Latest(t, i)].supersededBy.None?
    ensures !t[i].closed ==> Latest(t, i) == i
    ensures t[i].supersededBy.Some? ==> i < Latest(t, i)
    decreases |t| - i
  {
    if t[i].supersededBy.Some? { ChainEnds(t, t[i].supersededBy.value); }
  }

  /** The same chain followed later passes through the place it ended at before. */
  lemma {:induction false} ChainsGrow(t: Table, u: Table, i: nat)
    requires WellLinked(t) && WellLinked(u) && Evolves(t, u) && i < |t|
    ensures Latest(t, i) < |t| && Latest(u, i) == Latest(u, Latest(t, i))
    decreases |t| - i
  {
    if t[i].supersededBy.Some? { ChainsGrow(t, u, t[i].supersededBy.value); }
  }

  /**
   * From the first row on, over every run of builds, a superseded value leads to a later row of the same
   * field that still says what it said, which is the current value or one that was retired.
   */
  lemma EveryValueIsAccountedFor(ops: seq<BuildOp>, later: seq<BuildOp>, i: nat)
    requires i < |BuildRun([], ops)|
    ensures var t, u := BuildRun([], ops), BuildRun(BuildRun([], ops), later);
      && WellLinked(u) && OneCurrent(u) && i < |u|
      && u[i].value == t[i].value && u[i].entity == t[i].entity && u[i].field == t[i].field
      && var end := Latest(u, i);
         && i <= end < |u| && u[end].entity == t[i].entity && u[end].field == t[i].field && u[end].supersededBy.None?
         && (u[end].closed || Trusted(u, t[i].entity, t[i].field) == Some(u[end]))
  {
    var t := BuildRun([], ops);
    HistoryIsAppendOnly([], ops);
    HistoryIsAppendOnly(t, later);
    var u := BuildRun(t, later);
    ChainEnds(u, i);
    var end := Latest(u, i);
    if !u[end].closed { CurrentIsUnique(u, end, t[i].entity, t[i].field); }
  }
}

/** One record through all stages, or each stage across all records: the same facts either way. */
module PathsAgree {
  import opened Ordering
  import opened Sequences
  import opened Keys
  import opened Scoring
  import opened EntityStore
  import opened Normalization
  import opened SourceOrder
  import opened Validation
  import opened RecordSubjects
  import opened Survivorship
  import opened GoldenTable
  import opened RecordPipeline
  import opened EntityGolden
  import Q = Quarantine
  import S = StableIds
  import K = KeyIndex

  // ---- where a batch starts ---------------------------------------------------------------------

  /** Links, verdicts and quarantine cases are about stored records. */
  ghost predicate RefersToRecords(w: World) {
    && (forall k :: k in w.store.links ==> k.record in w.records)
    && w.verdicts.Keys <= w.records.Keys && w.cases.Keys <= w.records.Keys
  }

  ghost predicate NoBlankValues(records: Records) {
    forall r, a :: r in records && a in records[r].attributes ==> a.normalized != Some("")
  }

  ghost predicate Sane(w: World) {
    S.Inv(w.store) && OneCurrent(w.golden) && RefersToRecords(w) && NoBlankValues(w.records)
  }

  function Ids(row: InputRow): set<EntityId> { {row.selfId, row.employerId} }

  /** A row of a new batch: its record and its ids are used by nothing yet, and it has at least one column. */
  ghost predicate FreshRow(w: World, row: InputRow) {
    && row.payload != [] && DistinctColumns(row.payload)
    && row.record !in w.records && row.selfId != row.employerId && Ids(row) !! w.store.entities.Keys
  }

  ghost predicate FreshRows(w: World, ctx: Context, rows: seq<InputRow>) {
    && (forall i :: 0 <= i < |rows| ==> FreshRow(w, rows[i]))
    && (forall i, j :: 0 <= i < j < |rows| ==> rows[i].record != rows[j].record && Ids(rows[i]) !! Ids(rows[j]))
    && (forall k :: k in w.store.links ==> w.store.links[k].batch != ctx.batch)
  }

  // ---- what one record resolves to -----------------------------------------------------------------

  function Resolved(s: Store, plan: Option<Subjects>): Store {
    if plan.None? then s else S.ResolveRecord(s, plan.value.self, plan.value.employer)
  }

  ghost predicate PlanFor(ctx: Context, row: InputRow, who: Subjects) {
    && who.self.record == row.record && who.self.role == Self && who.self.newId == row.selfId
    && who.self.batch == ctx.batch && who.self.entityType == ctx.entityType
    && (who.employer.Some? ==>
          var e := who.employer.value;
          e.record == row.record && e.role == Employer && e.newId == row.employerId && e.batch == ctx.batch && e.entityType == Company)
  }

  lemma PlansAre(ctx: Context, row: InputRow)
    ensures PlanOf(ctx, row).Some? ==> PlanFor(ctx, row, PlanOf(ctx, row).value)
  {
  }

  // ---- what resolving one subject writes ---------------------------------------------------------------

  ghost predicate Extends(s: Store, t: Store) {
    && t.merges == s.merges
    && forall e :: e in s.entities ==> e in t.entities && t.entities[e] == s.entities[e]
  }

  /** Exactly one link, to the entity the decision names. */
  ghost predicate WritesLink(s: Store, t: Store, r: Subject, e: EntityId) {
    var k := LinkKey(r.record, r.role);
    && k in t.links && t.links == s.links[k := t.links[k]]
    && t.links[k].entity == e && t.links[k].batch == r.batch && t.links[k].entityType == r.entityType
  }

  lemma DecisionWrites(s: Store, r: Subject, d: Option<Decision>)
    requires d.Some? && d.value.kind != New ==> d.value.best.Some?
    requires LinkKey(r.record, r.role) !in s.links && r.newId !in s.entities
    ensures var a := ApplyDecision(s, r, d);
      WritesLink(s, a.store, r, a.entity) && Extends(s, a.store) && a.store.entities.Keys <= s.entities.Keys + {r.newId}
  {
    hide WithKeys;
  }

  lemma ResolveWrites(s: Store, r: Subject)
    requires S.Inv(s)
    requires LinkKey(r.record, r.role) !in s.links && r.newId !in s.entities
    requires r.role == Self || LinkKey(r.record, Self) in s.links
    ensures var a := Resolve(s, r);
      && WritesLink(s, a.store, r, a.entity) && Extends(s, a.store) && a.store.entities.Keys <= s.entities.Keys + {r.newId}
      && S.Inv(a.store) && IsActive(a.store, a.entity)
  {
    DecisionWrites(s, r, DecisionFor(s, r));
    S.ResolveKeeps(s, r);
    var k := LinkKey(r.record, r.role);
    assert k in Resolve(s, r).store.links;
  }

  function EntityOf(employer: Option<EntityId>): set<EntityId> { if employer.None? then {} else {employer.value} }

  /** Processing a record links it, in each of its roles, to one active entity; nothing else is relinked. */
  ghost predicate LinksRecord(s: Store, t: Store, ctx: Context, row: InputRow, self: EntityId, employer: Option<EntityId>) {
    var own, theirs := LinkKey(row.record, Self), LinkKey(row.record, Employer);
    && t.links.Keys == s.links.Keys + {own} + (if employer.Some? then {theirs} else {})
    && (forall k :: k in s.links ==> t.links[k] == s.links[k])
    && t.links[own].entity == self && t.links[own].batch == ctx.batch
    && IsActive(t, self)
    && (employer.Some? ==>
          && t.links[theirs].entity == employer.value && t.links[theirs].batch == ctx.batch && IsActive(t, employer.value))
  }

  /** And those entities are what the record is, and a company. */
  ghost predicate OfTheRightType(t: Store, ctx: Context, self: EntityId, employer: Option<EntityId>) {
    && self in t.entities && t.entities[self].entityType == ctx.entityType
    && (employer.Some? ==> employer.value in t.entities && t.entities[employer.value].entityType == Company)
  }

  ghost predicate Unlinked(s: Store, row: InputRow) {
    (forall k :: k in s.links ==> k.record != row.record) && row.selfId != row.employerId && Ids(row) !! s.entities.Keys
  }

  lemma RecordWrites(s: Store, ctx: Context, row: InputRow, who: Subjects)
    requires S.Inv(s) && PlanFor(ctx, row, who) && Unlinked(s, row)
    ensures var first, t := Resolve(s, who.self), S.ResolveRecord(s, who.self, who.employer);
      && S.Inv(t) && Extends(s, t) && t.entities.Keys <= s.entities.Keys + Ids(row)
      && LinksRecord(s, t, ctx, row, first.entity, EmployerEntity(first.store, who.employer))
      && (K.TypedActiveKeys(s) ==>
            K.TypedActiveKeys(t) && OfTheRightType(t, ctx, first.entity, EmployerEntity(first.store, who.employer)))
  {
    hide Resolve, S.Inv, K.TypedActiveKeys;
    ResolveWrites(s, who.self);
    if who.employer.Some? {
      ResolveWrites(Resolve(s, who.self).store, who.employer.value);
    }
    if K.TypedActiveKeys(s) {
      K.ResolveKeepsActiveTypes(s, who.self);
      if who.employer.Some? { K.ResolveKeepsActiveTypes(Resolve(s, who.self).store, who.employer.value); }
    }
  }

  lemma TouchedGrows(s: Store, t: Store, ctx: Context, row: InputRow, self: EntityId, employer: Option<EntityId>)
    requires S.Inv(s) && S.Inv(t) && Extends(s, t) && LinksRecord(s, t, ctx, row, self, employer)
    requires forall k :: k in s.links ==> k.record != row.record
    ensures Touched(t, ctx.batch) == Touched(s, ctx.batch) + {self} + EntityOf(employer)
  {
    var own, theirs := LinkKey(row.record, Self), LinkKey(row.record, Employer);
    forall e ensures e in Touched(t, ctx.batch) <==> e in Touched(s, ctx.batch) + {self} + EntityOf(employer) {
      if e in Touched(s, ctx.batch) {
        var k :| k in s.links && s.links[k].batch == ctx.batch && s.links[k].entity == e;
        assert k in t.links && t.links[k] == s.links[k];
      }
      if e in Touched(t, ctx.batch) {
        var k :| k in t.links && t.links[k].batch == ctx.batch && t.links[k].entity == e;
        if k in s.links { assert t.links[k] == s.links[k]; assert IsActive(s, s.links[k].entity); }
      }
      if e == self { assert own in t.links; }
      if employer == Some(e) { assert theirs in t.links; }
    }
  }

  /** A new record adds nothing to what other entities' records say. */
  lemma JoinOfOthers(s: Store, t: Store, ctx: Context, row: InputRow, self: EntityId, employer: Option<EntityId>,
                     records: Records, stored: Stored, e: EntityId)
    requires LinksRecord(s, t, ctx, row, self, employer)
    requires (forall k :: k in s.links ==> k.record != row.record) && row.record !in records
    requires e != self && employer != Some(e)
    ensures Join(t.links, records[row.record := stored], e) == Join(s.links, records, e)
  {
    var more := records[row.record := stored];
    forall k ensures k in t.links && t.links[k].entity == e <==> k in s.links && s.links[k].entity == e {
      if k in s.links { assert t.links[k] == s.links[k]; }
    }
    assert forall k :: k in s.links && k.record in records ==> more[k.record] == records[k.record];
    assert forall k :: k in s.links ==> (k.record in records <==> k.record in more);
  }

  lemma JoinHasNoBlanks(links: Links, records: Records, e: EntityId)
    requires NoBlankValues(records)
    ensures NoBlanks(Join(links, records, e))
  {
  }

  lemma StoredHasNoBlanks(ctx: Context, row: InputRow, records: Records)
    requires NoBlankValues(records) && Sound(ctx.normalizer) && DistinctColumns(row.payload)
    ensures NoBlankValues(records[row.record := Stores(ctx, row)])
  {
    EveryColumnIsObserved(row.payload, ctx.mappings, ctx.normalizer);
    forall a | a in Stores(ctx, row).attributes ensures a.normalized != Some("") {
      assert FiledUnder(a, ctx.mappings);
    }
  }

  // ---- the golden table along the fused path --------------------------------------------------------------

  /** What each entity was last built as: a record builds its own entity as its batch's type and its employer's as a company. */
  type Taken = map<EntityId, EntityType>

  function TakenBy(taken: Taken, ctx: Context, self: EntityId, employer: Option<EntityId>): Taken {
    var own := taken[self := ctx.entityType];
    if employer.None? then own else own[employer.value := Company]
  }

  function TakenNext(taken: Taken, s: Store, ctx: Context, plan: Option<Subjects>): Taken {
    match plan
    case None => taken
    case Some(who) =>
      var first := Resolve(s, who.self);
      TakenBy(taken, ctx, first.entity, EmployerEntity(first.store, who.employer))
  }

  /**
   * The batch's entities show what their records say, under the strategies of the type they were taken for;
   * every other entity shows what it showed before the batch.
   */
  ghost predicate GoldenFollows(t0: Table, t: Table, s: Store, records: Records, batch: nat, taken: Taken) {
    && taken.Keys == Touched(s, batch)
    && (forall e :: e in taken ==> ShowsJoin(t, e, taken[e], Join(s.links, records, e)))
    && (forall e, f :: e !in taken ==> Trusted(t, e, f) == Trusted(t0, e, f))
  }

  ghost predicate SameShown(t: Table, u: Table, e: EntityId) { forall f :: Trusted(u, e, f) == Trusted(t, e, f) }

  lemma ShowsJoinSame(t: Table, u: Table, e: EntityId, entityType: EntityType, join: set<JoinRow>)
    requires ShowsJoin(t, e, entityType, join) && SameShown(t, u, e)
    ensures ShowsJoin(u, e, entityType, join)
  {
    forall f ensures ShowsField(u, e, entityType, f, ClaimsIn(join, f)) {
      assert ShowsField(t, e, entityType, f, ClaimsIn(join, f));
      assert Trusted(u, e, f) == Trusted(t, e, f);
    }
  }

  /** The subjects' entities are up to date, and nobody else's values moved. */
  lemma BuildSubjectsShow(t: Table, links: Links, records: Records, self: EntityId, entityType: EntityType,
                          employer: Option<EntityId>, read: Reader)
    requires OneCurrent(t) && Faithful(read) && NoBlankValues(records)
    ensures var u := BuildSubjects(t, links, records, self, entityType, employer, read);
      && OneCurrent(u)
      && (employer != Some(self) ==> ShowsJoin(u, self, entityType, Join(links, records, self)))
      && (employer.Some? ==> ShowsJoin(u, employer.value, Company, Join(links, records, employer.value)))
      && (forall e :: e != self && employer != Some(e) ==> SameShown(t, u, e))
  {
    JoinHasNoBlanks(links, records, self);
    BuildShowsJoin(t, links, records, self, entityType, read);
    if employer.Some? {
      var own := BuildOne(t, links, records, self, entityType, read);
      var u := BuildSubjects(t, links, records, self, entityType, employer, read);
      JoinHasNoBlanks(links, records, employer.value);
      BuildShowsJoin(own, links, records, employer.value, Company, read);
      if employer.value != self { ShowsJoinSame(own, u, self, entityType, Join(links, records, self)); }
    }
  }

  lemma SubjectsFollow(t0: Table, t: Table, s: Store, u: Store, ctx: Context, row: InputRow, self: EntityId,
                       employer: Option<EntityId>, records: Records, stored: Stored, read: Reader, taken: Taken)
    requires S.Inv(s) && S.Inv(u) && Extends(s, u) && LinksRecord(s, u, ctx, row, self, employer)
    requires (forall k :: k in s.links ==> k.record != row.record) && row.record !in records
    requires OneCurrent(t) && Faithful(read) && NoBlankValues(records[row.record := stored])
    requires GoldenFollows(t0, t, s, records, ctx.batch, taken)
    ensures var more := records[row.record := stored];
      var built := BuildSubjects(t, u.links, more, self, ctx.entityType, employer, read);
      OneCurrent(built) && GoldenFollows(t0, built, u, more, ctx.batch, TakenBy(taken, ctx, self, employer))
  {
    hide ShowsJoin, Join, BuildSubjects, S.Inv, LinksRecord, Extends, OneCurrent, NoBlankValues, Touched;
    var more := records[row.record := stored];
    var built := BuildSubjects(t, u.links, more, self, ctx.entityType, employer, read);
    var next := TakenBy(taken, ctx, self, employer);
    TouchedGrows(s, u, ctx, row, self, employer);
    BuildSubjectsShow(t, u.links, more, self, ctx.entityType, employer, read);
    forall e | e in next ensures ShowsJoin(built, e, next[e], Join(u.links, more, e)) {
      if e != self && employer != Some(e) {
        JoinOfOthers(s, u, ctx, row, self, employer, records, stored, e);
        ShowsJoinSame(t, built, e, next[e], Join(u.links, more, e));
      }
    }
    forall e, f | e !in next ensures Trusted(built, e, f) == Trusted(t0, e, f) {
      assert SameShown(t, built, e);
    }
  }

  /** A record that joins no entity changes nobody's trusted values. */
  lemma UnresolvedFollows(t0: Table, t: Table, s: Store, batch: nat, row: InputRow, records: Records, stored: Stored, taken: Taken)
    requires (forall k :: k in s.links ==> k.record != row.record) && GoldenFollows(t0, t, s, records, batch, taken)
    ensures GoldenFollows(t0, t, s, records[row.record := stored], batch, taken)
  {
    forall e | e in taken ensures ShowsJoin(t, e, taken[e], Join(s.links, records[row.record := stored], e))
    {
      assert Join(s.links, records[row.record := stored], e) == Join(s.links, records, e);
    }
  }

  lemma RecordedKeeps(t0: Table, w: World, ctx: Context, row: InputRow, taken: Taken)
    requires Sane(w) && FreshRow(w, row) && Sound(ctx.normalizer)
    requires GoldenFollows(t0, w.golden, w.store, w.records, ctx.batch, taken)
    ensures var u := Recorded(w, ctx, row); Sane(u) && GoldenFollows(t0, u.golden, u.store, u.records, ctx.batch, taken)
  {
    StoredHasNoBlanks(ctx, row, w.records);
    UnresolvedFollows(t0, w.golden, w.store, ctx.batch, row, w.records, Stores(ctx, row), taken);
  }

  lemma JoinedFollows(t0: Table, w: World, u: World, ctx: Context, row: InputRow, who: Subjects, stored: Stored, read: Reader,
                      taken: Taken)
    requires Sane(w) && FreshRow(w, row) && Faithful(read) && PlanFor(ctx, row, who)
    requires GoldenFollows(t0, w.golden, w.store, w.records, ctx.batch, taken)
    requires Sane(u) && u.store == w.store && u.golden == w.golden && u.records == w.records[row.record := stored]
    ensures var v := Joined(u, ctx, who, read);
      && Sane(v) && GoldenFollows(t0, v.golden, v.store, v.records, ctx.batch, TakenNext(taken, w.store, ctx, Some(who)))
      && v.store.entities.Keys <= w.store.entities.Keys + Ids(row)
  {
    hide Resolve, BuildSubjects, EmployerEntity, GoldenFollows, S.Inv, OneCurrent, NoBlankValues, Extends, K.TypedActiveKeys;
    RecordWrites(w.store, ctx, row, who);
    var first, store := Resolve(w.store, who.self), S.ResolveRecord(w.store, who.self, who.employer);
    SubjectsFollow(t0, w.golden, w.store, store, ctx, row, first.entity, EmployerEntity(first.store, who.employer),
                   w.records, stored, read, taken);
  }

  lemma ProcessKeeps(t0: Table, w: World, ctx: Context, row: InputRow, read: Reader, taken: Taken)
    requires Sane(w) && FreshRow(w, row) && Sound(ctx.normalizer) && Faithful(read)
    requires GoldenFollows(t0, w.golden, w.store, w.records, ctx.batch, taken)
    ensures var u := Process(w, ctx, row, read);
      && Sane(u) && GoldenFollows(t0, u.golden, u.store, u.records, ctx.batch, TakenNext(taken, w.store, ctx, PlanOf(ctx, row)))
      && u.store.entities.Keys <= w.store.entities.Keys + Ids(row)
  {
    RecordedKeeps(t0, w, ctx, row, taken);
    if PlanOf(ctx, row).Some? {
      PlansAre(ctx, row);
      JoinedFollows(t0, w, Recorded(w, ctx, row), ctx, row, PlanOf(ctx, row).value, Stores(ctx, row), read, taken);
    }
  }

  lemma ProcessWrites(w: World, ctx: Context, row: InputRow, read: Reader)
    ensures var u, v := Process(w, ctx, row, read), VerdictOn(ctx, Stores(ctx, row).attributes);
      && u.records == w.records[row.record := Stores(ctx, row)]
      && u.verdicts == w.verdicts[row.record := v]
      && u.cases == w.cases[row.record := CaseFor(v)]
      && u.store == Resolved(w.store, PlanOf(ctx, row))
  {
    hide CaseFor, VerdictOn, SubjectsOf, Stores, BuildSubjects;
  }

  // ---- the whole fused run -----------------------------------------------------------------------------------

  function AllIds(rows: seq<InputRow>): set<EntityId> { set row, e | row in rows && e in Ids(row) :: e }

  lemma RowsAppend(rows: seq<InputRow>, row: InputRow)
    ensures RecordsOf(rows + [row]) == RecordsOf(rows) + {row.record}
    ensures AllIds(rows + [row]) == AllIds(rows) + Ids(row)
  {
    var all := rows + [row];
    assert forall x :: x in all <==> x in rows || x == row;
    forall e ensures e in AllIds(all) <==> e in AllIds(rows) + Ids(row) {
      if e in AllIds(all) { var x :| x in all && e in Ids(x); }
      if e in AllIds(rows) { var x :| x in rows && e in Ids(x); assert x in all; }
      if e in Ids(row) { assert row in all; }
    }
  }

  lemma PrefixIsFresh(w: World, ctx: Context, rows: seq<InputRow>)
    requires FreshRows(w, ctx, rows) && rows != []
    ensures FreshRows(w, ctx, rows[..|rows| - 1])
  {
  }

  lemma LastIsNew(w: World, ctx: Context, rows: seq<InputRow>)
    requires FreshRows(w, ctx, rows) && rows != []
    ensures var n := |rows| - 1; rows[n].record !in RecordsOf(rows[..n]) && Ids(rows[n]) !! AllIds(rows[..n])
  {
    var n := |rows| - 1;
    forall e | e in AllIds(rows[..n]) ensures e !in Ids(rows[n]) {
      var row :| row in rows[..n] && e in Ids(row);
      var i :| 0 <= i < n && rows[..n][i] == row;
      assert Ids(rows[i]) !! Ids(rows[n]);
    }
  }

  lemma FreshPrefix(w: World, ctx: Context, rows: seq<InputRow>)
    requires FreshRows(w, ctx, rows) && rows != []
    ensures var n := |rows| - 1;
      && FreshRows(w, ctx, rows[..n]) && FreshRow(w, rows[n])
      && RecordsOf(rows) == RecordsOf(rows[..n]) + {rows[n].record} && AllIds(rows) == AllIds(rows[..n]) + Ids(rows[n])
      && rows[n].record !in RecordsOf(rows[..n]) && Ids(rows[n]) !! AllIds(rows[..n])
  {
    var n := |rows| - 1;
    PrefixIsFresh(w, ctx, rows);
    LastIsNew(w, ctx, rows);
    RowsAppend(rows[..n], rows[n]);
    assert rows == rows[..n] + [rows[n]];
  }

  function ResolvePlans(s: Store, ctx: Context, rows: seq<InputRow>): Store {
    if rows == [] then s
    else Resolved(ResolvePlans(s, ctx, rows[..|rows| - 1]), PlanOf(ctx, rows[|rows| - 1]))
  }

  /** What a batch's entities were last built as, record by record. */
  function BuiltAs(s: Store, ctx: Context, rows: seq<InputRow>): Taken {
    if rows == [] then map[]
    else
      var n := |rows| - 1;
      TakenNext(BuiltAs(s, ctx, rows[..n]), ResolvePlans(s, ctx, rows[..n]), ctx, PlanOf(ctx, rows[n]))
  }

  /** Sound tables, holding just these new records and no ids but theirs. */
  ghost predicate Along(w: World, u: World, ctx: Context, records: set<RecordId>, ids: set<EntityId>, taken: Taken) {
    && Sane(u) && GoldenFollows(w.golden, u.golden, u.store, u.records, ctx.batch, taken)
    && u.records.Keys == w.records.Keys + records
    && u.store.entities.Keys <= w.store.entities.Keys + ids
  }

  lemma NextAlong(w: World, u: World, ctx: Context, row: InputRow, read: Reader, records: set<RecordId>, ids: set<EntityId>,
                  taken: Taken)
    requires Along(w, u, ctx, records, ids, taken) && Sound(ctx.normalizer) && Faithful(read)
    requires FreshRow(w, row) && row.record !in records && Ids(row) !! ids
    ensures Along(w, Process(u, ctx, row, read), ctx, records + {row.record}, ids + Ids(row),
                  TakenNext(taken, u.store, ctx, PlanOf(ctx, row)))
  {
    hide CaseFor, VerdictOn, SubjectsOf, Stores, Process, Sane, GoldenFollows, TakenNext;
    ProcessKeeps(w.golden, u, ctx, row, read, taken);
    ProcessWrites(u, ctx, row, read);
  }

  /**
   * At every point of the fused run the tables are sound and the golden values of everything the batch has
   * touched so far are what a recomputation over the records linked so far would give, for the type each
   * entity was last taken for.
   */
  lemma {:induction false} FusedKeeps(w: World, ctx: Context, rows: seq<InputRow>, read: Reader)
    requires Sane(w) && FreshRows(w, ctx, rows) && Sound(ctx.normalizer) && Faithful(read)
    ensures Along(w, Fused(w, ctx, rows, read), ctx, RecordsOf(rows), AllIds(rows), BuiltAs(w.store, ctx, rows))
  {
    if rows == [] {
      assert Touched(w.store, ctx.batch) == {};
    } else {
      hide Along, Process, TakenNext, PlanOf, Sane, Touched;
      var n := |rows| - 1;
      FreshPrefix(w, ctx, rows);
      FusedKeeps(w, ctx, rows[..n], read);
      FusedStore(w, ctx, rows[..n], read);
      NextAlong(w, Fused(w, ctx, rows[..n], read), ctx, rows[n], read, RecordsOf(rows[..n]), AllIds(rows[..n]),
                BuiltAs(w.store, ctx, rows[..n]));
    }
  }

  /** Everything was built as what it is. */
  ghost predicate RightlyTaken(s: Store, taken: Taken) {
    forall e :: e in taken ==> e in s.entities && taken[e] == s.entities[e].entityType
  }

  lemma StillFresh(w: World, u: World, ctx: Context, row: InputRow, records: set<RecordId>, ids: set<EntityId>, taken: Taken)
    requires Along(w, u, ctx, records, ids, taken) && FreshRow(w, row) && row.record !in records && Ids(row) !! ids
    ensures Sane(u) && FreshRow(u, row)
  {
    hide Sane, GoldenFollows;
  }

  lemma NextRightlyTaken(u: World, ctx: Context, row: InputRow, taken: Taken)
    requires Sane(u) && K.TypedActiveKeys(u.store) && FreshRow(u, row) && RightlyTaken(u.store, taken)
    ensures var t := Resolved(u.store, PlanOf(ctx, row));
      K.TypedActiveKeys(t) && RightlyTaken(t, TakenNext(taken, u.store, ctx, PlanOf(ctx, row)))
  {
    hide S.Inv, K.TypedActiveKeys, Resolve, EmployerEntity, PlanOf, S.ResolveRecord;
    if PlanOf(ctx, row).Some? {
      PlansAre(ctx, row);
      RecordWrites(u.store, ctx, row, PlanOf(ctx, row).value);
    }
  }

  /** Where active entities hold keys of their own type only, nothing is taken for what it is not. */
  lemma {:induction false} FusedTakesRightly(w: World, ctx: Context, rows: seq<InputRow>, read: Reader)
    requires Sane(w) && FreshRows(w, ctx, rows) && Sound(ctx.normalizer) && Faithful(read)
    requires K.TypedActiveKeys(w.store)
    ensures var s := ResolvePlans(w.store, ctx, rows); K.TypedActiveKeys(s) && RightlyTaken(s, BuiltAs(w.store, ctx, rows))
  {
    if rows != [] {
      hide Along, Sane, FreshRow, K.TypedActiveKeys, TakenNext, PlanOf, GoldenFollows, Resolved, RightlyTaken;
      var n := |rows| - 1;
      var u := Fused(w, ctx, rows[..n], read);
      FreshPrefix(w, ctx, rows);
      FusedTakesRightly(w, ctx, rows[..n], read);
      FusedKeeps(w, ctx, rows[..n], read);
      FusedStore(w, ctx, rows[..n], read);
      StillFresh(w, u, ctx, rows[n], RecordsOf(rows[..n]), AllIds(rows[..n]), BuiltAs(w.store, ctx, rows[..n]));
      NextRightlyTaken(u, ctx, rows[n], BuiltAs(w.store, ctx, rows[..n]));
    }
  }

  lemma {:induction false} FusedStore(w: World, ctx: Context, rows: seq<InputRow>, read: Reader)
    ensures Fused(w, ctx, rows, read).store == ResolvePlans(w.store, ctx, rows)
  {
    if rows != [] {
      var n := |rows| - 1;
      FusedStore(w, ctx, rows[..n], read);
      ProcessWrites(Fused(w, ctx, rows[..n], read), ctx, rows[n], read);
    }
  }

  /** Nothing stored of this record has changed. */
  ghost predicate SameAt(w: World, u: World, r: RecordId) {
    && (r in u.records <==> r in w.records) && (r in w.records ==> u.records[r] == w.records[r])
    && (r in u.verdicts <==> r in w.verdicts) && (r in w.verdicts ==> u.verdicts[r] == w.verdicts[r])
    && (r in u.cases <==> r in w.cases) && (r in w.cases ==> u.cases[r] == w.cases[r])
  }

  lemma ProcessLeaves(w: World, ctx: Context, row: InputRow, read: Reader, r: RecordId)
    requires r != row.record
    ensures SameAt(w, Process(w, ctx, row, read), r)
  {
    hide CaseFor, VerdictOn, Stores, Process;
    ProcessWrites(w, ctx, row, read);
  }

  /** The fused run leaves every other record alone. */
  lemma {:induction false} FusedLeaves(w: World, ctx: Context, rows: seq<InputRow>, read: Reader, r: RecordId)
    requires r !in RecordsOf(rows)
    ensures SameAt(w, Fused(w, ctx, rows, read), r)
  {
    if rows != [] {
      var n := |rows| - 1;
      assert rows == rows[..n] + [rows[n]];
      RowsAppend(rows[..n], rows[n]);
      FusedLeaves(w, ctx, rows[..n], read, r);
      ProcessLeaves(Fused(w, ctx, rows[..n], read), ctx, rows[n], read, r);
    }
  }

  ghost predicate HoldsRow(u: World, ctx: Context, row: InputRow) {
    var verdict := VerdictOn(ctx, Stores(ctx, row).attributes);
    && row.record in u.records && u.records[row.record] == Stores(ctx, row)
    && row.record in u.verdicts && u.verdicts[row.record] == verdict
    && row.record in u.cases && u.cases[row.record] == CaseFor(verdict)
  }

  lemma ProcessHolds(w: World, ctx: Context, row: InputRow, read: Reader)
    ensures HoldsRow(Process(w, ctx, row, read), ctx, row)
  {
    ProcessWrites(w, ctx, row, read);
  }

  lemma {:induction false} FusedHolds(w: World, ctx: Context, rows: seq<InputRow>, read: Reader, i: nat)
    requires FreshRows(w, ctx, rows) && i < |rows|
    ensures HoldsRow(Fused(w, ctx, rows, read), ctx, rows[i])
  {
    var n := |rows| - 1;
    if i < n {
      PrefixIsFresh(w, ctx, rows);
      FusedHolds(w, ctx, rows[..n], read, i);
      ProcessLeaves(Fused(w, ctx, rows[..n], read), ctx, rows[n], read, rows[i].record);
    } else {
      ProcessHolds(Fused(w, ctx, rows[..n], read), ctx, rows[n], read);
    }
  }

  // ---- one row on the staged path ------------------------------------------------------------------------------

  ghost predicate SameVerdict(x: RecordVerdict, y: RecordVerdict) {
    y == x.(results := y.results) && multiset(x.results) == multiset(y.results)
  }

  lemma CaseForResolvable(v: RecordVerdict)
    ensures Q.Resolvable(CaseFor(v)) <==> v.status != Q.Invalid
  {
  }

  function StagedStored(ctx: Context, row: InputRow, back: ReadBack): Stored {
    Stored(AttributesOf(back(row.payload), ctx.mappings, ctx.normalizer), row.observedAt, ctx.source)
  }

  function StagedVerdict(ctx: Context, row: InputRow, back: ReadBack): RecordVerdict {
    VerdictOn(ctx, SortByPlace(StagedStored(ctx, row, back).attributes))
  }

  ghost predicate SameStored(x: Stored, y: Stored) {
    multiset(x.attributes) == multiset(y.attributes) && x.observedAt == y.observedAt && x.source == y.source
  }

  /** Reordering the columns and the observations on the way changes no judgement and nobody's identity. */
  lemma RowMeansTheSame(ctx: Context, row: InputRow, back: ReadBack)
    requires KeepsCells(back) && Sound(ctx.normalizer) && DistinctColumns(row.payload)
    ensures SameStored(Stores(ctx, row), StagedStored(ctx, row, back))
    ensures SameVerdict(VerdictOn(ctx, Stores(ctx, row).attributes), StagedVerdict(ctx, row, back))
    ensures SubjectsOf(ctx, row, Stores(ctx, row).attributes, VerdictOn(ctx, Stores(ctx, row).attributes).results) ==
            SubjectsOf(ctx, row, StagedStored(ctx, row, back).attributes, StagedVerdict(ctx, row, back).results)
  {
    var x, y := Stores(ctx, row).attributes, StagedStored(ctx, row, back).attributes;
    ReorderedPayloadSaysTheSame(row.payload, back(row.payload), ctx.mappings, ctx.normalizer);
    EveryColumnIsObserved(row.payload, ctx.mappings, ctx.normalizer);
    VerdictIgnoresOrder(ctx.judge, x, SortByPlace(y), ctx.entityType);
    SubjectsIgnoreOrder(ctx, row, x, y, VerdictOn(ctx, x).results, StagedVerdict(ctx, row, back).results);
  }

  lemma {:induction false} NormalizedAt(records: Records, ctx: Context, rows: seq<InputRow>, back: ReadBack, r: RecordId)
    ensures NormalizeAll(records, ctx, rows, back).Keys == records.Keys + RecordsOf(rows)
    ensures r !in RecordsOf(rows) && r in records ==> NormalizeAll(records, ctx, rows, back)[r] == records[r]
  {
    if rows != [] {
      var n := |rows| - 1;
      NormalizedAt(records, ctx, rows[..n], back, r);
      assert rows == rows[..n] + [rows[n]];
    }
  }

  lemma {:induction false} NormalizedRow(w: World, ctx: Context, rows: seq<InputRow>, back: ReadBack, i: nat)
    requires FreshRows(w, ctx, rows) && i < |rows|
    ensures rows[i].record in NormalizeAll(w.records, ctx, rows, back)
    ensures NormalizeAll(w.records, ctx, rows, back)[rows[i].record] == StagedStored(ctx, rows[i], back)
  {
    var n := |rows| - 1;
    if i < n {
      PrefixIsFresh(w, ctx, rows);
      NormalizedRow(w, ctx, rows[..n], back, i);
      assert rows[i].record != rows[n].record;
    }
  }

  /** Each record is judged on its own: when the others are judged does not matter. */
  lemma {:induction false} ValidatedAt(w: World, ctx: Context, order: seq<RecordId>, r: RecordId)
    ensures var v := ValidateAll(w, ctx, order);
      && v.records == w.records && v.store == w.store && v.golden == w.golden
      && (r in order && r in w.records ==>
            var verdict := VerdictOn(ctx, SortByPlace(w.records[r].attributes));
            && r in v.verdicts && v.verdicts[r] == verdict
            && r in v.cases
            && v.cases[r] == Q.Step(if r in w.cases then w.cases[r] else Q.NewCase, Q.Validated(verdict.status, verdict.errorRules)))
      && (r !in order ==>
            && (r in v.verdicts <==> r in w.verdicts) && (r in w.verdicts ==> v.verdicts[r] == w.verdicts[r])
            && (r in v.cases <==> r in w.cases) && (r in w.cases ==> v.cases[r] == w.cases[r]))
  {
    hide VerdictOn, SortByPlace, Q.Step;
    if order != [] {
      var n := |order| - 1;
      ValidatedAt(w, ctx, order[..n], r);
      assert order == order[..n] + [order[n]];
    }
  }

  lemma StagedHolds(w: World, ctx: Context, rows: seq<InputRow>, orders: Orders, i: nat)
    requires RefersToRecords(w) && FreshRows(w, ctx, rows) && i < |rows|
    requires forall r :: r in orders.validating <==> r in RecordsOf(rows)
    ensures var v, row, verdict := Validated(w, ctx, rows, orders), rows[i], StagedVerdict(ctx, rows[i], orders.back);
      && row.record in v.records && v.records[row.record] == StagedStored(ctx, row, orders.back)
      && row.record in v.verdicts && v.verdicts[row.record] == verdict
      && row.record in v.cases && v.cases[row.record] == CaseFor(verdict)
  {
    var row := rows[i];
    assert row in rows && row.record in RecordsOf(rows);
    assert FreshRow(w, row);
    NormalizedRow(w, ctx, rows, orders.back, i);
    ValidatedAt(w.(records := NormalizeAll(w.records, ctx, rows, orders.back)), ctx, orders.validating, row.record);
  }

  lemma StagedLeaves(w: World, ctx: Context, rows: seq<InputRow>, orders: Orders, r: RecordId)
    requires r !in RecordsOf(rows) && r !in orders.validating
    ensures SameAt(w, Validated(w, ctx, rows, orders), r)
  {
    NormalizedAt(w.records, ctx, rows, orders.back, r);
    ValidatedAt(w.(records := NormalizeAll(w.records, ctx, rows, orders.back)), ctx, orders.validating, r);
  }

  /** The staged path resolves the record exactly when the fused one does, as the same subjects. */
  ghost predicate RowAgrees(v: World, ctx: Context, row: InputRow) {
    && (ToResolve(v, row) <==> PlanOf(ctx, row).Some?)
    && (ToResolve(v, row) ==> StagedSubjects(v, ctx, row) == PlanOf(ctx, row).value)
  }

  lemma RowsAgree(w: World, ctx: Context, rows: seq<InputRow>, orders: Orders, i: nat)
    requires RefersToRecords(w) && FreshRows(w, ctx, rows) && i < |rows|
    requires Sound(ctx.normalizer) && KeepsCells(orders.back)
    requires forall r :: r in orders.validating <==> r in RecordsOf(rows)
    ensures RowAgrees(Validated(w, ctx, rows, orders), ctx, rows[i])
  {
    var row := rows[i];
    assert FreshRow(w, row);
    StagedHolds(w, ctx, rows, orders, i);
    ValidatedAt(w.(records := NormalizeAll(w.records, ctx, rows, orders.back)), ctx, orders.validating, row.record);
    RowMeansTheSame(ctx, row, orders.back);
    CaseForResolvable(StagedVerdict(ctx, row, orders.back));
  }

  lemma {:induction false} ResolveAgrees(v: World, ctx: Context, rows: seq<InputRow>)
    requires forall i :: 0 <= i < |rows| ==> RowAgrees(v, ctx, rows[i])
    ensures ResolveAll(v, ctx, rows) == ResolvePlans(v.store, ctx, rows)
  {
    hide S.ResolveRecord, ToResolve, PlanOf, StagedSubjects;
    if rows != [] {
      var n := |rows| - 1;
      ResolveAgrees(v, ctx, rows[..n]);
      assert RowAgrees(v, ctx, rows[n]);
    }
  }

  // ---- building at the end ------------------------------------------------------------------------------------------

  lemma {:induction false} BuildAllShows(t: Table, s: Store, records: Records, order: seq<EntityId>, read: Reader)
    requires OneCurrent(t) && Faithful(read) && NoBlankValues(records)
    requires forall e :: e in order ==> e in s.entities
    ensures var u := BuildAll(t, s, records, order, read);
      && OneCurrent(u)
      && (forall e :: e in order ==> ShowsJoin(u, e, s.entities[e].entityType, Join(s.links, records, e)))
      && (forall e :: e !in order ==> SameShown(t, u, e))
  {
    if order != [] {
      var n := |order| - 1;
      var last := order[n];
      assert order == order[..n] + [last];
      BuildAllShows(t, s, records, order[..n], read);
      var mid, u := BuildAll(t, s, records, order[..n], read), BuildAll(t, s, records, order, read);
      JoinHasNoBlanks(s.links, records, last);
      BuildShowsJoin(mid, s.links, records, last, s.entities[last].entityType, read);
      forall e | e in order ensures ShowsJoin(u, e, s.entities[e].entityType, Join(s.links, records, e)) {
        if e != last { ShowsJoinSame(mid, u, e, s.entities[e].entityType, Join(s.links, records, e)); }
      }
      forall e | e !in order ensures SameShown(t, u, e) {
        assert SameShown(t, mid, e) && SameShown(mid, u, e);
      }
    }
  }

  // ---- the two paths -----------------------------------------------------------------------------------------------------

  ghost predicate SameRecords(a: Records, b: Records) {
    a.Keys == b.Keys && forall r :: r in a ==> SameStored(a[r], b[r])
  }

  ghost predicate SameVerdicts(a: map<RecordId, RecordVerdict>, b: map<RecordId, RecordVerdict>) {
    a.Keys == b.Keys && forall r :: r in a ==> SameVerdict(a[r], b[r])
  }

  ghost predicate SameGolden(a: Table, b: Table) {
    forall e, f :: SameTrust(Trusted(a, e, f), Trusted(b, e, f))
  }

  lemma JoinsAgree(links: Links, a: Records, b: Records, e: EntityId)
    requires SameRecords(a, b)
    ensures Join(links, a, e) == Join(links, b, e)
  {
    forall r | r in a ensures forall x :: x in a[r].attributes <==> x in b[r].attributes {
      SameMultisetSameMembers(a[r].attributes, b[r].attributes);
    }
  }

  ghost predicate SameRecordAt(a: World, b: World, r: RecordId) {
    && (r in a.records <==> r in b.records) && (r in a.records ==> SameStored(a.records[r], b.records[r]))
    && (r in a.verdicts <==> r in b.verdicts) && (r in a.verdicts ==> SameVerdict(a.verdicts[r], b.verdicts[r]))
    && (r in a.cases <==> r in b.cases) && (r in a.cases ==> a.cases[r] == b.cases[r])
  }

  lemma RecordsAgree(w: World, ctx: Context, rows: seq<InputRow>, read: Reader, orders: Orders, r: RecordId)
    requires RefersToRecords(w) && FreshRows(w, ctx, rows) && Sound(ctx.normalizer) && KeepsCells(orders.back)
    requires forall x :: x in orders.validating <==> x in RecordsOf(rows)
    ensures SameRecordAt(Fused(w, ctx, rows, read), Validated(w, ctx, rows, orders), r)
  {
    hide Fused, Validated, Stores, VerdictOn;
    if r in RecordsOf(rows) {
      var row :| row in rows && row.record == r;
      var i :| 0 <= i < |rows| && rows[i] == row;
      FusedHolds(w, ctx, rows, read, i);
      StagedHolds(w, ctx, rows, orders, i);
      assert FreshRow(w, row);
      RowMeansTheSame(ctx, row, orders.back);
    } else {
      FusedLeaves(w, ctx, rows, read, r);
      StagedLeaves(w, ctx, rows, orders, r);
    }
  }

  lemma TablesAgree(w: World, ctx: Context, rows: seq<InputRow>, read: Reader, orders: Orders)
    requires RefersToRecords(w) && FreshRows(w, ctx, rows) && Sound(ctx.normalizer) && KeepsCells(orders.back)
    requires forall x :: x in orders.validating <==> x in RecordsOf(rows)
    ensures var a, b := Fused(w, ctx, rows, read), Validated(w, ctx, rows, orders);
      SameRecords(a.records, b.records) && SameVerdicts(a.verdicts, b.verdicts) && a.cases == b.cases
  {
    hide Fused, Validated, SameStored, SameVerdict;
    var a, b := Fused(w, ctx, rows, read), Validated(w, ctx, rows, orders);
    forall r
      ensures r in a.records.Keys <==> r in b.records.Keys
      ensures r in a.verdicts.Keys <==> r in b.verdicts.Keys
      ensures r in a.cases.Keys <==> r in b.cases.Keys
      ensures r in a.records ==> SameStored(a.records[r], b.records[r])
      ensures r in a.verdicts ==> SameVerdict(a.verdicts[r], b.verdicts[r])
      ensures r in a.cases ==> a.cases[r] == b.cases[r]
    {
      RecordsAgree(w, ctx, rows, read, orders, r);
    }
  }

  lemma StoresAgree(w: World, ctx: Context, rows: seq<InputRow>, read: Reader, orders: Orders)
    requires RefersToRecords(w) && FreshRows(w, ctx, rows) && Sound(ctx.normalizer) && KeepsCells(orders.back)
    requires forall x :: x in orders.validating <==> x in RecordsOf(rows)
    ensures var v := Validated(w, ctx, rows, orders);
      Fused(w, ctx, rows, read).store == ResolveAll(v, ctx, rows) && v.golden == w.golden
  {
    var v := Validated(w, ctx, rows, orders);
    forall i | 0 <= i < |rows| ensures RowAgrees(v, ctx, rows[i]) {
      RowsAgree(w, ctx, rows, orders, i);
    }
    ResolveAgrees(v, ctx, rows);
    FusedStore(w, ctx, rows, read);
    ValidatedAt(w.(records := NormalizeAll(w.records, ctx, rows, orders.back)), ctx, orders.validating, 0);
  }

  lemma NoBlanksAgree(a: Records, b: Records)
    requires SameRecords(a, b) && NoBlankValues(a)
    ensures NoBlankValues(b)
  {
    forall r, x | r in b && x in b[r].attributes ensures x.normalized != Some("") {
      SameMultisetSameMembers(a[r].attributes, b[r].attributes);
    }
  }

  /** The two types' strategies make the same of these claims. */
  ghost predicate ChooseAlike(x: EntityType, y: EntityType, f: string, claims: set<Claim>) {
    forall os: seq<Observation> :: Claims(os) == claims ==> SameChoice(Choose(x, f, os), Choose(y, f, os))
  }

  predicate SameChoice(x: Option<Choice>, y: Option<Choice>) {
    match (x, y)
    case (Some(c), Some(d)) =>
      c.value == d.value && c.confidence == d.confidence && c.supporting == d.supporting && c.competing == d.competing
    case _ => x == y
  }

  /** Two builds of one entity agree in a field exactly when the types they took it for choose alike. */
  lemma TypesTell(t: Table, u: Table, e: nat, x: EntityType, y: EntityType, f: string, claims: set<Claim>)
    requires ShowsField(t, e, x, f, claims) && ShowsField(u, e, y, f, claims)
    ensures SameTrust(Trusted(t, e, f), Trusted(u, e, f)) <==> ChooseAlike(x, y, f, claims)
  {
    hide ChooseAlike, ShowsClaims, Trusted;
    if claims == {} {
      NoClaims(x, y, f);
    } else {
      RowsTell(Trusted(t, e, f).value, Trusted(u, e, f).value, x, y, f, claims);
    }
  }

  lemma RowsTell(r: Row, q: Row, x: EntityType, y: EntityType, f: string, claims: set<Claim>)
    requires ShowsClaims(r, x, f, claims) && ShowsClaims(q, y, f, claims)
    ensures SameTrust(Some(r), Some(q)) <==> ChooseAlike(x, y, f, claims)
  {
    hide Choose, Claims;
    var os := SomeReports(claims);
    assert Choose(x, f, os).Some? && Choose(y, f, os).Some?;
    if SameTrust(Some(r), Some(q)) {
      forall other: seq<Observation> | Claims(other) == claims ensures SameChoice(Choose(x, f, other), Choose(y, f, other)) {}
    }
  }

  lemma NoClaims(x: EntityType, y: EntityType, f: string)
    ensures ChooseAlike(x, y, f, {})
  {
    forall os: seq<Observation> | Claims(os) == {} ensures SameChoice(Choose(x, f, os), Choose(y, f, os)) {
      NoClaimsNoReports(os);
    }
  }

  lemma NoClaimsNoReports(os: seq<Observation>)
    ensures Claims(os) == {} <==> os == []
  {
    if os != [] { assert ClaimOf(os[0]) in Claims(os); }
  }

  /** Every entity of the batch is chosen for alike as what it was last taken for and as what it is. */
  ghost predicate TakenAlike(s: Store, records: Records, taken: Taken) {
    forall e, f :: e in taken ==>
      e in s.entities && ChooseAlike(taken[e], s.entities[e].entityType, f, ClaimsIn(Join(s.links, records, e), f))
  }

  lemma RightlyTakenIsAlike(s: Store, records: Records, taken: Taken)
    requires RightlyTaken(s, taken)
    ensures TakenAlike(s, records, taken)
  {
    hide Choose, Join, ClaimsIn;
  }

  /**
   * Golden values kept up record by record, and golden values built once at the end: they agree exactly
   * when what entities were taken for makes no difference.
   */
  lemma GoldenAgreesIff(t0: Table, fused: Table, s: Store, a: Records, b: Records, batch: nat, order: seq<EntityId>,
                        read: Reader, taken: Taken)
    requires OneCurrent(t0) && Faithful(read) && NoBlankValues(a) && SameRecords(a, b)
    requires GoldenFollows(t0, fused, s, a, batch, taken)
    requires forall e :: e in order <==> e in Touched(s, batch)
    ensures SameGolden(fused, BuildAll(t0, s, b, order, read)) <==> TakenAlike(s, a, taken)
  {
    hide ChooseAlike, Join, ClaimsIn, BuildAll, SameTrust, ShowsField;
    NoBlanksAgree(a, b);
    BuildAllShows(t0, s, b, order, read);
    var staged := BuildAll(t0, s, b, order, read);
    forall e, f | e in taken
      ensures e in s.entities
      ensures SameTrust(Trusted(fused, e, f), Trusted(staged, e, f)) <==>
              ChooseAlike(taken[e], s.entities[e].entityType, f, ClaimsIn(Join(s.links, a, e), f))
    {
      JoinsAgree(s.links, a, b, e);
      assert e in order && ShowsJoin(fused, e, taken[e], Join(s.links, a, e));
      TypesTell(fused, staged, e, taken[e], s.entities[e].entityType, f, ClaimsIn(Join(s.links, a, e), f));
    }
    forall e, f | e !in taken ensures SameTrust(Trusted(fused, e, f), Trusted(staged, e, f)) {
      assert SameShown(t0, staged, e);
      SameTrustRefl(Trusted(staged, e, f));
    }
  }

  lemma SameTrustRefl(x: Option<Row>)
    ensures SameTrust(x, x)
  {
  }

  lemma SomethingIsObserved(ctx: Context, row: InputRow, back: ReadBack)
    requires KeepsCells(back) && Sound(ctx.normalizer) && DistinctColumns(row.payload) && row.payload != []
    ensures StagedStored(ctx, row, back).attributes != []
  {
    hide AttributesOf;
    EveryColumnIsObserved(row.payload, ctx.mappings, ctx.normalizer);
    ReorderedPayloadSaysTheSame(row.payload, back(row.payload), ctx.mappings, ctx.normalizer);
    var x, y := Stores(ctx, row).attributes, StagedStored(ctx, row, back).attributes;
    assert row.payload[0] in row.payload;
    assert row.payload[0].column in ColumnsObserved(x);
    var a :| a in x && a.column == row.payload[0].column;
    assert a in multiset(x) && multiset(x) == multiset(y);
  }

  /** A row with a column leaves an observation, so validation sees every record of the batch. */
  lemma EveryRecordIsStreamed(w: World, ctx: Context, rows: seq<InputRow>, orders: Orders)
    requires FreshRows(w, ctx, rows) && Sound(ctx.normalizer) && Complete(w, ctx, rows, orders)
    ensures forall r :: r in orders.validating <==> r in RecordsOf(rows)
  {
    hide NormalizeAll, Validated, ResolveAll, Touched;
    forall row | row in rows ensures row.record in Streamed(NormalizeAll(w.records, ctx, rows, orders.back), rows) {
      var i :| 0 <= i < |rows| && rows[i] == row;
      assert FreshRow(w, row);
      NormalizedRow(w, ctx, rows, orders.back, i);
      SomethingIsObserved(ctx, row, orders.back);
    }
  }

  /** The two paths end with the same observations, verdicts, quarantine cases, entities, links, keys and candidates. */
  ghost predicate SameFacts(a: World, b: World) {
    SameRecords(a.records, b.records) && SameVerdicts(a.verdicts, b.verdicts) && a.cases == b.cases && a.store == b.store
  }

  /**
   * For any list of rows, one record through every stage and each stage across all records end with the
   * same facts, whatever order the database returns columns, observations, records, entities and joined
   * rows in on the way. They end with the same trusted value, confidence and counts in every field of
   * every entity exactly when, wherever the record-at-a-time path last took an entity for a type that is
   * not its own, the two types' strategies make the same of what its records claim.
   */
  lemma PathsMeetIff(w: World, ctx: Context, rows: seq<InputRow>, read: Reader, orders: Orders)
    requires Sane(w) && FreshRows(w, ctx, rows) && Sound(ctx.normalizer) && Faithful(read)
    requires Complete(w, ctx, rows, orders)
    ensures var a, b := Fused(w, ctx, rows, read), Staged(w, ctx, rows, orders);
      && SameFacts(a, b)
      && (SameGolden(a.golden, b.golden) <==> TakenAlike(a.store, a.records, BuiltAs(w.store, ctx, rows)))
  {
    hide Fused, Validated, ResolveAll, SameGolden, TakenAlike, BuiltAs, BuildAll, SameRecords, SameVerdicts, GoldenFollows, NoBlankValues;
    var a, v := Fused(w, ctx, rows, read), Validated(w, ctx, rows, orders);
    FusedKeeps(w, ctx, rows, read);
    EveryRecordIsStreamed(w, ctx, rows, orders);
    TablesAgree(w, ctx, rows, read, orders);
    StoresAgree(w, ctx, rows, read, orders);
    GoldenAgreesIff(w.golden, a.golden, a.store, a.records, v.records, ctx.batch, orders.building, orders.read,
                    BuiltAs(w.store, ctx, rows));
  }

  /** Where active entities hold keys of their own type only, the two paths end in the same place. */
  lemma PathsMeet(w: World, ctx: Context, rows: seq<InputRow>, read: Reader, orders: Orders)
    requires Sane(w) && FreshRows(w, ctx, rows) && Sound(ctx.normalizer) && Faithful(read)
    requires Complete(w, ctx, rows, orders) && K.TypedActiveKeys(w.store)
    ensures var a, b := Fused(w, ctx, rows, read), Staged(w, ctx, rows, orders);
      SameFacts(a, b) && SameGolden(a.golden, b.golden)
  {
    hide Sane, FreshRows, Complete, Fused, Staged, SameFacts, SameGolden, TakenAlike, BuiltAs, K.TypedActiveKeys;
    PathsMeetIff(w, ctx, rows, read, orders);
    FusedTakesRightly(w, ctx, rows, read);
    FusedStore(w, ctx, rows, read);
    var a := Fused(w, ctx, rows, read);
    RightlyTakenIsAlike(a.store, a.records, BuiltAs(w.store, ctx, rows));
  }

  /** So they do from the tables of any run that merged nothing but candidates filed for the record itself. */
  lemma PathsMeetAfterSelfFiledRuns(order: RowOrder, ops: seq<S.Op>, w: World, ctx: Context, rows: seq<InputRow>, read: Reader,
                                    orders: Orders)
    requires K.SelfFiledOnly(EmptyStore(order), ops) && w.store == S.Run(EmptyStore(order), ops)
    requires OneCurrent(w.golden) && RefersToRecords(w) && NoBlankValues(w.records)
    requires FreshRows(w, ctx, rows) && Sound(ctx.normalizer) && Faithful(read) && Complete(w, ctx, rows, orders)
    ensures var a, b := Fused(w, ctx, rows, read), Staged(w, ctx, rows, orders);
      SameFacts(a, b) && SameGolden(a.golden, b.golden)
  {
    hide S.Inv, S.Typed, S.Run, K.SelfFiledOnly, K.TypedActiveKeys, K.ClashFree, S.Advances, FreshRows, Complete, Fused, Staged,
      SameFacts, SameGolden, OneCurrent, RefersToRecords, NoBlankValues;
    S.EmptyStoreIsSound(order);
    S.RunKeeps(EmptyStore(order), ops);
    K.SelfFiledRunsAreClashFree(EmptyStore(order), ops);
    K.TypedStoresHaveTypedActiveKeys(w.store);
    assert Sane(w);
    PathsMeet(w, ctx, rows, read, orders);
  }

  /** Some reader and some orders are always possible: what the two results above ask of the database can be had. */
  lemma SomeOrdersAreComplete(w: World, ctx: Context, rows: seq<InputRow>) returns (orders: Orders)
    ensures Complete(w, ctx, rows, orders)
  {
    hide NormalizeAll, ResolveAll, Streamed, Touched, Faithful;
    var read := SomeReaderIsFaithful();
    var same: ReadBack := (p: Payload) => p;
    var streamed := AnyOrder(Streamed(NormalizeAll(w.records, ctx, rows, same), rows));
    var first := Orders(same, streamed, [], read);
    orders := first.(building := AnyOrder(Touched(ResolveAll(Validated(w, ctx, rows, first), ctx, rows), ctx.batch)));
    assert Validated(w, ctx, rows, orders) == Validated(w, ctx, rows, first);
  }
}

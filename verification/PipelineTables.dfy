/** The same two paths as the code runs them: statement by statement on the tables. */
module PipelineTables {
  import opened Ordering
  import opened Sequences
  import opened Keys
  import opened Scoring
  import opened EntityStore
  import opened Normalization
  import opened SourceOrder
  import opened Validation
  import opened RecordSubjects
  import opened Survivorship
  import opened GoldenTable
  import opened GoldenBuilder
  import opened RecordPipeline
  import opened EntityGolden
  import Q = Quarantine
  import S = StableIds

  /** `keys_for`, by whichever of the two loops builds them. */
  method BuildKeys(ctx: Context, rows: seq<Attribute>, roleEmail: bool) returns (keys: seq<IdentityKey>)
    ensures keys == OwnKeys(ctx, SortByPlace(rows), roleEmail)
  {
    var values := ConfirmedValues(rows, Self);
    if ctx.entityType == Person {
      keys := BuildPersonKeys(values, ctx.source.id, roleEmail, ctx.urls);
    } else {
      keys := BuildCompanyKeys(values, ctx.source.id, ctx.describes, ctx.urls);
    }
  }

  /** `resolve_employer` up to its lookup: who the row's employer is, if it names one well enough. */
  method FindEmployer(ctx: Context, row: InputRow, rows: seq<Attribute>) returns (employer: Option<Subject>)
    ensures employer == EmployerIn(ctx, row, SortByPlace(rows))
  {
    if ctx.entityType != Person { return None; }
    var values := ConfirmedValues(rows, Employer);
    if values == map[] { return None; }
    if EmployerName(ctx.fold, Listed(values, "company_name")) == "" { return None; }
    var keys := BuildCompanyKeys(values, ctx.source.id, Organisation, ctx.urls);
    if !(exists f :: f in CORROBORATING && Listed(values, f) != []) || keys == [] { return None; }
    return Some(Subject(row.record, Employer, Company, ctx.batch, ctx.source.id, keys, row.employerId));
  }

  /** A first verdict's transition, applied. */
  method OpenCase(v: RecordVerdict) returns (c: Q.Case)
    ensures c == CaseFor(v)
  {
    var transition := Q.Route(v.status, v.errorRules, None);
    c := Q.Case(Some(v.status), None, []);
    if transition.Some? {
      var t := transition.value;
      c := Q.Case(Some(v.status), Some(Q.Item(t.to, t.reasons)), [t]);
    }
  }

  /** How the record was matched, to what, and how many golden values followed. */
  datatype JoinReport = JoinReport(matched: Matched, entity: EntityId, goldenWritten: nat)

  datatype ResolveCounts = ResolveCounts(linked: nat, created: nat, candidates: nat)

  /** Links, reviews, and everything that is not a link. */
  ghost predicate CountsKinds(c: ResolveCounts, kinds: seq<DecisionKind>) {
    && c.linked == Count(kinds, IsKind(Link)) && c.candidates == Count(kinds, IsKind(Review))
    && c.linked + c.created == |kinds|
  }

  class Database {
    var records: Records
    var verdicts: map<RecordId, RecordVerdict>
    var cases: map<RecordId, Q.Case>
    const tables: EntityTables
    const golden: GoldenAttributes

    ghost function State(): World
      reads this, tables, golden
    {
      World(records, verdicts, cases, tables.State(), golden.rows)
    }

    constructor (order: RowOrder)
      ensures State() == World(map[], map[], map[], EmptyStore(order), [])
      ensures fresh(tables) && fresh(golden)
    {
      records, verdicts, cases := map[], map[], map[];
      tables := new EntityTables(order);
      golden := new GoldenAttributes();
    }

    /** The tables as a transaction finds them. */
    method Snapshot() returns (w: World)
      ensures w == State()
    {
      w := World(records, verdicts, cases,
                 Store(tables.entities, tables.links, tables.keys, tables.candidates, tables.merges, tables.order), golden.rows);
    }

    /** `rollback`: whatever was written since goes. */
    method Rollback(w: World)
      requires w.store.order == tables.order
      modifies this, tables, golden
      ensures State() == w
    {
      records, verdicts, cases := w.records, w.verdicts, w.cases;
      tables.entities, tables.links, tables.keys := w.store.entities, w.store.links, w.store.keys;
      tables.candidates, tables.merges := w.store.candidates, w.store.merges;
      golden.rows := w.golden;
    }

    /** One entity's golden values, from a fresh read of its records. */
    method BuildGolden(e: EntityId, entityType: EntityType, read: Reader) returns (counts: BuildCounts)
      requires OneCurrent(golden.rows)
      modifies golden
      ensures OneCurrent(golden.rows)
      ensures golden.rows == BuildOne(old(golden.rows), tables.links, records, e, entityType, read)
      ensures counts == CountsOne(old(golden.rows), tables.links, records, e, entityType, read)
    {
      var reports := GroupByField(read(tables.links, records, e));
      BuildKeepsOtherEntities(golden.rows, e, entityType, ChoicesOf(entityType, reports), e, "");
      var written, refreshed, same, retired := golden.BuildEntity(e, entityType, reports);
      counts := BuildCounts(written, refreshed, same, retired);
    }

    /** The record and what validation makes of it, before anything is resolved; statement `fault` raises. */
    method Record(ctx: Context, row: InputRow, attributes: seq<Attribute>, verdict: RecordVerdict, fault: nat) returns (done: bool)
      requires attributes == Stores(ctx, row).attributes && verdict == VerdictOn(ctx, attributes)
      modifies this
      ensures done <==> fault >= 4
      ensures done ==> State() == Recorded(old(State()), ctx, row)
      ensures !done ==> State() == RecordTrace(old(State()), ctx, row)[fault]
    {
      hide Verdict, CaseFor, AttributesOf;
      if fault == 0 { return false; }
      records := records[row.record := Stored([], row.observedAt, ctx.source)];
      if fault == 1 { return false; }
      records := records[row.record := Stored(attributes, row.observedAt, ctx.source)];
      if fault == 2 { return false; }
      verdicts := verdicts[row.record := verdict];
      if fault == 3 { return false; }
      var held := OpenCase(verdict);
      cases := cases[row.record := held];
      return true;
    }

    /** `process`, to its commit, or until statement `fault` raises: what it had written is then still there. */
    method Process(ctx: Context, row: InputRow, read: Reader, build: bool, fault: nat) returns (outcome: Option<RecordOutcome>)
      requires OneCurrent(golden.rows)
      requires row.selfId !in tables.entities && row.employerId !in tables.entities && row.selfId != row.employerId
      modifies this, tables, golden
      ensures outcome.Some? <==> fault >= Statements(ctx, row, build)
      ensures outcome.Some? ==> State() == ProcessWith(old(State()), ctx, row, read, build)
      ensures outcome.Some? ==> outcome.value == OutcomeOf(old(State()), ctx, row, read, build)
      ensures outcome.None? ==> State() == Trace(old(State()), ctx, row, read, build)[fault]
      ensures OneCurrent(golden.rows)
    {
      hide OwnKeys, Verdict, AttributesOf, Joined, JoinTrace, RecordTrace, Trace, Statements, Resolve, GoldenWritten, Recorded, OneCurrent;
      ghost var w := State();
      var attributes := ObservationsForRecord(row.payload, ctx.mappings, ctx.normalizer);
      var verdict := ValidateRecord(ctx.judge, attributes, ctx.entityType);
      TraceParts(w, ctx, row, read, build);
      var recorded := Record(ctx, row, attributes, verdict, fault);
      if !recorded { return None; }
      if verdict.status == Q.Invalid {
        if fault == 4 { return None; }
        return Some(RecordOutcome(verdict.status, true, None, None, |attributes|, |verdict.results|, verdict.errorRules, 0));
      }
      var who := FindSubjects(ctx, row, attributes, verdict.results);
      var joined := ResolveAndBuild(ctx, who.self, who.employer, read, build, fault - 4);
      match joined
      case None => return None;
      case Some(j) =>
        return Some(RecordOutcome(verdict.status, false, Some(j.entity), Some(j.matched),
                                  |attributes|, |verdict.results|, verdict.errorRules, j.goldenWritten));
    }

    /** Both subjects are resolved, the record's own first, and then both are built; statement `fault` raises. */
    method ResolveAndBuild(ctx: Context, self: Subject, employer: Option<Subject>, read: Reader, build: bool, fault: nat)
      returns (joined: Option<JoinReport>)
      requires OneCurrent(golden.rows) && self.newId !in tables.entities
      requires employer.Some? ==> employer.value.newId !in tables.entities && employer.value.newId != self.newId
      modifies this, tables, golden
      ensures joined.Some? <==> fault >= |JoinTrace(old(State()), ctx, Subjects(self, employer), read, build)|
      ensures joined.Some? ==> State() == (if build then Joined(old(State()), ctx, Subjects(self, employer), read)
                                           else Joined(old(State()), ctx, Subjects(self, employer), read).(golden := old(golden.rows)))
      ensures joined.Some? ==> joined.value == JoinReport(
        MatchedBy(old(tables.State()), self), Resolve(old(tables.State()), self).entity,
        if build then GoldenWritten(old(State()), ctx, Subjects(self, employer), read) else 0)
      ensures joined.None? ==> State() == JoinTrace(old(State()), ctx, Subjects(self, employer), read, build)[fault]
      ensures OneCurrent(golden.rows)
    {
      hide Resolve, BuildOne, CountsOne, OneCurrent;
      if fault == 0 { return None; }
      S.ResolveEntities(tables.State(), self);
      DecisionIsReported(tables.State(), self);
      var kind, entity := tables.ResolveSubject(self);
      var matched := if self.keys == [] then NoKeysBuilt else ByDecision(kind);
      if fault == 1 { return None; }
      if employer.None? {
        if !build { return Some(JoinReport(matched, entity, 0)); }
        var own := BuildGolden(entity, ctx.entityType, read);
        if fault == 2 { return None; }
        return Some(JoinReport(matched, entity, own.written + own.refreshed));
      }
      var _, company := tables.ResolveSubject(employer.value);
      if fault == 2 { return None; }
      if !build { return Some(JoinReport(matched, entity, 0)); }
      var own := BuildGolden(entity, ctx.entityType, read);
      if fault == 3 { return None; }
      var theirs := BuildGolden(company, Company, read);
      if fault == 4 { return None; }
      return Some(JoinReport(matched, entity, own.written + own.refreshed + theirs.written + theirs.refreshed));
    }

    // ---- each stage across all records ------------------------------------------------------

    method NormalizeBatch(ctx: Context, rows: seq<InputRow>, back: ReadBack)
      modifies this`records
      ensures records == NormalizeAll(old(records), ctx, rows, back)
    {
      for i := 0 to |rows|
        invariant records == NormalizeAll(old(records), ctx, rows[..i], back)
      {
        assert rows[..i + 1][..i] == rows[..i];
        var attributes := ObservationsForRecord(back(rows[i].payload), ctx.mappings, ctx.normalizer);
        records := records[rows[i].record := Stored(attributes, rows[i].observedAt, ctx.source)];
      }
      assert rows[..|rows|] == rows;
    }

    /** The standing cases are read once, before the first verdict is written. */
    method ValidateBatch(ctx: Context, order: seq<RecordId>)
      modifies this`verdicts, this`cases
      ensures State() == ValidateAll(old(State()), ctx, order)
    {
      var existing := cases;
      for i := 0 to |order|
        invariant State() == ValidateAll(old(State()), ctx, order[..i])
      {
        hide Verdict, Q.Step;
        assert order[..i + 1][..i] == order[..i];
        var r := order[i];
        if r in records {
          var verdict := ValidateRecord(ctx.judge, SortByPlace(records[r].attributes), ctx.entityType);
          var standing := if r in existing then existing[r] else Q.NewCase;
          verdicts := verdicts[r := verdict];
          cases := cases[r := Q.Step(standing, Q.Validated(verdict.status, verdict.errorRules))];
        }
      }
      assert order[..|order|] == order;
    }

    /**
     * `resolve_batch`: the records to resolve are listed once, then resolved in row order. A batch that
     * is not completed, or has none, is refused.
     */
    method ResolveBatch(ctx: Context, rows: seq<InputRow>, completed: bool) returns (counts: Option<ResolveCounts>)
      requires NewIds(tables.State(), rows)
      modifies tables
      ensures counts.None? <==> !completed || Kinds(old(State()), ctx, rows) == []
      ensures counts.None? ==> tables.State() == old(tables.State())
      ensures counts.Some? ==>
        tables.State() == ResolveAll(old(State()), ctx, rows) && CountsKinds(counts.value, Kinds(old(State()), ctx, rows))
    {
      if !completed { return None; }
      var any := AnyToResolve(ctx, rows);
      if !any { return None; }
      var all := ResolveListed(ctx, rows);
      return Some(all);
    }

    method AnyToResolve(ctx: Context, rows: seq<InputRow>) returns (any: bool)
      ensures any <==> Kinds(State(), ctx, rows) != []
    {
      hide Resolve, StagedSubjects;
      KindsNone(State(), ctx, rows);
      any := exists i :: 0 <= i < |rows| && rows[i].record in records && rows[i].record in verdicts && rows[i].record in cases
                         && Q.Resolvable(cases[rows[i].record]) && LinkKey(rows[i].record, Self) !in tables.links;
    }

    method ResolveListed(ctx: Context, rows: seq<InputRow>) returns (counts: ResolveCounts)
      requires NewIds(tables.State(), rows)
      modifies tables
      ensures tables.State() == ResolveAll(old(State()), ctx, rows)
      ensures CountsKinds(counts, Kinds(old(State()), ctx, rows))
    {
      ghost var w := State();
      var links := tables.links;
      var linked, created, candidates := 0, 0, 0;
      for i := 0 to |rows|
        invariant tables.State() == ResolveAll(w, ctx, rows[..i])
        invariant w == World(records, verdicts, cases, w.store, w.golden) && w.store.links == links
        invariant linked == Count(Kinds(w, ctx, rows[..i]), IsKind(Link))
        invariant candidates == Count(Kinds(w, ctx, rows[..i]), IsKind(Review))
        invariant linked + created == |Kinds(w, ctx, rows[..i])|
      {
        hide Resolve, StagedSubjects, ToResolve;
        assert rows[..i + 1][..i] == rows[..i];
        NewIdsAt(w, ctx, rows, i);
        var kind := ResolveRow(w, links, ctx, rows[i]);
        if kind.Some? {
          KindsNext(w, ctx, rows[..i + 1], kind.value);
          if kind == Some(Link) {
            linked := linked + 1;
          } else {
            created := created + 1;
            if kind == Some(Review) { candidates := candidates + 1; }
          }
        }
      }
      assert rows[..|rows|] == rows;
      counts := ResolveCounts(linked, created, candidates);
    }

    /** One record of the list: None when it is not on it. */
    method ResolveRow(ghost w: World, links: Links, ctx: Context, row: InputRow) returns (kind: Option<DecisionKind>)
      requires w == World(records, verdicts, cases, w.store, w.golden) && w.store.links == links
      requires RowIds(row) !! tables.entities.Keys && row.selfId != row.employerId
      modifies tables
      ensures kind.Some? <==> ToResolve(w, row)
      ensures kind.None? ==> tables.State() == old(tables.State())
      ensures kind.Some? ==>
        var who := StagedSubjects(w, ctx, row);
        && tables.State() == S.ResolveRecord(old(tables.State()), who.self, who.employer)
        && kind.value == Resolve(old(tables.State()), who.self).kind
    {
      hide Resolve, OwnKeys;
      if row.record in records && row.record in verdicts && row.record in cases
         && Q.Resolvable(cases[row.record]) && LinkKey(row.record, Self) !in links {
        var who := FindSubjects(ctx, row, records[row.record].attributes, verdicts[row.record].results);
        var decided := ResolveSubjects(who);
        return Some(decided);
      }
      return None;
    }

    method ResolveSubjects(who: Subjects) returns (kind: DecisionKind)
      requires who.self.newId !in tables.entities
      requires who.employer.Some? ==> who.employer.value.newId !in tables.entities && who.employer.value.newId != who.self.newId
      modifies tables
      ensures tables.State() == S.ResolveRecord(old(tables.State()), who.self, who.employer)
      ensures kind == Resolve(old(tables.State()), who.self).kind
    {
      S.ResolveEntities(tables.State(), who.self);
      var decided, _ := tables.ResolveSubject(who.self);
      kind := decided;
      if who.employer.Some? {
        var _, _ := tables.ResolveSubject(who.employer.value);
      }
    }

    /** `_build_all`; nothing to build is refused. */
    method BuildBatch(order: seq<EntityId>, read: Reader) returns (counts: Option<BuildCounts>)
      requires OneCurrent(golden.rows)
      modifies golden
      ensures counts.None? <==> order == []
      ensures counts.None? ==> golden.rows == old(golden.rows)
      ensures counts.Some? ==> golden.rows == BuildAll(old(golden.rows), tables.State(), records, order, read)
      ensures counts.Some? ==> counts.value == CountsAll(old(golden.rows), tables.State(), records, order, read)
      ensures OneCurrent(golden.rows)
    {
      if order == [] { return None; }
      ghost var s := tables.State();
      var sum := BuildCounts(0, 0, 0, 0);
      for i := 0 to |order|
        invariant OneCurrent(golden.rows) && tables.State() == s
        invariant golden.rows == BuildAll(old(golden.rows), s, records, order[..i], read)
        invariant sum == CountsAll(old(golden.rows), s, records, order[..i], read)
      {
        hide OneCurrent, BuildOne, CountsOne;
        assert order[..i + 1][..i] == order[..i];
        if order[i] in tables.entities {
          var counts := BuildGolden(order[i], tables.entities[order[i]].entityType, read);
          sum := Plus(sum, counts);
        }
      }
      assert order[..|order|] == order;
      return Some(sum);
    }
  }

  lemma TraceParts(w: World, ctx: Context, row: InputRow, read: Reader, build: bool)
    ensures Trace(w, ctx, row, read, build)[..4] == RecordTrace(w, ctx, row)
    ensures match PlanOf(ctx, row)
      case None => Statements(ctx, row, build) == 5 && Trace(w, ctx, row, read, build)[4..] == [Recorded(w, ctx, row)]
      case Some(who) =>
        && Statements(ctx, row, build) == 4 + |JoinTrace(Recorded(w, ctx, row), ctx, who, read, build)|
        && Trace(w, ctx, row, read, build)[4..] == JoinTrace(Recorded(w, ctx, row), ctx, who, read, build)
  {
    hide Stores, VerdictOn, SubjectsOf, Resolve, CaseFor, BuildOne, PlanOf;
  }

  method FindSubjects(ctx: Context, row: InputRow, attributes: seq<Attribute>, results: seq<Result>) returns (who: Subjects)
    ensures who == SubjectsOf(ctx, row, attributes, results)
  {
    var keys := BuildKeys(ctx, attributes, HasRoleEmail(results));
    var employer := FindEmployer(ctx, row, attributes);
    who := Subjects(Subject(row.record, Self, ctx.entityType, ctx.batch, ctx.source.id, keys, row.selfId), employer);
  }

  // ---- what the counters count ---------------------------------------------------------------------

  /** The decision taken for each record resolved, in order. */
  function Kinds(w: World, ctx: Context, rows: seq<InputRow>): seq<DecisionKind> {
    if rows == [] then []
    else
      var init, row := rows[..|rows| - 1], rows[|rows| - 1];
      if ToResolve(w, row) then Kinds(w, ctx, init) + [Resolve(ResolveAll(w, ctx, init), StagedSubjects(w, ctx, row).self).kind]
      else Kinds(w, ctx, init)
  }

  lemma {:induction false} KindsNone(w: World, ctx: Context, rows: seq<InputRow>)
    ensures Kinds(w, ctx, rows) == [] <==> forall i :: 0 <= i < |rows| ==> !ToResolve(w, rows[i])
  {
    hide Resolve, StagedSubjects, ToResolve;
    if rows != [] {
      var n := |rows| - 1;
      KindsNone(w, ctx, rows[..n]);
      assert forall i :: 0 <= i < n ==> rows[..n][i] == rows[i];
    }
  }

  function IsKind(kind: DecisionKind): DecisionKind -> bool { (k: DecisionKind) => k == kind }

  lemma KindsNext(w: World, ctx: Context, rows: seq<InputRow>, kind: DecisionKind)
    requires rows != [] && ToResolve(w, rows[|rows| - 1])
    requires kind == Resolve(ResolveAll(w, ctx, rows[..|rows| - 1]), StagedSubjects(w, ctx, rows[|rows| - 1]).self).kind
    ensures var init := Kinds(w, ctx, rows[..|rows| - 1]);
      && |Kinds(w, ctx, rows)| == |init| + 1
      && forall k :: Count(Kinds(w, ctx, rows), IsKind(k)) == Count(init, IsKind(k)) + (if kind == k then 1 else 0)
  {
    hide Resolve, StagedSubjects;
    forall k ensures Count(Kinds(w, ctx, rows), IsKind(k)) ==
                     Count(Kinds(w, ctx, rows[..|rows| - 1]), IsKind(k)) + (if kind == k then 1 else 0) {
      CountAppend(Kinds(w, ctx, rows[..|rows| - 1]), kind, IsKind(k));
    }
  }

  function RowIds(row: InputRow): set<EntityId> { {row.selfId, row.employerId} }

  ghost predicate NewIds(s: Store, rows: seq<InputRow>) {
    && (forall i :: 0 <= i < |rows| ==> rows[i].selfId != rows[i].employerId && RowIds(rows[i]) !! s.entities.Keys)
    && (forall i, j :: 0 <= i < j < |rows| ==> RowIds(rows[i]) !! RowIds(rows[j]))
  }

  lemma ResolveRecordIds(s: Store, who: Subjects)
    ensures S.ResolveRecord(s, who.self, who.employer).entities.Keys <=
      s.entities.Keys + {who.self.newId} + (if who.employer.Some? then {who.employer.value.newId} else {})
  {
    hide Resolve;
    S.ResolveEntities(s, who.self);
    if who.employer.Some? { S.ResolveEntities(Resolve(s, who.self).store, who.employer.value); }
  }

  /** The ids of these rows from the i-th on are not taken. */
  ghost predicate FreeFrom(taken: set<EntityId>, rows: seq<InputRow>, i: nat) {
    forall j :: i <= j < |rows| ==> RowIds(rows[j]) !! taken
  }

  lemma FreeAfterOne(s: Store, before: set<EntityId>, after: set<EntityId>, rows: seq<InputRow>, i: nat)
    requires NewIds(s, rows) && 0 < i <= |rows| && FreeFrom(before, rows, i - 1) && after <= before + RowIds(rows[i - 1])
    ensures FreeFrom(after, rows, i)
  {
  }

  /** No row's ids are taken before its turn. */
  lemma {:induction false} NewIdsAt(w: World, ctx: Context, rows: seq<InputRow>, i: nat)
    requires NewIds(w.store, rows) && i <= |rows|
    ensures FreeFrom(ResolveAll(w, ctx, rows[..i]).entities.Keys, rows, i)
  {
    if i > 0 {
      hide Resolve, OwnKeys, NewIds, FreeFrom;
      NewIdsAt(w, ctx, rows, i - 1);
      assert rows[..i][..i - 1] == rows[..i - 1];
      var before := ResolveAll(w, ctx, rows[..i - 1]);
      if ToResolve(w, rows[i - 1]) { ResolveRecordIds(before, StagedSubjects(w, ctx, rows[i - 1])); }
      FreeAfterOne(w.store, before.entities.Keys, ResolveAll(w, ctx, rows[..i]).entities.Keys, rows, i);
    }
  }

  lemma DecisionIsReported(s: Store, r: Subject)
    ensures MatchedBy(s, r) == if r.keys == [] then NoKeysBuilt else ByDecision(Resolve(s, r).kind)
  {
  }
}

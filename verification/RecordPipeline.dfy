/** The two ways a batch of rows is processed: every stage per record, or each stage across all records. */
module RecordPipeline {
  import opened Ordering
  import opened Sequences
  import opened Keys
  import opened Scoring
  import opened EntityStore
  import opened Normalization
  import opened SourceOrder
  import opened Validation
  import opened RecordSubjects
  import opened Survivorship
  import opened GoldenTable
  import Q = Quarantine
  import S = StableIds

  /** What is stored of a record. */
  datatype Stored = Stored(attributes: seq<Attribute>, observedAt: int, source: Source)

  type Records = map<RecordId, Stored>
  type Links = map<LinkKey, RecordLink>

  datatype World = World(records: Records, verdicts: map<RecordId, RecordVerdict>, cases: map<RecordId, Q.Case>,
                         store: Store, golden: Table)

  // ---- what an entity's records say about it ------------------------------------------------------

  datatype JoinRow = JoinRow(field: string, observation: Observation)

  function ObservationOf(record: RecordId, s: Stored, a: Attribute): Observation
    requires a.normalized.Some?
  {
    Observation(a.normalized.value, a.raw, s.source.id, s.source.name, s.source.reliability, record, s.observedAt)
  }

  /** Confirmed values of the records linked to an entity, each link selecting the subject it is a link to. */
  function Join(links: Links, records: Records, e: EntityId): set<JoinRow> {
    set k, a | k in links && links[k].entity == e && k.record in records && a in records[k.record].attributes && Tells(a, k.role)
      :: JoinRow(a.field.value, ObservationOf(k.record, records[k.record], a))
  }

  /** How the database hands those rows over: in an order of its own. */
  type Reader = (Links, Records, EntityId) -> seq<JoinRow>

  function RowSet(rows: seq<JoinRow>): set<JoinRow> { set r | r in rows }

  ghost predicate Faithful(read: Reader) {
    forall links, records, e :: RowSet(read(links, records, e)) == Join(links, records, e)
  }

  function AddReport(reports: seq<FieldReports>, row: JoinRow): seq<FieldReports> {
    if reports == [] then [FieldReports(row.field, [row.observation])]
    else if reports[0].field == row.field then [FieldReports(row.field, reports[0].reports + [row.observation])] + reports[1..]
    else [reports[0]] + AddReport(reports[1..], row)
  }

  /** `observations_for_entity`: grouped by field, in the order the rows came. */
  function ByField(rows: seq<JoinRow>): seq<FieldReports> {
    if rows == [] then [] else AddReport(ByField(rows[..|rows| - 1]), rows[|rows| - 1])
  }

  /** `build_entity`, reading the entity's observations for itself. */
  function BuildOne(t: Table, links: Links, records: Records, e: EntityId, entityType: EntityType, read: Reader): Table {
    Build(t, e, entityType, ChoicesOf(entityType, ByField(read(links, records, e))))
  }

  function CountsOne(t: Table, links: Links, records: Records, e: EntityId, entityType: EntityType, read: Reader): BuildCounts {
    CountsOf(t, e, ChoicesOf(entityType, ByField(read(links, records, e))))
  }

  // ---- every stage, one record at a time -----------------------------------------------------------

  function VerdictOn(ctx: Context, attributes: seq<Attribute>): RecordVerdict {
    Verdict(ctx.judge, attributes, ctx.entityType)
  }

  /** A new record has no quarantine history to weigh. */
  function CaseFor(v: RecordVerdict): Q.Case { Q.Step(Q.NewCase, Q.Validated(v.status, v.errorRules)) }

  function Stores(ctx: Context, row: InputRow): Stored {
    Stored(AttributesOf(row.payload, ctx.mappings, ctx.normalizer), row.observedAt, ctx.source)
  }

  function EmployerEntity(s: Store, employer: Option<Subject>): Option<EntityId> {
    if employer.None? then None else Some(Resolve(s, employer.value).entity)
  }

  /** The golden values of the record's entity, then its employer's. */
  function BuildSubjects(t: Table, links: Links, records: Records, self: EntityId, entityType: EntityType,
                         employer: Option<EntityId>, read: Reader): Table
  {
    var own := BuildOne(t, links, records, self, entityType, read);
    if employer.None? then own else BuildOne(own, links, records, employer.value, Company, read)
  }

  /** The record, its observations, its verdict, and what the verdict means for it. */
  function Recorded(w: World, ctx: Context, row: InputRow): World {
    var verdict := VerdictOn(ctx, Stores(ctx, row).attributes);
    w.(records := w.records[row.record := Stores(ctx, row)],
       verdicts := w.verdicts[row.record := verdict],
       cases := w.cases[row.record := CaseFor(verdict)])
  }

  /** The record's entities, then their golden values. */
  function Joined(w: World, ctx: Context, who: Subjects, read: Reader): World {
    var first := Resolve(w.store, who.self);
    var store := S.ResolveRecord(w.store, who.self, who.employer);
    w.(store := store,
       golden := BuildSubjects(w.golden, store.links, w.records, first.entity, ctx.entityType,
                               EmployerEntity(first.store, who.employer), read))
  }

  /** Nobody, when the row is invalid. */
  function PlanOf(ctx: Context, row: InputRow): Option<Subjects> {
    var attributes := Stores(ctx, row).attributes;
    var verdict := VerdictOn(ctx, attributes);
    if verdict.status == Q.Invalid then None else Some(SubjectsOf(ctx, row, attributes, verdict.results))
  }

  /** `process`. */
  function Process(w: World, ctx: Context, row: InputRow, read: Reader): World {
    match PlanOf(ctx, row)
    case None => Recorded(w, ctx, row)
    case Some(who) => Joined(Recorded(w, ctx, row), ctx, who, read)
  }

  /** `process` told to leave golden values to somebody else, or not. */
  function ProcessWith(w: World, ctx: Context, row: InputRow, read: Reader, build: bool): World {
    if build then Process(w, ctx, row, read) else Process(w, ctx, row, read).(golden := w.golden)
  }

  /** What `process` reports of a record: its verdict, whether it was held, and how it was matched. */
  datatype Matched = NoKeysBuilt | ByDecision(kind: DecisionKind)
  datatype RecordOutcome = RecordOutcome(status: Q.Verdict, quarantined: bool, entity: Option<EntityId>, matched: Option<Matched>,
                                         observations: nat, judgements: nat, failedRules: seq<string>, goldenWritten: nat)

  function MatchedBy(s: Store, r: Subject): Matched {
    match DecisionFor(s, r) case None => NoKeysBuilt case Some(d) => ByDecision(d.kind)
  }

  function Rewritten(c: BuildCounts): nat { c.written + c.refreshed }

  /** How many golden values building the record's entities writes or refreshes. */
  function GoldenWritten(w: World, ctx: Context, who: Subjects, read: Reader): nat {
    var first := Resolve(w.store, who.self);
    var links := S.ResolveRecord(w.store, who.self, who.employer).links;
    var own := Rewritten(CountsOne(w.golden, links, w.records, first.entity, ctx.entityType, read));
    match EmployerEntity(first.store, who.employer)
    case None => own
    case Some(e) =>
      var built := BuildOne(w.golden, links, w.records, first.entity, ctx.entityType, read);
      own + Rewritten(CountsOne(built, links, w.records, e, Company, read))
  }

  function OutcomeOf(w: World, ctx: Context, row: InputRow, read: Reader, build: bool): RecordOutcome {
    var attributes := Stores(ctx, row).attributes;
    var verdict := VerdictOn(ctx, attributes);
    var transition := Q.Route(verdict.status, verdict.errorRules, None);
    var held := transition.Some? && transition.value.to == Q.Open;
    match PlanOf(ctx, row)
    case None => RecordOutcome(verdict.status, held, None, None, |attributes|, |verdict.results|, verdict.errorRules, 0)
    case Some(who) =>
      RecordOutcome(verdict.status, held, Some(Resolve(w.store, who.self).entity), Some(MatchedBy(w.store, who.self)),
                    |attributes|, |verdict.results|, verdict.errorRules,
                    if build then GoldenWritten(Recorded(w, ctx, row), ctx, who, read) else 0)
  }

  /** Held and unmatched exactly when invalid. */
  ghost predicate Genuine(o: RecordOutcome) {
    (o.quarantined <==> o.status == Q.Invalid) && (o.matched.None? <==> o.status == Q.Invalid)
  }

  /** A record is held exactly when it is invalid, and then and only then nobody is looked up for it. */
  lemma OutcomeIsGenuine(w: World, ctx: Context, row: InputRow, read: Reader, build: bool)
    ensures var o := OutcomeOf(w, ctx, row, read, build);
      Genuine(o) && (o.entity.None? <==> o.status == Q.Invalid) && (o.status == Q.Invalid ==> o.goldenWritten == 0)
  {
    hide GoldenWritten;
  }

  // ---- its statements ------------------------------------------------------------------------------------

  /** How many statements `process` sends, the commit with them. */
  function Statements(ctx: Context, row: InputRow, build: bool): (n: nat)
    ensures n >= 5
  {
    match PlanOf(ctx, row)
    case None => 5
    case Some(who) => if who.employer.None? then (if build then 7 else 6) else (if build then 9 else 7)
  }

  /** The tables from when a record's subjects begin to be resolved, after each statement, to the commit. */
  function JoinTrace(w: World, ctx: Context, who: Subjects, read: Reader, build: bool): (t: seq<World>)
    ensures |t| == if who.employer.None? then (if build then 3 else 2) else (if build then 5 else 3)
  {
    var first := Resolve(w.store, who.self);
    var own := w.(store := first.store);
    match who.employer
    case None =>
      [w, own] + (if build then [own.(golden := BuildOne(w.golden, own.store.links, w.records, first.entity, ctx.entityType, read))] else [])
    case Some(e) =>
      var second := Resolve(first.store, e);
      var both := w.(store := second.store);
      var built := both.(golden := BuildOne(w.golden, both.store.links, w.records, first.entity, ctx.entityType, read));
      [w, own, both]
      + (if build then [built, built.(golden := BuildOne(built.golden, both.store.links, w.records, second.entity, Company, read))] else [])
  }

  /** The tables from before `process`, after each statement that records and judges the row but the last. */
  function RecordTrace(w: World, ctx: Context, row: InputRow): (t: seq<World>)
    ensures |t| == 4
  {
    var stored := Stores(ctx, row);
    var verdict := VerdictOn(ctx, stored.attributes);
    var kept := w.(records := w.records[row.record := stored.(attributes := [])]);
    var observed := w.(records := w.records[row.record := stored]);
    var judged := observed.(verdicts := w.verdicts[row.record := verdict]);
    [w, kept, observed, judged]
  }

  /** The tables before `process`, after each statement it sends, and as it commits them. */
  function Trace(w: World, ctx: Context, row: InputRow, read: Reader, build: bool): (t: seq<World>)
    ensures |t| == Statements(ctx, row, build)
  {
    hide Stores, VerdictOn, SubjectsOf, CaseFor, Resolve, BuildOne, S.ResolveRecord;
    RecordTrace(w, ctx, row)
    + (match PlanOf(ctx, row)
       case None => [Recorded(w, ctx, row)]
       case Some(who) => JoinTrace(Recorded(w, ctx, row), ctx, who, read, build))
  }

  lemma TraceEndsInProcess(w: World, ctx: Context, row: InputRow, read: Reader, build: bool)
    ensures Trace(w, ctx, row, read, build)[Statements(ctx, row, build) - 1] == ProcessWith(w, ctx, row, read, build)
  {
    hide Stores, VerdictOn, SubjectsOf, Resolve, CaseFor, BuildOne;
  }

  function Fused(w: World, ctx: Context, rows: seq<InputRow>, read: Reader): World {
    if rows == [] then w else Process(Fused(w, ctx, rows[..|rows| - 1], read), ctx, rows[|rows| - 1], read)
  }

  // ---- each stage, across all records -----------------------------------------------------------------

  /** A stored payload comes back with its columns in an order of the database's own. */
  type ReadBack = Payload -> Payload

  ghost predicate KeepsCells(back: ReadBack) {
    forall p :: multiset(back(p)) == multiset(p)
  }

  function NormalizeAll(records: Records, ctx: Context, rows: seq<InputRow>, back: ReadBack): Records {
    if rows == [] then records
    else
      var row := rows[|rows| - 1];
      NormalizeAll(records, ctx, rows[..|rows| - 1], back)
      [row.record := Stored(AttributesOf(back(row.payload), ctx.mappings, ctx.normalizer), row.observedAt, ctx.source)]
  }

  /** Verdicts on observations read back in source order, in whatever order the records are streamed. */
  function ValidateAll(w: World, ctx: Context, order: seq<RecordId>): World {
    if order == [] then w
    else
      var before, r := ValidateAll(w, ctx, order[..|order| - 1]), order[|order| - 1];
      if r !in w.records then before
      else
        var verdict := VerdictOn(ctx, SortByPlace(w.records[r].attributes));
        var standing := if r in w.cases then w.cases[r] else Q.NewCase;
        before.(verdicts := before.verdicts[r := verdict],
                cases := before.cases[r := Q.Step(standing, Q.Validated(verdict.status, verdict.errorRules))])
  }

  /** `resolvable_records`: passing or released, and not linked to an entity of its own when the batch starts. */
  predicate ToResolve(w: World, row: InputRow) {
    && row.record in w.records && row.record in w.verdicts && row.record in w.cases
    && Q.Resolvable(w.cases[row.record])
    && LinkKey(row.record, Self) !in w.store.links
  }

  function StagedSubjects(w: World, ctx: Context, row: InputRow): Subjects
    requires ToResolve(w, row)
  {
    SubjectsOf(ctx, row, w.records[row.record].attributes, w.verdicts[row.record].results)
  }

  /** `resolve_batch`: in row order, each record seeing what the one before it wrote. */
  function ResolveAll(w: World, ctx: Context, rows: seq<InputRow>): Store {
    if rows == [] then w.store
    else
      var before, row := ResolveAll(w, ctx, rows[..|rows| - 1]), rows[|rows| - 1];
      if ToResolve(w, row) then S.ResolveRecord(before, StagedSubjects(w, ctx, row).self, StagedSubjects(w, ctx, row).employer)
      else before
  }

  /** `entities_for_batch`. */
  function Touched(s: Store, batch: nat): set<EntityId> {
    set k | k in s.links && s.links[k].batch == batch && IsActive(s, s.links[k].entity) :: s.links[k].entity
  }

  /** `_build_all`. */
  function BuildAll(t: Table, s: Store, records: Records, order: seq<EntityId>, read: Reader): Table {
    if order == [] then t
    else
      var before, e := BuildAll(t, s, records, order[..|order| - 1], read), order[|order| - 1];
      if e in s.entities then BuildOne(before, s.links, records, e, s.entities[e].entityType, read) else before
  }

  function Plus(a: BuildCounts, b: BuildCounts): BuildCounts {
    BuildCounts(a.written + b.written, a.refreshed + b.refreshed, a.same + b.same, a.retired + b.retired)
  }

  /** What `_build_all` reports. */
  function CountsAll(t: Table, s: Store, records: Records, order: seq<EntityId>, read: Reader): BuildCounts {
    if order == [] then BuildCounts(0, 0, 0, 0)
    else
      var before, e := BuildAll(t, s, records, order[..|order| - 1], read), order[|order| - 1];
      var sum := CountsAll(t, s, records, order[..|order| - 1], read);
      if e in s.entities then Plus(sum, CountsOne(before, s.links, records, e, s.entities[e].entityType, read)) else sum
  }

  /** What the database decides on the staged path: orders, all of them. */
  datatype Orders = Orders(back: ReadBack, validating: seq<RecordId>, building: seq<EntityId>, read: Reader)

  function Validated(w: World, ctx: Context, rows: seq<InputRow>, orders: Orders): World {
    ValidateAll(w.(records := NormalizeAll(w.records, ctx, rows, orders.back)), ctx, orders.validating)
  }

  function Staged(w: World, ctx: Context, rows: seq<InputRow>, orders: Orders): World {
    var v := Validated(w, ctx, rows, orders);
    var store := ResolveAll(v, ctx, rows);
    v.(store := store, golden := BuildAll(v.golden, store, v.records, orders.building, orders.read))
  }

  function RecordsOf(rows: seq<InputRow>): set<RecordId> { set row | row in rows :: row.record }

  /** What validation streams: the batch's records that have observations. */
  function Streamed(records: Records, rows: seq<InputRow>): set<RecordId> {
    set row | row in rows && row.record in records && records[row.record].attributes != [] :: row.record
  }

  /** Every observed record of the batch is validated and every entity it touched is built, in any order. */
  ghost predicate Complete(w: World, ctx: Context, rows: seq<InputRow>, orders: Orders) {
    && Faithful(orders.read) && KeepsCells(orders.back)
    && (forall r :: r in orders.validating <==> r in Streamed(NormalizeAll(w.records, ctx, rows, orders.back), rows))
    && (forall e :: e in orders.building <==> e in Touched(ResolveAll(Validated(w, ctx, rows, orders), ctx, rows), ctx.batch))
  }
}

/** What the outcome of a record reports, read off the tables the record leaves behind. */
module OutcomeMeaning {
  import opened Ordering
  import opened Sequences
  import opened Keys
  import opened Scoring
  import opened EntityStore
  import opened Normalization
  import opened SourceOrder
  import opened Validation
  import opened RecordSubjects
  import opened Survivorship
  import opened GoldenTable
  import opened GoldenMeaning
  import opened RecordPipeline
  import opened PathsAgree
  import opened EntityGolden
  import opened RowMeaning
  import opened RoleMailboxes
  import F = FailingRows
  import Q = Quarantine
  import S = StableIds

  /** The sizes and lists of what was stored, and whether the record now waits for a person. */
  ghost predicate TellsRow(o: RecordOutcome, v: World, row: InputRow) {
    && row.record in v.records && o.observations == |v.records[row.record].attributes|
    && row.record in v.verdicts
    && o.status == v.verdicts[row.record].status && o.judgements == |v.verdicts[row.record].results|
    && o.failedRules == v.verdicts[row.record].errorRules
    && row.record in v.cases
    && (o.quarantined <==> v.cases[row.record].item.Some? && v.cases[row.record].item.value.status == Q.Open)
  }

  /** The entity of the record's own link and how that link came about; a record held back has neither. */
  ghost predicate TellsMatch(o: RecordOutcome, s: Store, row: InputRow) {
    var own := LinkKey(row.record, Self);
    match o.matched
    case None => o.entity == None && own !in s.links && LinkKey(row.record, Employer) !in s.links
    case Some(m) =>
      && own in s.links && o.entity == Some(s.links[own].entity)
      && m == HowLinked(s.links[own])
  }

  /** By no key at all, to an entity that was there, or to one of its own: near enough to ask a person, or not. */
  ghost function HowLinked(link: RecordLink): Matched {
    if link.matchMethod == NoIdentityKeys then NoKeysBuilt
    else if link.matchStatus == AutoLinked then ByDecision(Link)
    else if link.confidence >= 60 then ByDecision(Review)
    else ByDecision(New)
  }

  lemma FirstCaseIs(v: RecordVerdict)
    ensures var t := Q.Route(v.status, v.errorRules, None);
      t.Some? && t.value.to == Q.Open <==> CaseFor(v).item.Some? && CaseFor(v).item.value.status == Q.Open
  {
  }

  lemma OwnLinkTells(s: Store, r: Subject)
    requires S.Inv(s) && LinkKey(r.record, r.role) !in s.links && r.newId !in s.entities
    ensures LinkKey(r.record, r.role) in Resolve(s, r).store.links
    ensures Resolve(s, r).store.links[LinkKey(r.record, r.role)].entity == Resolve(s, r).entity
    ensures MatchedBy(s, r) == HowLinked(Resolve(s, r).store.links[LinkKey(r.record, r.role)])
  {
    hide Resolve, DecisionFor, S.Inv, S.Top;
    S.DecisionIsWritten(s, r);
    KindIsTheDecisions(s, r);
    if r.keys != [] { KindFollowsTop(s, r); }
  }

  lemma KindIsTheDecisions(s: Store, r: Subject)
    ensures DecisionFor(s, r).Some? ==> Resolve(s, r).kind == DecisionFor(s, r).value.kind
  {
    hide DecisionFor;
  }

  lemma KindFollowsTop(s: Store, r: Subject)
    requires r.keys != []
    ensures var d := DecisionFor(s, r);
      && d.Some? && (d.value.considered == [] ==> d.value.kind == New)
      && forall m :: S.Top(d.value, m) ==> (d.value.kind == New <==> m.confidence < 60)
  {
    var os := Overlaps(FindCandidates(s, r.entityType, r.keys), r.keys);
    hide Overlaps, FindCandidates, Decide, Scored;
    DecisionIs(r.entityType, os);
    SameMultisetSameMembers(Decide(r.entityType, os).considered, Scored(r.entityType, os));
  }

  /** Every part of an outcome but the golden count is there to be read in the tables. */
  lemma OutcomeTells(w: World, ctx: Context, row: InputRow, read: Reader, build: bool)
    requires S.Inv(w.store) && Unlinked(w.store, row)
    ensures TellsRow(OutcomeOf(w, ctx, row, read, build), Process(w, ctx, row, read), row)
    ensures TellsMatch(OutcomeOf(w, ctx, row, read, build), Process(w, ctx, row, read).store, row)
  {
    hide OutcomeOf, Process, PlanOf, TellsRow, TellsMatch, S.Inv, Unlinked, Resolved;
    ProcessWrites(w, ctx, row, read);
    OutcomeTellsRow(w, ctx, row, read, build);
    OutcomeTellsMatch(w, ctx, row, read, build);
  }

  lemma OutcomeTellsRow(w: World, ctx: Context, row: InputRow, read: Reader, build: bool)
    ensures TellsRow(OutcomeOf(w, ctx, row, read, build), Process(w, ctx, row, read), row)
  {
    hide Resolve, VerdictOn, Stores, CaseFor, SubjectsOf, GoldenWritten, Q.Route, MatchedBy, Process;
    ProcessWrites(w, ctx, row, read);
    FirstCaseIs(VerdictOn(ctx, Stores(ctx, row).attributes));
  }

  lemma OutcomeTellsMatch(w: World, ctx: Context, row: InputRow, read: Reader, build: bool)
    requires S.Inv(w.store) && Unlinked(w.store, row)
    ensures TellsMatch(OutcomeOf(w, ctx, row, read, build), Resolved(w.store, PlanOf(ctx, row)), row)
  {
    hide Resolve, PlanOf, VerdictOn, Stores, GoldenWritten, Q.Route, MatchedBy, S.Inv;
    if PlanOf(ctx, row).Some? {
      var who := PlanOf(ctx, row).value;
      PlansAre(ctx, row);
      OwnLinkTells(w.store, who.self);
      EmployerKeepsOwnLink(w.store, ctx, row, who);
    }
  }

  /** A row that went through is announced once, under the entity its record is then linked to, or under the record. */
  lemma AnnouncedUnderItsEntity(w: World, ctx: Context, row: InputRow, fault: F.Fault, read: Reader, build: bool)
    requires S.Inv(w.store) && Unlinked(w.store, row) && !F.Fails(ctx, row, build, fault)
    ensures var news := F.Announced(row, F.FateOf(w, ctx, row, fault, read, build));
      var links, own := Process(w, ctx, row, read).store.links, LinkKey(row.record, Self);
      && |news| == 1 && news[0].record == row.record && news[0].outcome == OutcomeOf(w, ctx, row, read, build)
      && news[0].key == if own in links then F.OfEntity(links[own].entity) else F.OfRecord(row.record)
  {
    hide OutcomeOf, Process, S.Inv, Unlinked;
    OutcomeTells(w, ctx, row, read, build);
  }

  lemma EmployerKeepsOwnLink(s: Store, ctx: Context, row: InputRow, who: Subjects)
    requires S.Inv(s) && PlanFor(ctx, row, who) && Unlinked(s, row)
    ensures var k, first := LinkKey(row.record, Self), Resolve(s, who.self).store;
      && k in first.links && k in S.ResolveRecord(s, who.self, who.employer).links
      && S.ResolveRecord(s, who.self, who.employer).links[k] == first.links[k]
  {
    hide Resolve, S.Inv;
    ResolveWrites(s, who.self);
    if who.employer.Some? { ResolveWrites(Resolve(s, who.self).store, who.employer.value); }
  }

  /**
   * The record keeps when it was observed and by whom, and its observations are the readings of the row's cells;
   * no other record's are touched.
   */
  lemma RecordIsStored(w: World, ctx: Context, row: InputRow, read: Reader, a: Attribute)
    ensures var v := Process(w, ctx, row, read);
      && v.records.Keys == w.records.Keys + {row.record}
      && (forall r :: r in w.records && r != row.record ==> v.records[r] == w.records[r])
      && v.records[row.record].observedAt == row.observedAt && v.records[row.record].source == ctx.source
      && (a in v.records[row.record].attributes <==> exists c :: c in row.payload && Observes(a, c, ctx.mappings, ctx.normalizer))
  {
    hide Process, AttributesOf, Observes;
    ProcessWrites(w, ctx, row, read);
    RowIsObserved(row.payload, ctx.mappings, ctx.normalizer, a);
  }

  /** Who the record is resolved as: itself, of its file's type, by the keys its own values give, weakened by its verdict. */
  lemma OwnSubjectIs(ctx: Context, row: InputRow)
    ensures PlanOf(ctx, row).Some? <==> VerdictOn(ctx, Stores(ctx, row).attributes).status != Q.Invalid
    ensures PlanOf(ctx, row).Some? ==>
      var values := ValuesOf(SortByPlace(Stores(ctx, row).attributes), Self);
      PlanOf(ctx, row).value.self ==
        Subject(row.record, Self, ctx.entityType, ctx.batch, ctx.source.id,
                KeysFor(ctx.entityType, values, ctx.source.id, JudgedARoles(ctx, row), ctx.describes, ctx.urls), row.selfId)
  {
    hide KeysFor, ValuesOf, SortByPlace, Stores, VerdictOn, EmployerIn;
    RoleIsJudged(VerdictOn(ctx, Stores(ctx, row).attributes).results);
  }

  lemma RoleIsJudged(rs: seq<Result>)
    ensures HasRoleEmail(rs) <==> exists r :: r in rs && r.judgement.rule == "email.role_account" && r.judgement.failed
  {
  }

  /** What a build rewrites: the rows it adds, and the values it keeps on other evidence. */
  lemma RewrittenIs(t: Table, links: Links, records: Records, e: EntityId, entityType: EntityType, read: Reader)
    requires OneCurrent(t)
    ensures var choices := ChoicesOf(entityType, ByField(read(links, records, e)));
      Rewritten(CountsOne(t, links, records, e, entityType, read)) ==
      |BuildOne(t, links, records, e, entityType, read)| - |t| + Count(choices, Calls(t, e, Refresh))
  {
    var reports := ByField(read(links, records, e));
    var choices := ChoicesOf(entityType, reports);
    ByFieldIsDistinct(read(links, records, e));
    BuildDoes(t, e, entityType, choices, 0);
    CountsAre(t, e, entityType, choices, Refresh);
  }

  function Choices(links: Links, records: Records, e: EntityId, entityType: EntityType, read: Reader): seq<FieldChoice> {
    ChoicesOf(entityType, ByField(read(links, records, e)))
  }

  /** The golden count of an outcome: every golden row the record adds, and every value it keeps on other evidence. */
  lemma GoldenCountIs(w: World, ctx: Context, row: InputRow, read: Reader)
    requires OneCurrent(w.golden) && PlanOf(ctx, row).Some?
    ensures var o, v, who := OutcomeOf(w, ctx, row, read, true), Process(w, ctx, row, read), PlanOf(ctx, row).value;
      var first := Resolve(w.store, who.self);
      var mid := BuildOne(w.golden, v.store.links, v.records, first.entity, ctx.entityType, read);
      var own := Count(Choices(v.store.links, v.records, first.entity, ctx.entityType, read), Calls(w.golden, first.entity, Refresh));
      o.goldenWritten == |v.golden| - |w.golden| + own +
        (if who.employer.None? then 0
         else
           var e := Resolve(first.store, who.employer.value).entity;
           Count(Choices(v.store.links, v.records, e, Company, read), Calls(mid, e, Refresh)))
  {
    hide Resolve, VerdictOn, Stores, SubjectsOf, CaseFor, Calls, ChoicesOf, ByField, CountsOf, Build, MatchedBy, Q.Route, OneCurrent;
    ProcessWrites(w, ctx, row, read);
    var v, who := Process(w, ctx, row, read), PlanOf(ctx, row).value;
    var first := Resolve(w.store, who.self);
    RewrittenIs(w.golden, v.store.links, v.records, first.entity, ctx.entityType, read);
    BuildIsOneCurrent(w.golden, v.store.links, v.records, first.entity, ctx.entityType, read);
    if who.employer.Some? {
      var e := Resolve(first.store, who.employer.value).entity;
      RewrittenIs(BuildOne(w.golden, v.store.links, v.records, first.entity, ctx.entityType, read), v.store.links, v.records, e, Company, read);
    }
  }

  lemma BuildIsOneCurrent(t: Table, links: Links, records: Records, e: EntityId, entityType: EntityType, read: Reader)
    requires OneCurrent(t)
    ensures OneCurrent(BuildOne(t, links, records, e, entityType, read))
  {
    BuildKeepsOtherEntities(t, e, entityType, ChoicesOf(entityType, ByField(read(links, records, e))), e, "");
  }

  lemma ByFieldIsDistinct(rows: seq<JoinRow>)
    ensures forall ty :: DistinctFields(ChoicesOf(ty, ByField(rows)))
  {
    ByFieldFiles(rows, "");
  }
}

/**
 * Where an active entity holds a decisive key of another type, the two paths part: two rows that carry the
 * key are linked to it, and the record-at-a-time path builds its golden values by the rows' type.
 */
module MisfiledKeys {
  import opened Ordering
  import opened Sequences
  import opened Keys
  import opened Scoring
  import opened EntityStore
  import opened Normalization
  import opened SourceOrder
  import opened Validation
  import opened RecordSubjects
  import opened Survivorship
  import opened GoldenTable
  import opened RecordPipeline
  import opened EntityGolden
  import opened PathsAgree
  import Q = Quarantine
  import S = StableIds
  import K = KeyIndex

  // ---- the key, and rows that carry it ------------------------------------------------------------------

  function KeyOf(row: KeyRow): IdentityKey { IdentityKey(row.keyType, row.keyValue, row.strength) }

  /** An active entity's key of another type, decisive, and no other active entity's as a key of that type. */
  ghost predicate Misfiled(s: Store, row: KeyRow) {
    && row in s.keys && IsActive(s, row.entity) && s.entities[row.entity].entityType != row.entityType
    && row.strength == Strong && StrongType(row.entityType, row.keyType)
    && forall other :: other in s.keys && Findable(s, row.entityType, [KeyOf(row)], other) ==> other.entity == row.entity
  }

  /** A field and a text from which a source's row of this type gets just this key. */
  datatype Carrier = Carrier(field: string, text: string, sourceId: string, urls: UrlReaders)

  ghost predicate Carries(c: Carrier, entityType: EntityType, k: IdentityKey) {
    && c.field in IdentifyingFields(entityType) && c.text != ""
    && KeysFor(entityType, map[c.field := [c.text]], c.sourceId, false, Organisation, c.urls) == [k]
  }

  /** Values as they stand, one to a cell. */
  const AsGiven := Normalizer((text: string, kind: string) => [text],
                              (text: string, kind: string) => if text == "" then None else Some(text),
                              (field: Option<string>, subject: Role) => "text", (text: string, kind: string) => kind)

  function File(c: Carrier, entityType: EntityType, batch: nat, reliability: int): Context {
    Context(batch, Source(c.sourceId, "", reliability), entityType, Organisation,
            map["a" := ColumnMapping(Approved, Some(c.field), Self), "b" := ColumnMapping(Approved, Some("founded_year"), Self)],
            AsGiven, (a: Attribute) => [], c.urls, (name: string) => name)
  }

  function Carrying(c: Carrier, record: RecordId, year: string, at: int, id: EntityId): InputRow {
    InputRow(record, [Cell("a", Some(c.text)), Cell("b", Some(year))], at, id, id + 1)
  }

  function Read(column: string, field: string, text: string, subject: Role): Attribute {
    Attribute(column, 0, Some(field), Approved, text, Some(text), "text", subject, "text")
  }

  function ReadOf(c: Carrier, year: string): seq<Attribute> {
    [Read("a", c.field, c.text, Self), Read("b", "founded_year", year, Self)]
  }

  function SubjectOf(c: Carrier, entityType: EntityType, batch: nat, record: RecordId, k: IdentityKey, id: EntityId): Subject {
    Subject(record, Self, entityType, batch, c.sourceId, [k], id)
  }

  // ---- what such a row resolves as --------------------------------------------------------------------------

  lemma OneCell(column: string, text: string, field: string, subject: Role, mappings: Mappings)
    requires text != "" && column in mappings && mappings[column] == ColumnMapping(Approved, Some(field), subject)
    ensures CellAttributes(Cell(column, Some(text)), mappings, AsGiven) == [Read(column, field, text, subject)]
  {
  }

  lemma RowIsRead(c: Carrier, entityType: EntityType, batch: nat, reliability: int, record: RecordId, year: string, at: int, id: EntityId)
    requires c.text != "" && year != ""
    ensures Stores(File(c, entityType, batch, reliability), Carrying(c, record, year, at, id)) ==
      Stored(ReadOf(c, year), at, Source(c.sourceId, "", reliability))
  {
    hide CellAttributes;
    var ctx, row := File(c, entityType, batch, reliability), Carrying(c, record, year, at, id);
    var p := row.payload;
    assert p[..1] == [p[0]] && p[..1][..0] == [];
    OneCell("a", c.text, c.field, Self, ctx.mappings);
    OneCell("b", year, "founded_year", Self, ctx.mappings);
    assert AttributesOf([], ctx.mappings, AsGiven) == [];
    assert AttributesOf(p[..1], ctx.mappings, AsGiven) == [Read("a", c.field, c.text, Self)];
  }

  lemma AlreadySorted(a: Attribute, b: Attribute)
    requires a.column == "a" && b.column == "b"
    ensures SortByPlace([a, b]) == [a, b]
  {
    assert [a, b][..1] == [a] && [a][..0] == [];
    assert SortByPlace([a]) == [a];
    assert PlaceLeq(a, b);
  }

  lemma ValuesRead(c: Carrier, year: string)
    requires c.field != "founded_year"
    ensures ValuesOf(ReadOf(c, year), Self) == map[c.field := [c.text], "founded_year" := [year]]
    ensures ValuesOf(ReadOf(c, year), Employer) == map[]
  {
    hide ValuesOf;
    var a, b := ReadOf(c, year)[0], ReadOf(c, year)[1];
    var none: Values := map[];
    ValuesAppend([], a, Self);
    ValuesAppend([], a, Employer);
    ValuesAppend([a], b, Self);
    ValuesAppend([a], b, Employer);
    assert [] + [a] == [a] && [a] + [b] == ReadOf(c, year);
    assert Listed(none, c.field) + [c.text] == [c.text];
    assert Listed(map[c.field := [c.text]], "founded_year") + [year] == [year];
  }

  /** The year of foundation is part of no key. */
  lemma YearMakesNoKey(entityType: EntityType, values: Values, year: string, sourceId: string, urls: UrlReaders)
    requires "founded_year" !in values
    ensures KeysFor(entityType, values["founded_year" := [year]], sourceId, false, Organisation, urls) ==
            KeysFor(entityType, values, sourceId, false, Organisation, urls)
  {
    hide Deduped, RawPersonKeys, RawCompanyKeys;
    YearIsNotRead(values, year, sourceId, urls);
  }

  lemma YearIsNotRead(values: Values, year: string, sourceId: string, urls: UrlReaders)
    requires "founded_year" !in values
    ensures RawPersonKeys(values["founded_year" := [year]], sourceId, false, urls) == RawPersonKeys(values, sourceId, false, urls)
    ensures RawCompanyKeys(values["founded_year" := [year]], sourceId, urls) == RawCompanyKeys(values, sourceId, urls)
  {
    hide UrlKeys, PlainKeys, ExternalKeys, PairKey, RawPersonKeys, RawCompanyKeys;
    var more := values["founded_year" := [year]];
    assert forall f :: f != "founded_year" ==> Listed(more, f) == Listed(values, f);
    PersonKeysReadLists(values, more, sourceId, urls);
    CompanyKeysReadLists(values, more, sourceId, urls);
  }

  lemma PersonKeysReadLists(a: Values, b: Values, sourceId: string, urls: UrlReaders)
    requires forall f :: f != "founded_year" ==> Listed(b, f) == Listed(a, f)
    ensures RawPersonKeys(b, sourceId, false, urls) == RawPersonKeys(a, sourceId, false, urls)
  {
    hide UrlKeys, PlainKeys, ExternalKeys, PairKey, Listed, First, PersonName;
    FirstReadsLists(a, b);
  }

  lemma FirstReadsLists(a: Values, b: Values)
    requires forall f :: f != "founded_year" ==> Listed(b, f) == Listed(a, f)
    ensures forall f :: f != "founded_year" ==> First(b, f) == First(a, f)
    ensures PersonName(b) == PersonName(a) && CompanyName(b) == CompanyName(a)
  {
    hide Listed;
    assert forall f :: f != "founded_year" ==> First(b, f) == First(a, f);
  }

  lemma CompanyKeysReadLists(a: Values, b: Values, sourceId: string, urls: UrlReaders)
    requires forall f :: f != "founded_year" ==> Listed(b, f) == Listed(a, f)
    ensures RawCompanyKeys(b, sourceId, urls) == RawCompanyKeys(a, sourceId, urls)
  {
    hide UrlKeys, PlainKeys, ExternalKeys, PairKey, Listed, First, CompanyName;
    FirstReadsLists(a, b);
  }

  lemma KeyIsRead(c: Carrier, entityType: EntityType, k: IdentityKey, year: string)
    requires Carries(c, entityType, k)
    ensures c.field != "founded_year"
    ensures KeysFor(entityType, map[c.field := [c.text], "founded_year" := [year]], c.sourceId, false, Organisation, c.urls) == [k]
  {
    hide KeysFor;
    var values: Values := map[c.field := [c.text]];
    YearMakesNoKey(entityType, values, year, c.sourceId, c.urls);
    assert values["founded_year" := [year]] == map[c.field := [c.text], "founded_year" := [year]];
  }

  lemma RowIsResolvable(ctx: Context, c: Carrier, year: string)
    requires c.field in IdentifyingFields(ctx.entityType)
    ensures VerdictOn(ctx, ReadOf(c, year)).status != Q.Invalid
  {
    var rows := ReadOf(c, year);
    assert rows[0] in rows;
    assert c.field in PresentFields(rows);
    assert c.field in IdentifyingFields(ctx.entityType) * PresentFields(rows);
    InvalidIffUnidentified(ctx.judge, rows, ctx.entityType);
  }

  /** Nothing is judged but the record, so nothing says a mailbox is a role's. */
  lemma NoRoleMailbox(ctx: Context, rows: seq<Attribute>)
    requires forall a :: ctx.judge(a) == []
    ensures !HasRoleEmail(VerdictOn(ctx, rows).results)
  {
    hide AttributeResults, RecordResults;
    NothingJudged(ctx.judge, rows);
    var facts := Summary(rows, ctx.entityType);
    RecordRulesNameNoRole(facts);
    assert VerdictOn(ctx, rows).results == RecordResults(facts);
  }

  lemma RecordRulesNameNoRole(facts: Facts)
    ensures !HasRoleEmail(RecordResults(facts))
  {
    hide Identified;
    forall r | r in RecordResults(facts) ensures !IsRoleEmail(r) {
      var i :| 0 <= i < |JudgeRecord(facts)| && r == Result(None, JudgeRecord(facts)[i]);
    }
  }

  lemma {:induction false} NothingJudged(judge: Judge, rows: seq<Attribute>)
    requires forall a :: judge(a) == []
    ensures AttributeResults(judge, rows) == []
  {
    if rows != [] {
      NothingJudged(judge, rows[..|rows| - 1]);
      assert ResultsBy(judge)(rows[|rows| - 1]) == [];
    }
  }

  lemma RowIsPlanned(c: Carrier, entityType: EntityType, k: IdentityKey, batch: nat, reliability: int, record: RecordId,
                     year: string, at: int, id: EntityId)
    requires Carries(c, entityType, k) && year != ""
    ensures PlanOf(File(c, entityType, batch, reliability), Carrying(c, record, year, at, id)) ==
      Some(Subjects(SubjectOf(c, entityType, batch, record, k, id), None))
  {
    hide Stores, VerdictOn, HasRoleEmail, KeysFor, SortByPlace, ValuesOf, ReadOf;
    var ctx := File(c, entityType, batch, reliability);
    RowIsRead(c, entityType, batch, reliability, record, year, at, id);
    KeyIsRead(c, entityType, k, year);
    RowIsSorted(c, year);
    ValuesRead(c, year);
    RowIsResolvable(ctx, c, year);
    NoRoleMailbox(ctx, ReadOf(c, year));
  }

  lemma RowIsSorted(c: Carrier, year: string)
    ensures SortByPlace(ReadOf(c, year)) == ReadOf(c, year)
  {
    AlreadySorted(Read("a", c.field, c.text, Self), Read("b", "founded_year", year, Self));
  }

  // ---- and what it is linked to -----------------------------------------------------------------------------

  lemma {:induction false} OnlyOneFound(s: Store, entityType: EntityType, keys: seq<IdentityKey>, rows: seq<KeyRow>, i: nat)
    requires i < |rows| && forall j :: 0 <= j < |rows| ==> (Findable(s, entityType, keys, rows[j]) <==> j == i)
    ensures FindAmong(s, entityType, keys, rows) == [rows[i]]
  {
    var n := |rows| - 1;
    hide Findable;
    if i < n {
      OnlyOneFound(s, entityType, keys, rows[..n], i);
    } else {
      NoneFound(s, entityType, keys, rows[..n]);
    }
  }

  lemma {:induction false} NoneFound(s: Store, entityType: EntityType, keys: seq<IdentityKey>, rows: seq<KeyRow>)
    requires forall j :: 0 <= j < |rows| ==> !Findable(s, entityType, keys, rows[j])
    ensures FindAmong(s, entityType, keys, rows) == []
  {
    if rows != [] { NoneFound(s, entityType, keys, rows[..|rows| - 1]); }
  }

  lemma HasJust(k: IdentityKey, m: Marker)
    ensures HasMarker([k], m) <==> m == MarkerOf(k)
  {
    assert [k][0] == k;
  }

  lemma FindsTheMisfiled(s: Store, row: KeyRow)
    requires S.KeysUnique(s.keys) && Misfiled(s, row)
    ensures FindCandidates(s, row.entityType, [KeyOf(row)]) == [row]
  {
    var i :| 0 <= i < |s.keys| && s.keys[i] == row;
    forall j | 0 <= j < |s.keys| ensures Findable(s, row.entityType, [KeyOf(row)], s.keys[j]) <==> j == i {
      HasJust(KeyOf(row), RowMarker(s.keys[j]));
      HasJust(KeyOf(row), RowMarker(row));
      assert s.keys[j] in s.keys;
    }
    OnlyOneFound(s, row.entityType, [KeyOf(row)], s.keys, i);
    FewHaveOneOrder(FindCandidates(s, row.entityType, [KeyOf(row)]), [row]);
  }

  lemma OneOverlap(row: KeyRow)
    requires row.strength == Strong
    ensures Overlaps([row], [KeyOf(row)]) == [Overlap(row.entity, [KeyOf(row)])]
  {
    assert [row][..0] == [] && [KeyOf(row)][..0] == [];
    assert SharedKey(row, [KeyOf(row)]) == KeyOf(row);
  }

  lemma StrongKeyLinks(entityType: EntityType, e: EntityId, k: IdentityKey)
    requires k.strength == Strong && StrongType(entityType, k.keyType)
    ensures Score(entityType, e, [k]).confidence >= AUTO_LINK_THRESHOLD && Score(entityType, e, [k]).entityId == e
  {
    assert Ranked(entityType, [k]) == [k] by { assert [k][1..] == []; }
    assert Types([k]) == {k.keyType};
  }

  lemma MisfiledIsLinked(s: Store, row: KeyRow)
    requires S.KeysUnique(s.keys) && Misfiled(s, row)
    ensures var d := CandidatesFor(s, row.entityType, [KeyOf(row)]);
      d.kind == Link && d.best.Some? && d.best.value.entityId == row.entity
  {
    hide Score, Decide, Overlaps, FindCandidates;
    FindsTheMisfiled(s, row);
    OneOverlap(row);
    StrongKeyLinks(row.entityType, row.entity, KeyOf(row));
    OneCandidateDecides(row.entityType, row.entity, [KeyOf(row)]);
  }

  /** One more link to the entity that holds the key, and nothing else. */
  ghost predicate JustLinks(s: Store, t: Store, record: RecordId, e: EntityId) {
    var at := LinkKey(record, Self);
    && at !in s.links && at in t.links && t == s.(links := s.links[at := t.links[at]]) && t.links[at].entity == e
  }

  lemma MisfiledResolves(s: Store, row: KeyRow, r: Subject)
    requires S.KeysUnique(s.keys) && Misfiled(s, row)
    requires r.role == Self && r.entityType == row.entityType && r.keys == [KeyOf(row)] && LinkKey(r.record, Self) !in s.links
    ensures Resolve(s, r).entity == row.entity && JustLinks(s, Resolve(s, r).store, r.record, row.entity)
  {
    hide CandidatesFor, WithKeys, Misfiled;
    MisfiledIsLinked(s, row);
    KeyIsHeldAlready(s, row, r);
  }

  lemma KeyIsHeldAlready(s: Store, row: KeyRow, r: Subject)
    requires Misfiled(s, row) && r.keys == [KeyOf(row)]
    ensures WithKeys(s.keys, row.entity, r.entityType, r.record, r.keys) == s.keys
  {
    var k := KeyOf(row);
    assert [k][..0] == [];
    assert WithKeys(s.keys, row.entity, r.entityType, r.record, []) == s.keys;
    var i :| 0 <= i < |s.keys| && s.keys[i] == row;
    assert HasKey(s.keys, row.entity, MarkerOf(k));
  }

  lemma StillMisfiled(s: Store, t: Store, row: KeyRow, record: RecordId, e: EntityId)
    requires Misfiled(s, row) && JustLinks(s, t, record, e)
    ensures Misfiled(t, row)
  {
  }

  // ---- which year each type keeps ---------------------------------------------------------------------------

  function YearReport(c: Carrier, year: string, reliability: int, record: RecordId, at: int): Observation {
    Observation(year, year, c.sourceId, "", reliability, record, at)
  }

  /** Two rows of one source, the second observed later. */
  function YearReports(c: Carrier, reliability: int, record: RecordId, at: int): seq<Observation> {
    [YearReport(c, "1", reliability, record, at), YearReport(c, "2", reliability, record + 1, at + 1)]
  }

  lemma FirstTwoTell(p: Observation, o: Observation)
    requires KeyLeq(TiebreakKey(p), TiebreakKey(o))
    ensures p.reliability > o.reliability || (p.reliability == o.reliability && p.observedAt >= o.observedAt)
  {
  }

  lemma PersonKeepsTheLater(c: Carrier, reliability: int, record: RecordId, at: int)
    ensures Pick(MostReliable, YearReports(c, reliability, record, at)).value == "2"
  {
    hide Pick, KeyLeq, TiebreakKey;
    var os := YearReports(c, reliability, record, at);
    WinnerIsLeast(MostReliable, os);
    assert os[1] in os;
    LeadTells(MostReliable, os, Pick(MostReliable, os), os[1]);
    FirstTwoTell(Pick(MostReliable, os), os[1]);
  }

  lemma CompanyKeepsTheEarlier(c: Carrier, reliability: int, record: RecordId, at: int)
    ensures Pick(Earliest, YearReports(c, reliability, record, at)).value == "1"
  {
    hide Pick, KeyLeq, TiebreakKey;
    var os := YearReports(c, reliability, record, at);
    WinnerIsLeast(Earliest, os);
    assert os[0] in os;
    LeadTells(Earliest, os, Pick(Earliest, os), os[0]);
  }

  lemma AllAreUsable(a: Observation, b: Observation)
    requires a.value != "" && b.value != ""
    ensures Usable([a, b]) == [a, b]
  {
    assert [a, b][1..] == [b] && [b][1..] == [];
    assert Usable([b]) == [b];
  }

  lemma YearsChosen(c: Carrier, reliability: int, record: RecordId, at: int)
    ensures var person := Choose(Person, "founded_year", YearReports(c, reliability, record, at));
      var company := Choose(Company, "founded_year", YearReports(c, reliability, record, at));
      person.Some? && person.value.value == "2" && company.Some? && company.value.value == "1"
  {
    hide Pick, Usable, ChooseAmong;
    var os := YearReports(c, reliability, record, at);
    AllAreUsable(os[0], os[1]);
    PersonKeepsTheLater(c, reliability, record, at);
    CompanyKeepsTheEarlier(c, reliability, record, at);
    ChosenFields(MostReliable, os);
    ChosenFields(Earliest, os);
  }

  lemma TypesKeepDifferentYears(x: EntityType, y: EntityType, c: Carrier, reliability: int, record: RecordId, at: int)
    requires x != y
    ensures !ChooseAlike(x, y, "founded_year", Claims(YearReports(c, reliability, record, at)))
  {
    hide Choose, Claims, YearReports;
    var os := YearReports(c, reliability, record, at);
    YearsChosen(c, reliability, record, at);
    assert !SameChoice(Choose(x, "founded_year", os), Choose(y, "founded_year", os));
  }

  // ---- the batch --------------------------------------------------------------------------------------------

  /** Numbers nothing uses yet: a batch, two records and four entities. */
  datatype Unused = Unused(batch: nat, record: RecordId, id: EntityId)

  ghost predicate Free(w: World, u: Unused) {
    && (forall k :: k in w.store.links ==> w.store.links[k].batch != u.batch)
    && (forall r :: r in w.records ==> r < u.record)
    && (forall e :: e in w.store.entities ==> e < u.id)
  }

  function TwoRows(c: Carrier, u: Unused, at: int): seq<InputRow> {
    [Carrying(c, u.record, "1", at, u.id), Carrying(c, u.record + 1, "2", at + 1, u.id + 2)]
  }

  lemma TwoRowsAreFresh(w: World, c: Carrier, entityType: EntityType, reliability: int, u: Unused, at: int)
    requires Free(w, u)
    ensures FreshRows(w, File(c, entityType, u.batch, reliability), TwoRows(c, u, at)) && Sound(AsGiven)
  {
  }

  /** No record linked to the entity says when it was founded. */
  ghost predicate YearUnclaimed(w: World, e: EntityId) {
    forall k, a :: k in w.store.links && w.store.links[k].entity == e && k.record in w.records ==>
      (a in w.records[k.record].attributes && Tells(a, k.role) ==> a.field != Some("founded_year"))
  }

  lemma OneStep(w: World, ctx: Context, row: InputRow, read: Reader)
    ensures Fused(w, ctx, [row], read) == Process(w, ctx, row, read)
    ensures ResolvePlans(w.store, ctx, [row]) == Resolved(w.store, PlanOf(ctx, row))
    ensures BuiltAs(w.store, ctx, [row]) == TakenNext(map[], w.store, ctx, PlanOf(ctx, row))
  {
    hide Process, PlanOf, Resolved, TakenNext;
    assert [row][..0] == [];
  }

  lemma TwoSteps(w: World, ctx: Context, a: InputRow, b: InputRow, read: Reader)
    ensures Fused(w, ctx, [a, b], read) == Process(Process(w, ctx, a, read), ctx, b, read)
    ensures ResolvePlans(w.store, ctx, [a, b]) == Resolved(Resolved(w.store, PlanOf(ctx, a)), PlanOf(ctx, b))
    ensures BuiltAs(w.store, ctx, [a, b]) ==
      TakenNext(TakenNext(map[], w.store, ctx, PlanOf(ctx, a)), Resolved(w.store, PlanOf(ctx, a)), ctx, PlanOf(ctx, b))
  {
    hide Process, PlanOf, Resolved, TakenNext;
    OneStep(w, ctx, a, read);
    assert [a, b][..1] == [a];
  }

  /** A row that carries the key is linked to the entity that holds it, which is taken for what the row is. */
  lemma RowIsLinked(s: Store, row: KeyRow, c: Carrier, batch: nat, reliability: int, record: RecordId, year: string, at: int,
                    id: EntityId, taken: Taken)
    requires S.KeysUnique(s.keys) && Misfiled(s, row) && Carries(c, row.entityType, KeyOf(row)) && year != ""
    requires LinkKey(record, Self) !in s.links
    ensures var ctx, r := File(c, row.entityType, batch, reliability), Carrying(c, record, year, at, id);
      var t := Resolved(s, PlanOf(ctx, r));
      && JustLinks(s, t, record, row.entity) && Misfiled(t, row)
      && TakenNext(taken, s, ctx, PlanOf(ctx, r)) == taken[row.entity := row.entityType]
  {
    hide PlanOf, Resolve, Misfiled, S.KeysUnique, Carries, JustLinks;
    RowIsPlanned(c, row.entityType, KeyOf(row), batch, reliability, record, year, at, id);
    var r := SubjectOf(c, row.entityType, batch, record, KeyOf(row), id);
    MisfiledResolves(s, row, r);
    StillMisfiled(s, Resolve(s, r).store, row, record, row.entity);
  }

  /** The tables with the two rows' links. */
  ghost predicate LinksTwoMore(s: Store, t: Store, record: RecordId, e: EntityId) {
    var one, two := LinkKey(record, Self), LinkKey(record + 1, Self);
    && one in t.links && two in t.links && t.links[one].entity == e && t.links[two].entity == e
    && t == s.(links := s.links[one := t.links[one]][two := t.links[two]])
  }

  lemma TwoLinksAreMade(s: Store, mid: Store, t: Store, record: RecordId, e: EntityId)
    requires JustLinks(s, mid, record, e) && JustLinks(mid, t, record + 1, e)
    ensures LinksTwoMore(s, t, record, e)
  {
  }

  lemma NextIsUnlinked(s: Store, mid: Store, record: RecordId, e: EntityId)
    requires JustLinks(s, mid, record, e) && LinkKey(record + 1, Self) !in s.links
    ensures LinkKey(record + 1, Self) !in mid.links && mid.keys == s.keys
  {
  }

  lemma BothAreLinked(w: World, row: KeyRow, c: Carrier, reliability: int, u: Unused, at: int)
    requires S.KeysUnique(w.store.keys) && Misfiled(w.store, row) && Carries(c, row.entityType, KeyOf(row))
    requires LinkKey(u.record, Self) !in w.store.links && LinkKey(u.record + 1, Self) !in w.store.links
    ensures var ctx := File(c, row.entityType, u.batch, reliability);
      && BuiltAs(w.store, ctx, TwoRows(c, u, at)) == map[row.entity := row.entityType]
      && LinksTwoMore(w.store, ResolvePlans(w.store, ctx, TwoRows(c, u, at)), u.record, row.entity)
  {
    hide PlanOf, Resolved, TakenNext, Misfiled, S.KeysUnique, Carries, Carrying, File, JustLinks, LinksTwoMore, BuiltAs,
      ResolvePlans, Fused, Process, KeyOf;
    var ctx := File(c, row.entityType, u.batch, reliability);
    var a, b := Carrying(c, u.record, "1", at, u.id), Carrying(c, u.record + 1, "2", at + 1, u.id + 2);
    RowIsLinked(w.store, row, c, u.batch, reliability, u.record, "1", at, u.id, map[]);
    var mid := Resolved(w.store, PlanOf(ctx, a));
    NextIsUnlinked(w.store, mid, u.record, row.entity);
    RowIsLinked(mid, row, c, u.batch, reliability, u.record + 1, "2", at + 1, u.id + 2, map[row.entity := row.entityType]);
    TwoSteps(w, ctx, a, b, (links, records, e) => []);
    TwoLinksAreMade(w.store, mid, Resolved(mid, PlanOf(ctx, b)), u.record, row.entity);
  }

  ghost predicate RecordsTwoMore(before: Records, after: Records, c: Carrier, reliability: int, record: RecordId, at: int) {
    after == before[record := Stored(ReadOf(c, "1"), at, Source(c.sourceId, "", reliability))]
                   [record + 1 := Stored(ReadOf(c, "2"), at + 1, Source(c.sourceId, "", reliability))]
  }

  lemma BothAreRecorded(w: World, c: Carrier, entityType: EntityType, reliability: int, u: Unused, at: int, read: Reader)
    requires c.text != ""
    ensures RecordsTwoMore(w.records, Fused(w, File(c, entityType, u.batch, reliability), TwoRows(c, u, at), read).records,
                           c, reliability, u.record, at)
  {
    hide Process, Stores, ReadOf, PlanOf, VerdictOn, BuiltAs, ResolvePlans;
    var ctx := File(c, entityType, u.batch, reliability);
    var a, b := Carrying(c, u.record, "1", at, u.id), Carrying(c, u.record + 1, "2", at + 1, u.id + 2);
    TwoSteps(w, ctx, a, b, read);
    ProcessWrites(w, ctx, a, read);
    ProcessWrites(Process(w, ctx, a, read), ctx, b, read);
    RowIsRead(c, entityType, u.batch, reliability, u.record, "1", at, u.id);
    RowIsRead(c, entityType, u.batch, reliability, u.record + 1, "2", at + 1, u.id + 2);
  }

  /** What the two rows claim of the year, beside what was claimed before. */
  lemma YearsClaimed(w: World, t: Store, records: Records, c: Carrier, reliability: int, record: RecordId, at: int, e: EntityId)
    requires RefersToRecords(w) && YearUnclaimed(w, e) && c.field != "founded_year"
    requires record !in w.records && record + 1 !in w.records
    requires LinksTwoMore(w.store, t, record, e) && RecordsTwoMore(w.records, records, c, reliability, record, at)
    ensures ClaimsIn(Join(t.links, records, e), "founded_year") == Claims(YearReports(c, reliability, record, at))
    ensures t.entities == w.store.entities
  {
    var os, links := YearReports(c, reliability, record, at), t.links;
    var join := Join(links, records, e);
    var a, b := JoinRow("founded_year", os[0]), JoinRow("founded_year", os[1]);
    BothYearsJoin(w, t, records, c, reliability, record, at, e);
    forall r | r in join && r.field == "founded_year" ensures r == a || r == b {
      OnlyTheseYearsJoin(w, t, records, c, reliability, record, at, e, r);
    }
    hide Join;
    assert Claims(os) == {ClaimOf(os[0]), ClaimOf(os[1])} by { assert os[0] in os && os[1] in os; }
  }

  lemma BothYearsJoin(w: World, t: Store, records: Records, c: Carrier, reliability: int, record: RecordId, at: int, e: EntityId)
    requires LinksTwoMore(w.store, t, record, e) && RecordsTwoMore(w.records, records, c, reliability, record, at)
    ensures var os := YearReports(c, reliability, record, at);
      JoinRow("founded_year", os[0]) in Join(t.links, records, e) && JoinRow("founded_year", os[1]) in Join(t.links, records, e)
  {
    assert LinkKey(record, Self) in t.links && ReadOf(c, "1")[1] in records[record].attributes;
    assert LinkKey(record + 1, Self) in t.links && ReadOf(c, "2")[1] in records[record + 1].attributes;
  }

  lemma OnlyTheseYearsJoin(w: World, t: Store, records: Records, c: Carrier, reliability: int, record: RecordId, at: int, e: EntityId,
                           r: JoinRow)
    requires RefersToRecords(w) && YearUnclaimed(w, e) && c.field != "founded_year"
    requires record !in w.records && record + 1 !in w.records
    requires LinksTwoMore(w.store, t, record, e) && RecordsTwoMore(w.records, records, c, reliability, record, at)
    requires r in Join(t.links, records, e) && r.field == "founded_year"
    ensures var os := YearReports(c, reliability, record, at); r.observation == os[0] || r.observation == os[1]
  {
    var k, x :| k in t.links && t.links[k].entity == e && k.record in records && x in records[k.record].attributes
      && Tells(x, k.role) && r == JoinRow(x.field.value, ObservationOf(k.record, records[k.record], x));
    assert k !in w.store.links;
  }

  /**
   * From any sound tables in which an active entity holds a decisive key of another type that no other active
   * entity holds as that type, and no record of that entity's has claimed a year of foundation, two rows that
   * carry the key make the paths end with the same facts and different golden values.
   */
  lemma MisfiledKeyPartsThePaths(w: World, row: KeyRow, c: Carrier, reliability: int, u: Unused, at: int, read: Reader, orders: Orders)
    requires Sane(w) && Misfiled(w.store, row) && Carries(c, row.entityType, KeyOf(row)) && YearUnclaimed(w, row.entity)
    requires Free(w, u) && Faithful(read)
    requires Complete(w, File(c, row.entityType, u.batch, reliability), TwoRows(c, u, at), orders)
    ensures var ctx, rows := File(c, row.entityType, u.batch, reliability), TwoRows(c, u, at);
      var a, b := Fused(w, ctx, rows, read), Staged(w, ctx, rows, orders);
      && FreshRows(w, ctx, rows) && Sound(ctx.normalizer)
      && SameFacts(a, b) && !SameGolden(a.golden, b.golden)
  {
    hide Sane, Misfiled, Carries, Free, FreshRows, Complete, Fused, Staged, SameFacts, SameGolden, Join, ClaimsIn, ChooseAlike,
      BuiltAs, TwoRows, ResolvePlans, YearUnclaimed, KeyOf, Faithful, TakenAlike;
    var ctx, rows := File(c, row.entityType, u.batch, reliability), TwoRows(c, u, at);
    TwoRowsAreFresh(w, c, row.entityType, reliability, u, at);
    PathsMeetIff(w, ctx, rows, read, orders);
    TakenDifferently(w, row, c, reliability, u, at, read);
  }

  lemma TakenDifferently(w: World, row: KeyRow, c: Carrier, reliability: int, u: Unused, at: int, read: Reader)
    requires Sane(w) && Misfiled(w.store, row) && Carries(c, row.entityType, KeyOf(row)) && YearUnclaimed(w, row.entity) && Free(w, u)
    ensures var ctx, rows := File(c, row.entityType, u.batch, reliability), TwoRows(c, u, at);
      var a := Fused(w, ctx, rows, read);
      !TakenAlike(a.store, a.records, BuiltAs(w.store, ctx, rows))
  {
    hide Sane, Misfiled, Carries, Free, Fused, BuiltAs, TwoRows, ResolvePlans, YearUnclaimed, File, LinksTwoMore, RecordsTwoMore,
      TakenAlike, S.KeysUnique, RefersToRecords, KeyOf;
    var ctx, rows := File(c, row.entityType, u.batch, reliability), TwoRows(c, u, at);
    var a := Fused(w, ctx, rows, read);
    var other := TypeOfHolder(w, row, u);
    CarrierIsGiven(c, row.entityType, KeyOf(row));
    FusedStore(w, ctx, rows, read);
    BothAreLinked(w, row, c, reliability, u, at);
    BothAreRecorded(w, c, row.entityType, reliability, u, at, read);
    YearsDiffer(w, a.store, a.records, c, reliability, u.record, at, row.entity, row.entityType, other);
  }

  lemma YearsDiffer(w: World, t: Store, records: Records, c: Carrier, reliability: int, record: RecordId, at: int, e: EntityId,
                    x: EntityType, y: EntityType)
    requires RefersToRecords(w) && YearUnclaimed(w, e) && c.field != "founded_year"
    requires record !in w.records && record + 1 !in w.records
    requires LinksTwoMore(w.store, t, record, e) && RecordsTwoMore(w.records, records, c, reliability, record, at)
    requires e in w.store.entities && w.store.entities[e].entityType == y && x != y
    ensures !TakenAlike(t, records, map[e := x])
  {
    hide RefersToRecords, YearUnclaimed, LinksTwoMore, RecordsTwoMore, TakenAlike, ChooseAlike, Join, ClaimsIn, Claims, YearReports;
    YearsClaimed(w, t, records, c, reliability, record, at, e);
    TypesKeepDifferentYears(x, y, c, reliability, record, at);
    NotAlikeBecause(t, records, e, x, y);
  }

  lemma CarrierIsGiven(c: Carrier, entityType: EntityType, k: IdentityKey)
    requires Carries(c, entityType, k)
    ensures c.text != "" && c.field != "founded_year"
  {
    hide KeysFor;
  }

  lemma TypeOfHolder(w: World, row: KeyRow, u: Unused) returns (other: EntityType)
    requires Sane(w) && Misfiled(w.store, row) && Free(w, u)
    ensures row.entity in w.store.entities && other == w.store.entities[row.entity].entityType && other != row.entityType
    ensures S.KeysUnique(w.store.keys) && RefersToRecords(w)
    ensures u.record !in w.records && u.record + 1 !in w.records
    ensures LinkKey(u.record, Self) !in w.store.links && LinkKey(u.record + 1, Self) !in w.store.links
  {
    other := w.store.entities[row.entity].entityType;
  }

  lemma NotAlikeBecause(s: Store, records: Records, e: EntityId, x: EntityType, y: EntityType)
    requires e in s.entities && s.entities[e].entityType == y
    requires !ChooseAlike(x, y, "founded_year", ClaimsIn(Join(s.links, records, e), "founded_year"))
    ensures !TakenAlike(s, records, map[e := x])
  {
    hide ChooseAlike, Join, ClaimsIn;
    var taken: Taken := map[e := x];
    assert e in taken && taken[e] == x;
  }

  // ---- every decisive key is carried by some row ------------------------------------------------------------

  /** A key some row can give: not blank, and a listing id scoped by its source. */
  ghost predicate Readable(k: IdentityKey) {
    && k.keyValue != ""
    && (k.keyType == ExternalId ==> exists i :: 0 <= i < |k.keyValue| - 1 && k.keyValue[i] == ':')
  }

  /** Sites and profiles as they stand. */
  const SameUrls := UrlReaders((url: string) => Some(url), (url: string) => Some(url))

  function FieldFor(entityType: EntityType, keyType: KeyType): string {
    match keyType
    case ExternalId => if entityType == Person then "person_external_id" else "company_external_id"
    case LinkedIn => "linkedin_url"
    case WebsiteDomain => "website"
    case _ => "email"
  }

  function AsCarrier(entityType: EntityType, k: IdentityKey, sourceId: string, text: string): Carrier {
    Carrier(FieldFor(entityType, k.keyType), text, sourceId, SameUrls)
  }

  lemma OneUrl(url: string, keyType: KeyType)
    ensures url != "" ==> UrlKeys([url], u => Some(u), keyType) == [IdentityKey(keyType, url, Strong)]
    ensures forall read :: UrlKeys([], read, keyType) == []
  {
    assert [url][..0] == [];
  }

  lemma PersonKeyIsCarried(k: IdentityKey, sourceId: string, text: string)
    requires k.strength == Strong && StrongType(Person, k.keyType) && text != ""
    requires k.keyValue == if k.keyType == ExternalId then sourceId + ":" + text else text
    ensures RawPersonKeys(map[FieldFor(Person, k.keyType) := [text]], sourceId, false, SameUrls) == [k]
  {
    hide PlainKeys, UrlKeys;
    OneText(text, Email, Strong);
    OneText(text, Phone, Moderate);
    OneUrl(text, LinkedIn);
  }

  lemma CompanyKeyIsCarried(k: IdentityKey, sourceId: string, text: string)
    requires k.strength == Strong && StrongType(Company, k.keyType) && text != ""
    requires k.keyValue == if k.keyType == ExternalId then sourceId + ":" + text else text
    ensures RawCompanyKeys(map[FieldFor(Company, k.keyType) := [text]], sourceId, SameUrls) == [k]
  {
    hide PlainKeys, UrlKeys;
    OneText(text, Email, Strong);
    OneText(text, Phone, Moderate);
    OneUrl(text, WebsiteDomain);
  }

  lemma DecisiveKeyIsCarried(entityType: EntityType, k: IdentityKey) returns (c: Carrier)
    requires k.strength == Strong && StrongType(entityType, k.keyType) && Readable(k)
    ensures Carries(c, entityType, k)
  {
    hide RawPersonKeys, RawCompanyKeys, Deduped;
    var sourceId, text := "", k.keyValue;
    if k.keyType == ExternalId {
      var i :| 0 <= i < |k.keyValue| - 1 && k.keyValue[i] == ':';
      sourceId, text := k.keyValue[..i], k.keyValue[i + 1..];
      assert k.keyValue == sourceId + ":" + text;
    }
    c := AsCarrier(entityType, k, sourceId, text);
    TwoDistinct(k, IdentityKey(Phone, k.keyValue, Moderate));
    if entityType == Person { PersonKeyIsCarried(k, sourceId, text); } else { CompanyKeyIsCarried(k, sourceId, text); }
  }

  // ---- the stores on which the paths always agree --------------------------------------------------------------

  ghost predicate Batch(w: World, ctx: Context, rows: seq<InputRow>, read: Reader, orders: Orders) {
    FreshRows(w, ctx, rows) && Sound(ctx.normalizer) && Faithful(read) && Complete(w, ctx, rows, orders)
  }

  ghost predicate AgreeOnEveryBatch(w: World) {
    forall ctx: Context, rows: seq<InputRow>, read: Reader, orders: Orders :: Batch(w, ctx, rows, read, orders) ==>
      SameGolden(Fused(w, ctx, rows, read).golden, Staged(w, ctx, rows, orders).golden)
  }

  /** Any key of another type is decisive and readable, its entity's alone, and the entity's year of foundation unclaimed. */
  ghost predicate MisfiledOnlyDecisively(w: World) {
    forall row :: row in w.store.keys && IsActive(w.store, row.entity) && w.store.entities[row.entity].entityType != row.entityType ==>
      Misfiled(w.store, row) && Readable(KeyOf(row)) && YearUnclaimed(w, row.entity)
  }

  lemma Beyond(s: set<nat>) returns (n: nat)
    ensures forall x :: x in s ==> x < n
  {
    n := 0;
    var rest := s;
    while rest != {}
      invariant rest <= s && forall x :: x in s && x !in rest ==> x < n
    {
      var x :| x in rest;
      if x >= n { n := x + 1; }
      rest := rest - {x};
    }
  }

  lemma SomeAreUnused(w: World) returns (u: Unused)
    ensures Free(w, u)
  {
    var batches := set k | k in w.store.links :: w.store.links[k].batch;
    var batch := Beyond(batches);
    var record := Beyond(w.records.Keys);
    var id := Beyond(w.store.entities.Keys);
    u := Unused(batch, record, id);
    forall k | k in w.store.links ensures w.store.links[k].batch != u.batch {
      assert w.store.links[k].batch in batches;
    }
  }

  lemma SomeBatchParts(w: World, row: KeyRow) returns (ctx: Context, rows: seq<InputRow>, read: Reader, orders: Orders)
    requires Sane(w) && Misfiled(w.store, row) && Readable(KeyOf(row)) && YearUnclaimed(w, row.entity)
    ensures Batch(w, ctx, rows, read, orders)
    ensures !SameGolden(Fused(w, ctx, rows, read).golden, Staged(w, ctx, rows, orders).golden)
  {
    assert row.strength == Strong && StrongType(row.entityType, row.keyType);
    hide Sane, Misfiled, Readable, YearUnclaimed, Free, Faithful, Complete, Fused, Staged, SameGolden, FreshRows, Carries;
    var c := DecisiveKeyIsCarried(row.entityType, KeyOf(row));
    var u := SomeAreUnused(w);
    ctx, rows := File(c, row.entityType, u.batch, 0), TwoRows(c, u, 0);
    read := SomeReaderIsFaithful();
    orders := SomeOrdersAreComplete(w, ctx, rows);
    MisfiledKeyPartsThePaths(w, row, c, 0, u, 0, read, orders);
  }

  /**
   * Where every key an active entity holds under another type is decisive and that entity's alone, the two
   * paths agree on every batch exactly when there is no such key.
   */
  lemma AgreeOnEveryBatchIff(w: World)
    requires Sane(w) && MisfiledOnlyDecisively(w)
    ensures AgreeOnEveryBatch(w) <==> K.TypedActiveKeys(w.store)
  {
    hide Sane, Misfiled, Readable, YearUnclaimed, Complete, Fused, Staged, SameGolden, FreshRows, SameFacts, Sound, Faithful;
    if K.TypedActiveKeys(w.store) {
      forall ctx: Context, rows: seq<InputRow>, read: Reader, orders: Orders | Batch(w, ctx, rows, read, orders)
        ensures SameGolden(Fused(w, ctx, rows, read).golden, Staged(w, ctx, rows, orders).golden)
      {
        PathsMeet(w, ctx, rows, read, orders);
      }
    } else {
      var i :| 0 <= i < |w.store.keys| && IsActive(w.store, w.store.keys[i].entity)
        && w.store.keys[i].entityType != w.store.entities[w.store.keys[i].entity].entityType;
      var row := w.store.keys[i];
      assert row in w.store.keys;
      var ctx, rows, read, orders := SomeBatchParts(w, row);
      assert Batch(w, ctx, rows, read, orders);
    }
  }
}

/** What judging a mailbox a role's does: the row still carries it, and it no longer identifies anybody by itself. */
module RoleMailboxes {
  import opened Ordering
  import opened Sequences
  import opened Keys
  import opened Scoring
  import opened KeyMeaning
  import opened EntityStore
  import opened Normalization
  import opened SourceOrder
  import opened Validation
  import opened RecordSubjects
  import opened GoldenTable
  import opened RecordPipeline
  import opened PathsAgree
  import opened EmployerCandidates
  import opened MisfiledKeys
  import Q = Quarantine
  import S = StableIds

  // ---- the judgement and the key ---------------------------------------------------------------------------

  /** Some judgement in the row's verdict says its mailbox is a role's. */
  ghost predicate JudgedARoles(ctx: Context, row: InputRow) {
    exists r :: r in VerdictOn(ctx, Stores(ctx, row).attributes).results
      && r.judgement.rule == "email.role_account" && r.judgement.failed
  }

  /** An observation's results are its judgements, if its column was confirmed. */
  lemma ResultIsJudgement(judge: Judge, attributes: seq<Attribute>, r: Result)
    requires r in AttributeResults(judge, attributes)
    ensures r.about.Some? && r.about.value in attributes && r.about.value.field.Some? && r.judgement in judge(r.about.value)
  {
    FlatMapMembers(attributes, ResultsBy(judge));
    var a :| a in attributes && r in ResultsBy(judge)(a);
    assert r in ResultsOf(judge, a);
  }

  lemma JudgementIsResult(judge: Judge, attributes: seq<Attribute>, a: Attribute, j: Judgement)
    requires a in attributes && a.field.Some? && j in judge(a)
    ensures Result(Some(a), j) in AttributeResults(judge, attributes)
  {
    FlatMapMembers(attributes, ResultsBy(judge));
    var i :| 0 <= i < |judge(a)| && judge(a)[i] == j;
    assert ResultsOf(judge, a)[i] == Result(Some(a), j);
    assert Result(Some(a), j) in ResultsBy(judge)(a);
  }

  lemma ResultsAreBoth(ctx: Context, attributes: seq<Attribute>)
    ensures VerdictOn(ctx, attributes).results == AttributeResults(ctx.judge, attributes) + RecordResults(Summary(attributes, ctx.entityType))
  {
  }

  /** It is there exactly when the rule failed on one of the row's confirmed observations. */
  lemma JudgedARolesIff(ctx: Context, row: InputRow)
    ensures JudgedARoles(ctx, row) <==>
      exists a, j :: a in Stores(ctx, row).attributes && a.field.Some? && j in ctx.judge(a) && j.rule == "email.role_account" && j.failed
  {
    hide Stores, AttributeResults, RecordResults, VerdictOn, Summary;
    var attributes := Stores(ctx, row).attributes;
    var facts := Summary(attributes, ctx.entityType);
    ResultsAreBoth(ctx, attributes);
    RecordRulesNameNoRole(facts);
    if JudgedARoles(ctx, row) {
      var r :| r in VerdictOn(ctx, attributes).results && r.judgement.rule == "email.role_account" && r.judgement.failed;
      assert r !in RecordResults(facts);
      ResultIsJudgement(ctx.judge, attributes, r);
    }
    if a, j :| a in attributes && a.field.Some? && j in ctx.judge(a) && j.rule == "email.role_account" && j.failed {
      JudgementIsResult(ctx.judge, attributes, a, j);
    }
  }

  /** A person's mailbox is a moderate key exactly when it was so judged; every other key is as its type is. */
  lemma MailboxStrengthIff(ctx: Context, row: InputRow, k: IdentityKey)
    requires ctx.entityType == Person && PlanOf(ctx, row).Some? && k in PlanOf(ctx, row).value.self.keys
    ensures k.keyType == Email ==> (k.strength == Moderate <==> JudgedARoles(ctx, row))
    ensures k.keyType != Email ==> (k.strength == Strong <==> k.keyType == ExternalId || k.keyType == LinkedIn)
  {
    hide KeysFor, Stores, VerdictOn, EmployerIn;
    var attributes := Stores(ctx, row).attributes;
    var rows, role := SortByPlace(attributes), HasRoleEmail(VerdictOn(ctx, attributes).results);
    PersonKeyStrengths(ValuesOf(rows, Self), ctx.source.id, role, ctx.describes, ctx.urls);
    assert AsBuilt(k, Person, ctx.source.id, role);
  }

  // ---- two people, one mailbox ------------------------------------------------------------------------------

  function PeopleFile(batch: nat, source: Source, judge: Judge, urls: UrlReaders, fold: string -> string): Context {
    Context(batch, source, Person, Organisation,
            map["a" := ColumnMapping(Approved, Some("email"), Self), "b" := ColumnMapping(Approved, Some("full_name"), Self)],
            AsGiven, judge, urls, fold)
  }

  /** A person giving a mailbox and a name. */
  function PersonWith(record: RecordId, mailbox: string, name: string, at: int, id: EntityId, other: EntityId): InputRow {
    InputRow(record, [Cell("a", Some(mailbox)), Cell("b", Some(name))], at, id, other)
  }

  function PersonRead(mailbox: string, name: string): seq<Attribute> {
    [Read("a", "email", mailbox, Self), Read("b", "full_name", name, Self)]
  }

  function MailboxOf(mailbox: string, role: bool): IdentityKey { IdentityKey(Email, mailbox, if role then Moderate else Strong) }

  lemma PersonIsRead(ctx: Context, row: InputRow, mailbox: string, name: string)
    requires ctx == PeopleFile(ctx.batch, ctx.source, ctx.judge, ctx.urls, ctx.fold) && mailbox != "" && name != ""
    requires row == PersonWith(row.record, mailbox, name, row.observedAt, row.selfId, row.employerId)
    ensures Stores(ctx, row).attributes == PersonRead(mailbox, name)
  {
    hide CellAttributes;
    var p := row.payload;
    assert p[..1] == [p[0]] && p[..1][..0] == [];
    OneCell("a", mailbox, "email", Self, ctx.mappings);
    OneCell("b", name, "full_name", Self, ctx.mappings);
    assert AttributesOf([], ctx.mappings, AsGiven) == [];
    assert AttributesOf(p[..1], ctx.mappings, AsGiven) == [Read("a", "email", mailbox, Self)];
  }

  lemma PersonSays(mailbox: string, name: string)
    ensures SortByPlace(PersonRead(mailbox, name)) == PersonRead(mailbox, name)
    ensures ValuesOf(PersonRead(mailbox, name), Self) == map["email" := [mailbox], "full_name" := [name]]
    ensures ValuesOf(PersonRead(mailbox, name), Employer) == map[]
  {
    hide ValuesOf;
    var a, b := PersonRead(mailbox, name)[0], PersonRead(mailbox, name)[1];
    AlreadySorted(a, b);
    ValuesAppend([], a, Self);
    ValuesAppend([a], b, Self);
    ValuesAppend([], a, Employer);
    ValuesAppend([a], b, Employer);
    assert [] + [a] == [a] && [a] + [b] == PersonRead(mailbox, name);
    assert Listed(map[], "email") + [mailbox] == [mailbox] && Listed(map["email" := [mailbox]], "full_name") + [name] == [name];
  }

  /** A name without an employer or a city makes no key. */
  lemma OnlyTheMailbox(mailbox: string, name: string, role: bool, sourceId: string, urls: UrlReaders)
    ensures KeysFor(Person, map["email" := [mailbox], "full_name" := [name]], sourceId, role, Organisation, urls) == [MailboxOf(mailbox, role)]
  {
    hide Deduped, PlainKeys;
    var k := MailboxOf(mailbox, role);
    OneText(mailbox, Email, if role then Moderate else Strong);
    OneText("", Phone, Moderate);
    TwoDistinct(k, IdentityKey(Name, mailbox, Moderate));
    assert RawPersonKeys(map["email" := [mailbox], "full_name" := [name]], sourceId, role, urls) == [k];
  }

  lemma PersonIdentified(ctx: Context, mailbox: string, name: string)
    requires ctx.entityType == Person
    ensures VerdictOn(ctx, PersonRead(mailbox, name)).status != Q.Invalid
  {
    var rows := PersonRead(mailbox, name);
    assert rows[0] in rows;
    assert "email" in PresentFields(rows);
    assert "email" in IdentifyingFields(Person) * PresentFields(rows);
    InvalidIffUnidentified(ctx.judge, rows, Person);
  }

  function SubjectIn(ctx: Context, row: InputRow, k: IdentityKey): Subject {
    Subject(row.record, Self, Person, ctx.batch, ctx.source.id, [k], row.selfId)
  }

  ghost predicate IsPersonIn(ctx: Context, row: InputRow, mailbox: string, name: string) {
    && ctx == PeopleFile(ctx.batch, ctx.source, ctx.judge, ctx.urls, ctx.fold) && mailbox != "" && name != ""
    && row == PersonWith(row.record, mailbox, name, row.observedAt, row.selfId, row.employerId)
  }

  lemma PersonIsPlanned(ctx: Context, row: InputRow, mailbox: string, name: string)
    requires IsPersonIn(ctx, row, mailbox, name)
    ensures PlanOf(ctx, row) == Some(Subjects(SubjectIn(ctx, row, MailboxOf(mailbox, JudgedARoles(ctx, row))), None))
  {
    hide Stores, VerdictOn, KeysFor, SortByPlace, ValuesOf, PersonRead;
    PersonIsRead(ctx, row, mailbox, name);
    PersonSays(mailbox, name);
    PersonIdentified(ctx, mailbox, name);
    var role := HasRoleEmail(VerdictOn(ctx, PersonRead(mailbox, name)).results);
    assert role <==> JudgedARoles(ctx, row);
    OnlyTheMailbox(mailbox, name, role, ctx.source.id, ctx.urls);
  }

  /** The tables the first of them leaves. */
  function OneKnown(order: RowOrder, r: Subject, k: IdentityKey): Store {
    Store(map[r.newId := Entity(Person, Active, r.record)],
          map[LinkKey(r.record, Self) := RecordLink(r.newId, Person, r.batch, r.sourceId, NoMatch, 0, NewEntity)],
          [KeyRow(r.newId, Person, k.keyType, k.keyValue, k.strength, r.record)], map[], [], order)
  }

  lemma FirstIsNew(order: RowOrder, r: Subject, k: IdentityKey)
    requires r.role == Self && r.entityType == Person && r.keys == [k]
    ensures Resolve(EmptyStore(order), r).store == OneKnown(order, r, k)
  {
    FewHaveOneOrder(FindCandidates(EmptyStore(order), Person, [k]), []);
    NothingFound(EmptyStore(order), r);
    OneKeyAdded([], r.newId, Person, r.record, k);
  }

  lemma SecondFindsFirst(order: RowOrder, first: Subject, r: Subject, k: IdentityKey, mine: IdentityKey)
    requires k.keyType == mine.keyType == Email && k.keyValue == mine.keyValue
    ensures var s := OneKnown(order, first, k);
      CandidatesFor(s, Person, [mine]) ==
        Decide(Person, [Overlap(first.newId, [MailboxOf(k.keyValue, k.strength == Moderate || mine.strength == Moderate)])])
  {
    hide Decide;
    var s := OneKnown(order, first, k);
    var row := s.keys[0];
    HasJust(mine, RowMarker(row));
    assert s.keys[..0] == [];
    assert FindAmong(s, Person, [mine], s.keys) == [row];
    FewHaveOneOrder(FindCandidates(s, Person, [mine]), [row]);
    var shared := MailboxOf(k.keyValue, k.strength == Moderate || mine.strength == Moderate);
    assert [row][..0] == [];
    assert SharedKey(row, [mine]) == shared;
    assert Overlaps([row], [mine]) == AddOverlap([], row.entity, shared);
  }

  lemma MailboxDecides(e: EntityId, mailbox: string, role: bool)
    ensures var k, d := MailboxOf(mailbox, role), Decide(Person, [Overlap(e, [MailboxOf(mailbox, role)])]);
      && d.kind == (if role then Review else Link)
      && d.best == Some(Match(e, if role then 89 else 95, Email, [MarkerOf(k)]))
  {
    var k := MailboxOf(mailbox, role);
    OneCandidateDecides(Person, e, [k]);
    assert Ranked(Person, [k]) == [k] by { assert [k][1..] == []; }
    assert Types([k]) == {Email};
    assert Score(Person, e, [k]) == Match(e, if role then 89 else 95, Email, [MarkerOf(k)]);
  }

  /** Both linked to the one entity. */
  ghost predicate OnePerson(s: Store, a: InputRow, b: InputRow) {
    && s.entities.Keys == {a.selfId} && s.links.Keys == {LinkKey(a.record, Self), LinkKey(b.record, Self)}
    && s.links[LinkKey(a.record, Self)].entity == a.selfId && s.links[LinkKey(b.record, Self)].entity == a.selfId
    && s.candidates == map[]
  }

  /** An entity each, and the proposal that they are one, waiting for somebody. */
  ghost predicate TwoPeopleAndAReview(s: Store, a: InputRow, b: InputRow) {
    && s.entities.Keys == {a.selfId, b.selfId} && s.links.Keys == {LinkKey(a.record, Self), LinkKey(b.record, Self)}
    && s.links[LinkKey(a.record, Self)].entity == a.selfId && s.links[LinkKey(b.record, Self)].entity == b.selfId
    && s.candidates == map[CandidateId(b.record, a.selfId) := Candidate(Person, Email, 89, Open)]
  }

  lemma SecondIsDecided(order: RowOrder, a: InputRow, b: InputRow, first: Subject, r: Subject, mailbox: string, ra: bool, rb: bool)
    requires a.record != b.record && a.selfId != b.selfId
    requires first.record == a.record && first.newId == a.selfId && r.record == b.record && r.newId == b.selfId
    requires r.role == Self && r.entityType == Person && r.keys == [MailboxOf(mailbox, rb)]
    ensures var t := Resolve(OneKnown(order, first, MailboxOf(mailbox, ra)), r).store;
      if ra || rb then TwoPeopleAndAReview(t, a, b) else OnePerson(t, a, b)
  {
    hide Decide, WithKeys, CandidatesFor;
    SecondFindsFirst(order, first, r, MailboxOf(mailbox, ra), MailboxOf(mailbox, rb));
    MailboxDecides(first.newId, mailbox, ra || rb);
  }

  /**
   * Two people's rows that share nothing but a mailbox, one after the other through the whole of `process`: one
   * entity if neither row's mailbox was judged a role's, and otherwise two, with a review of whether they are one.
   */
  lemma SharedMailboxLinksIff(order: RowOrder, ctx: Context, a: InputRow, b: InputRow, mailbox: string, read: Reader)
    requires exists n :: IsPersonIn(ctx, a, mailbox, n)
    requires exists n :: IsPersonIn(ctx, b, mailbox, n)
    requires a.record != b.record && a.selfId != b.selfId
    ensures var w := World(map[], map[], map[], EmptyStore(order), []);
      var s := Process(Process(w, ctx, a, read), ctx, b, read).store;
      && (JudgedARoles(ctx, a) || JudgedARoles(ctx, b) ==> TwoPeopleAndAReview(s, a, b))
      && (!JudgedARoles(ctx, a) && !JudgedARoles(ctx, b) ==> OnePerson(s, a, b))
  {
    hide Process, PlanOf, Resolve, JudgedARoles, IsPersonIn, TwoPeopleAndAReview, OnePerson, OneKnown;
    var w := World(map[], map[], map[], EmptyStore(order), []);
    var n :| IsPersonIn(ctx, a, mailbox, n);
    var m :| IsPersonIn(ctx, b, mailbox, m);
    var ra, rb := JudgedARoles(ctx, a), JudgedARoles(ctx, b);
    var first, second := SubjectIn(ctx, a, MailboxOf(mailbox, ra)), SubjectIn(ctx, b, MailboxOf(mailbox, rb));
    ProcessWrites(w, ctx, a, read);
    ProcessWrites(Process(w, ctx, a, read), ctx, b, read);
    PersonIsPlanned(ctx, a, mailbox, n);
    PersonIsPlanned(ctx, b, mailbox, m);
    FirstIsNew(order, first, MailboxOf(mailbox, ra));
    SecondIsDecided(order, a, b, first, second, mailbox, ra, rb);
  }
}

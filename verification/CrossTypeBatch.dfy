/**
 * Such tables are reached: a company's row, a row of a person it employs, and one accepted candidate. Unless
 * the company itself publishes the person's mailbox, the company then holds it as a person's key.
 */
module CrossTypeBatch {
  import opened Ordering
  import opened Sequences
  import opened Keys
  import opened Scoring
  import opened EntityStore
  import opened Normalization
  import opened SourceOrder
  import opened Validation
  import opened RecordSubjects
  import opened GoldenTable
  import opened RecordPipeline
  import opened EntityGolden
  import opened EmployerCandidates
  import opened PathsAgree
  import opened MisfiledKeys
  import Q = Quarantine
  import S = StableIds
  import K = KeyIndex

  // ---- the two files and their rows -------------------------------------------------------------------------

  /** What the pipeline is given besides files; no rule judges anything, and "n" folds to itself. */
  datatype Setting = Setting(urls: UrlReaders, fold: string -> string)

  function CompanyFile(g: Setting): Context {
    Context(0, Source("c", "", 900), Company, Organisation,
            map["a" := ColumnMapping(Approved, Some("email"), Self), "b" := ColumnMapping(Approved, Some("company_name"), Self)],
            AsGiven, (a: Attribute) => [], g.urls, g.fold)
  }

  function PeopleFile(g: Setting): Context {
    Context(1, Source("s", "", 100), Person, Organisation,
            map["a" := ColumnMapping(Approved, Some("email"), Self), "b" := ColumnMapping(Approved, Some("company_name"), Employer),
                "c" := ColumnMapping(Approved, Some("linkedin_url"), Employer)],
            AsGiven, (a: Attribute) => [], g.urls, g.fold)
  }

  /** A company giving its mailbox and its name. */
  function CompanyRow(inbox: string): InputRow { InputRow(0, [Cell("a", Some(inbox)), Cell("b", Some("n"))], 0, 0, 3) }

  /** A person giving a mailbox, and the name and the profile page of an employer. */
  const PersonsRow := InputRow(1, [Cell("a", Some("x")), Cell("b", Some("n")), Cell("c", Some("u"))], 1, 1, 2)

  function CompanyRead(inbox: string): seq<Attribute> { [Read("a", "email", inbox, Self), Read("b", "company_name", "n", Self)] }

  const PersonRead := [Read("a", "email", "x", Self), Read("b", "company_name", "n", Employer), Read("c", "linkedin_url", "u", Employer)]

  function Empty(order: RowOrder): World { World(map[], map[], map[], EmptyStore(order), []) }

  /** The tables after the two files and the accept. */
  function Loaded(order: RowOrder, inbox: string, g: Setting, read: Reader): World {
    Fused(Fused(Empty(order), CompanyFile(g), [CompanyRow(inbox)], read), PeopleFile(g), [PersonsRow], read)
  }

  function Start(order: RowOrder, inbox: string, g: Setting, read: Reader): World {
    var w := Loaded(order, inbox, g, read);
    w.(store := Accept(w.store, CandidateId(1, 0)))
  }

  // ---- what they resolve as -----------------------------------------------------------------------------------

  lemma CompanyIsRead(inbox: string, g: Setting)
    requires inbox != ""
    ensures Stores(CompanyFile(g), CompanyRow(inbox)).attributes == CompanyRead(inbox)
  {
    hide CellAttributes;
    var ctx, p := CompanyFile(g), CompanyRow(inbox).payload;
    assert p[..1] == [p[0]] && p[..1][..0] == [];
    OneCell("a", inbox, "email", Self, ctx.mappings);
    OneCell("b", "n", "company_name", Self, ctx.mappings);
    assert AttributesOf([], ctx.mappings, AsGiven) == [];
    assert AttributesOf(p[..1], ctx.mappings, AsGiven) == [Read("a", "email", inbox, Self)];
  }

  lemma PersonIsRead(g: Setting)
    ensures Stores(PeopleFile(g), PersonsRow).attributes == PersonRead
  {
    hide CellAttributes;
    var ctx, p := PeopleFile(g), PersonsRow.payload;
    assert p[..2] == [p[0], p[1]] && p[..2][..1] == [p[0]] && p[..2][..1][..0] == [];
    OneCell("a", "x", "email", Self, ctx.mappings);
    OneCell("b", "n", "company_name", Employer, ctx.mappings);
    OneCell("c", "u", "linkedin_url", Employer, ctx.mappings);
    assert AttributesOf([], ctx.mappings, AsGiven) == [];
    assert AttributesOf(p[..2][..1], ctx.mappings, AsGiven) == [Read("a", "email", "x", Self)];
    assert AttributesOf(p[..2], ctx.mappings, AsGiven) == [Read("a", "email", "x", Self), Read("b", "company_name", "n", Employer)];
  }

  lemma PersonIsSorted()
    ensures SortByPlace(PersonRead) == PersonRead
  {
    var a, b, c := PersonRead[0], PersonRead[1], PersonRead[2];
    AlreadySorted(a, b);
    assert PersonRead[..2] == [a, b];
    assert PlaceLeq(b, c);
  }

  lemma CompanyValues(inbox: string)
    ensures ValuesOf(CompanyRead(inbox), Self) == map["email" := [inbox], "company_name" := ["n"]]
  {
    hide ValuesOf;
    var a, b := CompanyRead(inbox)[0], CompanyRead(inbox)[1];
    ValuesAppend([], a, Self);
    ValuesAppend([a], b, Self);
    assert [] + [a] == [a] && [a] + [b] == CompanyRead(inbox);
    assert Listed(map[], "email") + [inbox] == [inbox] && Listed(map["email" := [inbox]], "company_name") + ["n"] == ["n"];
  }

  lemma PersonValues()
    ensures ValuesOf(PersonRead, Self) == map["email" := ["x"]]
    ensures ValuesOf(PersonRead, Employer) == map["company_name" := ["n"], "linkedin_url" := ["u"]]
  {
    hide ValuesOf;
    var a, b, c := PersonRead[0], PersonRead[1], PersonRead[2];
    forall subject: Role
      ensures ValuesOf([], subject) == map[]
      ensures ValuesOf([a], subject) == if subject == Self then map["email" := ["x"]] else map[]
      ensures ValuesOf([a, b], subject) == if subject == Self then map["email" := ["x"]] else map["company_name" := ["n"]]
    {
      ValuesAppend([], a, subject);
      ValuesAppend([a], b, subject);
      assert [] + [a] == [a] && [a] + [b] == [a, b];
      assert Listed(map[], "email") + ["x"] == ["x"] && Listed(map[], "company_name") + ["n"] == ["n"];
    }
    ValuesAppend([a, b], c, Self);
    ValuesAppend([a, b], c, Employer);
    assert [a, b] + [c] == PersonRead;
    assert Listed(map["company_name" := ["n"]], "linkedin_url") + ["u"] == ["u"];
  }

  lemma MailboxIdentifies(ctx: Context, rows: seq<Attribute>, inbox: string)
    requires rows != [] && rows[0] == Read("a", "email", inbox, Self)
    ensures VerdictOn(ctx, rows).status != Q.Invalid
  {
    assert rows[0] in rows;
    assert "email" in PresentFields(rows);
    assert "email" in IdentifyingFields(ctx.entityType) * PresentFields(rows);
    InvalidIffUnidentified(ctx.judge, rows, ctx.entityType);
  }

  lemma CompanyIsPlanned(inbox: string, g: Setting)
    requires inbox != ""
    ensures PlanOf(CompanyFile(g), CompanyRow(inbox)) == Some(Subjects(TheCompany(inbox), None))
  {
    hide Stores, VerdictOn, HasRoleEmail, KeysFor, SortByPlace, ValuesOf, CompanyRead;
    var ctx := CompanyFile(g);
    CompanyIsRead(inbox, g);
    CompanyIsSorted(inbox);
    CompanyValues(inbox);
    CompanyIdentified(ctx, inbox);
    NoRoleMailbox(ctx, CompanyRead(inbox));
    MailboxAndNameKeys(inbox, g.urls);
  }

  lemma CompanyIsSorted(inbox: string)
    ensures SortByPlace(CompanyRead(inbox)) == CompanyRead(inbox)
  {
    AlreadySorted(CompanyRead(inbox)[0], CompanyRead(inbox)[1]);
  }

  lemma CompanyIdentified(ctx: Context, inbox: string)
    ensures VerdictOn(ctx, CompanyRead(inbox)).status != Q.Invalid
  {
    MailboxIdentifies(ctx, CompanyRead(inbox), inbox);
  }

  lemma PersonIsPlanned(g: Setting)
    requires g.fold("n") == "n"
    ensures PlanOf(PeopleFile(g), PersonsRow) == Some(Subjects(ThePerson, Some(TheEmployer)))
  {
    hide Stores, VerdictOn, HasRoleEmail, KeysFor, SortByPlace, ValuesOf, EmployerSubject;
    var ctx := PeopleFile(g);
    PersonIsRead(g);
    PersonIsSorted();
    PersonValues();
    MailboxIdentifies(ctx, PersonRead, "x");
    NoRoleMailbox(ctx, PersonRead);
    MailboxKeys(g.urls);
    assert "company_name" in ValuesOf(PersonRead, Employer);
    TheEmployerIsNamed(ctx, PersonsRow);
  }

  // ---- and what they leave --------------------------------------------------------------------------------------

  lemma EmptyIsSane(order: RowOrder)
    ensures Sane(Empty(order))
  {
    hide S.Inv;
    S.EmptyStoreIsSound(order);
  }

  lemma CompanyIsLoaded(order: RowOrder, inbox: string, g: Setting, read: Reader)
    requires inbox != "" && Faithful(read)
    ensures var w := Fused(Empty(order), CompanyFile(g), [CompanyRow(inbox)], read);
      Sane(w) && w.store == OneCompany(order, inbox) && w.records.Keys == {0}
    ensures var w := Fused(Empty(order), CompanyFile(g), [CompanyRow(inbox)], read);
      w.records[0].attributes == CompanyRead(inbox)
  {
    hide PlanOf, Resolve, Stores, Process, Sane, VerdictOn, CompanyRead, OneCompany, GoldenFollows;
    var w, ctx, row := Empty(order), CompanyFile(g), CompanyRow(inbox);
    EmptyIsSane(order);
    CompanyRowIsFresh(order, inbox, g);
    FusedKeeps(w, ctx, [row], read);
    OneStep(w, ctx, row, read);
    ProcessWrites(w, ctx, row, read);
    CompanyIsPlanned(inbox, g);
    CompanyIsRead(inbox, g);
    CompanyArrives(order, inbox);
  }

  lemma CompanyRowIsFresh(order: RowOrder, inbox: string, g: Setting)
    ensures FreshRows(Empty(order), CompanyFile(g), [CompanyRow(inbox)]) && Sound(AsGiven)
  {
  }

  lemma PersonsRowIsFresh(w: World, order: RowOrder, inbox: string, g: Setting)
    requires w.store == OneCompany(order, inbox) && w.records.Keys == {0}
    ensures FreshRows(w, PeopleFile(g), [PersonsRow]) && Sound(AsGiven)
  {
  }

  lemma PersonIsLoaded(order: RowOrder, inbox: string, g: Setting, read: Reader)
    requires inbox != "" && g.fold("n") == "n" && Faithful(read)
    ensures var w := Loaded(order, inbox, g, read);
      && Sane(w) && w.store == Before(order, inbox) && w.records.Keys == {0, 1}
      && w.records[0].attributes == CompanyRead(inbox) && w.records[1].attributes == PersonRead
  {
    hide PlanOf, Resolve, Stores, Process, Sane, VerdictOn, CompanyRead, OneCompany, GoldenFollows, Before, Fused;
    CompanyIsLoaded(order, inbox, g, read);
    var w, ctx := Fused(Empty(order), CompanyFile(g), [CompanyRow(inbox)], read), PeopleFile(g);
    PersonsRowIsFresh(w, order, inbox, g);
    FusedKeeps(w, ctx, [PersonsRow], read);
    OneStep(w, ctx, PersonsRow, read);
    ProcessWrites(w, ctx, PersonsRow, read);
    PersonIsPlanned(g);
    PersonIsRead(g);
    PersonArrives(order, inbox);
    EmployerArrives(order, inbox);
  }

  lemma AfterIsSound(order: RowOrder, inbox: string)
    ensures S.Inv(After(order, inbox))
  {
    hide S.Inv, S.Typed, Accept, After, Before, S.Run, S.Advances;
    BeforeIsReached(order, inbox);
    AcceptLeaves(order, inbox);
    S.AcceptKeeps(Before(order, inbox), CandidateId(1, 0));
  }

  /** The two files and the accept lead to sound tables with those records and that store. */
  lemma StartIs(order: RowOrder, inbox: string, g: Setting, read: Reader)
    requires inbox != "" && g.fold("n") == "n" && Faithful(read)
    ensures var w := Start(order, inbox, g, read);
      && Sane(w) && w.store == After(order, inbox) && w.records.Keys == {0, 1}
      && w.records[0].attributes == CompanyRead(inbox) && w.records[1].attributes == PersonRead
  {
    hide S.Inv, OneCurrent, Loaded, NoBlankValues, CompanyRead, Accept;
    PersonIsLoaded(order, inbox, g, read);
    AcceptLeaves(order, inbox);
    AfterIsSound(order, inbox);
  }

  // ---- where the paths part ----------------------------------------------------------------------------------------

  lemma OnlyTheMailboxIsMisfiled(order: RowOrder, inbox: string, row: KeyRow)
    requires row in After(order, inbox).keys && IsActive(After(order, inbox), row.entity)
    requires After(order, inbox).entities[row.entity].entityType != row.entityType
    ensures row == CopiedKey && inbox != "x"
  {
  }

  lemma TheMailboxIsMisfiled(order: RowOrder, inbox: string)
    requires inbox != "x"
    ensures Misfiled(After(order, inbox), CopiedKey)
  {
    var t := After(order, inbox);
    assert t.keys[4] == CopiedKey && IsActive(t, 0);
    forall other | other in t.keys && Findable(t, Person, [KeyOf(CopiedKey)], other) ensures other.entity == 0 {
      assert !IsActive(t, 1);
    }
  }

  lemma NobodyGaveAYear(w: World, inbox: string, e: EntityId)
    requires w.records.Keys == {0, 1} && w.records[0].attributes == CompanyRead(inbox) && w.records[1].attributes == PersonRead
    ensures YearUnclaimed(w, e)
  {
  }

  /**
   * From the tables the two files and the accept leave, the two paths agree on every batch exactly when the
   * company itself publishes the absorbed person's mailbox.
   */
  lemma PathsPart(order: RowOrder, inbox: string, g: Setting, read: Reader)
    requires inbox != "" && g.fold("n") == "n" && Faithful(read)
    ensures Sane(Start(order, inbox, g, read)) && Start(order, inbox, g, read).store == After(order, inbox)
    ensures AgreeOnEveryBatch(Start(order, inbox, g, read)) <==> inbox == "x"
  {
    hide Sane, Start, AgreeOnEveryBatch, K.TypedActiveKeys, Misfiled, YearUnclaimed, CompanyRead;
    var w := Start(order, inbox, g, read);
    StartIs(order, inbox, g, read);
    forall row | row in w.store.keys && IsActive(w.store, row.entity) && w.store.entities[row.entity].entityType != row.entityType
      ensures Misfiled(w.store, row) && Readable(KeyOf(row)) && YearUnclaimed(w, row.entity)
    {
      OnlyTheMailboxIsMisfiled(order, inbox, row);
      TheMailboxIsMisfiled(order, inbox);
      NobodyGaveAYear(w, inbox, row.entity);
    }
    AgreeOnEveryBatchIff(w);
    WhatTheAcceptDoesToTypes(order, inbox);
  }
}

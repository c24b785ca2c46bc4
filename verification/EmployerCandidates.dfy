/**
 * What goes wrong when a candidate filed for a record's employer is accepted: the accept step looks
 * up the record's own link, so it absorbs the person into the company the employer might have been.
 * Depending on whether that company publishes the person's mailbox, the person is then found by it
 * no more, or found as a company.
 */
module EmployerCandidates {
  import opened Ordering
  import opened Keys
  import opened Scoring
  import opened Sequences
  import opened EntityStore
  import opened MergeForest
  import opened StableIds
  import opened KeyIndex
  import opened RecordSubjects

  function Mailbox(inbox: string): IdentityKey { IdentityKey(Email, inbox, Strong) }

  const TheMailbox := Mailbox("x")
  const ItsName := IdentityKey(Name, "n", Moderate)

  /** A company publishing a mailbox, then from another vendor a person publishing "x", employed by a company of that name. */
  function TheCompany(inbox: string): Subject { Subject(0, Self, Company, 0, "c", [Mailbox(inbox), ItsName], 0) }

  const ThePerson := Subject(1, Self, Person, 1, "s", [TheMailbox], 1)
  const TheEmployer := Subject(1, Employer, Company, 1, "s", [ItsName], 2)

  function Arrivals(inbox: string): seq<Op> { [ResolveOp(TheCompany(inbox), None), ResolveOp(ThePerson, Some(TheEmployer))] }

  function CompanyRows(inbox: string): seq<KeyRow> {
    [KeyRow(0, Company, Email, inbox, Strong, 0), KeyRow(0, Company, Name, "n", Moderate, 0)]
  }

  const PersonRow := KeyRow(1, Person, Email, "x", Strong, 1)
  const EmployerRow := KeyRow(2, Company, Name, "n", Moderate, 1)

  function OneCompany(order: RowOrder, inbox: string): Store {
    Store(map[0 := Entity(Company, Active, 0)],
          map[LinkKey(0, Self) := RecordLink(0, Company, 0, "c", NoMatch, 0, NewEntity)],
          CompanyRows(inbox), map[], [], order)
  }

  function AndAPerson(order: RowOrder, inbox: string): Store {
    var s := OneCompany(order, inbox);
    Store(s.entities[1 := Entity(Person, Active, 1)],
          s.links[LinkKey(1, Self) := RecordLink(1, Person, 1, "s", NoMatch, 0, NewEntity)],
          CompanyRows(inbox) + [PersonRow], map[], [], order)
  }

  /** The employer is an entity of its own, proposed to be company 0. */
  function Before(order: RowOrder, inbox: string): Store {
    var s := AndAPerson(order, inbox);
    Store(s.entities[2 := Entity(Company, Active, 1)],
          s.links[LinkKey(1, Employer) := RecordLink(2, Company, 1, "s", ByKey(Name), 65, NewEntity)],
          CompanyRows(inbox) + [PersonRow] + [EmployerRow],
          map[CandidateId(1, 0) := Candidate(Company, Name, 65, Open)], [], order)
  }

  // ---- how that state comes about ------------------------------------------------------------

  lemma OneKeyAdded(rows: seq<KeyRow>, e: EntityId, entityType: EntityType, record: RecordId, k: IdentityKey)
    ensures WithKeys(rows, e, entityType, record, [k]) == WithRow(rows, RowFor(e, entityType, record, k))
  {
    assert [k][..0] == [];
  }

  lemma NothingFound(s: Store, r: Subject)
    requires r.keys != [] && FindCandidates(s, r.entityType, r.keys) == []
    ensures DecisionFor(s, r) == Some(Decision(New, None, []))
  {
    assert Overlaps([], r.keys) == [];
    assert Scored(r.entityType, []) == [];
  }

  /** One moderate name in common is worth 0.65. */
  lemma OneNameIsReviewed(e: EntityId)
    ensures var m := Match(e, 65, Name, [MarkerOf(ItsName)]);
      Decide(Company, [Overlap(e, [ItsName])]) == Decision(Review, Some(m), [m])
  {
    assert Ranked(Company, [ItsName]) == [ItsName] by { assert [ItsName][1..] == []; }
    assert Types([ItsName]) == {Name};
    var m := Match(e, 65, Name, [MarkerOf(ItsName)]);
    assert Score(Company, e, [ItsName]) == m;
    assert [Overlap(e, [ItsName])][1..] == [];
    assert Scored(Company, [Overlap(e, [ItsName])]) == [m];
    assert SortMatches([m]) == [m] by { assert [m][1..] == []; }
  }

  lemma CompanyArrives(order: RowOrder, inbox: string)
    ensures Resolve(EmptyStore(order), TheCompany(inbox)).store == OneCompany(order, inbox)
  {
    NothingFound(EmptyStore(order), TheCompany(inbox));
    var keys := TheCompany(inbox).keys;
    assert keys[..1] == [Mailbox(inbox)];
    OneKeyAdded([], 0, Company, 0, Mailbox(inbox));
    var row := KeyRow(0, Company, Email, inbox, Strong, 0);
    assert !HasKey([row], 0, MarkerOf(ItsName));
    assert WithKeys([], 0, Company, 0, keys) == OneCompany(order, inbox).keys;
  }

  lemma {:induction false} FindsNone(s: Store, entityType: EntityType, keys: seq<IdentityKey>, rows: seq<KeyRow>)
    requires forall i :: 0 <= i < |rows| ==> !Findable(s, entityType, keys, rows[i])
    ensures FindAmong(s, entityType, keys, rows) == []
  {
    if rows != [] { FindsNone(s, entityType, keys, rows[..|rows| - 1]); }
  }

  lemma NobodySharesThePersonsKeys(order: RowOrder, inbox: string)
    ensures FindCandidates(OneCompany(order, inbox), Person, [TheMailbox]) == []
  {
    FindsNone(OneCompany(order, inbox), Person, [TheMailbox], OneCompany(order, inbox).keys);
  }

  lemma PersonArrives(order: RowOrder, inbox: string)
    ensures Resolve(OneCompany(order, inbox), ThePerson).store == AndAPerson(order, inbox)
  {
    NobodySharesThePersonsKeys(order, inbox);
    NothingFound(OneCompany(order, inbox), ThePerson);
    OneKeyAdded(OneCompany(order, inbox).keys, 1, Person, 1, TheMailbox);
    assert !HasKey(OneCompany(order, inbox).keys, 1, MarkerOf(TheMailbox));
  }

  lemma TheEmployersNameIsKnown(order: RowOrder, inbox: string)
    ensures FindCandidates(AndAPerson(order, inbox), Company, [ItsName]) == [AndAPerson(order, inbox).keys[1]]
  {
    var rows := AndAPerson(order, inbox).keys;
    assert |rows| == 3 && rows[..3] == rows && rows[..3][..2] == rows[..2] && rows[..2][..1] == rows[..1] && rows[..1][..0] == [];
    assert MarkerOf([ItsName][0]) == RowMarker(rows[1]);
    assert Findable(AndAPerson(order, inbox), Company, [ItsName], rows[1]);
    assert FindAmong(AndAPerson(order, inbox), Company, [ItsName], rows[..1]) == [];
    assert FindAmong(AndAPerson(order, inbox), Company, [ItsName], rows[..2]) == [rows[1]];
  }

  lemma EmployerDecision(order: RowOrder, inbox: string)
    ensures var m := Match(0, 65, Name, [MarkerOf(ItsName)]);
      DecisionFor(AndAPerson(order, inbox), TheEmployer) == Some(Decision(Review, Some(m), [m]))
  {
    TheEmployersNameIsKnown(order, inbox);
    var row := AndAPerson(order, inbox).keys[1];
    assert [row][..0] == [] && [ItsName][..0] == [];
    assert SharedKey(row, [ItsName]) == ItsName;
    assert Overlaps([row], [ItsName]) == [Overlap(0, [ItsName])];
    OneNameIsReviewed(0);
  }

  lemma EmployerArrives(order: RowOrder, inbox: string)
    ensures Resolve(AndAPerson(order, inbox), TheEmployer).store == Before(order, inbox)
  {
    hide DecisionFor;
    EmployerDecision(order, inbox);
    OneKeyAdded(AndAPerson(order, inbox).keys, 2, Company, 1, ItsName);
    assert !HasKey(AndAPerson(order, inbox).keys, 2, MarkerOf(ItsName));
  }

  lemma FirstArrival(order: RowOrder, inbox: string)
    ensures Step(EmptyStore(order), Arrivals(inbox)[0]) == OneCompany(order, inbox)
    ensures Inv(OneCompany(order, inbox)) && Typed(OneCompany(order, inbox))
  {
    CompanyArrives(order, inbox);
    assert Inv(EmptyStore(order)) && Typed(EmptyStore(order));
    hide Resolve, Inv, Typed;
    ResolveRecordKeeps(EmptyStore(order), TheCompany(inbox), None);
  }

  lemma SecondArrival(order: RowOrder, inbox: string)
    requires Inv(OneCompany(order, inbox)) && Typed(OneCompany(order, inbox))
    ensures Step(OneCompany(order, inbox), Arrivals(inbox)[1]) == Before(order, inbox)
    ensures Inv(Before(order, inbox)) && Typed(Before(order, inbox))
  {
    hide Resolve, Inv, Typed;
    PersonArrives(order, inbox);
    EmployerArrives(order, inbox);
    ResolveRecordKeeps(OneCompany(order, inbox), ThePerson, Some(TheEmployer));
  }

  lemma TwoSteps(order: RowOrder, a: Op, b: Op)
    ensures Run(EmptyStore(order), [a, b]) == Step(Step(EmptyStore(order), a), b)
  {
    hide Step;
    RunOneMore(EmptyStore(order), [], a);
    RunOneMore(EmptyStore(order), [a], b);
    assert [] + [a] == [a] && [a] + [b] == [a, b];
  }

  /** Two records are enough to reach it. */
  lemma BeforeIsReached(order: RowOrder, inbox: string)
    ensures Run(EmptyStore(order), Arrivals(inbox)) == Before(order, inbox) && Inv(Before(order, inbox)) && Typed(Before(order, inbox))
  {
    hide Step, Inv, Typed, Run;
    FirstArrival(order, inbox);
    SecondArrival(order, inbox);
    TwoSteps(order, Arrivals(inbox)[0], Arrivals(inbox)[1]);
    assert Arrivals(inbox) == [Arrivals(inbox)[0], Arrivals(inbox)[1]];
  }

  // ---- and what accepting does --------------------------------------------------------------------

  lemma AcceptMergesThePerson(order: RowOrder, inbox: string)
    ensures AcceptanceOf(Before(order, inbox), CandidateId(1, 0)) == Merging(1, 0)
  {
    assert ResolveEntityId(Before(order, inbox), 0) == Found(0);
    assert ResolveEntityId(Before(order, inbox), 1) == Found(1);
  }

  /** The person's key row as a merge copies it. */
  const CopiedKey := PersonRow.(entity := 0)

  function After(order: RowOrder, inbox: string): Store {
    var s := Before(order, inbox);
    var copied := if inbox == "x" then [] else [CopiedKey];
    Store(s.entities[1 := Entity(Person, Merged(0), 1)],
          s.links[LinkKey(1, Self) := RecordLink(0, Person, 1, "s", NoMatch, 0, NewEntity)],
          s.keys + copied,
          map[CandidateId(1, 0) := Candidate(Company, Name, 65, Accepted)],
          [MergeRow(1, 0, Company, 65, 1, |copied|)], order)
  }

  lemma OneLinkMoves(order: RowOrder, inbox: string)
    ensures LinksOf(Before(order, inbox).links, 1) == {LinkKey(1, Self)}
    ensures Repointed(Before(order, inbox).links, 1, 0) == After(order, inbox).links
  {
  }

  /** The key is copied unless the company publishes the same mailbox. */
  lemma OneKeyCopied(order: RowOrder, inbox: string)
    ensures CopyKeys(Before(order, inbox).keys, Before(order, inbox).keys, 1, 0) == After(order, inbox).keys
  {
    var rows := Before(order, inbox).keys;
    assert rows[..4] == rows && rows[..4][..3] == rows[..3] && rows[..3][..2] == rows[..2]
        && rows[..2][..1] == rows[..1] && rows[..1][..0] == [];
    assert CopyKeys(rows, rows[..1], 1, 0) == rows;
    assert CopyKeys(rows, rows[..2], 1, 0) == rows;
    CompanyHolds(order, inbox);
    assert CopyKeys(rows, rows[..3], 1, 0) == After(order, inbox).keys;
  }

  lemma CompanyHolds(order: RowOrder, inbox: string)
    ensures HasKey(Before(order, inbox).keys, 0, RowMarker(CopiedKey)) <==> inbox == "x"
  {
    var rows := Before(order, inbox).keys;
    assert rows[0].entity == 0 && RowMarker(rows[0]) == Marker(Email, inbox);
  }

  lemma AcceptLeaves(order: RowOrder, inbox: string)
    ensures Accept(Before(order, inbox), CandidateId(1, 0)) == After(order, inbox)
  {
    hide AcceptanceOf, LinksOf, Repointed, CopyKeys;
    AcceptMergesThePerson(order, inbox);
    OneKeyCopied(order, inbox);
    OneLinkMoves(order, inbox);
  }

  /** Two records and an accept; the accept clashes exactly when both publish the mailbox. */
  lemma PersonIsAbsorbed(order: RowOrder, inbox: string)
    ensures Run(EmptyStore(order), Arrivals(inbox)) == Before(order, inbox)
    ensures AcceptanceOf(Before(order, inbox), CandidateId(1, 0)) == Merging(1, 0)
    ensures Accept(Before(order, inbox), CandidateId(1, 0)) == After(order, inbox)
    ensures var t := After(order, inbox);
      t.links[LinkKey(1, Self)].entityType == Person && t.links[LinkKey(1, Self)].entity == 0 && t.entities[0].entityType == Company
    ensures Clashes(Before(order, inbox), AcceptOp(CandidateId(1, 0))) <==> inbox == "x"
  {
    hide AcceptanceOf, Accept, Run, FindAmong;
    BeforeIsReached(order, inbox);
    AcceptMergesThePerson(order, inbox);
    AcceptLeaves(order, inbox);
    var rows := Before(order, inbox).keys;
    assert inbox == "x" ==> HeldOtherwise(rows, 0, rows[2]) by { assert rows[0].entityType == Company; }
  }

  /**
   * Where the company publishes the person's mailbox, the person becomes a company's tombstone and the
   * mailbox, recorded as a person's key, brings no entity into the decision about the next person with it.
   */
  lemma EmployerCandidateLosesAPerson(order: RowOrder)
    ensures Accept(Before(order, "x"), CandidateId(1, 0)) == After(order, "x")
    ensures PersonRow in After(order, "x").keys && !Live(After(order, "x"), PersonRow)
    ensures FindCandidates(After(order, "x"), Person, [TheMailbox]) == []
  {
    hide AcceptanceOf, Accept, FindAmong;
    AcceptLeaves(order, "x");
    var t := After(order, "x");
    assert t.keys[2] == PersonRow;
    assert RootOf(t.merges, 1) == 0 by { assert t.merges[1..] == []; }
    assert !IsActive(t, 1);
    FindsNone(t, Person, [TheMailbox], t.keys);
  }

  lemma MailboxMatches()
    ensures HasMarker([TheMailbox], RowMarker(CopiedKey))
  {
    assert MarkerOf([TheMailbox][0]) == RowMarker(CopiedKey);
  }

  /** Where it does not, the company holds the person's key as a person's key, and the next person finds the company. */
  lemma EmployerCandidateMisfilesAPerson(order: RowOrder, inbox: string)
    requires inbox != "x"
    ensures FindCandidates(After(order, inbox), Person, [TheMailbox]) == [CopiedKey]
    ensures After(order, inbox).entities[CopiedKey.entity].entityType == Company
  {
    var t := After(order, inbox);
    var rows := t.keys;
    assert |rows| == 5 && rows[..4] == Before(order, inbox).keys && rows[..5] == rows && rows[..5][..4] == rows[..4];
    assert !IsActive(t, 1);
    FindsNone(t, Person, [TheMailbox], rows[..4]);
    MailboxMatches();
    assert Findable(t, Person, [TheMailbox], CopiedKey);
    assert FindAmong(t, Person, [TheMailbox], rows) == [CopiedKey];
    FewHaveOneOrder(FindCandidates(t, Person, [TheMailbox]), [CopiedKey]);
  }

  /** Either way types are lost; active entities hold keys of their own type only where the key was lost instead. */
  lemma WhatTheAcceptDoesToTypes(order: RowOrder, inbox: string)
    ensures !Typed(After(order, inbox))
    ensures TypedActiveKeys(After(order, inbox)) <==> inbox == "x"
  {
    var t := After(order, inbox);
    assert t.merges[0].merged == 1 && t.merges[0].surviving == 0;
    if inbox != "x" { assert t.keys[4] == CopiedKey && IsActive(t, 0); }
  }

  // ---- the rows behind those subjects -------------------------------------------------------------

  lemma MailboxAndNameKeys(inbox: string, urls: UrlReaders)
    requires inbox != ""
    ensures KeysFor(Company, map["email" := [inbox], "company_name" := ["n"]], "c", false, Organisation, urls) == TheCompany(inbox).keys
  {
    hide Deduped, PlainKeys;
    OneText(inbox, Email, Strong);
    OneText("", Phone, Moderate);
    TwoDistinct(Mailbox(inbox), ItsName);
    assert RawCompanyKeys(map["email" := [inbox], "company_name" := ["n"]], "c", urls) == [Mailbox(inbox), ItsName];
  }

  lemma MailboxKeys(urls: UrlReaders)
    ensures KeysFor(Person, map["email" := ["x"]], "s", false, Organisation, urls) == ThePerson.keys
  {
    hide Deduped, PlainKeys;
    OneText("x", Email, Strong);
    OneText("", Phone, Moderate);
    TwoDistinct(TheMailbox, ItsName);
    assert RawPersonKeys(map["email" := ["x"]], "s", false, urls) == [TheMailbox];
  }

  lemma NameKeys(urls: UrlReaders)
    ensures KeysFor(Company, map["company_name" := ["n"], "linkedin_url" := ["u"]], "s", false, Organisation, urls) == TheEmployer.keys
  {
    hide Deduped, PlainKeys;
    OneText("", Email, Strong);
    OneText("", Phone, Moderate);
    TwoDistinct(ItsName, TheMailbox);
    assert RawCompanyKeys(map["company_name" := ["n"], "linkedin_url" := ["u"]], "s", urls) == [ItsName];
  }

  /** A company row giving a mailbox and a name, a person row giving a mailbox, an employer named with a profile page. */
  lemma ArrivalKeysAreBuilt(inbox: string, urls: UrlReaders)
    requires inbox != ""
    ensures KeysFor(Company, map["email" := [inbox], "company_name" := ["n"]], "c", false, Organisation, urls) == TheCompany(inbox).keys
    ensures KeysFor(Person, map["email" := ["x"]], "s", false, Organisation, urls) == ThePerson.keys
    ensures KeysFor(Company, map["company_name" := ["n"], "linkedin_url" := ["u"]], "s", false, Organisation, urls) == TheEmployer.keys
  {
    hide KeysFor;
    MailboxAndNameKeys(inbox, urls);
    MailboxKeys(urls);
    NameKeys(urls);
  }

  /** The employer's profile page corroborates its name and builds no key. */
  lemma TheEmployerIsNamed(ctx: Context, row: InputRow)
    requires ctx.batch == 1 && ctx.source.id == "s" && ctx.fold("n") == "n" && row.record == 1 && row.employerId == 2
    ensures EmployerSubject(ctx, row, map["company_name" := ["n"], "linkedin_url" := ["u"]]) == Some(TheEmployer)
  {
    hide KeysFor;
    var values: Values := map["company_name" := ["n"], "linkedin_url" := ["u"]];
    NameKeys(ctx.urls);
    assert Listed(values, "linkedin_url") == ["u"];
    assert Listed(values, "company_name") == ["n"];
  }
}

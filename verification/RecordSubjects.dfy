/** Who a record is about: itself, and for a person row the company that employs them. */
module RecordSubjects {
  import opened Ordering
  import opened Sequences
  import opened Keys
  import opened Scoring
  import opened EntityStore
  import opened Normalization
  import opened SourceOrder
  import opened Validation

  datatype Source = Source(id: string, name: string, reliability: int)

  /** What a batch's records are processed with. `fold` strips and lower-cases a name; any folding will do. */
  datatype Context = Context(batch: nat, source: Source, entityType: EntityType, describes: Describes, mappings: Mappings,
                             normalizer: Normalizer, judge: Judge, urls: UrlReaders, fold: string -> string)

  /** A row to process, with the ids and the time the pipeline gives it. */
  datatype InputRow = InputRow(record: RecordId, payload: Payload, observedAt: int, selfId: EntityId, employerId: EntityId)

  datatype Subjects = Subjects(self: Subject, employer: Option<Subject>)

  // ---- observations of a payload ------------------------------------------------------------

  function CellRows(mappings: Mappings, n: Normalizer): Cell -> seq<Attribute> { (c: Cell) => CellAttributes(c, mappings, n) }

  lemma {:induction false} AttributesAreFlat(payload: Payload, mappings: Mappings, n: Normalizer)
    ensures AttributesOf(payload, mappings, n) == FlatMap(payload, CellRows(mappings, n))
  {
    if payload != [] { AttributesAreFlat(payload[..|payload| - 1], mappings, n); }
  }

  /** A payload whose columns come back in another order leaves the same observations. */
  lemma ReorderedPayloadSaysTheSame(a: Payload, b: Payload, mappings: Mappings, n: Normalizer)
    requires multiset(a) == multiset(b)
    ensures multiset(AttributesOf(a, mappings, n)) == multiset(AttributesOf(b, mappings, n))
  {
    AttributesAreFlat(a, mappings, n);
    AttributesAreFlat(b, mappings, n);
    FlatMapIgnoresOrder(a, b, CellRows(mappings, n));
  }

  // ---- the employer a row names ---------------------------------------------------------------

  const CORROBORATING := {"website", "linkedin_url", "company_external_id", "phone", "address_line1"}

  const NON_EMPLOYERS := {"self employed", "selfemployed", "self-employed", "freelance", "freelancer", "unemployed",
                          "retired", "none", "n/a", "na", "student", "independent", "self", "private",
                          "not applicable", "unknown"}

  predicate IsRealEmployer(fold: string -> string, name: string) { fold(name) !in NON_EMPLOYERS }

  /** The first name that is a name. */
  function EmployerName(fold: string -> string, names: seq<string>): string {
    if names == [] then ""
    else if names[0] != "" && IsRealEmployer(fold, names[0]) then names[0]
    else EmployerName(fold, names[1..])
  }

  predicate Corroborated(values: Values) { exists f :: f in CORROBORATING && Listed(values, f) != [] }

  /** `employer_identity` and the gate in `resolve_employer`: None leaves the observations and invents nothing. */
  function EmployerSubject(ctx: Context, row: InputRow, values: Values): Option<Subject> {
    var keys := KeysFor(Company, values, ctx.source.id, false, Organisation, ctx.urls);
    if EmployerName(ctx.fold, Listed(values, "company_name")) == "" || !Corroborated(values) || keys == [] then None
    else Some(Subject(row.record, Employer, Company, ctx.batch, ctx.source.id, keys, row.employerId))
  }

  // ---- what a record resolves as -----------------------------------------------------------------

  predicate IsRoleEmail(r: Result) { r.judgement.rule == "email.role_account" && r.judgement.failed }

  predicate HasRoleEmail(rs: seq<Result>) { exists r :: r in rs && IsRoleEmail(r) }

  function OwnKeys(ctx: Context, rows: seq<Attribute>, roleEmail: bool): seq<IdentityKey> {
    KeysFor(ctx.entityType, ValuesOf(rows, Self), ctx.source.id, roleEmail, ctx.describes, ctx.urls)
  }

  function EmployerIn(ctx: Context, row: InputRow, rows: seq<Attribute>): Option<Subject> {
    if ctx.entityType == Person && ValuesOf(rows, Employer) != map[] then EmployerSubject(ctx, row, ValuesOf(rows, Employer))
    else None
  }

  function SubjectsOf(ctx: Context, row: InputRow, attributes: seq<Attribute>, results: seq<Result>): Subjects {
    var rows := SortByPlace(attributes);
    Subjects(Subject(row.record, Self, ctx.entityType, ctx.batch, ctx.source.id, OwnKeys(ctx, rows, HasRoleEmail(results)), row.selfId),
             EmployerIn(ctx, row, rows))
  }

  /** Identity is read from the observations alone, not from the order they or their judgements were stored in. */
  lemma SubjectsIgnoreOrder(ctx: Context, row: InputRow, a: seq<Attribute>, b: seq<Attribute>, x: seq<Result>, y: seq<Result>)
    requires multiset(a) == multiset(b) && DistinctPlaces(a) && multiset(x) == multiset(y)
    ensures SubjectsOf(ctx, row, a, x) == SubjectsOf(ctx, row, b, y)
  {
    SortIgnoresOrder(a, b);
    SameMultisetSameMembers(x, y);
    assert HasRoleEmail(x) == HasRoleEmail(y);
  }

  // ---- what an employer entity is known by ---------------------------------------------------------

  lemma HasMarkerIn(keys: seq<IdentityKey>, m: Marker)
    ensures HasMarker(keys, m) <==> exists k :: k in keys && MarkerOf(k) == m
  {
    if HasMarker(keys, m) {
      var i :| 0 <= i < |keys| && MarkerOf(keys[i]) == m;
      assert keys[i] in keys;
    }
  }

  lemma CompanyNameKeys(values: Values, sourceId: string, urls: UrlReaders, n: string)
    ensures HasMarker(KeysFor(Company, values, sourceId, false, Organisation, urls), Marker(Name, n)) <==>
      n == CompanyName(values) && n != ""
  {
    hide Deduped, UrlKeys, PlainKeys;
    var raw := RawCompanyKeys(values, sourceId, urls);
    DedupedKeepsFirst(raw);
    UrlKeysAre(Listed(values, "website"), urls.domain, WebsiteDomain);
    PlainKeysAre(Listed(values, "email"), Email, Strong);
    PlainKeysAre(Listed(values, "phone"), Phone, Moderate);
    HasMarkerIn(raw, Marker(Name, n));
    if n == CompanyName(values) && n != "" {
      assert IdentityKey(Name, n, Moderate) in raw;
    }
  }

  /**
   * An employer becomes an entity only with a name that is a name and something beside it. But its name
   * key is built from the first name the row gives, checked or not, so a non-employer's name becomes a
   * company's key exactly when it comes first.
   */
  lemma FakeNameBecomesKeyIff(ctx: Context, row: InputRow, values: Values, n: string)
    requires "" !in Listed(values, "company_name") && EmployerSubject(ctx, row, values).Some?
    ensures EmployerName(ctx.fold, Listed(values, "company_name")) != "" && Corroborated(values)
    ensures HasMarker(EmployerSubject(ctx, row, values).value.keys, Marker(Name, n)) && !IsRealEmployer(ctx.fold, n) <==>
      n == Listed(values, "company_name")[0] && !IsRealEmployer(ctx.fold, n)
  {
    CompanyNameKeys(values, ctx.source.id, ctx.urls, n);
    assert Listed(values, "company_name")[0] in Listed(values, "company_name");
  }

  const RetiredThenAcme: Values := map["company_name" := ["Retired", "Acme"], "phone" := ["+44"]]

  lemma AcmeIsTheName(fold: string -> string)
    requires fold("Retired") == "retired" && fold("Acme") == "acme"
    ensures EmployerName(fold, ["Retired", "Acme"]) == "Acme"
  {
    assert ["Retired", "Acme"][1..] == ["Acme"];
    assert EmployerName(fold, ["Acme"]) == "Acme";
  }

  lemma ThePhoneCorroborates()
    ensures Corroborated(RetiredThenAcme)
  {
    assert Listed(RetiredThenAcme, "phone") == ["+44"];
  }

  /** A row saying "Retired" in one employer column and "Acme" in the next makes a company findable as "Retired". */
  lemma RetiredBecomesACompany(ctx: Context, row: InputRow)
    requires ctx.fold("Retired") == "retired" && ctx.fold("Acme") == "acme"
    ensures EmployerSubject(ctx, row, RetiredThenAcme).Some?
    ensures HasMarker(EmployerSubject(ctx, row, RetiredThenAcme).value.keys, Marker(Name, "Retired"))
  {
    hide KeysFor, Corroborated, EmployerName;
    assert Listed(RetiredThenAcme, "company_name") == ["Retired", "Acme"] && CompanyName(RetiredThenAcme) == "Retired";
    CompanyNameKeys(RetiredThenAcme, ctx.source.id, ctx.urls, "Retired");
    AcmeIsTheName(ctx.fold);
    ThePhoneCorroborates();
  }
}

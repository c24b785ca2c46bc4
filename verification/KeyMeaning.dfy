/** Which keys a row's values give: every one, type by type, said of the values alone. */
module KeyMeaning {
  import opened Ordering
  import opened Sequences
  import opened Keys
  import opened Scoring

  /** A value of the field, blank or not. */
  ghost predicate Gives(values: Values, field: string, v: string) { field in values && v in values[field] }

  /** The field's first value, if it is not blank. */
  ghost predicate Leads(values: Values, field: string, v: string) {
    field in values && values[field] != [] && values[field][0] == v && v != ""
  }

  ghost predicate Silent(values: Values, field: string) { forall v :: !Leads(values, field, v) }

  /** A person's name: the full one given first, or else the first names given, joined. */
  ghost predicate PersonCalled(values: Values, n: string) {
    || Leads(values, "full_name", n)
    || (Silent(values, "full_name")
        && exists f, l :: Leads(values, "first_name", f) && Leads(values, "last_name", l) && n == f + " " + l)
  }

  ghost predicate CompanyCalled(values: Values, n: string) {
    Leads(values, "company_name", n) || (Silent(values, "company_name") && Leads(values, "legal_name", n))
  }

  ghost predicate ReadFrom(values: Values, field: string, read: string -> Option<string>, v: string) {
    v != "" && exists u :: Gives(values, field, u) && read(u) == Some(v)
  }

  ghost predicate Scoped(values: Values, field: string, sourceId: string, v: string) {
    exists x :: Leads(values, field, x) && v == sourceId + ":" + x
  }

  function ValuesOfType(keys: seq<IdentityKey>, keyType: KeyType): set<string> {
    set k | k in keys && k.keyType == keyType :: k.keyValue
  }

  // ---- the parts ------------------------------------------------------------------------------------------

  lemma LeadsIsFirst(values: Values, field: string, v: string)
    ensures Leads(values, field, v) <==> v != "" && First(values, field) == v
    ensures Silent(values, field) <==> First(values, field) == ""
  {
    assert First(values, field) != "" ==> Leads(values, field, First(values, field));
  }

  lemma PersonNameIs(values: Values, n: string)
    ensures n != "" && PersonName(values) == n <==> PersonCalled(values, n)
  {
    hide Leads, Silent, First;
    var f, l := First(values, "first_name"), First(values, "last_name");
    LeadsIsFirst(values, "full_name", n);
    LeadsIsFirst(values, "first_name", f);
    LeadsIsFirst(values, "last_name", l);
    forall v ensures Leads(values, "first_name", v) ==> v == f && v != "" { LeadsIsFirst(values, "first_name", v); }
    forall v ensures Leads(values, "last_name", v) ==> v == l && v != "" { LeadsIsFirst(values, "last_name", v); }
  }

  lemma CompanyNameIs(values: Values, n: string)
    ensures n != "" && CompanyName(values) == n <==> CompanyCalled(values, n)
  {
    hide Leads, Silent, First;
    LeadsIsFirst(values, "company_name", n);
    LeadsIsFirst(values, "legal_name", n);
  }

  lemma {:induction false} UrlKeysSay(urls: seq<string>, read: string -> Option<string>, keyType: KeyType, t: KeyType, v: string)
    ensures v in ValuesOfType(UrlKeys(urls, read, keyType), t) <==>
      t == keyType && v != "" && exists u :: u in urls && read(u) == Some(v)
  {
    if urls != [] {
      var n := |urls| - 1;
      UrlKeysSay(urls[..n], read, keyType, t, v);
      assert urls == urls[..n] + [urls[n]];
      if read(urls[n]).Some? && read(urls[n]).value != "" {
        OneMoreKey(UrlKeys(urls[..n], read, keyType), IdentityKey(keyType, read(urls[n]).value, Strong), t, v);
      }
      hide ValuesOfType;
      assert urls[n] in urls;
    }
  }

  lemma OneMoreKey(keys: seq<IdentityKey>, k: IdentityKey, t: KeyType, v: string)
    ensures v in ValuesOfType(keys + [k], t) <==> v in ValuesOfType(keys, t) || (k.keyType == t && k.keyValue == v)
  {
    assert k in keys + [k];
    assert forall x :: x in keys ==> x in keys + [k];
  }

  lemma {:induction false} PlainKeysSay(texts: seq<string>, keyType: KeyType, strength: Strength, t: KeyType, v: string)
    ensures v in ValuesOfType(PlainKeys(texts, keyType, strength), t) <==> t == keyType && v in texts
  {
    if texts != [] {
      var n := |texts| - 1;
      PlainKeysSay(texts[..n], keyType, strength, t, v);
      OneMoreKey(PlainKeys(texts[..n], keyType, strength), IdentityKey(keyType, texts[n], strength), t, v);
      assert texts == texts[..n] + [texts[n]];
    }
  }

  lemma Joined(a: seq<IdentityKey>, b: seq<IdentityKey>, t: KeyType)
    ensures ValuesOfType(a + b, t) == ValuesOfType(a, t) + ValuesOfType(b, t)
  {
    assert forall k :: k in a + b <==> k in a || k in b;
  }

  lemma PairKeySays(name: string, other: string, keyType: KeyType, t: KeyType, v: string)
    ensures v in ValuesOfType(PairKey(name, other, keyType), t) <==>
      t == keyType && name != "" && other != "" && v == name + "|" + other
  {
    if name != "" && other != "" { assert IdentityKey(keyType, name + "|" + other, Moderate) in PairKey(name, other, keyType); }
  }

  lemma ExternalKeysSay(sourceId: string, external: string, t: KeyType, v: string)
    ensures v in ValuesOfType(ExternalKeys(sourceId, external), t) <==> t == ExternalId && external != "" && v == sourceId + ":" + external
  {
    if external != "" { assert IdentityKey(ExternalId, sourceId + ":" + external, Strong) in ExternalKeys(sourceId, external); }
  }

  lemma DedupedSays(keys: seq<IdentityKey>, t: KeyType)
    ensures ValuesOfType(Deduped(keys), t) == ValuesOfType(keys, t)
  {
    DedupedKeepsFirst(keys);
    forall v ensures v in ValuesOfType(Deduped(keys), t) <==> v in ValuesOfType(keys, t) {
      MarkedIs(keys, t, v);
      MarkedIs(Deduped(keys), t, v);
    }
  }

  lemma MarkedIs(keys: seq<IdentityKey>, t: KeyType, v: string)
    ensures HasMarker(keys, Marker(t, v)) <==> v in ValuesOfType(keys, t)
  {
    if HasMarker(keys, Marker(t, v)) {
      var i :| 0 <= i < |keys| && MarkerOf(keys[i]) == Marker(t, v);
      assert keys[i] in keys;
    }
    if v in ValuesOfType(keys, t) {
      var k :| k in keys && k.keyType == t && k.keyValue == v;
      var i :| 0 <= i < |keys| && keys[i] == k;
      assert MarkerOf(keys[i]) == Marker(t, v);
    }
  }

  // ---- a person's keys ---------------------------------------------------------------------------------------

  lemma RawPersonKeysSay(values: Values, sourceId: string, roleEmail: bool, urls: UrlReaders, t: KeyType, v: string)
    ensures v in ValuesOfType(RawPersonKeys(values, sourceId, roleEmail, urls), t) <==>
      match t
      case ExternalId => First(values, "person_external_id") != "" && v == sourceId + ":" + First(values, "person_external_id")
      case LinkedIn => v != "" && exists u :: u in Listed(values, "linkedin_url") && urls.handle(u) == Some(v)
      case Email => v in Listed(values, "email")
      case NameCompany =>
        PersonName(values) != "" && First(values, "company_name") != "" && v == PersonName(values) + "|" + First(values, "company_name")
      case NameCity => PersonName(values) != "" && First(values, "city") != "" && v == PersonName(values) + "|" + First(values, "city")
      case Phone => v in Listed(values, "phone")
      case _ => false
  {
    hide ValuesOfType, ExternalKeys, UrlKeys, PlainKeys, PairKey, PersonName, First, Listed;
    var name := PersonName(values);
    var a := ExternalKeys(sourceId, First(values, "person_external_id"));
    var b := UrlKeys(Listed(values, "linkedin_url"), urls.handle, LinkedIn);
    var c := PlainKeys(Listed(values, "email"), Email, if roleEmail then Moderate else Strong);
    var d := PairKey(name, First(values, "company_name"), NameCompany);
    var e := PairKey(name, First(values, "city"), NameCity);
    var f := PlainKeys(Listed(values, "phone"), Phone, Moderate);
    Joined(a, b, t);
    Joined(a + b, c, t);
    Joined(a + b + c, d, t);
    Joined(a + b + c + d, e, t);
    Joined(a + b + c + d + e, f, t);
    ExternalKeysSay(sourceId, First(values, "person_external_id"), t, v);
    UrlKeysSay(Listed(values, "linkedin_url"), urls.handle, LinkedIn, t, v);
    PlainKeysSay(Listed(values, "email"), Email, if roleEmail then Moderate else Strong, t, v);
    PairKeySays(name, First(values, "company_name"), NameCompany, t, v);
    PairKeySays(name, First(values, "city"), NameCity, t, v);
    PlainKeysSay(Listed(values, "phone"), Phone, Moderate, t, v);
  }

  lemma GivesIsListed(values: Values, field: string, v: string)
    ensures Gives(values, field, v) <==> v in Listed(values, field)
  {
  }

  lemma ReadFromIs(values: Values, field: string, read: string -> Option<string>, v: string)
    ensures ReadFrom(values, field, read, v) <==> v != "" && exists u :: u in Listed(values, field) && read(u) == Some(v)
  {
    forall u ensures Gives(values, field, u) <==> u in Listed(values, field) { GivesIsListed(values, field, u); }
  }

  lemma ScopedIs(values: Values, field: string, sourceId: string, v: string)
    ensures Scoped(values, field, sourceId, v) <==> First(values, field) != "" && v == sourceId + ":" + First(values, field)
  {
    hide Leads, First;
    LeadsIsFirst(values, field, First(values, field));
    forall x ensures Leads(values, field, x) <==> x != "" && First(values, field) == x { LeadsIsFirst(values, field, x); }
  }

  ghost predicate PersonAnd(values: Values, field: string, v: string) {
    exists n, x :: PersonCalled(values, n) && Leads(values, field, x) && v == n + "|" + x
  }

  ghost predicate CompanyAnd(values: Values, field: string, v: string) {
    exists n, x :: CompanyCalled(values, n) && Leads(values, field, x) && v == n + "|" + x
  }

  lemma PersonAndIs(values: Values, field: string, v: string)
    ensures PersonAnd(values, field, v) <==>
      PersonName(values) != "" && First(values, field) != "" && v == PersonName(values) + "|" + First(values, field)
  {
    hide Leads, First, PersonName, PersonCalled;
    forall n ensures PersonCalled(values, n) <==> n != "" && PersonName(values) == n { PersonNameIs(values, n); }
    forall x ensures Leads(values, field, x) <==> x != "" && First(values, field) == x { LeadsIsFirst(values, field, x); }
    if PersonName(values) != "" && First(values, field) != "" {
      assert PersonCalled(values, PersonName(values)) && Leads(values, field, First(values, field));
    }
  }

  lemma CompanyAndIs(values: Values, field: string, v: string)
    ensures CompanyAnd(values, field, v) <==>
      CompanyName(values) != "" && First(values, field) != "" && v == CompanyName(values) + "|" + First(values, field)
  {
    hide Leads, First, CompanyName, CompanyCalled;
    forall n ensures CompanyCalled(values, n) <==> n != "" && CompanyName(values) == n { CompanyNameIs(values, n); }
    forall x ensures Leads(values, field, x) <==> x != "" && First(values, field) == x { LeadsIsFirst(values, field, x); }
    if CompanyName(values) != "" && First(values, field) != "" {
      assert CompanyCalled(values, CompanyName(values)) && Leads(values, field, First(values, field));
    }
  }

  /**
   * The keys of a person, each type exactly: the listing id scoped by its source, every profile read, every
   * mailbox, the name with the employer and with the city where both are given, every number, and no other.
   */
  lemma PersonKeysAre(values: Values, sourceId: string, roleEmail: bool, describes: Describes, urls: UrlReaders, t: KeyType, v: string)
    ensures v in ValuesOfType(KeysFor(Person, values, sourceId, roleEmail, describes, urls), t) <==>
      match t
      case ExternalId => Scoped(values, "person_external_id", sourceId, v)
      case LinkedIn => ReadFrom(values, "linkedin_url", urls.handle, v)
      case Email => Gives(values, "email", v)
      case NameCompany => PersonAnd(values, "company_name", v)
      case NameCity => PersonAnd(values, "city", v)
      case Phone => Gives(values, "phone", v)
      case WebsiteDomain => false
      case Name => false
  {
    hide ValuesOfType, RawPersonKeys, Deduped, Scoped, ReadFrom, Gives, PersonAnd, PersonName, First, Listed;
    DedupedSays(RawPersonKeys(values, sourceId, roleEmail, urls), t);
    RawPersonKeysSay(values, sourceId, roleEmail, urls, t, v);
    ScopedIs(values, "person_external_id", sourceId, v);
    ReadFromIs(values, "linkedin_url", urls.handle, v);
    GivesIsListed(values, "email", v);
    GivesIsListed(values, "phone", v);
    PersonAndIs(values, "company_name", v);
    PersonAndIs(values, "city", v);
  }

  // ---- a company's keys --------------------------------------------------------------------------------------

  lemma RawCompanyKeysSay(values: Values, sourceId: string, urls: UrlReaders, t: KeyType, v: string)
    ensures v in ValuesOfType(RawCompanyKeys(values, sourceId, urls), t) <==>
      match t
      case ExternalId => First(values, "company_external_id") != "" && v == sourceId + ":" + First(values, "company_external_id")
      case WebsiteDomain => v != "" && exists u :: u in Listed(values, "website") && urls.domain(u) == Some(v)
      case Email => v in Listed(values, "email")
      case Name => CompanyName(values) != "" && v == CompanyName(values)
      case NameCity => CompanyName(values) != "" && First(values, "city") != "" && v == CompanyName(values) + "|" + First(values, "city")
      case Phone => v in Listed(values, "phone")
      case _ => false
  {
    hide ValuesOfType, ExternalKeys, UrlKeys, PlainKeys, PairKey, CompanyName, First, Listed;
    var name := CompanyName(values);
    var a := ExternalKeys(sourceId, First(values, "company_external_id"));
    var b := UrlKeys(Listed(values, "website"), urls.domain, WebsiteDomain);
    var c := PlainKeys(Listed(values, "email"), Email, Strong);
    var d := NameKey(name);
    var e := PairKey(name, First(values, "city"), NameCity);
    var f := PlainKeys(Listed(values, "phone"), Phone, Moderate);
    Joined(a, b, t);
    Joined(a + b, c, t);
    Joined(a + b + c, d, t);
    Joined(a + b + c + d, e, t);
    Joined(a + b + c + d + e, f, t);
    ExternalKeysSay(sourceId, First(values, "company_external_id"), t, v);
    UrlKeysSay(Listed(values, "website"), urls.domain, WebsiteDomain, t, v);
    PlainKeysSay(Listed(values, "email"), Email, Strong, t, v);
    NameKeySays(name, t, v);
    PairKeySays(name, First(values, "city"), NameCity, t, v);
    PlainKeysSay(Listed(values, "phone"), Phone, Moderate, t, v);
  }

  function NameKey(name: string): seq<IdentityKey> { if name == "" then [] else [IdentityKey(Name, name, Moderate)] }

  lemma NameKeySays(name: string, t: KeyType, v: string)
    ensures v in ValuesOfType(NameKey(name), t) <==> t == Name && name != "" && v == name
  {
    if name != "" { assert IdentityKey(Name, name, Moderate) in NameKey(name); }
  }

  lemma DemotedSays(keys: seq<IdentityKey>, t: KeyType)
    ensures ValuesOfType(DemoteForLocation(keys), t) == ValuesOfType(keys, t)
  {
    var demoted := DemoteForLocation(keys);
    forall v ensures v in ValuesOfType(demoted, t) <==> v in ValuesOfType(keys, t) {
      MarkedIs(keys, t, v);
      MarkedIs(demoted, t, v);
    }
  }

  /**
   * The keys of a company, each type exactly, whatever its source describes: the listing id scoped by its
   * source, every site read, every mailbox, the name alone and with the city, every number, and no other.
   */
  lemma CompanyKeysAre(values: Values, sourceId: string, roleEmail: bool, describes: Describes, urls: UrlReaders, t: KeyType, v: string)
    ensures v in ValuesOfType(KeysFor(Company, values, sourceId, roleEmail, describes, urls), t) <==>
      match t
      case ExternalId => Scoped(values, "company_external_id", sourceId, v)
      case WebsiteDomain => ReadFrom(values, "website", urls.domain, v)
      case Email => Gives(values, "email", v)
      case Name => CompanyCalled(values, v)
      case NameCity => CompanyAnd(values, "city", v)
      case Phone => Gives(values, "phone", v)
      case LinkedIn => false
      case NameCompany => false
  {
    hide ValuesOfType, RawCompanyKeys, Deduped, Scoped, ReadFrom, Gives, CompanyAnd, CompanyCalled, CompanyName, First, Listed,
      DemoteForLocation;
    var raw := RawCompanyKeys(values, sourceId, urls);
    DedupedSays(raw, t);
    DemotedSays(Deduped(raw), t);
    RawCompanyKeysSay(values, sourceId, urls, t, v);
    ScopedIs(values, "company_external_id", sourceId, v);
    ReadFromIs(values, "website", urls.domain, v);
    GivesIsListed(values, "email", v);
    GivesIsListed(values, "phone", v);
    CompanyNameIs(values, v);
    CompanyAndIs(values, "city", v);
  }

  // ---- what one shared key is worth ------------------------------------------------------------------------------

  /** Hundredths a person's shared key of this type is worth by itself, and a company's. */
  ghost function WorthAlone(entityType: EntityType, k: IdentityKey): nat {
    var full := match (entityType, k.keyType)
      case (_, ExternalId) => 98
      case (Person, LinkedIn) => 95 case (Person, Email) => 95 case (Person, NameCompany) => 80 case (Person, NameCity) => 70
      case (Person, Phone) => 40
      case (Company, WebsiteDomain) => 92 case (Company, Email) => 90 case (Company, NameCity) => 80 case (Company, Name) => 65
      case (Company, Phone) => 45
      case _ => 0;
    if k.strength == Moderate && full > 89 then 89 else full
  }

  /**
   * A single shared key: a decisive one of a decisive type links by itself, a shared number or a key that does
   * not count for the type starts a new entity, and every other puts the row to a person.
   */
  lemma OneSharedKeyDecides(entityType: EntityType, e: EntityId, k: IdentityKey)
    ensures Score(entityType, e, [k]).confidence == WorthAlone(entityType, k)
    ensures var kind := Decide(entityType, [Overlap(e, [k])]).kind;
      && (kind == Link <==> WorthAlone(entityType, k) >= 90)
      && (kind == Review <==> 60 <= WorthAlone(entityType, k) < 90)
      && (kind == New <==> WorthAlone(entityType, k) < 60)
  {
    OneKeyScores(entityType, e, k);
    hide Score, Decide, WorthAlone;
    OneCandidateDecides(entityType, e, [k]);
  }

  lemma OneKeyScores(entityType: EntityType, e: EntityId, k: IdentityKey)
    ensures Score(entityType, e, [k]).confidence == WorthAlone(entityType, k)
  {
    assert Ranked(entityType, [k]) == [k] by { assert [k][1..] == []; }
    assert Types([k]) == {k.keyType};
  }
}

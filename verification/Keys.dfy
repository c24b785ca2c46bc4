/** Identity keys: what makes an entity findable, and how much each key is worth. */
module Keys {
  import opened Ordering

  datatype EntityType = Person | Company

  /** Whose attribute a value is, and which of a record's links it belongs to. */
  datatype Role = Self | Employer

  datatype Strength = Strong | Moderate
  datatype Describes = Organisation | Location
  datatype KeyType =
    | ExternalId | LinkedIn | Email | WebsiteDomain | NameCompany | NameCity | Name | Phone

  datatype IdentityKey = IdentityKey(keyType: KeyType, keyValue: string, strength: Strength)
  datatype Marker = Marker(keyType: KeyType, keyValue: string)

  /** Confirmed canonical field -> normalized values, in column order. */
  type Values = map<string, seq<string>>

  /** Reading a host or a profile path out of a URL is not modelled; any reading will do. */
  datatype UrlReaders = UrlReaders(domain: string -> Option<string>, handle: string -> Option<string>)

  /** KEY_WEIGHTS, in hundredths; a type missing from an entity type's table weighs nothing. */
  function Weight(entityType: EntityType, keyType: KeyType): nat {
    match entityType
    case Person =>
      (match keyType
       case ExternalId => 98 case LinkedIn => 95 case Email => 95
       case NameCompany => 80 case NameCity => 70 case Phone => 40 case _ => 0)
    case Company =>
      (match keyType
       case ExternalId => 98 case WebsiteDomain => 92 case Email => 90
       case NameCity => 80 case Name => 65 case Phone => 45 case _ => 0)
  }

  predicate StrongType(entityType: EntityType, keyType: KeyType) {
    match entityType
    case Person => keyType in {ExternalId, LinkedIn, Email}
    case Company => keyType in {ExternalId, WebsiteDomain, Email}
  }

  function MarkerOf(k: IdentityKey): Marker { Marker(k.keyType, k.keyValue) }

  function Listed(values: Values, field: string): seq<string> {
    if field in values then values[field] else []
  }

  /** The first value of a field; absent and empty are alike to every caller. */
  function First(values: Values, field: string): string {
    var got := Listed(values, field);
    if got == [] then "" else got[0]
  }

  function UrlKeys(urls: seq<string>, read: string -> Option<string>, keyType: KeyType): seq<IdentityKey> {
    if urls == [] then []
    else
      var init := UrlKeys(urls[..|urls| - 1], read, keyType);
      match read(urls[|urls| - 1])
      case None => init
      case Some(got) => if got == "" then init else init + [IdentityKey(keyType, got, Strong)]
  }

  function PlainKeys(texts: seq<string>, keyType: KeyType, strength: Strength): seq<IdentityKey> {
    if texts == [] then []
    else PlainKeys(texts[..|texts| - 1], keyType, strength) + [IdentityKey(keyType, texts[|texts| - 1], strength)]
  }

  function ExternalKeys(sourceId: string, external: string): seq<IdentityKey> {
    if external == "" then [] else [IdentityKey(ExternalId, sourceId + ":" + external, Strong)]
  }

  function PersonName(values: Values): string {
    if First(values, "full_name") != "" then First(values, "full_name")
    else if First(values, "first_name") != "" && First(values, "last_name") != "" then
      First(values, "first_name") + " " + First(values, "last_name")
    else ""
  }

  function PairKey(name: string, other: string, keyType: KeyType): seq<IdentityKey> {
    if name == "" || other == "" then [] else [IdentityKey(keyType, name + "|" + other, Moderate)]
  }

  function RawPersonKeys(values: Values, sourceId: string, roleEmail: bool, urls: UrlReaders): seq<IdentityKey> {
    ExternalKeys(sourceId, First(values, "person_external_id"))
    + UrlKeys(Listed(values, "linkedin_url"), urls.handle, LinkedIn)
    + PlainKeys(Listed(values, "email"), Email, if roleEmail then Moderate else Strong)
    + PairKey(PersonName(values), First(values, "company_name"), NameCompany)
    + PairKey(PersonName(values), First(values, "city"), NameCity)
    + PlainKeys(Listed(values, "phone"), Phone, Moderate)
  }

  function CompanyName(values: Values): string {
    if First(values, "company_name") != "" then First(values, "company_name") else First(values, "legal_name")
  }

  function RawCompanyKeys(values: Values, sourceId: string, urls: UrlReaders): seq<IdentityKey> {
    ExternalKeys(sourceId, First(values, "company_external_id"))
    + UrlKeys(Listed(values, "website"), urls.domain, WebsiteDomain)
    + PlainKeys(Listed(values, "email"), Email, Strong)
    + (if CompanyName(values) == "" then [] else [IdentityKey(Name, CompanyName(values), Moderate)])
    + PairKey(CompanyName(values), First(values, "city"), NameCity)
    + PlainKeys(Listed(values, "phone"), Phone, Moderate)
  }

  predicate HasMarker(keys: seq<IdentityKey>, m: Marker) {
    exists i :: 0 <= i < |keys| && MarkerOf(keys[i]) == m
  }

  /** Keep the first key of each (type, value). */
  function Deduped(keys: seq<IdentityKey>): seq<IdentityKey> {
    if keys == [] then []
    else
      var init := Deduped(keys[..|keys| - 1]);
      var last := keys[|keys| - 1];
      if HasMarker(init, MarkerOf(last)) then init else init + [last]
  }

  function Demoted(k: IdentityKey): IdentityKey {
    if k.keyType in {WebsiteDomain, Email} then k.(strength := Moderate) else k
  }

  function DemoteForLocation(keys: seq<IdentityKey>): (r: seq<IdentityKey>)
    ensures |r| == |keys| && forall i :: 0 <= i < |r| ==> MarkerOf(r[i]) == MarkerOf(keys[i])
  {
    seq(|keys|, i requires 0 <= i < |keys| => Demoted(keys[i]))
  }

  /** `keys_for`. */
  function KeysFor(entityType: EntityType, values: Values, sourceId: string, roleEmail: bool,
                   describes: Describes, urls: UrlReaders): seq<IdentityKey>
  {
    match entityType
    case Person => Deduped(RawPersonKeys(values, sourceId, roleEmail, urls))
    case Company =>
      var keys := Deduped(RawCompanyKeys(values, sourceId, urls));
      if describes == Location then DemoteForLocation(keys) else keys
  }

  // ---- the loops that build the keys ---------------------------------------

  method Dedupe(keys: seq<IdentityKey>) returns (out: seq<IdentityKey>)
    ensures out == Deduped(keys)
  {
    var seen: set<Marker> := {};
    out := [];
    for i := 0 to |keys|
      invariant out == Deduped(keys[..i])
      invariant forall m :: m in seen <==> HasMarker(out, m)
    {
      assert keys[..i + 1][..i] == keys[..i];
      var marker := MarkerOf(keys[i]);
      if marker !in seen {
        seen := seen + {marker};
        ghost var before := out;
        out := out + [keys[i]];
        forall m ensures HasMarker(out, m) <==> m == marker || HasMarker(before, m) {
          assert MarkerOf(out[|before|]) == marker;
          if HasMarker(before, m) { var j :| 0 <= j < |before| && MarkerOf(before[j]) == m; assert out[j] == before[j]; }
        }
      }
    }
    assert keys[..|keys|] == keys;
  }

  method AppendUrlKeys(keys: seq<IdentityKey>, found: seq<string>, read: string -> Option<string>, keyType: KeyType)
    returns (out: seq<IdentityKey>)
    ensures out == keys + UrlKeys(found, read, keyType)
  {
    out := keys;
    for i := 0 to |found|
      invariant out == keys + UrlKeys(found[..i], read, keyType)
    {
      assert found[..i + 1][..i] == found[..i];
      var got := read(found[i]);
      if got.Some? && got.value != "" {
        out := out + [IdentityKey(keyType, got.value, Strong)];
      }
    }
    assert found[..|found|] == found;
  }

  method AppendPlainKeys(keys: seq<IdentityKey>, texts: seq<string>, keyType: KeyType, strength: Strength)
    returns (out: seq<IdentityKey>)
    ensures out == keys + PlainKeys(texts, keyType, strength)
  {
    out := keys;
    for i := 0 to |texts|
      invariant out == keys + PlainKeys(texts[..i], keyType, strength)
    {
      assert texts[..i + 1][..i] == texts[..i];
      out := out + [IdentityKey(keyType, texts[i], strength)];
    }
    assert texts[..|texts|] == texts;
  }

  /** `person_keys`: a role mailbox belongs to a function, so it is kept but cannot identify. */
  method BuildPersonKeys(values: Values, sourceId: string, roleEmail: bool, urls: UrlReaders)
    returns (keys: seq<IdentityKey>)
    ensures keys == KeysFor(Person, values, sourceId, roleEmail, Organisation, urls)
  {
    keys := ExternalKeys(sourceId, First(values, "person_external_id"));
    keys := AppendUrlKeys(keys, Listed(values, "linkedin_url"), urls.handle, LinkedIn);
    keys := AppendPlainKeys(keys, Listed(values, "email"), Email, if roleEmail then Moderate else Strong);
    var name := PersonName(values);
    keys := keys + PairKey(name, First(values, "company_name"), NameCompany);
    keys := keys + PairKey(name, First(values, "city"), NameCity);
    keys := AppendPlainKeys(keys, Listed(values, "phone"), Phone, Moderate);
    assert keys == RawPersonKeys(values, sourceId, roleEmail, urls);
    keys := Dedupe(keys);
  }

  /** `company_keys`, then what a source of premises demotes. */
  method BuildCompanyKeys(values: Values, sourceId: string, describes: Describes, urls: UrlReaders)
    returns (keys: seq<IdentityKey>)
    ensures keys == KeysFor(Company, values, sourceId, false, describes, urls)
  {
    keys := ExternalKeys(sourceId, First(values, "company_external_id"));
    keys := AppendUrlKeys(keys, Listed(values, "website"), urls.domain, WebsiteDomain);
    keys := AppendPlainKeys(keys, Listed(values, "email"), Email, Strong);
    var name := CompanyName(values);
    if name != "" {
      keys := keys + [IdentityKey(Name, name, Moderate)];
    }
    keys := keys + PairKey(name, First(values, "city"), NameCity);
    keys := AppendPlainKeys(keys, Listed(values, "phone"), Phone, Moderate);
    assert keys == RawCompanyKeys(values, sourceId, urls);
    keys := Dedupe(keys);
    if describes == Location {
      keys := DemoteForLocation(keys);
    }
  }

  // ---- what the keys promise ------------------------------------------------

  lemma OneText(text: string, keyType: KeyType, strength: Strength)
    ensures PlainKeys([text], keyType, strength) == [IdentityKey(keyType, text, strength)] && PlainKeys([], keyType, strength) == []
  {
    assert [text][..0] == [];
  }

  lemma OnlySites(values: Values, sourceId: string, urls: UrlReaders)
    requires values.Keys == {"website"}
    ensures RawCompanyKeys(values, sourceId, urls) == UrlKeys(Listed(values, "website"), urls.domain, WebsiteDomain)
  {
    hide UrlKeys;
  }

  lemma TwoDistinct(a: IdentityKey, b: IdentityKey)
    requires MarkerOf(a) != MarkerOf(b)
    ensures Deduped([a, b]) == [a, b] && Deduped([a]) == [a]
  {
    assert [a, b][..1] == [a] && [a][..0] == [];
    assert Deduped([a]) == [a];
  }

  /** No (type, value) twice, none lost, and each survivor is the first of its kind in the input. */
  lemma {:induction false} DedupedKeepsFirst(keys: seq<IdentityKey>)
    ensures forall i, j :: 0 <= i < j < |Deduped(keys)| ==> MarkerOf(Deduped(keys)[i]) != MarkerOf(Deduped(keys)[j])
    ensures forall m :: HasMarker(Deduped(keys), m) <==> HasMarker(keys, m)
    ensures forall k :: k in Deduped(keys) ==>
      exists i :: 0 <= i < |keys| && keys[i] == k && !HasMarker(keys[..i], MarkerOf(k))
  {
    if keys != [] {
      var n := |keys| - 1;
      var init, last := keys[..n], keys[n];
      DedupedKeepsFirst(init);
      forall m ensures HasMarker(keys, m) <==> HasMarker(init, m) || m == MarkerOf(last) {
        assert MarkerOf(keys[n]) == MarkerOf(last);
        if HasMarker(init, m) { var j :| 0 <= j < n && MarkerOf(init[j]) == m; assert keys[j] == init[j]; }
      }
      var out := Deduped(keys);
      forall m ensures HasMarker(out, m) <==> HasMarker(keys, m) {
        if !HasMarker(Deduped(init), MarkerOf(last)) {
          var before := Deduped(init);
          assert MarkerOf(out[|before|]) == MarkerOf(last);
          if HasMarker(before, m) { var j :| 0 <= j < |before| && MarkerOf(before[j]) == m; assert out[j] == before[j]; }
        }
      }
      forall k | k in out
        ensures exists i :: 0 <= i < |keys| && keys[i] == k && !HasMarker(keys[..i], MarkerOf(k))
      {
        if k in Deduped(init) {
          var i :| 0 <= i < n && init[i] == k && !HasMarker(init[..i], MarkerOf(k));
          assert keys[..i] == init[..i] && keys[i] == k;
        } else {
          assert k == last && keys[n] == k;
        }
      }
    }
  }

  lemma {:induction false} DedupedIsSubset(keys: seq<IdentityKey>)
    ensures forall k :: k in Deduped(keys) ==> k in keys
  {
    DedupedKeepsFirst(keys);
  }

  lemma {:induction false} UrlKeysAre(urls: seq<string>, read: string -> Option<string>, keyType: KeyType)
    ensures forall k :: k in UrlKeys(urls, read, keyType) ==> k.keyType == keyType && k.strength == Strong
  {
    if urls != [] { UrlKeysAre(urls[..|urls| - 1], read, keyType); }
  }

  lemma {:induction false} PlainKeysAre(texts: seq<string>, keyType: KeyType, strength: Strength)
    ensures forall k :: k in PlainKeys(texts, keyType, strength) ==> k.keyType == keyType && k.strength == strength
  {
    if texts != [] { PlainKeysAre(texts[..|texts| - 1], keyType, strength); }
  }

  /** Strong exactly when its type is, less a role mailbox's email; a listing id names its source. */
  ghost predicate AsBuilt(k: IdentityKey, entityType: EntityType, sourceId: string, roleEmail: bool) {
    && (k.strength == Strong <==> StrongType(entityType, k.keyType) && !(k.keyType == Email && roleEmail))
    && (k.keyType == ExternalId ==> sourceId + ":" <= k.keyValue)
  }

  lemma ExternalKeysAre(sourceId: string, external: string)
    ensures forall k :: k in ExternalKeys(sourceId, external) ==>
      k.keyType == ExternalId && k.strength == Strong && sourceId + ":" <= k.keyValue
  {
  }

  lemma RawPersonKeysAsBuilt(values: Values, sourceId: string, roleEmail: bool, urls: UrlReaders)
    ensures forall k :: k in RawPersonKeys(values, sourceId, roleEmail, urls) ==> AsBuilt(k, Person, sourceId, roleEmail)
  {
    hide UrlKeys, PlainKeys, ExternalKeys, Listed, PersonName;
    ExternalKeysAre(sourceId, First(values, "person_external_id"));
    UrlKeysAre(Listed(values, "linkedin_url"), urls.handle, LinkedIn);
    PlainKeysAre(Listed(values, "email"), Email, if roleEmail then Moderate else Strong);
    PlainKeysAre(Listed(values, "phone"), Phone, Moderate);
  }

  lemma RawCompanyKeysAsBuilt(values: Values, sourceId: string, urls: UrlReaders)
    ensures forall k :: k in RawCompanyKeys(values, sourceId, urls) ==> AsBuilt(k, Company, sourceId, false)
  {
    hide UrlKeys, PlainKeys, ExternalKeys, Listed, CompanyName;
    ExternalKeysAre(sourceId, First(values, "company_external_id"));
    UrlKeysAre(Listed(values, "website"), urls.domain, WebsiteDomain);
    PlainKeysAre(Listed(values, "email"), Email, Strong);
    PlainKeysAre(Listed(values, "phone"), Phone, Moderate);
  }

  lemma PersonKeyStrengths(values: Values, sourceId: string, roleEmail: bool, describes: Describes, urls: UrlReaders)
    ensures forall k :: k in KeysFor(Person, values, sourceId, roleEmail, describes, urls) ==>
      AsBuilt(k, Person, sourceId, roleEmail)
  {
    RawPersonKeysAsBuilt(values, sourceId, roleEmail, urls);
    DedupedIsSubset(RawPersonKeys(values, sourceId, roleEmail, urls));
  }

  /** For a source of premises only its own listing id stays decisive, and that id carries its source. */
  lemma CompanyKeyStrengths(values: Values, sourceId: string, roleEmail: bool, describes: Describes, urls: UrlReaders)
    ensures forall k :: k in KeysFor(Company, values, sourceId, roleEmail, describes, urls) ==>
      && (k.strength == Strong <==>
            if describes == Location then k.keyType == ExternalId else StrongType(Company, k.keyType))
      && (k.keyType == ExternalId ==> sourceId + ":" <= k.keyValue)
  {
    var raw := RawCompanyKeys(values, sourceId, urls);
    RawCompanyKeysAsBuilt(values, sourceId, urls);
    DedupedIsSubset(raw);
    var keys := KeysFor(Company, values, sourceId, roleEmail, describes, urls);
    forall k | k in keys
      ensures k.strength == Strong <==>
                if describes == Location then k.keyType == ExternalId else StrongType(Company, k.keyType)
      ensures k.keyType == ExternalId ==> sourceId + ":" <= k.keyValue
    {
      var j :| 0 <= j < |keys| && k == keys[j];
      assert Deduped(raw)[j] in Deduped(raw);
      assert AsBuilt(Deduped(raw)[j], Company, sourceId, false);
    }
  }

  /** What a source catalogues changes what its keys are worth, never which entities they find. */
  lemma DescribesKeepsBlocking(values: Values, sourceId: string, roleEmail: bool, urls: UrlReaders, m: Marker)
    ensures HasMarker(KeysFor(Company, values, sourceId, roleEmail, Location, urls), m)
       <==> HasMarker(KeysFor(Company, values, sourceId, roleEmail, Organisation, urls), m)
  {
    var keys := KeysFor(Company, values, sourceId, roleEmail, Organisation, urls);
    var demoted := KeysFor(Company, values, sourceId, roleEmail, Location, urls);
    assert forall i :: 0 <= i < |keys| ==> MarkerOf(demoted[i]) == MarkerOf(keys[i]);
  }

  /** The lookup dictionary a record's keys become loses nothing: no marker is built twice. */
  lemma KeysForHasDistinctMarkers(entityType: EntityType, values: Values, sourceId: string, roleEmail: bool,
                                  describes: Describes, urls: UrlReaders, i: nat, j: nat)
    requires i < j < |KeysFor(entityType, values, sourceId, roleEmail, describes, urls)|
    ensures MarkerOf(KeysFor(entityType, values, sourceId, roleEmail, describes, urls)[i])
         != MarkerOf(KeysFor(entityType, values, sourceId, roleEmail, describes, urls)[j])
  {
    hide Deduped, RawPersonKeys, RawCompanyKeys;
    DedupedKeepsFirst(if entityType == Person then RawPersonKeys(values, sourceId, roleEmail, urls)
                      else RawCompanyKeys(values, sourceId, urls));
  }
}

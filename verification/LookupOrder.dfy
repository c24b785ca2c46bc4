/** One row against one known person: linked, or put to a human, by the order the lookup returns two key rows in. */
module LookupOrder {
  import opened Ordering
  import opened Sequences
  import opened Keys
  import opened Scoring
  import opened EntityStore
  import opened StableIds

  const AsStored: RowOrder := (table: seq<KeyRow>, rows: seq<KeyRow>) => rows
  const Backwards: RowOrder := (table: seq<KeyRow>, rows: seq<KeyRow>) => Reversed(rows)

  /** A person with a profile and a mailbox of their own. */
  function Known(handle: string, mailbox: string): Subject {
    Subject(0, Self, Person, 0, "s", [IdentityKey(LinkedIn, handle, Strong), IdentityKey(Email, mailbox, Strong)], 0)
  }

  function KnownRows(handle: string, mailbox: string): seq<KeyRow> {
    [KeyRow(0, Person, LinkedIn, handle, Strong, 0), KeyRow(0, Person, Email, mailbox, Strong, 0)]
  }

  /** The tables that person alone leaves. */
  function KnownPerson(order: RowOrder, handle: string, mailbox: string): Store {
    Store(map[0 := Entity(Person, Active, 0)], map[LinkKey(0, Self) := RecordLink(0, Person, 0, "s", NoMatch, 0, NewEntity)],
          KnownRows(handle, mailbox), map[], [], order)
  }

  lemma KnownIsReached(order: RowOrder, handle: string, mailbox: string)
    ensures Run(EmptyStore(order), [ResolveOp(Known(handle, mailbox), None)]) == KnownPerson(order, handle, mailbox)
  {
    hide Step, Resolve, WithKeys;
    var op := ResolveOp(Known(handle, mailbox), None);
    RunOneMore(EmptyStore(order), [], op);
    assert [] + [op] == [op];
    KnownArrives(order, handle, mailbox);
  }

  lemma KnownArrives(order: RowOrder, handle: string, mailbox: string)
    ensures Step(EmptyStore(order), ResolveOp(Known(handle, mailbox), None)) == KnownPerson(order, handle, mailbox)
  {
    hide WithKeys;
    KnownIsNew(order, handle, mailbox);
    KnownKeysAdded(handle, mailbox);
  }

  lemma KnownIsNew(order: RowOrder, handle: string, mailbox: string)
    ensures DecisionFor(EmptyStore(order), Known(handle, mailbox)) == Some(Decision(New, None, []))
  {
    var s, keys := EmptyStore(order), Known(handle, mailbox).keys;
    FewHaveOneOrder(FindCandidates(s, Person, keys), []);
    assert Overlaps([], keys) == [] && Scored(Person, []) == [];
  }

  lemma KnownKeysAdded(handle: string, mailbox: string)
    ensures WithKeys([], 0, Person, 0, Known(handle, mailbox).keys) == KnownRows(handle, mailbox)
  {
    var keys, rows := Known(handle, mailbox).keys, KnownRows(handle, mailbox);
    assert keys[..1] == [keys[0]] && keys[..1][..0] == [];
    assert WithKeys([], 0, Person, 0, []) == [];
    assert WithKeys([], 0, Person, 0, keys[..1]) == [rows[0]];
    assert !HasKey([rows[0]], 0, MarkerOf(keys[1]));
  }

  /** A row giving that profile and that mailbox, once the mailbox was judged a role's. */
  lemma NewcomersKeysAreBuilt(url: string, handle: string, mailbox: string, sourceId: string, describes: Describes, urls: UrlReaders)
    requires urls.handle(url) == Some(handle) && handle != ""
    ensures KeysFor(Person, map["linkedin_url" := [url], "email" := [mailbox]], sourceId, true, describes, urls) ==
      ProfileFirst(handle, mailbox)
  {
    hide Deduped, PlainKeys;
    var a, b := IdentityKey(LinkedIn, handle, Strong), IdentityKey(Email, mailbox, Moderate);
    assert UrlKeys([url], urls.handle, LinkedIn) == [a] by { assert [url][..0] == []; }
    OneText(mailbox, Email, Moderate);
    OneText(mailbox, Phone, Moderate);
    TwoDistinct(a, b);
    assert RawPersonKeys(map["linkedin_url" := [url], "email" := [mailbox]], sourceId, true, urls) == [a, b];
  }

  lemma BothAreFound(order: RowOrder, handle: string, mailbox: string)
    ensures var s := KnownPerson(order, handle, mailbox);
      FindAmong(s, Person, ProfileFirst(handle, mailbox), s.keys) == KnownRows(handle, mailbox)
  {
    var s, keys, rows := KnownPerson(order, handle, mailbox), ProfileFirst(handle, mailbox), KnownRows(handle, mailbox);
    assert MarkerOf(keys[0]) == RowMarker(rows[0]) && MarkerOf(keys[1]) == RowMarker(rows[1]);
    assert rows[..1] == [rows[0]] && rows[..1][..0] == [];
    assert FindAmong(s, Person, keys, rows[..1]) == [rows[0]];
  }

  lemma SharedOne(handle: string, mailbox: string)
    ensures var rows, keys := KnownRows(handle, mailbox), ProfileFirst(handle, mailbox);
      SharedKey(rows[0], keys) == keys[0] && SharedKey(rows[1], keys) == keys[1]
  {
    var keys, rows := ProfileFirst(handle, mailbox), KnownRows(handle, mailbox);
    assert keys[..1] == [keys[0]];
    assert BuiltStrength(keys[..1], RowMarker(rows[0]), Strong) == Strong;
  }

  lemma TwoOfOneEntity(a: KeyRow, b: KeyRow, keys: seq<IdentityKey>)
    requires a.entity == b.entity
    ensures Overlaps([a, b], keys) == [Overlap(a.entity, [SharedKey(a, keys), SharedKey(b, keys)])]
  {
    hide SharedKey;
    assert [a, b][..1] == [a] && [a][..0] == [];
    var one := Overlap(a.entity, [SharedKey(a, keys)]);
    assert Overlaps([a], keys) == [one] && [one][1..] == [];
    assert one.matched + [SharedKey(b, keys)] == [SharedKey(a, keys), SharedKey(b, keys)];
  }

  lemma TwoReversed<T>(a: T, b: T)
    ensures Reversed([a, b]) == [b, a]
  {
    assert [a, b][1..] == [b] && [b][1..] == [];
    assert Reversed([b]) == [b];
  }

  /** The same tables and the same row: a link if the profile's row comes back first, a review if the mailbox's does. */
  lemma OrderDecides(handle: string, mailbox: string)
    ensures var keys := ProfileFirst(handle, mailbox);
      && CandidatesFor(KnownPerson(AsStored, handle, mailbox), Person, keys).kind == Link
      && CandidatesFor(KnownPerson(Backwards, handle, mailbox), Person, keys).kind == Review
  {
    hide SharedKey, Overlaps, Decide, FindAmong, Score;
    var rows, keys := KnownRows(handle, mailbox), ProfileFirst(handle, mailbox);
    BothAreFound(AsStored, handle, mailbox);
    BothAreFound(Backwards, handle, mailbox);
    SharedOne(handle, mailbox);
    TwoReversed(rows[0], rows[1]);
    TwoOfOneEntity(rows[0], rows[1], keys);
    TwoOfOneEntity(rows[1], rows[0], keys);
    SameEvidenceLinksOrAsks(0, handle, mailbox);
  }
}

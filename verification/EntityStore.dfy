/** The resolution tables, and every statement on them as one step. */
module EntityStore {
  import opened Ordering
  import opened Keys
  import opened Scoring

  type RecordId = nat

  datatype Status = Active | Merged(into: EntityId)
  datatype Entity = Entity(entityType: EntityType, status: Status, firstSeen: RecordId)

  datatype LinkKey = LinkKey(record: RecordId, role: Role)
  datatype MatchStatus = AutoLinked | NewEntity
  datatype MatchMethod = NoIdentityKeys | NoMatch | ByKey(keyType: KeyType)
  datatype RecordLink = RecordLink(entity: EntityId, entityType: EntityType, batch: nat, sourceId: string,
                                   matchMethod: MatchMethod, confidence: nat, matchStatus: MatchStatus)

  datatype KeyRow = KeyRow(entity: EntityId, entityType: EntityType, keyType: KeyType, keyValue: string,
                           strength: Strength, sourceRecord: RecordId)

  /** A candidate row is unique per (record, entity), so the pair names it. */
  datatype CandidateId = CandidateId(record: RecordId, entity: EntityId)
  datatype CandidateStatus = Open | Accepted | Rejected
  datatype Candidate = Candidate(entityType: EntityType, strongest: KeyType, confidence: nat, status: CandidateStatus)

  datatype MergeRow = MergeRow(merged: EntityId, surviving: EntityId, entityType: EntityType, confidence: nat,
                               recordsMoved: nat, keysMoved: nat)

  /** A lookup asks for no order: the rows it finds come back in one that may depend on all the table holds. */
  type RowOrder = f: (seq<KeyRow>, seq<KeyRow>) -> seq<KeyRow> | forall table, rows :: multiset(f(table, rows)) == multiset(rows)
    witness (table: seq<KeyRow>, rows: seq<KeyRow>) => rows

  /** Key rows and merge rows are in insertion order; `order` is the one lookups return key rows in. */
  datatype Store = Store(entities: map<EntityId, Entity>, links: map<LinkKey, RecordLink>, keys: seq<KeyRow>,
                         candidates: map<CandidateId, Candidate>, merges: seq<MergeRow>, order: RowOrder)

  function EmptyStore(order: RowOrder): Store { Store(map[], map[], [], map[], [], order) }

  // ---- keys ------------------------------------------------------------------

  function RowMarker(row: KeyRow): Marker { Marker(row.keyType, row.keyValue) }

  predicate HasKey(rows: seq<KeyRow>, e: EntityId, m: Marker) {
    exists i :: 0 <= i < |rows| && rows[i].entity == e && RowMarker(rows[i]) == m
  }

  /** INSERT ... ON CONFLICT (entity_id, key_type, key_value) DO NOTHING. */
  function WithRow(rows: seq<KeyRow>, row: KeyRow): seq<KeyRow> {
    if HasKey(rows, row.entity, RowMarker(row)) then rows else rows + [row]
  }

  function RowFor(e: EntityId, entityType: EntityType, record: RecordId, k: IdentityKey): KeyRow {
    KeyRow(e, entityType, k.keyType, k.keyValue, k.strength, record)
  }

  function WithKeys(rows: seq<KeyRow>, e: EntityId, entityType: EntityType, record: RecordId, ks: seq<IdentityKey>): seq<KeyRow> {
    if ks == [] then rows
    else WithRow(WithKeys(rows, e, entityType, record, ks[..|ks| - 1]), RowFor(e, entityType, record, ks[|ks| - 1]))
  }

  /** The rows of `from` among the first ones of the table, copied to `to`. */
  function CopyKeys(rows: seq<KeyRow>, some: seq<KeyRow>, from: EntityId, to: EntityId): seq<KeyRow> {
    if some == [] then rows
    else
      var init := CopyKeys(rows, some[..|some| - 1], from, to);
      var last := some[|some| - 1];
      if last.entity == from then WithRow(init, last.(entity := to)) else init
  }

  predicate IsActive(s: Store, e: EntityId) { e in s.entities && s.entities[e].status == Active }

  predicate Findable(s: Store, entityType: EntityType, keys: seq<IdentityKey>, row: KeyRow) {
    row.entityType == entityType && IsActive(s, row.entity) && HasMarker(keys, RowMarker(row))
  }

  function FindAmong(s: Store, entityType: EntityType, keys: seq<IdentityKey>, rows: seq<KeyRow>): seq<KeyRow> {
    if rows == [] then []
    else
      var init := FindAmong(s, entityType, keys, rows[..|rows| - 1]);
      if Findable(s, entityType, keys, rows[|rows| - 1]) then init + [rows[|rows| - 1]] else init
  }

  /** `find_candidates`: key rows of active entities sharing any of these keys. */
  function FindCandidates(s: Store, entityType: EntityType, keys: seq<IdentityKey>): seq<KeyRow> {
    s.order(s.keys, FindAmong(s, entityType, keys, s.keys))
  }

  /** What this record believes a key is worth. */
  function BuiltStrength(keys: seq<IdentityKey>, m: Marker, stored: Strength): Strength {
    if keys == [] then stored
    else if MarkerOf(keys[|keys| - 1]) == m then keys[|keys| - 1].strength
    else BuiltStrength(keys[..|keys| - 1], m, stored)
  }

  /** The weaker of what was stored and what was built. */
  function SharedKey(row: KeyRow, keys: seq<IdentityKey>): IdentityKey {
    var mine := BuiltStrength(keys, RowMarker(row), row.strength);
    IdentityKey(row.keyType, row.keyValue, if row.strength == Strong && mine == Strong then Strong else Moderate)
  }

  function AddOverlap(os: seq<Overlap>, e: EntityId, k: IdentityKey): seq<Overlap> {
    if os == [] then [Overlap(e, [k])]
    else if os[0].entityId == e then [Overlap(e, os[0].matched + [k])] + os[1..]
    else [os[0]] + AddOverlap(os[1..], e, k)
  }

  function Overlaps(rows: seq<KeyRow>, keys: seq<IdentityKey>): seq<Overlap> {
    if rows == [] then []
    else
      var last := rows[|rows| - 1];
      AddOverlap(Overlaps(rows[..|rows| - 1], keys), last.entity, SharedKey(last, keys))
  }

  function CandidatesFor(s: Store, entityType: EntityType, keys: seq<IdentityKey>): Decision {
    Decide(entityType, Overlaps(FindCandidates(s, entityType, keys), keys))
  }

  // ---- writing a decision ------------------------------------------------------

  function CreateEntity(s: Store, entityType: EntityType, record: RecordId, id: EntityId): Store {
    s.(entities := s.entities[id := Entity(entityType, Active, record)])
  }

  function LinkRecord(s: Store, key: LinkKey, link: RecordLink): Store {
    if key in s.links then s else s.(links := s.links[key := link])
  }

  function AddKeys(s: Store, e: EntityId, entityType: EntityType, record: RecordId, ks: seq<IdentityKey>): Store {
    s.(keys := WithKeys(s.keys, e, entityType, record, ks))
  }

  /** A filed candidate is refreshed while it is open and left alone once somebody has decided it. */
  function RecordCandidate(s: Store, id: CandidateId, c: Candidate): Store {
    if id !in s.candidates then s.(candidates := s.candidates[id := c])
    else if s.candidates[id].status == Open then
      s.(candidates := s.candidates[id := s.candidates[id].(strongest := c.strongest, confidence := c.confidence)])
    else s
  }

  /** One record in one role: its keys, and the id it takes if it needs a new entity. */
  datatype Subject = Subject(record: RecordId, role: Role, entityType: EntityType, batch: nat, sourceId: string,
                             keys: seq<IdentityKey>, newId: EntityId)

  datatype Applied = Applied(store: Store, kind: DecisionKind, entity: EntityId)

  function LinkRow(r: Subject, e: EntityId, how: MatchMethod, confidence: nat, status: MatchStatus): RecordLink {
    RecordLink(e, r.entityType, r.batch, r.sourceId, how, confidence, status)
  }

  /** `apply_decision`; no decision means no identity key could be built. */
  function ApplyDecision(s: Store, r: Subject, decision: Option<Decision>): Applied
    requires decision.Some? && decision.value.kind != New ==> decision.value.best.Some?
  {
    var at := LinkKey(r.record, r.role);
    if decision.None? then
      var made := CreateEntity(s, r.entityType, r.record, r.newId);
      Applied(LinkRecord(made, at, LinkRow(r, r.newId, NoIdentityKeys, 0, NewEntity)), New, r.newId)
    else
      var best := decision.value.best;
      if decision.value.kind == Link then
        var m := best.value;
        var linked := LinkRecord(s, at, LinkRow(r, m.entityId, ByKey(m.strongest), m.confidence, AutoLinked));
        Applied(AddKeys(linked, m.entityId, r.entityType, r.record, r.keys), Link, m.entityId)
      else
        var how := if best.Some? then ByKey(best.value.strongest) else NoMatch;
        var confidence := if best.Some? then best.value.confidence else 0;
        var made := CreateEntity(s, r.entityType, r.record, r.newId);
        var linked := LinkRecord(made, at, LinkRow(r, r.newId, how, confidence, NewEntity));
        var known := AddKeys(linked, r.newId, r.entityType, r.record, r.keys);
        if decision.value.kind == Review then
          var m := best.value;
          Applied(RecordCandidate(known, CandidateId(r.record, m.entityId),
                                  Candidate(r.entityType, m.strongest, m.confidence, Open)), Review, r.newId)
        else Applied(known, New, r.newId)
  }

  function DecisionFor(s: Store, r: Subject): (d: Option<Decision>)
    ensures d.Some? && d.value.kind != New ==> d.value.best.Some?
  {
    if r.keys == [] then None
    else
      DecisionIs(r.entityType, Overlaps(FindCandidates(s, r.entityType, r.keys), r.keys));
      Some(CandidatesFor(s, r.entityType, r.keys))
  }

  function Resolve(s: Store, r: Subject): Applied {
    ApplyDecision(s, r, DecisionFor(s, r))
  }

  // ---- tombstones ---------------------------------------------------------------

  datatype Walk = Found(entity: EntityId) | Missing | Unterminated

  function WalkFrom(s: Store, current: EntityId, lookups: nat): Walk
    decreases lookups
  {
    if lookups == 0 then Unterminated
    else if current !in s.entities then Missing
    else
      match s.entities[current].status
      case Active => Found(current)
      case Merged(into) => WalkFrom(s, into, lookups - 1)
  }

  /** How many rows a walk may look at. */
  const WALK_LIMIT := 16

  /** `resolve_entity_id`. */
  function ResolveEntityId(s: Store, id: EntityId): Walk { WalkFrom(s, id, WALK_LIMIT) }

  // ---- merging --------------------------------------------------------------------

  function Repointed(links: map<LinkKey, RecordLink>, merged: EntityId, surviving: EntityId): map<LinkKey, RecordLink> {
    map k | k in links :: if links[k].entity == merged then links[k].(entity := surviving) else links[k]
  }

  function LinksOf(links: map<LinkKey, RecordLink>, e: EntityId): set<LinkKey> {
    set k | k in links && links[k].entity == e
  }

  /** The absorbed id stays, as a tombstone pointing at the survivor. */
  function Tombstoned(entities: map<EntityId, Entity>, merged: EntityId, surviving: EntityId): map<EntityId, Entity> {
    if merged in entities then entities[merged := entities[merged].(status := Merged(surviving))] else entities
  }

  /** `merge_entities`. */
  function MergeEntities(s: Store, merged: EntityId, surviving: EntityId, entityType: EntityType, confidence: nat): Store {
    var keys := CopyKeys(s.keys, s.keys, merged, surviving);
    CopyKeysGrows(s.keys, s.keys, merged, surviving);
    var row := MergeRow(merged, surviving, entityType, confidence, |LinksOf(s.links, merged)|, |keys| - |s.keys|);
    Store(Tombstoned(s.entities, merged, surviving), Repointed(s.links, merged, surviving), keys, s.candidates, s.merges + [row],
          s.order)
  }

  lemma {:induction false} CopyKeysGrows(rows: seq<KeyRow>, some: seq<KeyRow>, from: EntityId, to: EntityId)
    ensures rows <= CopyKeys(rows, some, from, to)
  {
    if some != [] { CopyKeysGrows(rows, some[..|some| - 1], from, to); }
  }

  datatype Acceptance =
    | NotFound | NotOpen | NoSelfLink | EntityGone | ChainTooLong
    | AlreadyMerged(entity: EntityId) | Merging(merged: EntityId, surviving: EntityId)

  /** What `accept_candidate` will do; everything before `AlreadyMerged` raises and changes nothing. */
  function AcceptanceOf(s: Store, id: CandidateId): Acceptance {
    var self := LinkKey(id.record, Self);
    if id !in s.candidates then NotFound
    else if s.candidates[id].status != Open then NotOpen
    else if ResolveEntityId(s, id.entity) == Unterminated then ChainTooLong
    else if self !in s.links then NoSelfLink
    else if ResolveEntityId(s, s.links[self].entity) == Unterminated then ChainTooLong
    else
      match (ResolveEntityId(s, id.entity), ResolveEntityId(s, s.links[self].entity))
      case (Found(surviving), Found(merged)) =>
        if surviving == merged then AlreadyMerged(surviving) else Merging(merged, surviving)
      case _ => EntityGone
  }

  function CloseCandidate(s: Store, id: CandidateId, status: CandidateStatus): Store
    requires id in s.candidates
  {
    s.(candidates := s.candidates[id := s.candidates[id].(status := status)])
  }

  function Accept(s: Store, id: CandidateId): Store {
    match AcceptanceOf(s, id)
    case AlreadyMerged(_) => CloseCandidate(s, id, Accepted)
    case Merging(merged, surviving) =>
      CloseCandidate(MergeEntities(s, merged, surviving, s.candidates[id].entityType, s.candidates[id].confidence), id, Accepted)
    case _ => s
  }

  function Reject(s: Store, id: CandidateId): Store {
    if id in s.candidates && s.candidates[id].status == Open then CloseCandidate(s, id, Rejected) else s
  }

  // ---- the tables as the code updates them ---------------------------------------

  class EntityTables {
    var entities: map<EntityId, Entity>
    var links: map<LinkKey, RecordLink>
    var keys: seq<KeyRow>
    var candidates: map<CandidateId, Candidate>
    var merges: seq<MergeRow>
    const order: RowOrder

    ghost function State(): Store
      reads this
    {
      Store(entities, links, keys, candidates, merges, order)
    }

    constructor (order: RowOrder)
      ensures State() == EmptyStore(order)
    {
      entities, links, keys, candidates, merges := map[], map[], [], map[], [];
      this.order := order;
    }

    method InsertKeys(e: EntityId, entityType: EntityType, record: RecordId, ks: seq<IdentityKey>)
      modifies this`keys
      ensures State() == AddKeys(old(State()), e, entityType, record, ks)
    {
      for i := 0 to |ks|
        invariant keys == WithKeys(old(keys), e, entityType, record, ks[..i])
      {
        assert ks[..i + 1][..i] == ks[..i];
        if !HasKey(keys, e, MarkerOf(ks[i])) {
          keys := keys + [RowFor(e, entityType, record, ks[i])];
        }
      }
      assert ks[..|ks|] == ks;
    }

    method InsertLink(key: LinkKey, link: RecordLink)
      modifies this`links
      ensures State() == LinkRecord(old(State()), key, link)
    {
      if key !in links {
        links := links[key := link];
      }
    }

    method UpsertCandidate(id: CandidateId, c: Candidate)
      modifies this`candidates
      ensures State() == RecordCandidate(old(State()), id, c)
    {
      if id !in candidates {
        candidates := candidates[id := c];
      } else if candidates[id].status == Open {
        candidates := candidates[id := candidates[id].(strongest := c.strongest, confidence := c.confidence)];
      }
    }

    /** Which rows the keys reach, grouped per entity in the order the rows come back. */
    method LookUp(entityType: EntityType, ks: seq<IdentityKey>) returns (decision: Decision)
      ensures decision == CandidatesFor(State(), entityType, ks)
    {
      var rows: seq<KeyRow> := [];
      for i := 0 to |keys|
        invariant rows == FindAmong(State(), entityType, ks, keys[..i])
      {
        assert keys[..i + 1][..i] == keys[..i];
        var row := keys[i];
        if row.entityType == entityType && row.entity in entities && entities[row.entity].status == Active
           && HasMarker(ks, RowMarker(row)) {
          rows := rows + [row];
        }
      }
      assert keys[..|keys|] == keys;
      rows := order(keys, rows);
      var overlaps: seq<Overlap> := [];
      for i := 0 to |rows|
        invariant overlaps == Overlaps(rows[..i], ks)
      {
        assert rows[..i + 1][..i] == rows[..i];
        overlaps := AddOverlap(overlaps, rows[i].entity, SharedKey(rows[i], ks));
      }
      assert rows[..|rows|] == rows;
      decision := Decide(entityType, overlaps);
    }

    /** One record in one role: read, then write what the decision means, in the order the code writes it. */
    method ResolveSubject(r: Subject) returns (kind: DecisionKind, entity: EntityId)
      requires r.newId !in entities
      modifies this
      ensures Applied(State(), kind, entity) == Resolve(old(State()), r)
    {
      var at := LinkKey(r.record, r.role);
      if r.keys == [] {
        entities := entities[r.newId := Entity(r.entityType, Active, r.record)];
        InsertLink(at, LinkRow(r, r.newId, NoIdentityKeys, 0, NewEntity));
        return New, r.newId;
      }
      var decision := LookUp(r.entityType, r.keys);
      DecisionIs(r.entityType, Overlaps(FindCandidates(State(), r.entityType, r.keys), r.keys));
      if decision.kind == Link {
        var m := decision.best.value;
        InsertLink(at, LinkRow(r, m.entityId, ByKey(m.strongest), m.confidence, AutoLinked));
        InsertKeys(m.entityId, r.entityType, r.record, r.keys);
        return Link, m.entityId;
      }
      entities := entities[r.newId := Entity(r.entityType, Active, r.record)];
      if decision.best.Some? {
        InsertLink(at, LinkRow(r, r.newId, ByKey(decision.best.value.strongest), decision.best.value.confidence, NewEntity));
      } else {
        InsertLink(at, LinkRow(r, r.newId, NoMatch, 0, NewEntity));
      }
      InsertKeys(r.newId, r.entityType, r.record, r.keys);
      if decision.kind == Review {
        var m := decision.best.value;
        UpsertCandidate(CandidateId(r.record, m.entityId), Candidate(r.entityType, m.strongest, m.confidence, Open));
      }
      return decision.kind, r.newId;
    }

    /** The bounded walk, one row per turn of the loop. */
    method FollowTombstones(id: EntityId) returns (found: Walk)
      ensures found == ResolveEntityId(State(), id)
    {
      var current := id;
      for looked := 0 to WALK_LIMIT
        invariant ResolveEntityId(State(), id) == WalkFrom(State(), current, WALK_LIMIT - looked)
      {
        if current !in entities {
          return Missing;
        }
        if entities[current].status == Active {
          return Found(current);
        }
        current := entities[current].status.into;
      }
      return Unterminated;
    }

    method MergeInto(merged: EntityId, surviving: EntityId, entityType: EntityType, confidence: nat)
      returns (recordsMoved: nat, keysMoved: nat)
      modifies this
      ensures State() == MergeEntities(old(State()), merged, surviving, entityType, confidence)
      ensures recordsMoved == |LinksOf(old(links), merged)| && keysMoved == |keys| - |old(keys)|
    {
      recordsMoved := |LinksOf(links, merged)|;
      links := Repointed(links, merged, surviving);
      var table := keys;
      for i := 0 to |table|
        invariant keys == CopyKeys(table, table[..i], merged, surviving)
        invariant links == Repointed(old(links), merged, surviving)
        invariant entities == old(entities) && candidates == old(candidates) && merges == old(merges)
      {
        assert table[..i + 1][..i] == table[..i];
        if table[i].entity == merged {
          var copy := table[i].(entity := surviving);
          if !HasKey(keys, surviving, RowMarker(copy)) {
            keys := keys + [copy];
          }
        }
      }
      assert table[..|table|] == table;
      CopyKeysGrows(table, table, merged, surviving);
      keysMoved := |keys| - |table|;
      if merged in entities {
        entities := entities[merged := entities[merged].(status := Merged(surviving))];
      }
      merges := merges + [MergeRow(merged, surviving, entityType, confidence, recordsMoved, keysMoved)];
    }

    method AcceptCandidate(id: CandidateId) returns (outcome: Acceptance)
      modifies this
      ensures outcome == AcceptanceOf(old(State()), id)
      ensures State() == Accept(old(State()), id)
    {
      if id !in candidates { return NotFound; }
      if candidates[id].status != Open { return NotOpen; }
      var surviving := FollowTombstones(id.entity);
      if surviving == Unterminated { return ChainTooLong; }
      var self := LinkKey(id.record, Self);
      if self !in links { return NoSelfLink; }
      var merged := FollowTombstones(links[self].entity);
      if merged == Unterminated { return ChainTooLong; }
      if surviving == Missing || merged == Missing { return EntityGone; }
      if surviving.entity == merged.entity {
        candidates := candidates[id := candidates[id].(status := Accepted)];
        return AlreadyMerged(surviving.entity);
      }
      var _, _ := MergeInto(merged.entity, surviving.entity, candidates[id].entityType, candidates[id].confidence);
      candidates := candidates[id := candidates[id].(status := Accepted)];
      return Merging(merged.entity, surviving.entity);
    }

    method RejectCandidate(id: CandidateId) returns (done: bool)
      modifies this`candidates
      ensures State() == Reject(old(State()), id)
      ensures done <==> id in old(candidates) && old(candidates)[id].status == Open
    {
      done := id in candidates && candidates[id].status == Open;
      if done {
        candidates := candidates[id := candidates[id].(status := Rejected)];
      }
    }
  }
}

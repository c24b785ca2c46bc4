/** Tombstones form a forest, and the merge log is an independent account of it. */
module MergeForest {
  import opened Ordering
  import opened Keys
  import opened Scoring
  import opened EntityStore

  /** Where an id ends up once every merge in the log has happened, in order. */
  function RootOf(log: seq<MergeRow>, id: EntityId): EntityId {
    if log == [] then id
    else if log[0].merged == id then RootOf(log[1..], log[0].surviving)
    else RootOf(log[1..], id)
  }

  /** How many of those merges moved it. */
  function Hops(log: seq<MergeRow>, id: EntityId): (n: nat)
    ensures n <= |log|
  {
    if log == [] then 0
    else if log[0].merged == id then 1 + Hops(log[1..], log[0].surviving)
    else Hops(log[1..], id)
  }

  /** Nothing is absorbed twice, and nothing absorbs after being absorbed. */
  ghost predicate WellOrdered(log: seq<MergeRow>) {
    && (forall i, j :: 0 <= i < j < |log| ==> log[i].merged != log[j].merged)
    && (forall i, j :: 0 <= j <= i < |log| ==> log[j].merged != log[i].surviving)
  }

  ghost predicate AbsorbedIn(log: seq<MergeRow>, id: EntityId) {
    exists i :: 0 <= i < |log| && log[i].merged == id
  }

  /** The entity table and the merge log tell the same story. */
  ghost predicate Forest(s: Store) {
    && WellOrdered(s.merges)
    && (forall i :: 0 <= i < |s.merges| ==>
          && s.merges[i].merged in s.entities
          && s.merges[i].surviving in s.entities
          && s.entities[s.merges[i].merged].status == Merged(s.merges[i].surviving))
    && (forall e :: e in s.entities && s.entities[e].status.Merged? ==> AbsorbedIn(s.merges, e))
  }

  lemma {:induction false} RootConcat(a: seq<MergeRow>, b: seq<MergeRow>, id: EntityId)
    ensures RootOf(a + b, id) == RootOf(b, RootOf(a, id))
    ensures Hops(a + b, id) == Hops(a, id) + Hops(b, RootOf(a, id))
  {
    if a == [] {
      assert a + b == b;
    } else {
      assert (a + b)[1..] == a[1..] + b;
      RootConcat(a[1..], b, if a[0].merged == id then a[0].surviving else id);
    }
  }

  lemma {:induction false} UnabsorbedIsRoot(log: seq<MergeRow>, id: EntityId)
    requires !AbsorbedIn(log, id)
    ensures RootOf(log, id) == id && Hops(log, id) == 0
  {
    if log != [] {
      assert log[0].merged != id;
      forall i | 0 <= i < |log[1..]| ensures log[1..][i].merged != id { assert log[1..][i] == log[i + 1]; }
      UnabsorbedIsRoot(log[1..], id);
    }
  }

  /** No merge in the log absorbs a root, so looking up a root finds itself. */
  lemma {:induction false} RootIsUnabsorbed(log: seq<MergeRow>, id: EntityId)
    requires WellOrdered(log)
    ensures !AbsorbedIn(log, RootOf(log, id))
    ensures RootOf(log, RootOf(log, id)) == RootOf(log, id)
    decreases |log|
  {
    if log != [] {
      var n := |log| - 1;
      var init, last := log[..n], log[n];
      assert log == init + [last];
      RootIsUnabsorbed(init, id);
      RootConcat(init, [last], id);
      var x := RootOf(init, id);
      assert RootOf([last], x) == if x == last.merged then last.surviving else x by { assert [last][1..] == []; }
      forall i | 0 <= i < |log| ensures log[i].merged != RootOf(log, id) {
        if i < n { assert log[i] == init[i]; }
      }
    }
    UnabsorbedIsRoot(log, RootOf(log, id));
  }

  /** One step along a tombstone is one hop towards the same root. */
  lemma NextHop(log: seq<MergeRow>, i: nat)
    requires WellOrdered(log) && i < |log|
    ensures RootOf(log, log[i].merged) == RootOf(log, log[i].surviving)
    ensures Hops(log, log[i].merged) == 1 + Hops(log, log[i].surviving)
  {
    var before, rest := log[..i], log[i..];
    assert log == before + rest && rest[0] == log[i];
    RootConcat(before, rest, log[i].merged);
    RootConcat(before, rest, log[i].surviving);
    UnabsorbedIsRoot(before, log[i].merged);
    UnabsorbedIsRoot(before, log[i].surviving);
  }

  lemma ActiveIsRoot(s: Store, id: EntityId)
    requires Forest(s) && IsActive(s, id)
    ensures !AbsorbedIn(s.merges, id)
    ensures RootOf(s.merges, id) == id && Hops(s.merges, id) == 0
  {
    UnabsorbedIsRoot(s.merges, id);
  }

  /** Every id ends at an active entity. */
  lemma {:induction false} RootIsActive(s: Store, id: EntityId)
    requires Forest(s) && id in s.entities
    ensures IsActive(s, RootOf(s.merges, id))
    decreases Hops(s.merges, id)
  {
    if s.entities[id].status.Merged? {
      var i :| 0 <= i < |s.merges| && s.merges[i].merged == id;
      NextHop(s.merges, i);
      RootIsActive(s, s.merges[i].surviving);
    } else {
      ActiveIsRoot(s, id);
    }
  }

  /**
   * A walk of `lookups` rows over the tombstones finds the root exactly when the id is fewer hops
   * away than that, and gives up otherwise; the tombstones never form a cycle.
   */
  lemma {:induction false} WalkFindsRootIff(s: Store, id: EntityId, lookups: nat)
    requires Forest(s) && id in s.entities
    ensures WalkFrom(s, id, lookups) ==
      if Hops(s.merges, id) < lookups then Found(RootOf(s.merges, id)) else Unterminated
    decreases lookups
  {
    hide RootOf, Hops;
    if lookups != 0 {
      match s.entities[id].status
      case Active => ActiveIsRoot(s, id);
      case Merged(into) =>
        var i :| 0 <= i < |s.merges| && s.merges[i].merged == id;
        NextHop(s.merges, i);
        WalkFindsRootIff(s, into, lookups - 1);
    }
  }

  /** The walk the resolver makes: at most 15 hops resolve, 16 or more raise, an unknown id is missing. */
  lemma ResolvesIffWithinFifteenHops(s: Store, id: EntityId)
    requires Forest(s)
    ensures ResolveEntityId(s, id) ==
      if id !in s.entities then Missing
      else if Hops(s.merges, id) <= 15 then Found(RootOf(s.merges, id))
      else Unterminated
  {
    if id in s.entities { WalkFindsRootIff(s, id, WALK_LIMIT); }
  }

  /** While no more than 15 merges have ever been made, every id handed out resolves. */
  lemma FewMergesAlwaysResolve(s: Store, id: EntityId)
    requires Forest(s) && id in s.entities && |s.merges| <= 15
    ensures ResolveEntityId(s, id) == Found(RootOf(s.merges, id))
  {
    ResolvesIffWithinFifteenHops(s, id);
  }

  // ---- the second copy of the walk ---------------------------------------------

  datatype Lineage = Row(entity: EntityId, requested: EntityId, wasMerged: bool) | NoRow | NoEnd

  /** `resolve_entity` of the lineage module: its own loop, returning the row rather than the id. */
  method ResolveEntity(s: Store, id: EntityId) returns (r: Lineage)
    ensures r == match ResolveEntityId(s, id)
                 case Found(e) => Row(e, id, e != id)
                 case Missing => NoRow
                 case Unterminated => NoEnd
  {
    var current := id;
    for looked := 0 to WALK_LIMIT
      invariant ResolveEntityId(s, id) == WalkFrom(s, current, WALK_LIMIT - looked)
    {
      if current !in s.entities { return NoRow; }
      if s.entities[current].status == Active { return Row(current, id, current != id); }
      current := s.entities[current].status.into;
    }
    return NoEnd;
  }

  // ---- counting -------------------------------------------------------------------

  function Absorbed(log: seq<MergeRow>): set<EntityId> {
    set i | 0 <= i < |log| :: log[i].merged
  }

  lemma {:induction false} AbsorbedCount(log: seq<MergeRow>)
    requires forall i, j :: 0 <= i < j < |log| ==> log[i].merged != log[j].merged
    ensures |Absorbed(log)| == |log|
  {
    if log != [] {
      var n := |log| - 1;
      AbsorbedCount(log[..n]);
      forall e ensures e in Absorbed(log) <==> e in Absorbed(log[..n]) + {log[n].merged} {
        if e in Absorbed(log) { var i :| 0 <= i < |log| && log[i].merged == e; if i < n { assert log[..n][i] == log[i]; } }
        if e in Absorbed(log[..n]) { var i :| 0 <= i < n && log[..n][i].merged == e; assert log[i].merged == e; }
      }
      assert Absorbed(log) == Absorbed(log[..n]) + {log[n].merged};
      assert log[n].merged !in Absorbed(log[..n]);
    } else {
      assert Absorbed(log) == {};
    }
  }

  function ActiveEntities(s: Store): set<EntityId> {
    set e | e in s.entities && s.entities[e].status == Active
  }

  /** Each merge retires exactly one entity, and nothing else does. */
  lemma ActiveCount(s: Store)
    requires Forest(s)
    ensures |ActiveEntities(s)| + |s.merges| == |s.entities|
  {
    AbsorbedCount(s.merges);
    forall e ensures e in s.entities.Keys <==> e in ActiveEntities(s) + Absorbed(s.merges) {
      if e in s.entities && s.entities[e].status.Merged? { assert AbsorbedIn(s.merges, e); }
    }
    assert s.entities.Keys == ActiveEntities(s) + Absorbed(s.merges);
    assert ActiveEntities(s) !! Absorbed(s.merges);
  }
}

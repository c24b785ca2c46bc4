/** The limit of the tombstone walk is reachable: premises that overlap pairwise, accepted youngest first. */
module TombstoneChains {
  import opened Ordering
  import opened Keys
  import opened Scoring
  import opened Sequences
  import opened EntityStore
  import opened MergeForest
  import opened StableIds

  /** Distinct host names, by length. */
  function Host(k: nat): string { seq(k + 1, _ => 'x') + ".com" }

  function HostKey(k: nat): IdentityKey { IdentityKey(WebsiteDomain, Host(k), Moderate) }

  /** Listing k of a source of premises shares one demoted host with listing k - 1, and nothing else with anyone. */
  function Listing(k: nat): Subject {
    Subject(k, Self, Company, 0, "", [HostKey(k), HostKey(k + 1)], k)
  }

  lemma TwoSites(a: string, b: string, read: string -> Option<string>)
    requires a != "" && b != "" && read(a) == Some(a) && read(b) == Some(b)
    ensures UrlKeys([a, b], read, WebsiteDomain) == [IdentityKey(WebsiteDomain, a, Strong), IdentityKey(WebsiteDomain, b, Strong)]
  {
    assert [a, b][..1] == [a] && [a][..0] == [];
    assert UrlKeys([a], read, WebsiteDomain) == [IdentityKey(WebsiteDomain, a, Strong)];
  }

  /** Those are the keys such a listing gets for its two web sites. */
  lemma ListingKeysAreBuilt(k: nat)
    ensures KeysFor(Company, map["website" := [Host(k), Host(k + 1)]], "", false, Location,
                    UrlReaders(u => Some(u), u => None)) == Listing(k).keys
  {
    hide RawCompanyKeys, Deduped, UrlKeys, Host;
    var values: Values := map["website" := [Host(k), Host(k + 1)]];
    var urls := UrlReaders(u => Some(u), u => None);
    var a, b := Host(k), Host(k + 1);
    HostsDiffer(k, k + 1);
    OnlySites(values, "", urls);
    HostIsNamed(k);
    HostIsNamed(k + 1);
    TwoSites(a, b, urls.domain);
    TwoDistinct(IdentityKey(WebsiteDomain, a, Strong), IdentityKey(WebsiteDomain, b, Strong));
  }

  lemma HostIsNamed(k: nat)
    ensures Host(k) != ""
  {
  }

  function ListingRow(i: nat): KeyRow { KeyRow(i / 2, Company, WebsiteDomain, Host((i + 1) / 2), Moderate, i / 2) }

  /** The candidate filed for listing k + 1: it may be listing k. */
  function Proposal(k: nat): CandidateId { CandidateId(k + 1, k) }

  function SelfLink(k: nat): LinkKey { LinkKey(k, Self) }

  // ---- n listings, all separate -----------------------------------------------------------

  ghost predicate Separate(s: Store, n: nat) {
    && s.merges == []
    && (forall e: nat :: e in s.entities <==> e < n)
    && (forall e: nat :: e in s.entities ==> s.entities[e].status == Active)
    && |s.keys| == 2 * n && (forall i: nat :: i < 2 * n ==> s.keys[i] == ListingRow(i))
    && s.links.Keys == (set k: nat | 0 <= k < n :: SelfLink(k))
    && (forall k: nat :: k < n ==> s.links[SelfLink(k)].entity == k)
    && (forall k: nat :: k + 1 < n ==> Proposal(k) in s.candidates && s.candidates[Proposal(k)].status == Open)
    && (forall id :: id in s.candidates ==> id.record < n)
  }

  lemma HostsDiffer(a: nat, b: nat)
    ensures Host(a) == Host(b) <==> a == b
  {
    assert |Host(a)| == a + 5 && |Host(b)| == b + 5;
  }

  lemma ListingHasMarker(n: nat, x: nat)
    ensures HasMarker(Listing(n).keys, Marker(WebsiteDomain, Host(x))) <==> x == n || x == n + 1
  {
    var keys := Listing(n).keys;
    assert MarkerOf(keys[0]) == Marker(WebsiteDomain, Host(n)) && MarkerOf(keys[1]) == Marker(WebsiteDomain, Host(n + 1));
    HostsDiffer(x, n);
    HostsDiffer(x, n + 1);
  }

  lemma {:induction false} FindsOnlyPrevious(s: Store, n: nat, j: nat)
    requires Separate(s, n) && j <= 2 * n
    ensures FindAmong(s, Company, Listing(n).keys, s.keys[..j]) ==
      if n > 0 && j == 2 * n then [ListingRow(2 * n - 1)] else []
  {
    if j > 0 {
      FindsOnlyPrevious(s, n, j - 1);
      assert s.keys[..j][..j - 1] == s.keys[..j - 1];
      assert s.keys[j - 1] == ListingRow(j - 1);
      ListingHasMarker(n, j / 2);
      assert IsActive(s, (j - 1) / 2);
    }
  }

  /** One moderate host in common is worth 0.89: a person has to look. */
  lemma OneHostIsReviewed(e: EntityId, k: IdentityKey)
    requires k.keyType == WebsiteDomain && k.strength == Moderate
    ensures var m := Match(e, 89, WebsiteDomain, [MarkerOf(k)]);
      Decide(Company, [Overlap(e, [k])]) == Decision(Review, Some(m), [m])
  {
    assert Ranked(Company, [k]) == [k] by { assert [k][1..] == []; }
    assert Types([k]) == {WebsiteDomain};
    assert Score(Company, e, [k]) == Match(e, 89, WebsiteDomain, [MarkerOf(k)]);
    assert [Overlap(e, [k])][1..] == [];
    var m := Score(Company, e, [k]);
    assert Scored(Company, [Overlap(e, [k])]) == [m];
    assert SortMatches([m]) == [m] by { assert [m][1..] == []; }
  }

  lemma ListingDecision(s: Store, n: nat)
    requires Separate(s, n)
    ensures var d := DecisionFor(s, Listing(n));
      && d.Some? && (if n == 0 then d.value.kind == New
                     else d.value.kind == Review && d.value.best.Some? && d.value.best.value.entityId == n - 1)
  {
    FindsOnlyPrevious(s, n, 2 * n);
    assert s.keys[..2 * n] == s.keys;
    var keys := Listing(n).keys;
    FewHaveOneOrder(FindCandidates(s, Company, keys), FindAmong(s, Company, keys, s.keys));
    if n == 0 {
      assert Overlaps([], keys) == [];
      assert Scored(Company, []) == [];
    } else {
      var row := ListingRow(2 * n - 1);
      assert [row][..0] == [];
      assert Overlaps([row], keys) == [Overlap(n - 1, [SharedKey(row, keys)])];
      OneHostIsReviewed(n - 1, SharedKey(row, keys));
    }
  }

  lemma TwoKeysAdded(rows: seq<KeyRow>, e: EntityId, record: RecordId, a: IdentityKey, b: IdentityKey)
    ensures WithKeys(rows, e, Company, record, [a, b]) ==
      WithRow(WithRow(rows, RowFor(e, Company, record, a)), RowFor(e, Company, record, b))
  {
    assert [a, b][..1] == [a] && [a][..0] == [];
    assert WithKeys(rows, e, Company, record, [a]) == WithRow(rows, RowFor(e, Company, record, a));
  }

  lemma NobodyYet(rows: seq<KeyRow>, n: nat, m: Marker)
    requires |rows| == 2 * n && forall i: nat :: i < 2 * n ==> rows[i] == ListingRow(i)
    ensures !HasKey(rows, n, m)
  {
  }

  lemma AddsBothHosts(rows: seq<KeyRow>, n: nat)
    requires |rows| == 2 * n && forall i: nat :: i < 2 * n ==> rows[i] == ListingRow(i)
    ensures WithKeys(rows, n, Company, n, Listing(n).keys) == rows + [ListingRow(2 * n), ListingRow(2 * n + 1)]
  {
    hide WithKeys, Host;
    var a, b := RowFor(n, Company, n, HostKey(n)), RowFor(n, Company, n, HostKey(n + 1));
    assert a == ListingRow(2 * n) && b == ListingRow(2 * n + 1);
    TwoKeysAdded(rows, n, n, HostKey(n), HostKey(n + 1));
    NobodyYet(rows, n, RowMarker(a));
    NobodyYet(rows, n, RowMarker(b));
    HostsDiffer(n, n + 1);
    assert rows + [a] + [b] == rows + [a, b];
  }

  /** The tables once listing n has come in. */
  function WithListing(s: Store, n: nat, link: RecordLink, c: Candidate): Store {
    Store(s.entities[n := Entity(Company, Active, n)], s.links[SelfLink(n) := link],
          s.keys + [ListingRow(2 * n), ListingRow(2 * n + 1)],
          if n == 0 then s.candidates else s.candidates[Proposal(n - 1) := c], s.merges, s.order)
  }

  function ListingCandidate(d: Decision): Candidate {
    if d.best.None? then Candidate(Company, Name, 0, Open)
    else Candidate(Company, d.best.value.strongest, d.best.value.confidence, Open)
  }

  lemma NewListingIs(s: Store, n: nat, d: Decision)
    requires SelfLink(n) !in s.links && (n > 0 ==> Proposal(n - 1) !in s.candidates)
    requires if n == 0 then d.kind == New else d.kind == Review && d.best.Some? && d.best.value.entityId == n - 1
    requires WithKeys(s.keys, n, Company, n, Listing(n).keys) == s.keys + [ListingRow(2 * n), ListingRow(2 * n + 1)]
    ensures AsNewOrReview(s, Listing(n), d) == WithListing(s, n, ShortfallLink(Listing(n), d.best), ListingCandidate(d))
  {
  }

  lemma ResolveListingIs(s: Store, n: nat)
    requires Separate(s, n)
    ensures CanResolve(s, Listing(n), None)
    ensures DecisionFor(s, Listing(n)).Some?
    ensures ResolveRecord(s, Listing(n), None) == AsNewOrReview(s, Listing(n), DecisionFor(s, Listing(n)).value)
  {
    ListingDecision(s, n);
    ApplyNewIs(s, Listing(n), DecisionFor(s, Listing(n)).value);
  }

  lemma WithListingIsSeparate(s: Store, n: nat, link: RecordLink, c: Candidate)
    requires Separate(s, n) && link.entity == n && c.status == Open
    ensures Separate(WithListing(s, n, link, c), n + 1)
  {
    hide ListingRow, Listing;
    var t := WithListing(s, n, link, c);
    forall k: nat | k + 1 < n + 1 ensures Proposal(k) in t.candidates && t.candidates[Proposal(k)].status == Open {
      if k + 1 < n { assert Proposal(k) in s.candidates; }
    }
  }

  lemma ResolveListing(s: Store, n: nat)
    requires Separate(s, n)
    ensures CanResolve(s, Listing(n), None)
    ensures Separate(ResolveRecord(s, Listing(n), None), n + 1)
  {
    ResolveListingIs(s, n);
    var d := DecisionFor(s, Listing(n)).value;
    assert if n == 0 then d.kind == New else d.kind == Review && d.best.Some? && d.best.value.entityId == n - 1 by {
      ListingDecision(s, n);
    }
    AddsBothHosts(s.keys, n);
    NewListingIs(s, n, d);
    WithListingIsSeparate(s, n, ShortfallLink(Listing(n), d.best), ListingCandidate(d));
  }

  function Listings(n: nat): seq<Op> {
    if n == 0 then [] else Listings(n - 1) + [ResolveOp(Listing(n - 1), None)]
  }

  lemma NothingRun(s: Store)
    ensures Run(s, []) == s
  {
  }

  lemma NoneIsSeparate(order: RowOrder)
    ensures Separate(EmptyStore(order), 0)
  {
    assert EmptyStore(order).links.Keys == (set k: nat | 0 <= k < 0 :: SelfLink(k));
  }

  lemma {:induction false} ListingsAreSeparate(order: RowOrder, n: nat)
    ensures Separate(Run(EmptyStore(order), Listings(n)), n)
  {
    hide Separate, ResolveRecord, CanResolve, Run;
    if n == 0 {
      NothingRun(EmptyStore(order));
      NoneIsSeparate(order);
    } else {
      ListingsAreSeparate(order, n - 1);
      RunOneMore(EmptyStore(order), Listings(n - 1), ResolveOp(Listing(n - 1), None));
      ResolveListing(Run(EmptyStore(order), Listings(n - 1)), n - 1);
    }
  }

  // ---- m of the candidates accepted, youngest first -----------------------------------------

  /** The oldest n - m entities are left, and the youngest is m hops from its root. */
  ghost predicate Chained(s: Store, n: nat, m: nat)
    requires m < n
  {
    && |s.merges| == m
    && (forall i: nat :: i < m ==> s.merges[i].merged == n - 1 - i && s.merges[i].surviving == n - 2 - i)
    && (forall e: nat :: e < n ==> e in s.entities)
    && (forall e: nat :: e < n - m ==> s.entities[e].status == Active)
    && (forall k: nat :: k < n - m ==> SelfLink(k) in s.links && s.links[SelfLink(k)].entity == k)
    && (forall k: nat :: k + 1 < n - m ==> Proposal(k) in s.candidates && s.candidates[Proposal(k)].status == Open)
  }

  lemma AcceptNext(s: Store, n: nat, m: nat)
    requires m + 1 < n && Chained(s, n, m)
    ensures Chained(Accept(s, Proposal(n - 2 - m)), n, m + 1)
  {
    var k := n - 2 - m;
    var id := Proposal(k);
    assert id in s.candidates;
    assert SelfLink(k + 1) in s.links && s.links[SelfLink(k + 1)].entity == k + 1;
    assert ResolveEntityId(s, k) == Found(k) && ResolveEntityId(s, k + 1) == Found(k + 1);
    assert AcceptanceOf(s, id) == Merging(k + 1, k);
    var t := Accept(s, id);
    assert t.merges[..m] == s.merges;
    assert t.merges[m].merged == k + 1 && t.merges[m].surviving == k;
    forall i: nat | i < m + 1 ensures t.merges[i].merged == n - 1 - i && t.merges[i].surviving == n - 2 - i {
      if i < m { assert t.merges[i] == s.merges[i]; }
    }
    forall j: nat | j + 1 < n - (m + 1) ensures Proposal(j) in t.candidates && t.candidates[Proposal(j)].status == Open {
      assert Proposal(j) in s.candidates && Proposal(j) != id;
    }
  }

  function Accepts(n: nat, m: nat): seq<Op>
    requires m < n
  {
    if m == 0 then [] else Accepts(n, m - 1) + [AcceptOp(Proposal(n - 1 - m))]
  }

  lemma {:induction false} AcceptsMakeChain(s: Store, n: nat, m: nat)
    requires m < n && Chained(s, n, 0)
    ensures Chained(Run(s, Accepts(n, m)), n, m)
  {
    hide Chained, Accept, Run;
    if m == 0 {
      NothingRun(s);
    } else {
      AcceptsMakeChain(s, n, m - 1);
      var t := Run(s, Accepts(n, m - 1));
      var op := AcceptOp(Proposal(n - 1 - m));
      RunOneMore(s, Accepts(n, m - 1), op);
      AcceptNext(t, n, m - 1);
    }
  }

  lemma {:induction false} YoungestHops(log: seq<MergeRow>, n: nat)
    requires |log| < n
    requires forall i: nat :: i < |log| ==> log[i].merged == n - 1 - i && log[i].surviving == n - 2 - i
    ensures Hops(log, n - 1) == |log| && RootOf(log, n - 1) == n - 1 - |log|
    decreases |log|
  {
    if log != [] {
      var m := |log| - 1;
      var init, last := log[..m], log[m];
      assert log == init + [last];
      YoungestHops(init, n);
      RootConcat(init, [last], n - 1);
      assert [last][1..] == [];
    }
  }

  /**
   * Whatever limit the walk had, some run of the pipeline would leave an id that many hops from its
   * root: every depth is reached by listings and accepts alone.
   */
  lemma EveryDepthIsReachable(order: RowOrder, depth: nat)
    ensures var s := Run(EmptyStore(order), Listings(depth + 1) + Accepts(depth + 1, depth));
      depth in s.entities && Hops(s.merges, depth) == depth && RootOf(s.merges, depth) == 0
  {
    var n := depth + 1;
    var s := Run(EmptyStore(order), Listings(n));
    ListingsAreSeparate(order, n);
    RunConcat(EmptyStore(order), Listings(n), Accepts(n, depth));
    AcceptsMakeChain(s, n, depth);
    YoungestHops(Run(s, Accepts(n, depth)).merges, n);
  }

  /** Seventeen listings and sixteen accepts: an id that was handed out no longer resolves. */
  lemma HandedOutIdCanStopResolving(order: RowOrder)
    ensures var s := Run(EmptyStore(order), Listings(17) + Accepts(17, 16));
      16 in s.entities && IsActive(s, RootOf(s.merges, 16)) && ResolveEntityId(s, 16) == Unterminated
  {
    EveryDepthIsReachable(order, 16);
    HandedOutIdsResolveIff(order, Listings(17) + Accepts(17, 16), 16);
  }
}

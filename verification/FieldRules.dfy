/** Which of the reported values a field shows, field by field, said of the reports alone. */
module FieldRules {
  import opened Ordering
  import opened Sequences
  import opened Keys
  import opened Scoring
  import opened EntityStore
  import opened SourceOrder
  import opened RecordSubjects
  import opened Survivorship
  import opened GoldenTable
  import opened RecordPipeline
  import opened EntityGolden

  /** Names and codes: disagreement means somebody is wrong, so the most vendors win. */
  ghost predicate ByConsensus(entityType: EntityType, f: string) {
    match entityType
    case Person => f in {"full_name", "first_name", "last_name"}
    case Company => f in {"company_name", "legal_name", "sic_code", "sic_description", "naics_code"}
  }

  /** What changes over time: the latest report wins. */
  ghost predicate ByRecency(entityType: EntityType, f: string) {
    match entityType
    case Person =>
      f in {"job_title", "department", "company_name", "address_line1", "address_line2", "city", "state_region", "postal_code", "email_status"}
    case Company =>
      f in {"employee_count", "address_line1", "address_line2", "city", "state_region", "postal_code", "phone"}
  }

  /** What never changes: the earliest report wins. */
  ghost predicate ByFirstReport(entityType: EntityType, f: string) { entityType == Company && f == "founded_year" }

  function Vendors(os: set<Observation>, v: string): set<string> { set o | o in os && o.value == v :: o.sourceId }

  /** A report more trusted than another, or as trusted and later, or as late and first by its vendor's name and value. */
  ghost predicate MoreTrusted(o: Observation, p: Observation) {
    || o.reliability > p.reliability
    || (o.reliability == p.reliability && o.observedAt > p.observedAt)
    || (o.reliability == p.reliability && o.observedAt == p.observedAt
        && if o.sourceName == p.sourceName then o.value == p.value || TextLeq(o.value, p.value)
           else TextLeq(o.sourceName, p.sourceName))
  }

  ghost predicate Prevails(entityType: EntityType, f: string, os: set<Observation>, o: Observation, p: Observation) {
    if ByConsensus(entityType, f) then
      var mine, theirs := |Vendors(os, o.value)|, |Vendors(os, p.value)|;
      mine > theirs || (mine == theirs && MoreTrusted(o, p))
    else if ByRecency(entityType, f) then
      o.observedAt > p.observedAt || (o.observedAt == p.observedAt && MoreTrusted(o, p))
    else if ByFirstReport(entityType, f) then
      o.observedAt < p.observedAt || (o.observedAt == p.observedAt && MoreTrusted(o, p))
    else MoreTrusted(o, p)
  }

  /** A report that no other report of a value prevails over. */
  ghost predicate Wins(entityType: EntityType, f: string, os: set<Observation>, o: Observation) {
    && o in os && o.value != ""
    && forall p :: p in os && p.value != "" ==> Prevails(entityType, f, os, o, p)
  }

  function Dissent(os: set<Observation>, v: string): set<string> { set o | o in os && o.value != v && o.value != "" :: o.sourceId }

  /** The vendor's own reliability, 0.15 for every other vendor agreeing, less 0.10 for every one dissenting, within limits. */
  function Worth(os: set<Observation>, o: Observation): int {
    var score := o.reliability + 150 * (|Vendors(os, o.value)| - 1) - 100 * |Dissent(os, o.value)|;
    if score < 50 then 50 else if score > 990 then 990 else score
  }

  // ---- choosing -----------------------------------------------------------------------------------------------

  lemma TiebreakTells(o: Observation, p: Observation)
    requires KeyLeq(TiebreakKey(o), TiebreakKey(p))
    ensures MoreTrusted(o, p)
  {
    var a, b := TiebreakKey(o), TiebreakKey(p);
    if a[0] == b[0] {
      assert KeyLeq(a[1..], b[1..]);
      if a[1] == b[1] {
        assert KeyLeq(a[1..][1..], b[1..][1..]);
        assert a[1..][1..][0] == a[2] && b[1..][1..][0] == b[2];
        if a[2] == b[2] {
          assert KeyLeq(a[1..][1..][1..], b[1..][1..][1..]);
          assert a[1..][1..][1..] == [a[3]] && b[1..][1..][1..] == [b[3]];
        }
      }
    }
  }

  function Told(os: seq<Observation>): set<Observation> { set o | o in os }

  lemma GroupsAreVendors(os: seq<Observation>, v: string)
    requires v != ""
    ensures Sources(Group(Usable(os), v)) == Vendors(Told(os), v)
    ensures Dissenting(Usable(os), v) == Dissent(Told(os), v)
  {
    var us := Usable(os);
    forall s ensures s in Sources(Group(us, v)) <==> s in Vendors(Told(os), v) {
      if s in Vendors(Told(os), v) {
        var o :| o in Told(os) && o.value == v && o.sourceId == s;
        assert o in Group(us, v);
      }
    }
  }

  lemma RulesAreStrategies(entityType: EntityType, f: string)
    ensures ByConsensus(entityType, f) <==> StrategyFor(entityType, f) == MostFrequent
    ensures ByRecency(entityType, f) <==> StrategyFor(entityType, f) == MostRecent
    ensures ByFirstReport(entityType, f) <==> StrategyFor(entityType, f) == Earliest
  {
  }

  lemma PickPrevails(entityType: EntityType, f: string, os: seq<Observation>, p: Observation)
    requires Usable(os) != [] && p in os && p.value != ""
    ensures var o := Pick(StrategyFor(entityType, f), Usable(os));
      o in os && o.value != "" && Prevails(entityType, f, Told(os), o, p)
  {
    var strategy, us := StrategyFor(entityType, f), Usable(os);
    hide Pick, KeyLeq, TiebreakKey, Group, Sources, Vendors, MoreTrusted, StrategyFor, ByConsensus, ByRecency, ByFirstReport;
    RulesAreStrategies(entityType, f);
    var o := Pick(strategy, us);
    WinnerIsLeast(strategy, us);
    assert p in us;
    LeadTells(strategy, us, o, p);
    GroupsAreVendors(os, o.value);
    GroupsAreVendors(os, p.value);
    if StrategyKey(strategy, us, o)[0].n == StrategyKey(strategy, us, p)[0].n { TiebreakTells(o, p); }
  }

  /** The choice reports the winning report: its value, its spelling, its record, its vendor, and what that is worth. */
  ghost predicate Reports(c: Choice, os: set<Observation>, o: Observation) {
    && c.value == o.value && c.rawValue == o.rawValue && c.recordId == o.recordId && c.sourceId == o.sourceId
    && c.confidence == Worth(os, o) && c.supporting == |Vendors(os, o.value)|
  }

  /** Choosing follows the field's own rule, whatever the field and the entity's type. */
  lemma ChoiceFollowsItsRule(entityType: EntityType, f: string, os: seq<Observation>) returns (o: Observation)
    requires Choose(entityType, f, os).Some?
    ensures Wins(entityType, f, Told(os), o) && Reports(Choose(entityType, f, os).value, Told(os), o)
    ensures var how := Choose(entityType, f, os).value.strategy;
      && (how == MostFrequent <==> ByConsensus(entityType, f)) && (how == MostRecent <==> ByRecency(entityType, f))
      && (how == Earliest <==> ByFirstReport(entityType, f))
  {
    hide Pick, Group, Sources, Vendors, Dissenting, Dissent, Prevails, StrategyFor, ByConsensus, ByRecency, ByFirstReport;
    RulesAreStrategies(entityType, f);
    var us := Usable(os);
    o := Pick(StrategyFor(entityType, f), us);
    WinnerIsLeast(StrategyFor(entityType, f), us);
    forall p | p in os && p.value != "" ensures Prevails(entityType, f, Told(os), o, p) {
      PickPrevails(entityType, f, os, p);
    }
    GroupsAreVendors(os, o.value);
  }

  // ---- who agreed, and who said otherwise --------------------------------------------------------------------------

  lemma {:induction false} NamesAreSources(os: seq<Observation>, x: string)
    ensures x in SourceNames(os) <==> exists o :: o in os && o.sourceName == x
  {
    if os != [] { NamesAreSources(os[1..], x); }
  }

  lemma NamesOfGroup(os: seq<Observation>, v: string, x: string)
    ensures x in SortedSet(SourceNames(Group(os, v))) <==> exists o :: o in os && o.value == v && o.sourceName == x
  {
    NamesAreSources(Group(os, v), x);
  }

  /** A losing value's account: its vendors' names once each in order, and how many vendors they are. */
  ghost predicate Accounts(a: Alternative, os: set<Observation>) {
    && StrictlyAscending(a.sources)
    && (forall x :: x in a.sources <==> exists o :: o in os && o.value == a.value && o.sourceName == x)
    && a.supporting == |Vendors(os, a.value)|
  }

  lemma {:induction false} AlternativesAccount(os: seq<Observation>, values: seq<string>, winner: string, k: nat)
    requires k < |AlternativesOf(Usable(os), values, winner)| && "" !in values
    ensures Accounts(AlternativesOf(Usable(os), values, winner)[k], Told(os))
  {
    var us := Usable(os);
    if values[0] == winner {
      AlternativesAccount(os, values[1..], winner, k);
    } else if k > 0 {
      AlternativesAccount(os, values[1..], winner, k - 1);
    } else {
      var a := AlternativesOf(us, values, winner)[0];
      forall x ensures x in a.sources <==> exists o :: o in Told(os) && o.value == a.value && o.sourceName == x {
        NamesOfGroup(us, a.value, x);
        if o :| o in Told(os) && o.value == a.value && o.sourceName == x { assert o in us; }
      }
      GroupsAreVendors(os, a.value);
    }
  }

  /** The account of a choice names exactly the vendors that reported the value, and for each other value the ones that reported that. */
  lemma EvidenceNamesVendors(entityType: EntityType, f: string, os: seq<Observation>)
    requires Choose(entityType, f, os).Some?
    ensures var c := Choose(entityType, f, os).value;
      && StrictlyAscending(c.agreeing)
      && (forall x :: x in c.agreeing <==> exists o :: o in os && o.value == c.value && o.sourceName == x)
      && forall k :: 0 <= k < |c.alternatives| ==> Accounts(c.alternatives[k], Told(os))
  {
    var us, c := Usable(os), Choose(entityType, f, os).value;
    hide AlternativesOf, SourceNames, Accounts, Pick, StrategyFor;
    WinnerIsLeast(StrategyFor(entityType, f), us);
    forall x ensures x in c.agreeing <==> exists o :: o in os && o.value == c.value && o.sourceName == x {
      NamesOfGroup(us, c.value, x);
      if o :| o in os && o.value == c.value && o.sourceName == x { assert o in us; }
    }
    var values := SortedSet(GroupValues(us));
    assert "" !in values;
    forall k | 0 <= k < |c.alternatives| ensures Accounts(c.alternatives[k], Told(os)) {
      AlternativesAccount(os, values, c.value, k);
    }
  }

  // ---- what an entity shows after a build ---------------------------------------------------------------------------

  /** The reports of a field by the records linked to an entity, each about the subject it is linked as. */
  function ReportsOf(links: Links, records: Records, e: EntityId, f: string): set<Observation> {
    set k, a | k in links && links[k].entity == e && k.record in records && a in records[k.record].attributes
                 && a.field == Some(f) && a.subject == k.role && a.normalized.Some?
      :: Observation(a.normalized.value, a.raw, records[k.record].source.id, records[k.record].source.name,
                     records[k.record].source.reliability, k.record, records[k.record].observedAt)
  }

  lemma JoinTellsReports(links: Links, records: Records, e: EntityId, f: string)
    ensures (set r | r in Join(links, records, e) && r.field == f :: r.observation) == ReportsOf(links, records, e, f)
  {
    forall o ensures o in (set r | r in Join(links, records, e) && r.field == f :: r.observation) <==> o in ReportsOf(links, records, e, f) {
      if o in ReportsOf(links, records, e, f) {
        var k, a :| k in links && links[k].entity == e && k.record in records && a in records[k.record].attributes
          && a.field == Some(f) && a.subject == k.role && a.normalized.Some?
          && o == Observation(a.normalized.value, a.raw, records[k.record].source.id, records[k.record].source.name,
                              records[k.record].source.reliability, k.record, records[k.record].observedAt);
        assert Tells(a, k.role);
        assert JoinRow(f, o) in Join(links, records, e);
      }
    }
  }

  lemma ReportsClaim(links: Links, records: Records, e: EntityId, f: string, os: seq<Observation>)
    requires Told(os) == ReportsOf(links, records, e, f)
    ensures Claims(os) == ClaimsIn(Join(links, records, e), f)
  {
    hide Join, ReportsOf;
    JoinTellsReports(links, records, e, f);
    forall c ensures c in Claims(os) <==> c in ClaimsIn(Join(links, records, e), f) {
      if c in Claims(os) {
        var o :| o in os && ClaimOf(o) == c;
        assert o in Told(os);
        var r :| r in Join(links, records, e) && r.field == f && r.observation == o;
      }
      if c in ClaimsIn(Join(links, records, e), f) {
        var r :| r in Join(links, records, e) && r.field == f && ClaimOf(r.observation) == c;
        assert r.observation in Told(os);
      }
    }
  }

  /** What the table shows of a field: a value by the field's rule, and what that is worth; nothing if nobody reported it. */
  ghost predicate ShowsByRule(row: Option<Row>, entityType: EntityType, f: string, os: set<Observation>) {
    if os == {} then row.None?
    else row.Some? && exists o :: Wins(entityType, f, os, o) && row.value.value == o.value
                                  && row.value.confidence == Worth(os, o) && row.value.supporting == |Vendors(os, o.value)|
  }

  /** After a build an entity shows, in every field, what that field's rule makes of its records' reports. */
  lemma BuiltFieldFollowsItsRule(t: Table, links: Links, records: Records, e: EntityId, entityType: EntityType, read: Reader, f: string)
    requires OneCurrent(t) && Faithful(read)
    requires forall r, a :: r in records && a in records[r].attributes ==> a.normalized != Some("")
    ensures ShowsByRule(Trusted(BuildOne(t, links, records, e, entityType, read), e, f), entityType, f, ReportsOf(links, records, e, f))
  {
    hide BuildOne, Choose, Claims, Wins, Vendors, Worth, Faithful, Trusted;
    var u, reports := BuildOne(t, links, records, e, entityType, read), ReportsOf(links, records, e, f);
    assert NoBlanks(Join(links, records, e));
    BuildShowsJoin(t, links, records, e, entityType, read);
    hide Join, ReportsOf;
    var os := AnyOrder(reports);
    assert Told(os) == reports;
    ReportsClaim(links, records, e, f, os);
    assert ShowsField(u, e, entityType, f, Claims(os));
    NoneClaimed(os);
    if reports != {} {
      assert ShowsClaims(Trusted(u, e, f).value, entityType, f, Claims(os));
      var o := ChoiceFollowsItsRule(entityType, f, os);
    }
  }

  lemma NoneClaimed(os: seq<Observation>)
    ensures Claims(os) == {} <==> Told(os) == {}
  {
    if os != [] { assert ClaimOf(os[0]) in Claims(os) && os[0] in Told(os); }
  }
}

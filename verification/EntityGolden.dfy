/** A build reads the records linked to an entity; what it leaves depends on those claims alone. */
module EntityGolden {
  import opened Ordering
  import opened Keys
  import opened Scoring
  import opened EntityStore
  import opened SourceOrder
  import opened RecordSubjects
  import opened Survivorship
  import opened GoldenTable
  import opened RecordPipeline

  // ---- grouping by field ---------------------------------------------------------------------

  ghost predicate DistinctReports(reports: seq<FieldReports>) {
    forall i, j :: 0 <= i < j < |reports| ==> reports[i].field != reports[j].field
  }

  /** One field's observations among the rows. */
  function Filed(reports: seq<FieldReports>, f: string): set<Observation> {
    set fr, o | fr in reports && fr.field == f && o in fr.reports :: o
  }

  function Fields(reports: seq<FieldReports>): set<string> { set fr | fr in reports :: fr.field }

  function Sent(rows: seq<JoinRow>, f: string): set<Observation> {
    set r | r in rows && r.field == f :: r.observation
  }

  function FiledIn(fr: FieldReports, f: string): set<Observation> {
    if fr.field == f then set o | o in fr.reports else {}
  }

  lemma FiledCons(head: FieldReports, tail: seq<FieldReports>, f: string)
    ensures Filed([head] + tail, f) == FiledIn(head, f) + Filed(tail, f)
    ensures Fields([head] + tail) == {head.field} + Fields(tail)
  {
  }

  lemma FiledWith(f: string, head: FieldReports, o: Observation)
    ensures FiledIn(FieldReports(head.field, head.reports + [o]), f) == FiledIn(head, f) + (if head.field == f then {o} else {})
  {
  }

  lemma {:induction false} AddReportFiles(reports: seq<FieldReports>, row: JoinRow, f: string)
    ensures Filed(AddReport(reports, row), f) == Filed(reports, f) + (if row.field == f then {row.observation} else {})
    ensures Fields(AddReport(reports, row)) == Fields(reports) + {row.field}
  {
    hide Filed, Fields, FiledIn;
    if reports == [] {
      FiledAlone(row, f);
    } else {
      var head, tail := reports[0], reports[1..];
      assert reports == [head] + tail;
      FiledCons(head, tail, f);
      if head.field == row.field {
        FiledWith(f, head, row.observation);
        FiledCons(FieldReports(row.field, head.reports + [row.observation]), tail, f);
      } else {
        AddReportFiles(tail, row, f);
        FiledCons(head, AddReport(tail, row), f);
      }
    }
  }

  lemma FiledAlone(row: JoinRow, f: string)
    ensures Filed([], f) == {} && Fields([]) == {}
    ensures Filed([FieldReports(row.field, [row.observation])], f) == if row.field == f then {row.observation} else {}
    ensures Fields([FieldReports(row.field, [row.observation])]) == {row.field}
  {
    var fr := FieldReports(row.field, [row.observation]);
    assert [fr] == [fr] + [];
    FiledCons(fr, [], f);
    assert row.observation in fr.reports;
  }

  lemma {:induction false} AddReportKeepsDistinct(reports: seq<FieldReports>, row: JoinRow)
    requires DistinctReports(reports)
    ensures DistinctReports(AddReport(reports, row))
  {
    if reports != [] && reports[0].field != row.field {
      AddReportKeepsDistinct(reports[1..], row);
      AddReportFiles(reports[1..], row, row.field);
      AddingKeepsHeadDistinct(reports, row);
    }
  }

  lemma AddingKeepsHeadDistinct(reports: seq<FieldReports>, row: JoinRow)
    requires reports != [] && reports[0].field != row.field && DistinctReports(reports)
    requires Fields(AddReport(reports[1..], row)) == Fields(reports[1..]) + {row.field}
    requires DistinctReports(AddReport(reports[1..], row))
    ensures DistinctReports([reports[0]] + AddReport(reports[1..], row))
  {
    var tail := AddReport(reports[1..], row);
    forall k | 0 <= k < |tail| ensures tail[k].field != reports[0].field {
      assert tail[k].field in Fields(tail);
      if tail[k].field != row.field {
        var fr :| fr in reports[1..] && fr.field == tail[k].field;
        var j :| 0 <= j < |reports[1..]| && reports[1..][j] == fr;
        assert reports[j + 1] == fr;
      }
    }
  }

  lemma SentAppend(rows: seq<JoinRow>, row: JoinRow, f: string)
    ensures Sent(rows + [row], f) == Sent(rows, f) + (if row.field == f then {row.observation} else {})
  {
    assert forall r :: r in rows + [row] <==> r in rows || r == row;
  }

  function FieldsSent(rows: seq<JoinRow>): set<string> { set r | r in rows :: r.field }

  lemma NothingFiled(f: string)
    ensures DistinctReports(ByField([])) && Filed(ByField([]), f) == Sent([], f) && Fields(ByField([])) == FieldsSent([])
  {
  }

  lemma FieldsSentAppend(rows: seq<JoinRow>, row: JoinRow)
    ensures FieldsSent(rows + [row]) == FieldsSent(rows) + {row.field}
  {
    assert forall r :: r in rows + [row] <==> r in rows || r == row;
  }

  /** Grouping loses no observation, invents none and files each field once. */
  lemma {:induction false} ByFieldFiles(rows: seq<JoinRow>, f: string)
    ensures DistinctReports(ByField(rows))
    ensures Filed(ByField(rows), f) == Sent(rows, f)
    ensures Fields(ByField(rows)) == FieldsSent(rows)
  {
    hide Filed, Fields, AddReport, DistinctReports, Sent, FieldsSent;
    if rows == [] {
      NothingFiled(f);
    } else {
      var n := |rows| - 1;
      ByFieldFiles(rows[..n], f);
      AddReportFiles(ByField(rows[..n]), rows[n], f);
      AddReportKeepsDistinct(ByField(rows[..n]), rows[n]);
      SentAppend(rows[..n], rows[n], f);
      FieldsSentAppend(rows[..n], rows[n]);
      assert rows == rows[..n] + [rows[n]];
    }
  }

  /** The loop over the cursor. */
  method GroupByField(rows: seq<JoinRow>) returns (reports: seq<FieldReports>)
    ensures reports == ByField(rows) && DistinctReports(reports)
    ensures forall f :: Filed(reports, f) == Sent(rows, f)
  {
    reports := [];
    for i := 0 to |rows|
      invariant reports == ByField(rows[..i])
    {
      assert rows[..i + 1][..i] == rows[..i];
      reports := AddReport(reports, rows[i]);
    }
    assert rows[..|rows|] == rows;
    ByFieldFiles(rows, "");
    forall f ensures Filed(reports, f) == Sent(rows, f) { ByFieldFiles(rows, f); }
  }

  ghost function AnyOrder<T(!new)>(all: set<T>): (r: seq<T>)
    ensures forall x :: x in r <==> x in all
    decreases |all|
  {
    if all == {} then []
    else
      var x :| x in all;
      AnyOrder(all - {x}) + [x]
  }

  /** There is a reader that returns exactly the join's rows. */
  lemma SomeReaderIsFaithful() returns (read: Reader)
    ensures Faithful(read)
  {
    read := (links: Links, records: Records, e: EntityId) => AnyOrder(Join(links, records, e));
  }

  // ---- what is claimed, and what is shown ----------------------------------------------------------

  function ClaimsIn(join: set<JoinRow>, f: string): set<Claim> {
    set r | r in join && r.field == f :: ClaimOf(r.observation)
  }

  /** The row shows what `choose` makes of these claims, in whatever order they are read. */
  ghost predicate ShowsClaims(row: Row, entityType: EntityType, f: string, claims: set<Claim>) {
    forall os: seq<Observation> :: Claims(os) == claims ==>
      Choose(entityType, f, os).Some? && Shows(row, Choose(entityType, f, os).value)
  }

  ghost predicate ShowsField(t: Table, e: nat, entityType: EntityType, f: string, claims: set<Claim>) {
    if claims == {} then Trusted(t, e, f) == None
    else Trusted(t, e, f).Some? && ShowsClaims(Trusted(t, e, f).value, entityType, f, claims)
  }

  /** Every field of the entity is what its records say now. */
  ghost predicate ShowsJoin(t: Table, e: nat, entityType: EntityType, join: set<JoinRow>) {
    forall f :: ShowsField(t, e, entityType, f, ClaimsIn(join, f))
  }

  ghost predicate NoBlanks(join: set<JoinRow>) { forall r :: r in join ==> r.observation.value != "" }

  lemma ReportIndex(reports: seq<FieldReports>, f: string) returns (k: nat)
    requires DistinctReports(reports) && f in Fields(reports)
    ensures k < |reports| && reports[k].field == f
    ensures Filed(reports, f) == set o | o in reports[k].reports
  {
    var fr :| fr in reports && fr.field == f;
    k :| 0 <= k < |reports| && reports[k] == fr;
    forall other | other in reports && other.field == f ensures other == reports[k] {
      var j :| 0 <= j < |reports| && reports[j] == other;
    }
  }

  lemma ReportedClaims(rows: seq<JoinRow>, reports: seq<Observation>, f: string)
    requires Sent(rows, f) == set o | o in reports
    ensures Claims(reports) == ClaimsIn(RowSet(rows), f)
  {
    forall c ensures c in Claims(reports) <==> c in ClaimsIn(RowSet(rows), f) {
      if c in Claims(reports) {
        var o :| o in reports && ClaimOf(o) == c;
        assert o in Sent(rows, f);
        var r :| r in rows && r.field == f && r.observation == o;
        assert r in RowSet(rows);
      }
      if c in ClaimsIn(RowSet(rows), f) {
        var r :| r in RowSet(rows) && r.field == f && ClaimOf(r.observation) == c;
        assert r.observation in Sent(rows, f);
      }
    }
  }

  lemma AnyOrderShows(row: Row, entityType: EntityType, f: string, os: seq<Observation>)
    requires Choose(entityType, f, os).Some? && Shows(row, Choose(entityType, f, os).value)
    ensures ShowsClaims(row, entityType, f, Claims(os))
  {
    forall other: seq<Observation> | Claims(other) == Claims(os)
      ensures Choose(entityType, f, other).Some? && Shows(row, Choose(entityType, f, other).value)
    {
      ChoiceIgnoresOrder(entityType, f, os, other);
    }
  }

  lemma BuildShowsField(t: Table, e: nat, entityType: EntityType, rows: seq<JoinRow>, f: string)
    requires OneCurrent(t) && NoBlanks(RowSet(rows))
    ensures ShowsField(Build(t, e, entityType, ChoicesOf(entityType, ByField(rows))), e, entityType, f, ClaimsIn(RowSet(rows), f))
  {
    var reports := ByField(rows);
    ByFieldFiles(rows, f);
    if f in Fields(reports) {
      var k := ReportIndex(reports, f);
      ReportedClaims(rows, reports[k].reports, f);
      var r :| r in rows && r.field == f;
      assert r in RowSet(rows) && r.observation in Sent(rows, f);
      assert r.observation in reports[k].reports;
      BuiltFieldIsRecomputed(t, e, entityType, reports, k);
      var built := Build(t, e, entityType, ChoicesOf(entityType, reports));
      AnyOrderShows(Trusted(built, e, f).value, entityType, f, reports[k].reports);
      assert ClaimOf(r.observation) in ClaimsIn(RowSet(rows), f);
    } else {
      assert ClaimsIn(RowSet(rows), f) == {} by {
        assert forall r :: r in rows ==> r.field in Fields(reports);
      }
      assert forall k :: 0 <= k < |reports| ==> reports[k].field in Fields(reports);
      UnreportedFieldIsEmpty(t, e, entityType, reports, f);
    }
  }

  /**
   * After a build the entity shows, in every field, exactly what the records linked to it claim, and no
   * other entity's trusted values moved.
   */
  lemma BuildShowsJoin(t: Table, links: Links, records: Records, e: EntityId, entityType: EntityType, read: Reader)
    requires OneCurrent(t) && Faithful(read) && NoBlanks(Join(links, records, e))
    ensures var u := BuildOne(t, links, records, e, entityType, read);
      && OneCurrent(u)
      && ShowsJoin(u, e, entityType, Join(links, records, e))
      && forall e2, f :: e2 != e ==> Trusted(u, e2, f) == Trusted(t, e2, f)
  {
    var rows := read(links, records, e);
    assert RowSet(rows) == Join(links, records, e);
    var choices := ChoicesOf(entityType, ByField(rows));
    forall f ensures ShowsField(Build(t, e, entityType, choices), e, entityType, f, ClaimsIn(Join(links, records, e), f)) {
      BuildShowsField(t, e, entityType, rows, f);
    }
    BuildKeepsOtherEntities(t, e, entityType, choices, e, "");
    forall e2, f | e2 != e ensures Trusted(Build(t, e, entityType, choices), e2, f) == Trusted(t, e2, f) {
      BuildKeepsOtherEntities(t, e, entityType, choices, e2, f);
    }
  }

  // ---- two tables that show the same ------------------------------------------------------------------

  predicate SameTrust(x: Option<Row>, y: Option<Row>) {
    match (x, y)
    case (Some(r), Some(q)) =>
      r.value == q.value && r.confidence == q.confidence && r.supporting == q.supporting && r.competing == q.competing
    case _ => x == y
  }

  lemma {:induction false} SomeReports(claims: set<Claim>) returns (os: seq<Observation>)
    ensures Claims(os) == claims
    decreases |claims|
  {
    if claims == {} {
      os := [];
    } else {
      var c :| c in claims;
      var rest := SomeReports(claims - {c});
      var o := Observation(c.value, "", c.sourceId, c.sourceName, c.reliability, 0, c.observedAt);
      os := rest + [o];
      assert ClaimOf(o) == c;
      assert Claims(os) == Claims(rest) + {c};
    }
  }

  lemma SameClaimsShowTheSame(t: Table, u: Table, e: nat, entityType: EntityType, f: string, claims: set<Claim>)
    requires ShowsField(t, e, entityType, f, claims) && ShowsField(u, e, entityType, f, claims)
    ensures SameTrust(Trusted(t, e, f), Trusted(u, e, f))
  {
    if claims != {} {
      var os := SomeReports(claims);
      assert Choose(entityType, f, os).Some?;
    }
  }
}

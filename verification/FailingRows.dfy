/** A load in which rows fail: what is left is what loading the other rows alone would leave. */
module FailingRows {
  import opened Ordering
  import opened Sequences
  import opened Scoring
  import opened EntityStore
  import opened Normalization
  import opened RecordSubjects
  import opened GoldenTable
  import opened RecordPipeline
  import opened EntityGolden
  import opened PathsAgree
  import opened PipelineTables
  import K = KeyIndex
  import L = Load

  /** What goes wrong with a row: the screen refuses it, or a statement of `process` raises. */
  datatype Fault = Unstorable | RaisesAt(statement: nat)

  /** A statement past the last is never sent, so nothing goes wrong. */
  predicate Fails(ctx: Context, row: InputRow, build: bool, fault: Fault) {
    fault.Unstorable? || fault.statement < Statements(ctx, row, build)
  }

  /** The tables after the rows that do not fail, one after another. */
  function After(w: World, ctx: Context, rows: seq<InputRow>, faults: seq<Fault>, read: Reader, build: bool): World
    requires |faults| == |rows|
  {
    if rows == [] then w
    else
      var n := |rows| - 1;
      var before := After(w, ctx, rows[..n], faults[..n], read, build);
      if Fails(ctx, rows[n], build, faults[n]) then before else ProcessWith(before, ctx, rows[n], read, build)
  }

  function Kept(ctx: Context, rows: seq<InputRow>, faults: seq<Fault>, build: bool): seq<InputRow>
    requires |faults| == |rows|
  {
    if rows == [] then []
    else
      var n := |rows| - 1;
      Kept(ctx, rows[..n], faults[..n], build) + (if Fails(ctx, rows[n], build, faults[n]) then [] else [rows[n]])
  }

  /** What the runner makes of a row. */
  function FateOf(w: World, ctx: Context, row: InputRow, fault: Fault, read: Reader, build: bool): L.Fate {
    if fault.Unstorable? then L.Unstorable
    else if Fails(ctx, row, build, fault) then L.Raises
    else L.Through(OutcomeOf(w, ctx, row, read, build))
  }

  function Fates(w: World, ctx: Context, rows: seq<InputRow>, faults: seq<Fault>, read: Reader, build: bool): seq<L.Fate>
    requires |faults| == |rows|
  {
    if rows == [] then []
    else
      var n := |rows| - 1;
      Fates(w, ctx, rows[..n], faults[..n], read, build)
      + [FateOf(After(w, ctx, rows[..n], faults[..n], read, build), ctx, rows[n], faults[n], read, build)]
  }

  // ---- the tables are those of the rows that went through ----------------------------------------------

  function FusedWith(w: World, ctx: Context, rows: seq<InputRow>, read: Reader, build: bool): World {
    if build then Fused(w, ctx, rows, read) else Fused(w, ctx, rows, read).(golden := w.golden)
  }

  lemma FactsIgnoreGolden(w: World, ctx: Context, row: InputRow, read: Reader, golden: Table)
    ensures Process(w.(golden := golden), ctx, row, read).(golden := golden) == Process(w, ctx, row, read).(golden := golden)
  {
    hide Stores, VerdictOn, SubjectsOf, Resolve, CaseFor, BuildSubjects;
  }

  lemma FusedOneMore(w: World, ctx: Context, rows: seq<InputRow>, row: InputRow, read: Reader, build: bool)
    ensures FusedWith(w, ctx, rows + [row], read, build) == ProcessWith(FusedWith(w, ctx, rows, read, build), ctx, row, read, build)
  {
    hide Process;
    assert (rows + [row])[..|rows|] == rows;
    FactsIgnoreGolden(Fused(w, ctx, rows, read), ctx, row, read, w.golden);
  }

  lemma NothingFused(w: World, ctx: Context, read: Reader, build: bool)
    ensures FusedWith(w, ctx, [], read, build) == w
  {
  }

  lemma {:induction false} AfterIsFused(w: World, ctx: Context, rows: seq<InputRow>, faults: seq<Fault>, read: Reader, build: bool)
    requires |faults| == |rows|
    ensures After(w, ctx, rows, faults, read, build) == FusedWith(w, ctx, Kept(ctx, rows, faults, build), read, build)
  {
    hide ProcessWith, FusedWith, Fails, Fused;
    if rows == [] {
      NothingFused(w, ctx, read, build);
    } else {
      var n := |rows| - 1;
      AfterIsFused(w, ctx, rows[..n], faults[..n], read, build);
      var kept := Kept(ctx, rows[..n], faults[..n], build);
      FusedOneMore(w, ctx, kept, rows[n], read, build);
      assert kept + [] == kept;
    }
  }

  lemma {:induction false} KeptAreRows(ctx: Context, rows: seq<InputRow>, faults: seq<Fault>, build: bool)
    requires |faults| == |rows|
    ensures forall row :: row in Kept(ctx, rows, faults, build) ==> row in rows
  {
    if rows != [] {
      hide Fails;
      var n := |rows| - 1;
      KeptAreRows(ctx, rows[..n], faults[..n], build);
      assert rows == rows[..n] + [rows[n]];
    }
  }

  ghost predicate Apart(rows: seq<InputRow>, row: InputRow) {
    forall i :: 0 <= i < |rows| ==> rows[i].record != row.record && Ids(rows[i]) !! Ids(row)
  }

  lemma OneMoreFresh(w: World, ctx: Context, rows: seq<InputRow>, row: InputRow)
    requires FreshRows(w, ctx, rows) && FreshRow(w, row) && Apart(rows, row)
    ensures FreshRows(w, ctx, rows + [row])
  {
    hide FreshRow;
  }

  lemma KeptAreApart(w: World, ctx: Context, rows: seq<InputRow>, faults: seq<Fault>, build: bool)
    requires |faults| == |rows| && FreshRows(w, ctx, rows) && rows != []
    ensures var n := |rows| - 1; FreshRow(w, rows[n]) && Apart(Kept(ctx, rows[..n], faults[..n], build), rows[n])
  {
    hide FreshRow, Kept;
    var n := |rows| - 1;
    KeptAreRows(ctx, rows[..n], faults[..n], build);
    var kept := Kept(ctx, rows[..n], faults[..n], build);
    forall i | 0 <= i < |kept| ensures kept[i].record != rows[n].record && Ids(kept[i]) !! Ids(rows[n]) {
      assert kept[i] in rows[..n];
      var j :| 0 <= j < n && rows[..n][j] == kept[i];
      assert rows[j] == kept[i];
    }
  }

  lemma {:induction false} KeptAreFresh(w: World, ctx: Context, rows: seq<InputRow>, faults: seq<Fault>, build: bool)
    requires |faults| == |rows| && FreshRows(w, ctx, rows)
    ensures FreshRows(w, ctx, Kept(ctx, rows, faults, build))
  {
    if rows != [] {
      hide Fails, FreshRow, FreshRows, Apart;
      var n := |rows| - 1;
      PrefixIsFresh(w, ctx, rows);
      KeptAreFresh(w, ctx, rows[..n], faults[..n], build);
      KeptAreApart(w, ctx, rows, faults, build);
      var kept := Kept(ctx, rows[..n], faults[..n], build);
      OneMoreFresh(w, ctx, kept, rows[n]);
      assert kept + [] == kept;
    }
  }

  /**
   * Whatever rows fail, and at whatever statement, the load leaves just the records of the rows that went
   * through, and the same facts as loading those rows stage by stage; and the same golden values exactly
   * when what entities were built as makes no difference, as where active entities hold keys of their own
   * type only.
   */
  lemma FailuresCostOnlyTheirRows(w: World, ctx: Context, rows: seq<InputRow>, faults: seq<Fault>, read: Reader, orders: Orders)
    requires |faults| == |rows|
    requires Sane(w) && FreshRows(w, ctx, rows) && Sound(ctx.normalizer) && Faithful(read)
    requires Complete(w, ctx, Kept(ctx, rows, faults, true), orders)
    ensures var kept := Kept(ctx, rows, faults, true);
      var a, b := After(w, ctx, rows, faults, read, true), Staged(w, ctx, kept, orders);
      && SameFacts(a, b) && a.records.Keys == w.records.Keys + RecordsOf(kept)
      && (SameGolden(a.golden, b.golden) <==> TakenAlike(a.store, a.records, BuiltAs(w.store, ctx, kept)))
      && (K.TypedActiveKeys(w.store) ==> SameGolden(a.golden, b.golden))
  {
    hide Sane, FreshRows, Complete, Fused, Staged, SameFacts, SameGolden, TakenAlike, K.TypedActiveKeys, After, Kept, BuiltAs;
    var kept := Kept(ctx, rows, faults, true);
    AfterIsFused(w, ctx, rows, faults, read, true);
    KeptAreFresh(w, ctx, rows, faults, true);
    PathsMeetIff(w, ctx, kept, read, orders);
    if K.TypedActiveKeys(w.store) { PathsMeet(w, ctx, kept, read, orders); }
    FusedKeeps(w, ctx, kept, read);
  }

  /** Without the rollback a failing row could leave a record nobody has judged. */
  lemma HalfWrittenIsUnjudged(w: World, ctx: Context, row: InputRow, read: Reader, build: bool)
    requires RefersToRecords(w) && FreshRow(w, row)
    ensures Statements(ctx, row, build) > 2
    ensures var left := Trace(w, ctx, row, read, build)[2];
      row.record in left.records && left.records[row.record] == Stores(ctx, row) && row.record !in left.verdicts && row.record !in left.cases
  {
    hide Stores, VerdictOn, SubjectsOf, Resolve, CaseFor, BuildOne;
    TraceParts(w, ctx, row, read, build);
    assert Trace(w, ctx, row, read, build)[2] == RecordTrace(w, ctx, row)[2];
  }

  // ---- what the batch says of it --------------------------------------------------------------------------

  /** The numbers of the rows that went through. */
  function Numbers(fates: seq<L.Fate>): seq<nat> {
    if fates == [] then []
    else Numbers(fates[..|fates| - 1]) + (if fates[|fates| - 1].Through? then [|fates|] else [])
  }

  lemma EventsAppend(fates: seq<L.Fate>)
    requires fates != []
    ensures var n := |fates| - 1; L.EventsFor(fates) == L.EventsFor(fates[..n]) + [L.EventFor(fates[n])]
  {
  }

  /** The batch's stored rows and open errors tell exactly which rows went through and which failed. */
  lemma {:induction false} BatchTellsThemApart(fates: seq<L.Fate>)
    ensures var s := L.From(L.NewBatch, L.EventsFor(fates));
      && s.batch == L.NewBatch.batch && s.tally.rowsRead == |fates|
      && s.stored == Numbers(fates) && s.tally.processed == |s.stored|
      && s.tally.failed == |fates| - |s.stored|
      && (forall n: nat :: n in s.errors <==> 1 <= n <= |fates| && !fates[n - 1].Through?)
      && (forall n :: n in s.errors ==> s.errors[n] == L.Open)
  {
    if fates != [] {
      var n := |fates| - 1;
      BatchTellsThemApart(fates[..n]);
      EventsAppend(fates);
      assert L.EventsFor(fates)[..n] == L.EventsFor(fates[..n]);
    }
  }

  lemma FateTells(w: World, ctx: Context, row: InputRow, fault: Fault, read: Reader, build: bool)
    ensures FateOf(w, ctx, row, fault, read, build).Through? <==> !Fails(ctx, row, build, fault)
  {
    hide Statements, OutcomeOf;
  }

  lemma NumbersAppend(fates: seq<L.Fate>, f: L.Fate)
    ensures Numbers(fates + [f]) == Numbers(fates) + (if f.Through? then [|fates| + 1] else [])
  {
    assert (fates + [f])[..|fates|] == fates;
  }

  lemma {:induction false} OneFateEach(w: World, ctx: Context, rows: seq<InputRow>, faults: seq<Fault>, read: Reader, build: bool)
    requires |faults| == |rows|
    ensures |Fates(w, ctx, rows, faults, read, build)| == |rows|
  {
    if rows != [] {
      hide FateOf, After;
      OneFateEach(w, ctx, rows[..|rows| - 1], faults[..|rows| - 1], read, build);
    }
  }

  /** A row goes through exactly when nothing fails it. */
  lemma {:induction false} ThroughIffNothingFails(w: World, ctx: Context, rows: seq<InputRow>, faults: seq<Fault>, read: Reader,
                                                  build: bool, i: nat)
    requires |faults| == |rows| && i < |rows|
    ensures |Fates(w, ctx, rows, faults, read, build)| == |rows|
    ensures Fates(w, ctx, rows, faults, read, build)[i].Through? <==> !Fails(ctx, rows[i], build, faults[i])
  {
    hide Fails, FateOf, After;
    var n := |rows| - 1;
    OneFateEach(w, ctx, rows[..n], faults[..n], read, build);
    if i < n {
      ThroughIffNothingFails(w, ctx, rows[..n], faults[..n], read, build, i);
    } else {
      FateTells(After(w, ctx, rows[..n], faults[..n], read, build), ctx, rows[n], faults[n], read, build);
    }
  }

  /** As many numbers are stored as rows are kept. */
  lemma {:induction false} AsManyAsKept(w: World, ctx: Context, rows: seq<InputRow>, faults: seq<Fault>, read: Reader, build: bool)
    requires |faults| == |rows|
    ensures |Numbers(Fates(w, ctx, rows, faults, read, build))| == |Kept(ctx, rows, faults, build)|
  {
    if rows != [] {
      hide Fails, FateOf, After, Numbers;
      var n := |rows| - 1;
      AsManyAsKept(w, ctx, rows[..n], faults[..n], read, build);
      var before := After(w, ctx, rows[..n], faults[..n], read, build);
      FateTells(before, ctx, rows[n], faults[n], read, build);
      NumbersAppend(Fates(w, ctx, rows[..n], faults[..n], read, build), FateOf(before, ctx, rows[n], faults[n], read, build));
    }
  }

  // ---- what is announced --------------------------------------------------------------------------------------

  /** An event names its record, and is keyed by the entity the record joined if it joined one. */
  datatype EventKey = OfEntity(entity: EntityId) | OfRecord(record: RecordId)
  datatype Published = Published(key: EventKey, record: RecordId, outcome: RecordOutcome)

  function Announcement(row: InputRow, o: RecordOutcome): Published {
    Published(if o.entity.Some? then OfEntity(o.entity.value) else OfRecord(row.record), row.record, o)
  }

  function Announced(row: InputRow, fate: L.Fate): seq<Published> {
    if fate.Through? then [Announcement(row, fate.outcome)] else []
  }

  function Announcements(rows: seq<InputRow>, fates: seq<L.Fate>): seq<Published>
    requires |fates| == |rows|
  {
    if rows == [] then []
    else Announcements(rows[..|rows| - 1], fates[..|rows| - 1]) + Announced(rows[|rows| - 1], fates[|rows| - 1])
  }

  function Named(news: seq<Published>): seq<RecordId> { seq(|news|, i requires 0 <= i < |news| => news[i].record) }

  function RecordsIn(rows: seq<InputRow>): seq<RecordId> { seq(|rows|, i requires 0 <= i < |rows| => rows[i].record) }

  lemma OneAnnounced(w: World, ctx: Context, row: InputRow, fault: Fault, read: Reader, build: bool)
    ensures Named(Announced(row, FateOf(w, ctx, row, fault, read, build))) ==
      if Fails(ctx, row, build, fault) then [] else [row.record]
  {
    hide Fails, FateOf;
    FateTells(w, ctx, row, fault, read, build);
  }

  lemma NamedConcat(a: seq<Published>, b: seq<Published>)
    ensures Named(a + b) == Named(a) + Named(b)
  {
  }

  lemma RecordsConcat(rows: seq<InputRow>, row: InputRow)
    ensures RecordsIn(rows + [row]) == RecordsIn(rows) + [row.record] && rows + [] == rows
  {
  }

  lemma AnnouncementsLast(rows: seq<InputRow>, row: InputRow, fates: seq<L.Fate>, fate: L.Fate)
    requires |fates| == |rows|
    ensures Announcements(rows + [row], fates + [fate]) == Announcements(rows, fates) + Announced(row, fate)
  {
    assert (rows + [row])[..|rows|] == rows && (fates + [fate])[..|rows|] == fates;
  }

  /** Exactly these rows are announced, once each, in their order. */
  ghost predicate AnnouncesJust(rows: seq<InputRow>, fates: seq<L.Fate>, kept: seq<InputRow>) {
    |fates| == |rows| && Named(Announcements(rows, fates)) == RecordsIn(kept)
  }

  lemma AnnouncesOneMore(rows: seq<InputRow>, row: InputRow, fates: seq<L.Fate>, fate: L.Fate, kept: seq<InputRow>, fails: bool)
    requires AnnouncesJust(rows, fates, kept)
    requires Named(Announced(row, fate)) == if fails then [] else [row.record]
    ensures AnnouncesJust(rows + [row], fates + [fate], kept + (if fails then [] else [row]))
  {
    hide Announcements, Announced, Named, RecordsIn;
    AnnouncementsLast(rows, row, fates, fate);
    NamedConcat(Announcements(rows, fates), Announced(row, fate));
    RecordsConcat(kept, row);
  }

  lemma NothingAnnounced()
    ensures AnnouncesJust([], [], [])
  {
  }

  /** The rows announced are those that went through. */
  lemma {:induction false} KeptAreAnnounced(w: World, ctx: Context, rows: seq<InputRow>, faults: seq<Fault>, read: Reader, build: bool)
    requires |faults| == |rows|
    ensures AnnouncesJust(rows, Fates(w, ctx, rows, faults, read, build), Kept(ctx, rows, faults, build))
  {
    hide Fails, FateOf, After, AnnouncesJust, Announced, Named;
    if rows == [] {
      NothingAnnounced();
    } else {
      var n := |rows| - 1;
      var before := After(w, ctx, rows[..n], faults[..n], read, build);
      KeptAreAnnounced(w, ctx, rows[..n], faults[..n], read, build);
      OneAnnounced(before, ctx, rows[n], faults[n], read, build);
      AnnouncesOneMore(rows[..n], rows[n], Fates(w, ctx, rows[..n], faults[..n], read, build),
                       FateOf(before, ctx, rows[n], faults[n], read, build), Kept(ctx, rows[..n], faults[..n], build),
                       Fails(ctx, rows[n], build, faults[n]));
      assert rows == rows[..n] + [rows[n]];
    }
  }

  // ---- the loop ----------------------------------------------------------------------------------------------

  datatype DriveEnd = NothingToRead | Stopped(at: nat) | AllRead

  lemma {:induction false} NewIdsAfter(w: World, ctx: Context, rows: seq<InputRow>, faults: seq<Fault>, read: Reader, build: bool, i: nat)
    requires |faults| == |rows| && NewIds(w.store, rows) && i <= |rows|
    ensures FreeFrom(After(w, ctx, rows[..i], faults[..i], read, build).store.entities.Keys, rows, i)
  {
    if i > 0 {
      hide After, ProcessWith, Fails, FateOf, Fates, L.EventsFor, L.EventFor, NewIds, FreeFrom;
      NewIdsAfter(w, ctx, rows, faults, read, build, i - 1);
      NextFate(w, ctx, rows, faults, read, build, i - 1);
      var before := After(w, ctx, rows[..i - 1], faults[..i - 1], read, build);
      ProcessIds(before, ctx, rows[i - 1], read, build);
      FreeAfterOne(w.store, before.store.entities.Keys, After(w, ctx, rows[..i], faults[..i], read, build).store.entities.Keys, rows, i);
    } else {
      NoneYet(w, ctx, rows, faults, read, build);
    }
  }

  lemma NoneYet(w: World, ctx: Context, rows: seq<InputRow>, faults: seq<Fault>, read: Reader, build: bool)
    requires |faults| == |rows| && NewIds(w.store, rows)
    ensures FreeFrom(After(w, ctx, rows[..0], faults[..0], read, build).store.entities.Keys, rows, 0)
  {
  }

  lemma ProcessIds(w: World, ctx: Context, row: InputRow, read: Reader, build: bool)
    ensures ProcessWith(w, ctx, row, read, build).store.entities.Keys <= w.store.entities.Keys + RowIds(row)
  {
    hide Resolve, OwnKeys, VerdictOn, Stores, BuildSubjects, CaseFor;
    if PlanOf(ctx, row).Some? { ResolveRecordIds(w.store, PlanOf(ctx, row).value); }
  }

  /** From these tables and this batch, driving these rows leads to those and announces these. */
  ghost predicate Drove(w: World, s: L.State, now: World, t: L.State, news: seq<Published>, ctx: Context, rows: seq<InputRow>,
                        faults: seq<Fault>, read: Reader, build: bool)
  {
    && |faults| == |rows|
    && now == After(w, ctx, rows, faults, read, build)
    && t == L.From(s, L.EventsFor(Fates(w, ctx, rows, faults, read, build)))
    && |Fates(w, ctx, rows, faults, read, build)| == |rows|
    && news == Announcements(rows, Fates(w, ctx, rows, faults, read, build))
  }

  lemma DroveOneMore(w: World, s: L.State, now: World, t: L.State, news: seq<Published>, ctx: Context, rows: seq<InputRow>,
                     faults: seq<Fault>, read: Reader, build: bool, i: nat)
    requires |faults| == |rows| && i < |rows|
    requires Drove(w, s, now, t, news, ctx, rows[..i], faults[..i], read, build)
    ensures Drove(w, s, if Fails(ctx, rows[i], build, faults[i]) then now else ProcessWith(now, ctx, rows[i], read, build),
                  L.Step(t, L.EventFor(FateOf(now, ctx, rows[i], faults[i], read, build))),
                  news + Announced(rows[i], FateOf(now, ctx, rows[i], faults[i], read, build)),
                  ctx, rows[..i + 1], faults[..i + 1], read, build)
  {
    hide After, Fates, Fails, ProcessWith, FateOf, L.Step, L.EventFor, L.EventsFor, Announced;
    NextFate(w, ctx, rows, faults, read, build, i);
    OneFateEach(w, ctx, rows[..i + 1], faults[..i + 1], read, build);
    assert rows[..i + 1][..i] == rows[..i];
    var fates := Fates(w, ctx, rows[..i], faults[..i], read, build);
    assert (fates + [FateOf(now, ctx, rows[i], faults[i], read, build)])[..i] == fates;
    var events := L.EventsFor(Fates(w, ctx, rows[..i], faults[..i], read, build));
    var e := L.EventFor(FateOf(now, ctx, rows[i], faults[i], read, build));
    assert (events + [e])[..|events|] == events;
  }

  class Runner {
    const db: Database
    const counts: L.BatchTables
    var published: seq<Published>

    constructor (order: RowOrder)
      ensures published == []
      ensures fresh(db) && fresh(db.tables) && fresh(db.golden) && fresh(counts)
      ensures db.State() == World(map[], map[], map[], EmptyStore(order), []) && counts.Now() == L.NewBatch
    {
      db := new Database(order);
      counts := new L.BatchTables();
      published := [];
    }

    /** One turn of the loop: what a failing row wrote is rolled back before its error is recorded; only a committed row is announced. */
    method Row(ctx: Context, row: InputRow, fault: Fault, read: Reader, build: bool, failFast: bool, publish: bool) returns (ok: bool)
      requires OneCurrent(db.golden.rows) && counts.batch.status == L.Running
      requires row.selfId != row.employerId && RowIds(row) !! db.tables.entities.Keys
      modifies this`published, db, db.tables, db.golden, counts
      ensures ok <==> !Fails(ctx, row, build, fault)
      ensures published == old(published)
        + (if publish then Announced(row, FateOf(old(db.State()), ctx, row, fault, read, build)) else [])
      ensures db.State() == if ok then ProcessWith(old(db.State()), ctx, row, read, build) else old(db.State())
      ensures OneCurrent(db.golden.rows) && counts.batch == old(counts.batch)
      ensures counts.Now() == if ok || !failFast
        then L.Step(old(counts.Now()), L.EventFor(FateOf(old(db.State()), ctx, row, fault, read, build)))
        else old(counts.Now())
    {
      hide Statements, ProcessWith, OutcomeOf, L.Step, OneCurrent, Trace;
      if fault.Unstorable? {
        if !failFast { counts.DriveRow(L.Unstorable); }
        return false;
      }
      var committed := db.Snapshot();
      var outcome := db.Process(ctx, row, read, build, fault.statement);
      match outcome
      case None =>
        db.Rollback(committed);
        if !failFast { counts.DriveRow(L.Raises); }
        return false;
      case Some(o) =>
        counts.DriveRow(L.Through(o));
        if publish { published := published + [Announcement(row, o)]; }
        return true;
    }

    /** `_drive`: every row, or with fail-fast those before the first that fails. */
    method Drive(ctx: Context, rows: seq<InputRow>, faults: seq<Fault>, read: Reader, build: bool, failFast: bool, publish: bool)
      returns (end: DriveEnd, ghost news: seq<Published>)
      requires |faults| == |rows| && OneCurrent(db.golden.rows) && counts.batch.status == L.Running
      requires NewIds(db.tables.State(), rows)
      modifies this`published, db, db.tables, db.golden, counts
      ensures end.NothingToRead? <==> rows == []
      ensures end.Stopped? <==> failFast && exists i :: 0 <= i < |rows| && Fails(ctx, rows[i], build, faults[i])
      ensures end.Stopped? ==> end.at < |rows| && Fails(ctx, rows[end.at], build, faults[end.at])
                               && forall i :: 0 <= i < end.at ==> !Fails(ctx, rows[i], build, faults[i])
      ensures var n := if end.Stopped? then end.at else |rows|;
        Drove(old(db.State()), old(counts.Now()), db.State(), counts.Now(), news, ctx, rows[..n], faults[..n], read, build)
      ensures published == old(published) + (if publish then news else [])
      ensures OneCurrent(db.golden.rows) && counts.batch == old(counts.batch)
    {
      hide Drove, Fails, ProcessWith, FateOf, OneCurrent, NewIds, FreeFrom, After, L.Step, L.EventFor, Announced;
      ghost var w, s := db.State(), counts.Now();
      news := [];
      NothingDriven(w, s, ctx, rows, faults, read, build);
      if rows == [] { return NothingToRead, news; }
      for i := 0 to |rows|
        invariant Drove(w, s, db.State(), counts.Now(), news, ctx, rows[..i], faults[..i], read, build)
        invariant published == old(published) + (if publish then news else [])
        invariant OneCurrent(db.golden.rows) && counts.batch == old(counts.batch)
        invariant failFast ==> forall j :: 0 <= j < i ==> !Fails(ctx, rows[j], build, faults[j])
      {
        ghost var before, was := db.State(), counts.Now();
        IdsAreFree(w, s, before, was, news, ctx, rows, faults, read, build, i);
        var ok := Row(ctx, rows[i], faults[i], read, build, failFast, publish);
        FailingIsSilent(before, ctx, rows[i], faults[i], read, build);
        if !ok && failFast { return Stopped(i), news; }
        DroveOneMore(w, s, before, was, news, ctx, rows, faults, read, build, i);
        news := news + Announced(rows[i], FateOf(before, ctx, rows[i], faults[i], read, build));
      }
      assert rows[..|rows|] == rows && faults[..|rows|] == faults;
      return AllRead, news;
    }
  }

  lemma NothingDriven(w: World, s: L.State, ctx: Context, rows: seq<InputRow>, faults: seq<Fault>, read: Reader, build: bool)
    requires |faults| == |rows|
    ensures Drove(w, s, w, s, [], ctx, rows[..0], faults[..0], read, build)
  {
  }

  lemma FailingIsSilent(w: World, ctx: Context, row: InputRow, fault: Fault, read: Reader, build: bool)
    ensures Fails(ctx, row, build, fault) ==> Announced(row, FateOf(w, ctx, row, fault, read, build)) == []
  {
    hide Fails, FateOf;
    FateTells(w, ctx, row, fault, read, build);
  }

  lemma IdsAreFree(w: World, s: L.State, now: World, t: L.State, news: seq<Published>, ctx: Context, rows: seq<InputRow>,
                   faults: seq<Fault>, read: Reader, build: bool, i: nat)
    requires |faults| == |rows| && NewIds(w.store, rows) && i < |rows|
    requires Drove(w, s, now, t, news, ctx, rows[..i], faults[..i], read, build)
    ensures rows[i].selfId != rows[i].employerId && RowIds(rows[i]) !! now.store.entities.Keys
  {
    hide After, Fates, L.EventsFor, L.From;
    NewIdsAfter(w, ctx, rows, faults, read, build, i);
  }

  lemma NextFate(w: World, ctx: Context, rows: seq<InputRow>, faults: seq<Fault>, read: Reader, build: bool, i: nat)
    requires |faults| == |rows| && i < |rows|
    ensures var before := After(w, ctx, rows[..i], faults[..i], read, build);
      && After(w, ctx, rows[..i + 1], faults[..i + 1], read, build) ==
           (if Fails(ctx, rows[i], build, faults[i]) then before else ProcessWith(before, ctx, rows[i], read, build))
      && L.EventsFor(Fates(w, ctx, rows[..i + 1], faults[..i + 1], read, build)) ==
           L.EventsFor(Fates(w, ctx, rows[..i], faults[..i], read, build))
           + [L.EventFor(FateOf(before, ctx, rows[i], faults[i], read, build))]
      && Fates(w, ctx, rows[..i + 1], faults[..i + 1], read, build) ==
           Fates(w, ctx, rows[..i], faults[..i], read, build) + [FateOf(before, ctx, rows[i], faults[i], read, build)]
  {
    hide Fails, ProcessWith, FateOf, L.EventFor;
    assert rows[..i + 1][..i] == rows[..i] && faults[..i + 1][..i] == faults[..i];
  }
}

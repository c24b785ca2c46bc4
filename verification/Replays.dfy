/** Failed rows put through again: a load and its replays leave what one load of the rows that went through leaves. */
module Replays {
  import opened Ordering
  import opened Sequences
  import opened Keys
  import opened Scoring
  import opened EntityStore
  import opened Normalization
  import opened SourceOrder
  import opened RecordSubjects
  import opened GoldenTable
  import opened RecordPipeline
  import opened PathsAgree
  import opened PipelineTables
  import opened FailingRows
  import K = KeyIndex
  import L = Load

  /**
   * What replaying an open error meets: no exact copy of the row was kept, or the row goes through `process`
   * again, unscreened, until some statement raises or none does.
   */
  datatype Attempt = NoExactCopy | Again(row: InputRow, statement: nat)

  function Ending(ctx: Context, a: Attempt, build: bool): L.Replayable {
    match a
    case NoExactCopy => L.NoPayload
    case Again(row, statement) => if Fails(ctx, row, build, RaisesAt(statement)) then L.FailsAgain else L.Succeeds
  }

  function EndingBy(ctx: Context, attempts: nat -> Attempt, build: bool): nat -> L.Replayable {
    (n: nat) => Ending(ctx, attempts(n), build)
  }

  function TriesFor(rows: seq<nat>, attempts: nat -> Attempt): seq<Attempt> {
    seq(|rows|, i requires 0 <= i < |rows| => attempts(rows[i]))
  }

  /** The rows that go through `process` again, and what goes wrong with them. */
  function RowsTried(tries: seq<Attempt>): seq<InputRow> {
    if tries == [] then []
    else
      var last := tries[|tries| - 1];
      RowsTried(tries[..|tries| - 1]) + (if last.Again? then [last.row] else [])
  }

  function FaultsMet(tries: seq<Attempt>): (faults: seq<Fault>)
    ensures |faults| == |RowsTried(tries)|
  {
    if tries == [] then []
    else
      var last := tries[|tries| - 1];
      FaultsMet(tries[..|tries| - 1]) + (if last.Again? then [RaisesAt(last.statement)] else [])
  }

  // ---- the tables -------------------------------------------------------------------------------------------

  lemma AfterOneMore(w: World, ctx: Context, rows: seq<InputRow>, row: InputRow, faults: seq<Fault>, fault: Fault, read: Reader, build: bool)
    requires |faults| == |rows|
    ensures var before := After(w, ctx, rows, faults, read, build);
      After(w, ctx, rows + [row], faults + [fault], read, build) ==
        if Fails(ctx, row, build, fault) then before else ProcessWith(before, ctx, row, read, build)
  {
    hide Fails, ProcessWith;
    assert (rows + [row])[..|rows|] == rows && (faults + [fault])[..|rows|] == faults;
  }

  /** Rows driven in two goes are rows driven in one. */
  lemma {:induction false} AfterConcat(w: World, ctx: Context, a: seq<InputRow>, fa: seq<Fault>, b: seq<InputRow>, fb: seq<Fault>,
                                       read: Reader, build: bool)
    requires |fa| == |a| && |fb| == |b|
    ensures After(After(w, ctx, a, fa, read, build), ctx, b, fb, read, build) == After(w, ctx, a + b, fa + fb, read, build)
  {
    hide Fails, ProcessWith;
    if b == [] {
      assert a + b == a && fa + fb == fa;
    } else {
      var n := |b| - 1;
      AfterConcat(w, ctx, a, fa, b[..n], fb[..n], read, build);
      AfterOneMore(w, ctx, a + b[..n], b[n], fa + fb[..n], fb[n], read, build);
      assert a + b == (a + b[..n]) + [b[n]] && fa + fb == (fa + fb[..n]) + [fb[n]];
    }
  }

  // ---- what a replay knows of the batch ------------------------------------------------------------------------

  /** `_context_for_batch`: the stored layout, but not what the source describes. */
  function Rebuilt(ctx: Context): Context { ctx.(describes := Organisation) }

  ghost predicate PlansAlike(ctx: Context, row: InputRow) { PlanOf(Rebuilt(ctx), row) == PlanOf(ctx, row) }

  lemma OwnKeysOnReplay(ctx: Context, rows: seq<Attribute>, roleEmail: bool)
    ensures OwnKeys(Rebuilt(ctx), rows, roleEmail) == OwnKeys(ctx, rows, roleEmail) <==>
      ctx.entityType == Company && ctx.describes == Location ==>
        forall k :: k in OwnKeys(ctx, rows, roleEmail) ==> k.keyType !in {WebsiteDomain, Email}
  {
    hide RawCompanyKeys, RawPersonKeys, Deduped, ValuesOf;
    if ctx.entityType == Company && ctx.describes == Location {
      CompanyKeyStrengths(ValuesOf(rows, Self), ctx.source.id, roleEmail, Organisation, ctx.urls);
      var full, demoted := OwnKeys(Rebuilt(ctx), rows, roleEmail), OwnKeys(ctx, rows, roleEmail);
      assert forall i :: 0 <= i < |full| ==> full[i] in full && demoted[i] == Demoted(full[i]);
      assert forall i :: 0 <= i < |demoted| ==> demoted[i] in demoted;
    }
  }

  /**
   * A replayed row resolves as the same subjects as it would have in its load exactly when nobody is resolved
   * for it, it is a person's, its source describes organisations, or it gives no web site and no mailbox.
   */
  lemma PlansAlikeIff(ctx: Context, row: InputRow)
    ensures PlansAlike(ctx, row) <==>
      PlanOf(ctx, row).Some? && ctx.entityType == Company && ctx.describes == Location ==>
        forall k :: k in PlanOf(ctx, row).value.self.keys ==> k.keyType !in {WebsiteDomain, Email}
  {
    hide OwnKeys, EmployerIn, VerdictOn, Stores, SortByPlace, HasRoleEmail;
    SameReading(ctx, row);
    var attributes := Stores(ctx, row).attributes;
    var rows, roleEmail := SortByPlace(attributes), HasRoleEmail(VerdictOn(ctx, attributes).results);
    OwnKeysOnReplay(ctx, rows, roleEmail);
    SameEmployer(ctx, row, rows);
  }

  lemma SameReading(ctx: Context, row: InputRow)
    ensures Stores(Rebuilt(ctx), row) == Stores(ctx, row)
    ensures forall attributes :: VerdictOn(Rebuilt(ctx), attributes) == VerdictOn(ctx, attributes)
  {
  }

  lemma SameEmployer(ctx: Context, row: InputRow, rows: seq<Attribute>)
    ensures EmployerIn(Rebuilt(ctx), row, rows) == EmployerIn(ctx, row, rows)
  {
    hide KeysFor, ValuesOf, EmployerName, Corroborated;
  }

  /** A company listing with a web site: its key cannot link by itself in the load and can on a replay. */
  lemma ReplayStrengthensAListing(site: string, host: string, sourceId: string, urls: UrlReaders)
    requires host != "" && urls.domain(site) == Some(host)
    ensures var values := map["website" := [site]];
      && KeysFor(Company, values, sourceId, false, Location, urls) == [IdentityKey(WebsiteDomain, host, Moderate)]
      && KeysFor(Company, values, sourceId, false, Organisation, urls) == [IdentityKey(WebsiteDomain, host, Strong)]
  {
    hide RawCompanyKeys, Deduped, UrlKeys;
    var values: Values := map["website" := [site]];
    var k, weak := IdentityKey(WebsiteDomain, host, Strong), IdentityKey(WebsiteDomain, host, Moderate);
    OneHost(site, host, urls);
    OnlySites(values, sourceId, urls);
    TwoDistinct(k, IdentityKey(Name, host, Moderate));
    assert DemoteForLocation([k]) == [weak];
  }

  lemma OneHost(site: string, host: string, urls: UrlReaders)
    requires host != "" && urls.domain(site) == Some(host)
    ensures UrlKeys([site], urls.domain, WebsiteDomain) == [IdentityKey(WebsiteDomain, host, Strong)]
  {
    assert [site][..0] == [];
  }

  lemma AlikeRowsProcessAlike(w: World, ctx: Context, row: InputRow, read: Reader)
    requires PlansAlike(ctx, row)
    ensures Process(w, Rebuilt(ctx), row, read) == Process(w, ctx, row, read)
    ensures Statements(Rebuilt(ctx), row, true) == Statements(ctx, row, true)
  {
    hide VerdictOn, Stores, Resolve, BuildSubjects, CaseFor, PlanOf;
    SameReading(ctx, row);
  }

  lemma {:induction false} ReplaysAreDrives(w: World, ctx: Context, rows: seq<InputRow>, faults: seq<Fault>, read: Reader)
    requires |faults| == |rows| && forall i :: 0 <= i < |rows| ==> PlansAlike(ctx, rows[i])
    ensures After(w, Rebuilt(ctx), rows, faults, read, true) == After(w, ctx, rows, faults, read, true)
  {
    if rows != [] {
      hide Statements, Process, Rebuilt, PlansAlike;
      var n := |rows| - 1;
      ReplaysAreDrives(w, ctx, rows[..n], faults[..n], read);
      AlikeRowsProcessAlike(After(w, ctx, rows[..n], faults[..n], read, true), ctx, rows[n], read);
    }
  }

  /**
   * A load with failing rows and then any replays of them, failing again or not, leaves what one load of the
   * rows that went through leaves, in the order they did, where the replayed rows mean what they meant in the
   * load: the same facts stage by stage, and the same golden values exactly when what entities were built as
   * makes no difference.
   */
  lemma ReplaysFinishTheLoad(w: World, ctx: Context, rows: seq<InputRow>, faults: seq<Fault>, tries: seq<Attempt>, read: Reader,
                             orders: Orders)
    requires |faults| == |rows| && FreshRows(w, ctx, rows + RowsTried(tries))
    requires forall i :: 0 <= i < |RowsTried(tries)| ==> PlansAlike(ctx, RowsTried(tries)[i])
    requires Sane(w) && Sound(ctx.normalizer) && Faithful(read)
    requires Complete(w, ctx, Kept(ctx, rows + RowsTried(tries), faults + FaultsMet(tries), true), orders)
    ensures var all := Kept(ctx, rows + RowsTried(tries), faults + FaultsMet(tries), true);
      var loaded := After(w, ctx, rows, faults, read, true);
      var a, b := After(loaded, Rebuilt(ctx), RowsTried(tries), FaultsMet(tries), read, true), Staged(w, ctx, all, orders);
      && all == Kept(ctx, rows, faults, true) + Kept(ctx, RowsTried(tries), FaultsMet(tries), true)
      && a == Fused(w, ctx, all, read)
      && SameFacts(a, b) && a.records.Keys == w.records.Keys + RecordsOf(all)
      && (SameGolden(a.golden, b.golden) <==> TakenAlike(a.store, a.records, BuiltAs(w.store, ctx, all)))
      && (K.TypedActiveKeys(w.store) ==> SameGolden(a.golden, b.golden))
  {
    hide Sane, FreshRows, Complete, Fused, Staged, SameFacts, SameGolden, TakenAlike, K.TypedActiveKeys, After, Kept, BuiltAs,
      RowsTried, FaultsMet, PlansAlike;
    var again, met := RowsTried(tries), FaultsMet(tries);
    KeptConcat(ctx, rows, faults, again, met, true);
    ReplaysAreDrives(After(w, ctx, rows, faults, read, true), ctx, again, met, read);
    AfterConcat(w, ctx, rows, faults, again, met, read, true);
    AfterIsFused(w, ctx, rows + again, faults + met, read, true);
    FailuresCostOnlyTheirRows(w, ctx, rows + again, faults + met, read, orders);
  }

  lemma {:induction false} KeptConcat(ctx: Context, a: seq<InputRow>, fa: seq<Fault>, b: seq<InputRow>, fb: seq<Fault>, build: bool)
    requires |fa| == |a| && |fb| == |b|
    ensures Kept(ctx, a + b, fa + fb, build) == Kept(ctx, a, fa, build) + Kept(ctx, b, fb, build)
  {
    hide Fails;
    if b == [] {
      assert a + b == a && fa + fb == fa;
    } else {
      var n := |b| - 1;
      KeptConcat(ctx, a, fa, b[..n], fb[..n], build);
      assert (a + b)[..|a| + n] == a + b[..n] && (fa + fb)[..|a| + n] == fa + fb[..n];
    }
  }

  // ---- the batch --------------------------------------------------------------------------------------------

  /** Loading, finishing and replaying are one run of events. */
  lemma LoadAndReplaysAreARun(fates: seq<L.Fate>, rows: seq<nat>, fate: nat -> L.Replayable)
    ensures L.From(L.Step(L.From(L.NewBatch, L.EventsFor(fates)), L.Finished), L.ReplaysFor(rows, fate)) ==
            L.Run(L.EventsFor(fates) + [L.Finished] + L.ReplaysFor(rows, fate))
  {
    hide L.Step, L.EventsFor, L.ReplaysFor;
    var load, later := L.EventsFor(fates), L.ReplaysFor(rows, fate);
    assert (load + [L.Finished])[..|load|] == load;
    L.FromConcat(L.NewBatch, load + [L.Finished], later);
    L.RunIsFrom(load + [L.Finished] + later);
  }

  lemma ReplaysAppend(rows: seq<nat>, fate: nat -> L.Replayable)
    requires rows != []
    ensures var n := |rows| - 1;
      L.ReplaysFor(rows, fate) == L.ReplaysFor(rows[..n], fate) + [L.Replayed(rows[n], fate(rows[n]) == L.Succeeds)]
  {
  }

  /** What is open after replays: what was, but for the listed rows that went through. */
  lemma {:induction false} StillOpen(s: L.State, rows: seq<nat>, fate: nat -> L.Replayable, r: nat)
    ensures var t := L.From(s, L.ReplaysFor(rows, fate));
      L.IsOpen(t, r) <==> L.IsOpen(s, r) && !(r in rows && fate(r) == L.Succeeds)
  {
    if rows != [] {
      var n := |rows| - 1;
      ReplaysAppend(rows, fate);
      StillOpen(s, rows[..n], fate, r);
      assert L.ReplaysFor(rows, fate)[..n] == L.ReplaysFor(rows[..n], fate);
      assert rows == rows[..n] + [rows[n]];
    }
  }

  /**
   * A batch loaded, finished and replayed: its counters are exact, and what is open is exactly what the load
   * left open less the listed rows that went through.
   */
  lemma ReplayedBatchReconciles(fates: seq<L.Fate>, limit: nat, fate: nat -> L.Replayable)
    ensures var loaded := L.Step(L.From(L.NewBatch, L.EventsFor(fates)), L.Finished);
      var list := L.Listed(loaded, limit);
      var done := L.From(loaded, L.ReplaysFor(list, fate));
      && done.batch.status == L.Completed && L.Partitioned(done) && L.Reconciles(done)
      && forall r :: L.IsOpen(done, r) <==> L.IsOpen(loaded, r) && !(r in list && fate(r) == L.Succeeds)
  {
    hide L.EventsFor, L.ReplaysFor, L.Listed, L.Step, L.Run, L.From, L.Partitioned, L.Reconciles, L.IsOpen;
    var loaded := L.Step(L.From(L.NewBatch, L.EventsFor(fates)), L.Finished);
    var list := L.Listed(loaded, limit);
    LoadAndReplaysAreARun(fates, list, fate);
    EventsOnlyLoad(fates);
    L.ReplaysOfACompletedBatchReconcile(L.EventsFor(fates), L.ReplaysFor(list, fate));
    forall r ensures L.IsOpen(L.From(loaded, L.ReplaysFor(list, fate)), r) <==> L.IsOpen(loaded, r) && !(r in list && fate(r) == L.Succeeds) {
      StillOpen(loaded, list, fate, r);
    }
  }

  lemma EventsOnlyLoad(fates: seq<L.Fate>)
    ensures L.OnlyLoads(L.EventsFor(fates))
  {
  }

  /** The loaded batch counts exactly the rows kept as ingested and the others as skipped. */
  lemma LoadedBatchCountsTheKept(w: World, ctx: Context, rows: seq<InputRow>, faults: seq<Fault>, read: Reader, build: bool)
    requires |faults| == |rows|
    ensures var s := L.Step(L.From(L.NewBatch, L.EventsFor(Fates(w, ctx, rows, faults, read, build))), L.Finished);
      var kept := |Kept(ctx, rows, faults, build)|;
      && s.batch.status == L.Completed && s.batch.rowsRead == |rows| && s.batch.rowsIngested == kept == |s.stored|
      && s.batch.rowsSkipped + kept == |rows|
  {
    hide Fates, Kept, L.EventsFor, L.From;
    var fates := Fates(w, ctx, rows, faults, read, build);
    BatchTellsThemApart(fates);
    OneFateEach(w, ctx, rows, faults, read, build);
    AsManyAsKept(w, ctx, rows, faults, read, build);
  }

  // ---- the loop ---------------------------------------------------------------------------------------------

  /** From these tables and this batch, replaying these rows leads to those. */
  ghost predicate Redone(w: World, s: L.State, now: World, t: L.State, ctx: Context, rows: seq<nat>, attempts: nat -> Attempt,
                         read: Reader, build: bool)
  {
    var tries := TriesFor(rows, attempts);
    && now == After(w, ctx, RowsTried(tries), FaultsMet(tries), read, build)
    && t == L.From(s, L.ReplaysFor(rows, EndingBy(ctx, attempts, build)))
  }

  /** How many of the rows went through. */
  function Successes(ctx: Context, rows: seq<nat>, attempts: nat -> Attempt, build: bool): nat {
    var tries := TriesFor(rows, attempts);
    |Kept(ctx, RowsTried(tries), FaultsMet(tries), build)|
  }

  lemma NothingRedone(w: World, s: L.State, ctx: Context, rows: seq<nat>, attempts: nat -> Attempt, read: Reader, build: bool)
    ensures Redone(w, s, w, s, ctx, rows[..0], attempts, read, build) && Successes(ctx, rows[..0], attempts, build) == 0
  {
  }

  lemma TriesAppend(rows: seq<nat>, n: nat, attempts: nat -> Attempt)
    ensures TriesFor(rows + [n], attempts) == TriesFor(rows, attempts) + [attempts(n)]
    ensures var a := attempts(n);
      && RowsTried(TriesFor(rows + [n], attempts)) == RowsTried(TriesFor(rows, attempts)) + (if a.Again? then [a.row] else [])
      && FaultsMet(TriesFor(rows + [n], attempts)) == FaultsMet(TriesFor(rows, attempts)) + (if a.Again? then [RaisesAt(a.statement)] else [])
  {
    var before := TriesFor(rows, attempts);
    assert TriesFor(rows + [n], attempts) == before + [attempts(n)];
    assert (before + [attempts(n)])[..|before|] == before;
  }

  /** The tables after one more attempt. */
  function Redo(w: World, ctx: Context, a: Attempt, read: Reader, build: bool): World {
    if a.NoExactCopy? || Fails(ctx, a.row, build, RaisesAt(a.statement)) then w else ProcessWith(w, ctx, a.row, read, build)
  }

  lemma TriesOneMore(w: World, ctx: Context, rows: seq<nat>, n: nat, attempts: nat -> Attempt, read: Reader, build: bool)
    ensures var tries, more := TriesFor(rows, attempts), TriesFor(rows + [n], attempts);
      After(w, ctx, RowsTried(more), FaultsMet(more), read, build) ==
        Redo(After(w, ctx, RowsTried(tries), FaultsMet(tries), read, build), ctx, attempts(n), read, build)
  {
    hide After, Fails, ProcessWith, RowsTried, FaultsMet, TriesFor;
    var a, tries := attempts(n), TriesFor(rows, attempts);
    var before, faults := RowsTried(tries), FaultsMet(tries);
    TriesAppend(rows, n, attempts);
    if a.Again? {
      AfterOneMore(w, ctx, before, a.row, faults, RaisesAt(a.statement), read, build);
    } else {
      assert before + [] == before && faults + [] == faults;
    }
  }

  lemma SuccessesOneMore(ctx: Context, rows: seq<nat>, n: nat, attempts: nat -> Attempt, build: bool)
    ensures Successes(ctx, rows + [n], attempts, build) ==
            Successes(ctx, rows, attempts, build) + (if Ending(ctx, attempts(n), build) == L.Succeeds then 1 else 0)
  {
    hide Fails, RowsTried, FaultsMet, TriesFor;
    var a, tries := attempts(n), TriesFor(rows, attempts);
    var before, faults := RowsTried(tries), FaultsMet(tries);
    TriesAppend(rows, n, attempts);
    if a.Again? {
      assert (before + [a.row])[..|before|] == before && (faults + [RaisesAt(a.statement)])[..|before|] == faults;
    } else {
      assert before + [] == before && faults + [] == faults;
    }
  }

  lemma RedoneOneMore(w: World, s: L.State, now: World, t: L.State, ctx: Context, rows: seq<nat>, n: nat, attempts: nat -> Attempt,
                      read: Reader, build: bool)
    requires Redone(w, s, now, t, ctx, rows, attempts, read, build)
    ensures Redone(w, s, Redo(now, ctx, attempts(n), read, build),
                   L.Step(t, L.Replayed(n, Ending(ctx, attempts(n), build) == L.Succeeds)), ctx, rows + [n], attempts, read, build)
  {
    hide After, RowsTried, FaultsMet, TriesFor, L.Step, Ending, Redo;
    TriesOneMore(w, ctx, rows, n, attempts, read, build);
    var fate := EndingBy(ctx, attempts, build);
    ReplaysAppend(rows + [n], fate);
    assert (rows + [n])[..|rows|] == rows;
    var events := L.ReplaysFor(rows, fate);
    assert (events + [L.Replayed(n, fate(n) == L.Succeeds)])[..|events|] == events;
  }

  lemma {:induction false} TriedPrefix(tries: seq<Attempt>, i: nat)
    requires i <= |tries|
    ensures RowsTried(tries[..i]) <= RowsTried(tries) && FaultsMet(tries[..i]) <= FaultsMet(tries)
  {
    if i == |tries| {
      assert tries[..i] == tries;
    } else {
      var n := |tries| - 1;
      assert tries[..n][..i] == tries[..i];
      TriedPrefix(tries[..n], i);
    }
  }

  /** A row's ids are free when its turn comes. */
  lemma NextTryIsFree(w: World, s: L.State, now: World, t: L.State, ctx: Context, rows: seq<nat>, attempts: nat -> Attempt,
                      read: Reader, build: bool, i: nat)
    requires NewIds(w.store, RowsTried(TriesFor(rows, attempts))) && i < |rows|
    requires Redone(w, s, now, t, ctx, rows[..i], attempts, read, build) && attempts(rows[i]).Again?
    ensures var row := attempts(rows[i]).row; row.selfId != row.employerId && RowIds(row) !! now.store.entities.Keys
  {
    hide After, RowsTried, FaultsMet, L.From;
    var tries := TriesFor(rows, attempts);
    var all, met := RowsTried(tries), FaultsMet(tries);
    assert TriesFor(rows[..i], attempts) == tries[..i] && TriesFor(rows[..i] + [rows[i]], attempts) == tries[..i + 1];
    TriedPrefix(tries, i);
    TriedPrefix(tries, i + 1);
    TriesAppend(rows[..i], rows[i], attempts);
    var k := |RowsTried(tries[..i])|;
    assert all[..k] == RowsTried(tries[..i]) && met[..k] == FaultsMet(tries[..i]);
    assert all[k] == RowsTried(tries[..i + 1])[k] == attempts(rows[i]).row;
    NewIdsAfter(w, ctx, all, met, read, build, k);
  }

  method ReplayOne(r: Runner, ctx: Context, row: nat, a: Attempt, read: Reader, build: bool) returns (fate: L.Replayable)
    requires OneCurrent(r.db.golden.rows) && L.IsOpen(r.counts.Now(), row)
    requires a.Again? ==> a.row.selfId != a.row.employerId && RowIds(a.row) !! r.db.tables.entities.Keys
    modifies r.db, r.db.tables, r.db.golden, r.counts
    ensures fate == Ending(ctx, a, build)
    ensures r.db.State() == Redo(old(r.db.State()), ctx, a, read, build) && OneCurrent(r.db.golden.rows)
    ensures r.counts.Now() == L.Step(old(r.counts.Now()), L.Replayed(row, fate == L.Succeeds))
  {
    hide Statements, ProcessWith, OutcomeOf, OneCurrent, Trace, L.Step;
    if a.NoExactCopy? {
      fate := L.NoPayload;
    } else {
      var committed := r.db.Snapshot();
      var outcome := r.db.Process(ctx, a.row, read, build, a.statement);
      if outcome.None? {
        r.db.Rollback(committed);
        fate := L.FailsAgain;
      } else {
        fate := L.Succeeds;
      }
    }
    r.counts.ReplayRow(row, fate);
  }

  function Noted(r: L.ReprocessResult, fate: L.Replayable): L.ReprocessResult {
    var more := r.(attempted := r.attempted + 1);
    match fate
    case NoPayload => more.(skipped := r.skipped + 1)
    case FailsAgain => more.(stillFailing := r.stillFailing + 1)
    case Succeeds => more.(succeeded := r.succeeded + 1)
  }

  ghost predicate OpenFrom(t: L.State, rows: seq<nat>, i: nat) {
    forall j :: i <= j < |rows| ==> L.IsOpen(t, rows[j])
  }

  /** The first rows of the list are done and counted, the others still open. */
  ghost predicate Underway(w: World, s: L.State, now: World, t: L.State, report: L.ReprocessResult, ctx: Context, rows: seq<nat>,
                           i: nat, attempts: nat -> Attempt, read: Reader, build: bool)
  {
    && i <= |rows| && Redone(w, s, now, t, ctx, rows[..i], attempts, read, build) && OpenFrom(t, rows, i)
    && report.attempted == i == report.succeeded + report.stillFailing + report.skipped
    && report.succeeded == Successes(ctx, rows[..i], attempts, build)
    && report.skipped + |RowsTried(TriesFor(rows[..i], attempts))| == i
  }

  lemma OneMoreUnderway(w: World, s: L.State, now: World, t: L.State, report: L.ReprocessResult, ctx: Context, rows: seq<nat>,
                        i: nat, attempts: nat -> Attempt, read: Reader, build: bool)
    requires Underway(w, s, now, t, report, ctx, rows, i, attempts, read, build) && i < |rows|
    requires forall j, k :: 0 <= j < k < |rows| ==> rows[j] < rows[k]
    ensures var fate := Ending(ctx, attempts(rows[i]), build);
      Underway(w, s, Redo(now, ctx, attempts(rows[i]), read, build), L.Step(t, L.Replayed(rows[i], fate == L.Succeeds)),
               Noted(report, fate), ctx, rows, i + 1, attempts, read, build)
  {
    hide Redone, Redo, Ending, L.Step, Successes, OpenFrom, RowsTried, TriesFor;
    CopiesOneMore(ctx, rows[..i], rows[i], attempts, build);
    RedoneOneMore(w, s, now, t, ctx, rows[..i], rows[i], attempts, read, build);
    SuccessesOneMore(ctx, rows[..i], rows[i], attempts, build);
    OthersStayOpen(t, rows, i, Ending(ctx, attempts(rows[i]), build) == L.Succeeds);
    assert rows[..i + 1] == rows[..i] + [rows[i]];
  }

  lemma CopiesOneMore(ctx: Context, rows: seq<nat>, n: nat, attempts: nat -> Attempt, build: bool)
    ensures |RowsTried(TriesFor(rows + [n], attempts))| ==
            |RowsTried(TriesFor(rows, attempts))| + (if Ending(ctx, attempts(n), build) == L.NoPayload then 0 else 1)
  {
    TriesAppend(rows, n, attempts);
  }

  lemma OthersStayOpen(s: L.State, rows: seq<nat>, i: nat, ok: bool)
    requires i < |rows| && (forall j, k :: 0 <= j < k < |rows| ==> rows[j] < rows[k]) && OpenFrom(s, rows, i)
    ensures OpenFrom(L.Step(s, L.Replayed(rows[i], ok)), rows, i + 1)
  {
  }

  lemma ListIsUnderway(w: World, s: L.State, ctx: Context, limit: nat, attempts: nat -> Attempt, read: Reader, build: bool)
    requires L.Partitioned(s)
    ensures Underway(w, s, w, s, L.ReprocessResult(0, 0, 0, 0), ctx, L.Listed(s, limit), 0, attempts, read, build)
    ensures forall j, k :: 0 <= j < k < |L.Listed(s, limit)| ==> L.Listed(s, limit)[j] < L.Listed(s, limit)[k]
  {
    hide Redone, Successes, L.Listed;
    L.ListedAreOpen(s, limit);
    NothingRedone(w, s, ctx, L.Listed(s, limit), attempts, read, build);
  }

  lemma NextIsReady(w: World, s: L.State, now: World, t: L.State, report: L.ReprocessResult, ctx: Context, rows: seq<nat>,
                    i: nat, attempts: nat -> Attempt, read: Reader, build: bool)
    requires Underway(w, s, now, t, report, ctx, rows, i, attempts, read, build) && i < |rows|
    requires NewIds(w.store, RowsTried(TriesFor(rows, attempts)))
    ensures L.IsOpen(t, rows[i])
    ensures var a := attempts(rows[i]); a.Again? ==> a.row.selfId != a.row.employerId && RowIds(a.row) !! now.store.entities.Keys
  {
    hide Redone, Successes, L.IsOpen, RowsTried, NewIds;
    if attempts(rows[i]).Again? { NextTryIsFree(w, s, now, t, ctx, rows, attempts, read, build, i); }
  }

  /** `reprocess_errors` for a batch: its open errors up to a limit, one after another; without a stored layout none. */
  method Reprocess(r: Runner, ctx: Context, limit: nat, layout: bool, attempts: nat -> Attempt, read: Reader, build: bool)
    returns (report: L.ReprocessResult)
    requires OneCurrent(r.db.golden.rows) && L.Partitioned(r.counts.Now())
    requires NewIds(r.db.tables.State(), RowsTried(TriesFor(L.Listed(r.counts.Now(), limit), attempts)))
    modifies r.db, r.db.tables, r.db.golden, r.counts
    ensures !layout ==> r.db.State() == old(r.db.State()) && r.counts.Now() == old(r.counts.Now())
                        && report == L.ReprocessResult(0, 0, 0, |L.Listed(old(r.counts.Now()), limit)|)
    ensures layout ==>
      var list := L.Listed(old(r.counts.Now()), limit);
      && Redone(old(r.db.State()), old(r.counts.Now()), r.db.State(), r.counts.Now(), ctx, list, attempts, read, build)
      && report.attempted == |list| == report.succeeded + report.stillFailing + report.skipped
      && report.succeeded == Successes(ctx, list, attempts, build)
      && report.skipped + |RowsTried(TriesFor(list, attempts))| == |list|
    ensures OneCurrent(r.db.golden.rows)
  {
    hide Redone, Redo, Ending, NewIds, OneCurrent, L.Step, L.Listed, L.Partitioned, RowsTried, TriesFor, Successes, Underway;
    ghost var w, s := r.db.State(), r.counts.Now();
    var rows := r.counts.ListOpen(limit);
    if !layout { return L.ReprocessResult(0, 0, 0, |rows|); }
    report := L.ReprocessResult(0, 0, 0, 0);
    ListIsUnderway(w, s, ctx, limit, attempts, read, build);
    for i := 0 to |rows|
      invariant Underway(w, s, r.db.State(), r.counts.Now(), report, ctx, rows, i, attempts, read, build)
      invariant OneCurrent(r.db.golden.rows)
    {
      ghost var before, was := r.db.State(), r.counts.Now();
      NextIsReady(w, s, before, was, report, ctx, rows, i, attempts, read, build);
      OneMoreUnderway(w, s, before, was, report, ctx, rows, i, attempts, read, build);
      var fate := ReplayOne(r, ctx, rows[i], attempts(rows[i]), read, build);
      report := Noted(report, fate);
    }
    AllDone(w, s, r.db.State(), r.counts.Now(), report, ctx, rows, attempts, read, build);
  }

  lemma AllDone(w: World, s: L.State, now: World, t: L.State, report: L.ReprocessResult, ctx: Context, rows: seq<nat>,
                attempts: nat -> Attempt, read: Reader, build: bool)
    requires Underway(w, s, now, t, report, ctx, rows, |rows|, attempts, read, build)
    ensures Redone(w, s, now, t, ctx, rows, attempts, read, build)
    ensures report.attempted == |rows| == report.succeeded + report.stillFailing + report.skipped
    ensures report.succeeded == Successes(ctx, rows, attempts, build)
    ensures report.skipped + |RowsTried(TriesFor(rows, attempts))| == |rows|
  {
    hide Redone, Successes;
    assert rows[..|rows|] == rows;
  }
}

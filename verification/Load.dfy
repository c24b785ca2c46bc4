/** A batch from its first row to its last replay: what its counters promise about the rows it holds. */
module Load {
  import opened Ordering
  import opened Sequences
  import opened Scoring
  import opened RecordPipeline
  import Q = Quarantine

  datatype BatchStatus = Running | Completed
  datatype ErrorStatus = Open | Reprocessed

  /** The batch row's own counters. */
  datatype Counters = Counters(status: BatchStatus, rowsRead: nat, rowsIngested: nat, rowsSkipped: nat)

  /** What the runner tallies as records go through. */
  datatype Tally = Tally(rowsRead: nat, processed: nat, failed: nat, quarantined: nat, linked: nat, newEntities: nat,
                         review: nat, invalid: nat)

  /** The batch, its stored rows in the order they landed, and its error rows, one per row number. */
  datatype State = State(batch: Counters, tally: Tally, stored: seq<nat>, errors: map<nat, ErrorStatus>)

  const NewBatch := State(Counters(Running, 0, 0, 0), Tally(0, 0, 0, 0, 0, 0, 0, 0), [], map[])

  /** A row goes through or fails; the batch is finished; an open error is replayed, successfully or not. */
  datatype Event = Processed(outcome: RecordOutcome) | Failed | Finished | Replayed(row: nat, ok: bool)

  /** `RunResult.observe`. */
  function Observed(t: Tally, o: RecordOutcome): Tally {
    var u := t.(processed := t.processed + 1,
                quarantined := t.quarantined + (if o.quarantined then 1 else 0),
                invalid := t.invalid + (if o.status == Q.Invalid then 1 else 0));
    if o.matched == Some(ByDecision(Link)) then u.(linked := u.linked + 1)
    else if o.matched == Some(ByDecision(Review)) then u.(review := u.review + 1)
    else if o.matched.Some? then u.(newEntities := u.newEntities + 1)
    else u
  }

  predicate IsOpen(s: State, row: nat) { row in s.errors && s.errors[row] == Open }

  /** `count_reprocessed_row`. */
  function Rejoined(c: Counters): Counters {
    c.(rowsIngested := c.rowsIngested + 1, rowsSkipped := if c.rowsSkipped > 0 then c.rowsSkipped - 1 else 0)
  }

  /** A replay that succeeds stores the row, closes its error and corrects the batch; one that fails leaves it open. */
  function Replay(s: State, row: nat, ok: bool): State {
    if !IsOpen(s, row) || !ok then s
    else s.(stored := s.stored + [row], errors := s.errors[row := Reprocessed], batch := Rejoined(s.batch))
  }

  function Step(s: State, e: Event): State {
    match e
    case Replayed(row, ok) => Replay(s, row, ok)
    case Processed(o) =>
      if s.batch.status == Completed then s
      else
        var n := s.tally.rowsRead + 1;
        s.(tally := Observed(s.tally, o).(rowsRead := n), stored := s.stored + [n])
    case Failed =>
      if s.batch.status == Completed then s
      else
        var n := s.tally.rowsRead + 1;
        s.(tally := s.tally.(rowsRead := n, failed := s.tally.failed + 1), errors := s.errors[n := Open])
    case Finished =>
      if s.batch.status == Completed then s
      else s.(batch := Counters(Completed, s.tally.rowsRead, s.tally.processed, s.tally.failed))
  }

  function Run(events: seq<Event>): State {
    if events == [] then NewBatch else Step(Run(events[..|events| - 1]), events[|events| - 1])
  }

  /** How many replays went through while the batch was still loading. */
  function EarlyReplays(events: seq<Event>): nat {
    if events == [] then 0
    else
      var before, e := Run(events[..|events| - 1]), events[|events| - 1];
      EarlyReplays(events[..|events| - 1])
      + (if e.Replayed? && e.ok && IsOpen(before, e.row) && before.batch.status == Running then 1 else 0)
  }

  function OpenRows(s: State): set<nat> { set r | r in s.errors && s.errors[r] == Open }

  // ---- what every event keeps -------------------------------------------------------------------------

  /** Every row read is stored once or waits as one open error, never both and never neither. */
  ghost predicate Partitioned(s: State) {
    && (forall r: nat :: r in s.stored <==> 1 <= r <= s.tally.rowsRead && !IsOpen(s, r))
    && (forall i, j :: 0 <= i < j < |s.stored| ==> s.stored[i] != s.stored[j])
    && (forall r :: r in s.errors ==> 1 <= r <= s.tally.rowsRead)
  }

  /** The sizes, with `early` replays the finishing counters do not know about. */
  ghost predicate Sized(s: State, early: nat) {
    && s.tally.rowsRead == s.tally.processed + s.tally.failed
    && |s.stored| + |OpenRows(s)| == s.tally.rowsRead
    && (s.batch.status == Running ==> |s.stored| == s.tally.processed + early)
    && (s.batch.status == Completed ==>
          && s.batch.rowsRead == s.tally.rowsRead
          && s.batch.rowsIngested + early == |s.stored|
          && s.batch.rowsSkipped == |OpenRows(s)| + early)
  }

  lemma ReplayKeepsPartition(s: State, row: nat, ok: bool)
    requires Partitioned(s)
    ensures Partitioned(Replay(s, row, ok))
  {
    var t := Replay(s, row, ok);
    if t != s {
      forall r: nat ensures r in t.stored <==> 1 <= r <= t.tally.rowsRead && !IsOpen(t, r) {
        assert r in t.stored <==> r in s.stored || r == row;
      }
    }
  }

  lemma ReplayKeepsSizes(s: State, row: nat, ok: bool, early: nat)
    requires Partitioned(s) && Sized(s, early)
    ensures Sized(Replay(s, row, ok), early + (if ok && IsOpen(s, row) && s.batch.status == Running then 1 else 0))
  {
    var t := Replay(s, row, ok);
    if ok && IsOpen(s, row) {
      assert row in OpenRows(s);
      assert OpenRows(t) == OpenRows(s) - {row};
    }
  }

  lemma RowKeepsPartition(s: State, t: State, failed: bool)
    requires Partitioned(s)
    requires var n := s.tally.rowsRead + 1;
      && t.tally.rowsRead == n && t.batch == s.batch
      && t.stored == (if failed then s.stored else s.stored + [n])
      && t.errors == (if failed then s.errors[n := Open] else s.errors)
    ensures Partitioned(t)
    ensures |OpenRows(t)| == |OpenRows(s)| + (if failed then 1 else 0)
  {
    var n := s.tally.rowsRead + 1;
    assert n !in s.errors && n !in s.stored;
    forall r: nat ensures r in t.stored <==> 1 <= r <= n && !IsOpen(t, r) {
      if !failed { assert r in t.stored <==> r in s.stored || r == n; }
      assert r != n ==> IsOpen(t, r) == IsOpen(s, r);
    }
    assert n !in OpenRows(s);
    assert OpenRows(t) == if failed then OpenRows(s) + {n} else OpenRows(s);
  }

  lemma StepKeeps(s: State, e: Event, early: nat)
    requires Partitioned(s) && Sized(s, early)
    ensures Partitioned(Step(s, e))
    ensures Sized(Step(s, e), early + (if e.Replayed? && e.ok && IsOpen(s, e.row) && s.batch.status == Running then 1 else 0))
  {
    match e
    case Replayed(row, ok) =>
      ReplayKeepsPartition(s, row, ok);
      ReplayKeepsSizes(s, row, ok, early);
    case Processed(o) => if s.batch.status == Running { RowKeepsPartition(s, Step(s, e), false); }
    case Failed => if s.batch.status == Running { RowKeepsPartition(s, Step(s, e), true); }
    case Finished => assert OpenRows(Step(s, e)) == OpenRows(s);
  }

  lemma {:induction false} RunKeeps(events: seq<Event>)
    ensures Partitioned(Run(events)) && Sized(Run(events), EarlyReplays(events))
  {
    if events == [] {
      assert OpenRows(NewBatch) == {};
    } else {
      var n := |events| - 1;
      RunKeeps(events[..n]);
      StepKeeps(Run(events[..n]), events[n], EarlyReplays(events[..n]));
    }
  }

  // ---- reconciliation -----------------------------------------------------------------------------------

  /** The batch's counters say exactly what it holds. */
  ghost predicate Reconciles(s: State) {
    && s.batch.rowsRead == s.tally.rowsRead
    && s.batch.rowsIngested == |s.stored|
    && s.batch.rowsSkipped == |OpenRows(s)|
  }

  /**
   * After any load and any replays of it, every row number from 1 to rows_read is stored once or open,
   * and rows_read is what was ingested plus what was skipped.
   */
  lemma EveryRowIsAccountedFor(events: seq<Event>)
    requires Run(events).batch.status == Completed
    ensures var s := Run(events);
      && Partitioned(s)
      && s.batch.rowsRead == s.batch.rowsIngested + s.batch.rowsSkipped
      && |s.stored| + |OpenRows(s)| == s.batch.rowsRead
      && s.batch.rowsRead == s.tally.processed + s.tally.failed
  {
    RunKeeps(events);
  }

  /**
   * The counters are exact if and only if no replay succeeded while the batch was still loading: finishing
   * writes the runner's own tally over the correction such a replay made, and each one leaves the batch
   * short by a row it holds and over by an error it no longer has.
   */
  lemma ReconcilesIffNoEarlyReplay(events: seq<Event>)
    requires Run(events).batch.status == Completed
    ensures Reconciles(Run(events)) <==> EarlyReplays(events) == 0
    ensures |Run(events).stored| == Run(events).batch.rowsIngested + EarlyReplays(events)
  {
    RunKeeps(events);
  }

  /** A row fails, is replayed while the load is still going, and the finished batch claims to lack it. */
  lemma EarlyReplayIsForgotten()
    ensures var s := Run([Failed, Replayed(1, true), Finished]);
      && s.stored == [1] && OpenRows(s) == {}
      && s.batch.rowsIngested == 0 && s.batch.rowsSkipped == 1
  {
    var es := [Failed, Replayed(1, true), Finished];
    assert es[..2] == [Failed, Replayed(1, true)];
    assert es[..2][..1] == [Failed];
    assert es[..2][..1][..0] == [];
    var one := Run([Failed]);
    assert one == Step(NewBatch, Failed) by { assert [Failed][..0] == []; }
    assert Run(es[..2]) == Step(one, es[1]);
  }

  ghost predicate OnlyLoads(events: seq<Event>) {
    forall i :: 0 <= i < |events| ==> events[i].Processed? || events[i].Failed?
  }

  lemma {:induction false} StaysCompleted(events: seq<Event>, more: seq<Event>)
    requires Run(events).batch.status == Completed
    ensures Run(events + more).batch.status == Completed && EarlyReplays(events + more) == EarlyReplays(events)
  {
    if more == [] {
      assert events + more == events;
    } else {
      var n := |more| - 1;
      assert (events + more)[..|events| + n] == events + more[..n];
      StaysCompleted(events, more[..n]);
    }
  }

  lemma {:induction false} LoadingIsNotReplaying(load: seq<Event>)
    requires OnlyLoads(load)
    ensures EarlyReplays(load) == 0 && Run(load).batch.status == Running
  {
    if load != [] {
      assert OnlyLoads(load[..|load| - 1]);
      LoadingIsNotReplaying(load[..|load| - 1]);
    }
  }

  lemma FinishedAfter(load: seq<Event>)
    requires OnlyLoads(load)
    ensures Run(load + [Finished]).batch.status == Completed && EarlyReplays(load + [Finished]) == 0
  {
    LoadingIsNotReplaying(load);
    assert (load + [Finished])[..|load|] == load;
  }

  /** In particular: load, finish, and then any number of replays, and every counter is exact at every point. */
  lemma ReplaysOfACompletedBatchReconcile(load: seq<Event>, later: seq<Event>)
    requires OnlyLoads(load)
    ensures var s := Run(load + [Finished] + later);
      && s.batch.status == Completed && Partitioned(s) && Reconciles(s)
      && s.batch.rowsRead == s.batch.rowsIngested + s.batch.rowsSkipped
  {
    hide Run, EarlyReplays, Partitioned, Reconciles;
    FinishedAfter(load);
    StaysCompleted(load + [Finished], later);
    EveryRowIsAccountedFor(load + [Finished] + later);
    ReconcilesIffNoEarlyReplay(load + [Finished] + later);
  }

  // ---- the runner's tally ---------------------------------------------------------------------------------

  ghost predicate AddsUp(t: Tally) {
    t.processed == t.invalid + t.linked + t.review + t.newEntities && t.quarantined == t.invalid
  }

  lemma ObservedAddsUp(t: Tally, o: RecordOutcome)
    requires AddsUp(t) && Genuine(o)
    ensures AddsUp(Observed(t, o))
  {
  }

  lemma StepAddsUp(s: State, e: Event)
    requires AddsUp(s.tally) && (e.Processed? ==> Genuine(e.outcome))
    ensures AddsUp(Step(s, e).tally)
  {
    if e.Processed? { ObservedAddsUp(s.tally, e.outcome); }
  }

  ghost predicate AllGenuine(events: seq<Event>) {
    forall i :: 0 <= i < |events| && events[i].Processed? ==> Genuine(events[i].outcome)
  }

  /** Each processed record is counted in exactly one of the four ends it can come to. */
  lemma {:induction false} TallyAddsUp(events: seq<Event>)
    requires AllGenuine(events)
    ensures AddsUp(Run(events).tally)
  {
    if events != [] {
      var n := |events| - 1;
      assert AllGenuine(events[..n]);
      TallyAddsUp(events[..n]);
      StepAddsUp(Run(events[..n]), events[n]);
      assert Run(events) == Step(Run(events[..n]), events[n]);
    }
  }

  function WentThrough(): Event -> bool { (e: Event) => e.Processed? }
  function WasLinked(): Event -> bool { (e: Event) => e.Processed? && e.outcome.matched == Some(ByDecision(Link)) }
  function AskedAPerson(): Event -> bool { (e: Event) => e.Processed? && e.outcome.matched == Some(ByDecision(Review)) }
  function MadeAnEntity(): Event -> bool {
    (e: Event) => e.Processed? && (e.outcome.matched == Some(ByDecision(New)) || e.outcome.matched == Some(NoKeysBuilt))
  }
  function WasInvalid(): Event -> bool { (e: Event) => e.Processed? && e.outcome.status == Q.Invalid }
  function WasHeld(): Event -> bool { (e: Event) => e.Processed? && e.outcome.quarantined }
  function DidFail(): Event -> bool { (e: Event) => e.Failed? }

  ghost predicate TalliesOf(t: Tally, load: seq<Event>) {
    && t.rowsRead == |load| && t.processed == Count(load, WentThrough()) && t.failed == Count(load, DidFail())
    && t.linked == Count(load, WasLinked()) && t.review == Count(load, AskedAPerson()) && t.newEntities == Count(load, MadeAnEntity())
    && t.invalid == Count(load, WasInvalid()) && t.quarantined == Count(load, WasHeld())
  }

  lemma OneMoreCounted(before: seq<Event>, e: Event, p: Event -> bool)
    ensures Count(before + [e], p) == Count(before, p) + (if p(e) then 1 else 0)
  {
    CountAppend(before, e, p);
  }

  lemma RowThrough(t: Tally, before: seq<Event>, e: Event)
    requires TalliesOf(t, before) && e.Processed?
    ensures TalliesOf(Observed(t, e.outcome).(rowsRead := t.rowsRead + 1), before + [e])
  {
    hide Count;
    OneMoreCounted(before, e, WentThrough());
    OneMoreCounted(before, e, DidFail());
    OneMoreCounted(before, e, WasLinked());
    OneMoreCounted(before, e, AskedAPerson());
    OneMoreCounted(before, e, MadeAnEntity());
    OneMoreCounted(before, e, WasInvalid());
    OneMoreCounted(before, e, WasHeld());
    MatchedSomehow(e.outcome.matched);
  }

  lemma MatchedSomehow(m: Option<Matched>)
    ensures m in {None, Some(NoKeysBuilt), Some(ByDecision(Link)), Some(ByDecision(Review)), Some(ByDecision(New))}
  {
    if m.Some? && m.value.ByDecision? { assert m.value.kind == Link || m.value.kind == Review || m.value.kind == New; }
  }

  lemma RowFailed(t: Tally, before: seq<Event>)
    requires TalliesOf(t, before)
    ensures TalliesOf(t.(rowsRead := t.rowsRead + 1, failed := t.failed + 1), before + [Failed])
  {
    hide Count;
    OneMoreCounted(before, Failed, WentThrough());
    OneMoreCounted(before, Failed, DidFail());
    OneMoreCounted(before, Failed, WasLinked());
    OneMoreCounted(before, Failed, AskedAPerson());
    OneMoreCounted(before, Failed, MadeAnEntity());
    OneMoreCounted(before, Failed, WasInvalid());
    OneMoreCounted(before, Failed, WasHeld());
  }

  lemma OneMoreTallied(s: State, before: seq<Event>, e: Event)
    requires TalliesOf(s.tally, before) && s.batch.status == Running && (e.Processed? || e.Failed?)
    ensures TalliesOf(Step(s, e).tally, before + [e])
  {
    hide TalliesOf, Observed;
    if e.Processed? { RowThrough(s.tally, before, e); } else { RowFailed(s.tally, before); }
  }

  /** While a batch loads, each counter of the runner counts the rows that ended the way it is named for. */
  lemma {:induction false} TallyCounts(load: seq<Event>)
    requires OnlyLoads(load)
    ensures TalliesOf(Run(load).tally, load)
  {
    hide TalliesOf, Step, Run, EarlyReplays;
    if load == [] {
      NothingTallied();
    } else {
      RunIsOneMore(load);
      var n := |load| - 1;
      assert OnlyLoads(load[..n]) && load == load[..n] + [load[n]];
      TallyCounts(load[..n]);
      LoadingIsNotReplaying(load[..n]);
      OneMoreTallied(Run(load[..n]), load[..n], load[n]);
    }
  }

  lemma RunIsOneMore(load: seq<Event>)
    requires load != []
    ensures Run(load) == Step(Run(load[..|load| - 1]), load[|load| - 1])
  {
  }

  lemma NothingTallied()
    ensures TalliesOf(Run([]).tally, [])
  {
    hide Count;
    CountNothing(WentThrough());
    CountNothing(DidFail());
    CountNothing(WasLinked());
    CountNothing(AskedAPerson());
    CountNothing(MadeAnEntity());
    CountNothing(WasInvalid());
    CountNothing(WasHeld());
  }

  lemma CountNothing(p: Event -> bool)
    ensures Count([], p) == 0
  {
  }

  // ---- the loops ---------------------------------------------------------------------------------------------

  /** What awaits a row: refused by the screen, refused by `process`, or through. */
  datatype Fate = Unstorable | Raises | Through(outcome: RecordOutcome)

  function EventFor(f: Fate): Event { if f.Through? then Processed(f.outcome) else Failed }

  function EventsFor(fates: seq<Fate>): seq<Event> { seq(|fates|, i requires 0 <= i < |fates| => EventFor(fates[i])) }

  /** What awaits an open error: no exact payload kept, fails again, or through. */
  datatype Replayable = NoPayload | FailsAgain | Succeeds

  datatype ReprocessResult = ReprocessResult(attempted: nat, succeeded: nat, stillFailing: nat, skipped: nat)

  function ReplaysFor(rows: seq<nat>, fate: nat -> Replayable): seq<Event> {
    seq(|rows|, i requires 0 <= i < |rows| => Replayed(rows[i], fate(rows[i]) == Succeeds))
  }

  function From(s: State, events: seq<Event>): State {
    if events == [] then s else Step(From(s, events[..|events| - 1]), events[|events| - 1])
  }

  lemma {:induction false} RunIsFrom(events: seq<Event>)
    ensures Run(events) == From(NewBatch, events)
  {
    if events != [] { RunIsFrom(events[..|events| - 1]); }
  }

  /** So what the methods below do one after another is one run of events. */
  lemma {:induction false} FromConcat(s: State, a: seq<Event>, b: seq<Event>)
    ensures From(s, a + b) == From(From(s, a), b)
  {
    if b == [] {
      assert a + b == a;
    } else {
      var n := |b| - 1;
      assert (a + b)[..|a| + n] == a + b[..n];
      FromConcat(s, a, b[..n]);
    }
  }

  /** The open rows up to a number, in order. */
  function OpenUpTo(s: State, n: nat): seq<nat> {
    if n == 0 then [] else OpenUpTo(s, n - 1) + (if IsOpen(s, n) then [n] else [])
  }

  /** `open_errors_for_reprocess`: the first of them, at most `limit`. */
  function Listed(s: State, limit: nat): seq<nat> {
    var all := OpenUpTo(s, s.tally.rowsRead);
    if |all| <= limit then all else all[..limit]
  }

  lemma {:induction false} OpenUpToIs(s: State, n: nat)
    ensures forall i, j :: 0 <= i < j < |OpenUpTo(s, n)| ==> OpenUpTo(s, n)[i] < OpenUpTo(s, n)[j]
    ensures forall r: nat :: r in OpenUpTo(s, n) <==> 1 <= r <= n && IsOpen(s, r)
  {
    if n > 0 {
      OpenUpToIs(s, n - 1);
      forall r: nat ensures r in OpenUpTo(s, n) <==> 1 <= r <= n && IsOpen(s, r) {
        assert r in OpenUpTo(s, n) <==> r in OpenUpTo(s, n - 1) || (r == n && IsOpen(s, n));
      }
      var before := OpenUpTo(s, n - 1);
      assert forall i :: 0 <= i < |before| ==> before[i] in before;
    }
  }

  /** What is listed is open and listed once, and with a limit no lower than their number every open row is. */
  lemma ListedAreOpen(s: State, limit: nat)
    requires Partitioned(s)
    ensures var rows := Listed(s, limit);
      && |rows| <= limit
      && (forall i :: 0 <= i < |rows| ==> IsOpen(s, rows[i]))
      && (forall i, j :: 0 <= i < j < |rows| ==> rows[i] < rows[j])
      && (limit >= |OpenRows(s)| ==> forall r :: r in OpenRows(s) ==> r in rows)
  {
    var all, rows := OpenUpTo(s, s.tally.rowsRead), Listed(s, limit);
    OpenUpToIs(s, s.tally.rowsRead);
    forall i | 0 <= i < |rows| ensures IsOpen(s, rows[i]) { assert rows[i] == all[i] && all[i] in all; }
    assert Members(all) == OpenRows(s);
    MembersSize(all);
  }

  function Members(rows: seq<nat>): set<nat> { set r | r in rows }

  lemma {:induction false} MembersSize(rows: seq<nat>)
    requires forall i, j :: 0 <= i < j < |rows| ==> rows[i] < rows[j]
    ensures |Members(rows)| == |rows|
  {
    if rows != [] {
      var n := |rows| - 1;
      MembersSize(rows[..n]);
      assert rows == rows[..n] + [rows[n]];
      assert Members(rows) == Members(rows[..n]) + {rows[n]};
      assert rows[n] !in Members(rows[..n]);
    }
  }

  class BatchTables {
    var batch: Counters
    var tally: Tally
    var stored: seq<nat>
    var errors: map<nat, ErrorStatus>

    ghost function Now(): State
      reads this
    {
      State(batch, tally, stored, errors)
    }

    constructor ()
      ensures Now() == NewBatch
    {
      batch, tally, stored, errors := Counters(Running, 0, 0, 0), Tally(0, 0, 0, 0, 0, 0, 0, 0), [], map[];
    }

    method Observe(o: RecordOutcome)
      modifies this`tally
      ensures tally == Observed(old(tally), o)
    {
      tally := tally.(processed := tally.processed + 1);
      if o.quarantined { tally := tally.(quarantined := tally.quarantined + 1); }
      if o.status == Q.Invalid { tally := tally.(invalid := tally.invalid + 1); }
      if o.matched == Some(ByDecision(Link)) {
        tally := tally.(linked := tally.linked + 1);
      } else if o.matched == Some(ByDecision(Review)) {
        tally := tally.(review := tally.review + 1);
      } else if o.matched.Some? {
        tally := tally.(newEntities := tally.newEntities + 1);
      }
    }

    /** Insert, or open again the one row there is. */
    method RecordFailure(row: nat)
      modifies this`errors
      ensures errors == old(errors)[row := Open]
    {
      errors := errors[row := Open];
    }

    /** One turn of the loop: a row that fails costs one row. */
    method DriveRow(fate: Fate)
      requires batch.status == Running
      modifies this
      ensures Now() == Step(old(Now()), EventFor(fate)) && batch == old(batch)
    {
      tally := tally.(rowsRead := tally.rowsRead + 1);
      var row := tally.rowsRead;
      match fate {
        case Unstorable =>
          RecordFailure(row);
          tally := tally.(failed := tally.failed + 1);
        case Raises =>
          RecordFailure(row);
          tally := tally.(failed := tally.failed + 1);
        case Through(outcome) =>
          stored := stored + [row];
          Observe(outcome);
      }
    }

    method FinishBatch()
      requires batch.status == Running
      modifies this`batch
      ensures Now() == Step(old(Now()), Finished)
    {
      batch := Counters(Completed, tally.rowsRead, tally.processed, tally.failed);
    }

    method ListOpen(limit: nat) returns (rows: seq<nat>)
      ensures rows == Listed(Now(), limit)
    {
      rows := [];
      for n := 0 to tally.rowsRead
        invariant rows == OpenUpTo(Now(), n)
      {
        if n + 1 in errors && errors[n + 1] == Open { rows := rows + [n + 1]; }
      }
      if |rows| > limit { rows := rows[..limit]; }
    }

    /** One open error, replayed: closed and counted in if it goes through, open as before if not. */
    method ReplayRow(row: nat, fate: Replayable)
      requires row in errors && errors[row] == Open
      modifies this
      ensures Now() == Step(old(Now()), Replayed(row, fate == Succeeds))
    {
      match fate {
        case NoPayload =>
        case FailsAgain =>
          RecordFailure(row);
        case Succeeds =>
          stored := stored + [row];
          errors := errors[row := Reprocessed];
          batch := batch.(rowsIngested := batch.rowsIngested + 1,
                          rowsSkipped := if batch.rowsSkipped > 0 then batch.rowsSkipped - 1 else 0);
      }
    }
  }
}

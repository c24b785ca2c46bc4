/** Any number of builders on one entity, interleaved statement by statement. */
module ConcurrentBuilders {
  import opened Ordering
  import opened Keys
  import opened Survivorship
  import opened GoldenTable
  import opened GoldenHistory
  import opened GoldenBuilder

  /** Where a builder is: it locks the entity row, reads the observations, reads what is current, writes, commits. */
  datatype Phase =
    | Waiting
    | Locked
    | Observed(choices: seq<FieldChoice>)
    | Writing(choices: seq<FieldChoice>, rest: seq<Stmt>, last: nat)
    | Committed
    | Refused  // an insert hit the unique index and the transaction died

  /**
   * `choices` is what the entity's observations say at the moment; `order` lists what each committed
   * builder had observed, in commit order; `stale` says whether a close ever hit a row no longer open.
   */
  datatype World = World(table: Table, lock: Option<nat>, builders: seq<Phase>, choices: seq<FieldChoice>,
                         order: seq<seq<FieldChoice>>, stale: bool)

  /** Either a builder takes its next step, or another transaction changes what the observations say. */
  datatype Action = Builder(b: nat) | NewObservations(choices: seq<FieldChoice>)

  datatype Entity = Entity(id: nat, entityType: EntityType)

  function With(w: World, b: nat, p: Phase): World
    requires b < |w.builders|
  {
    w.(builders := w.builders[b := p])
  }

  /** The holder's next statement; readers never block, a second locker waits. */
  function Next(w: World, n: Entity, b: nat, locking: bool): World
    requires b < |w.builders|
  {
    match w.builders[b]
    case Waiting =>
      if locking && w.lock.Some? then w
      else With(w.(lock := if locking then Some(b) else w.lock), b, Locked)
    case Locked => With(w, b, Observed(w.choices))
    case Observed(choices) => With(w, b, Writing(choices, Program(w.table, n.id, choices), 0))
    case Writing(choices, rest, last) =>
      if rest == [] then With(w.(lock := if locking then None else w.lock, order := w.order + [choices]), b, Committed)
      else
        var s := Exec(Session(w.table, last, false, false), n.id, n.entityType, rest[0]);
        if s.violated then With(w.(lock := if locking then None else w.lock), b, Refused)
        else With(w.(table := s.table, stale := w.stale || s.stale), b, Writing(choices, rest[1..], s.last))
    case Committed => w
    case Refused => w
  }

  function Act(w: World, n: Entity, a: Action, locking: bool): World {
    match a
    case Builder(b) => if b < |w.builders| then Next(w, n, b, locking) else w
    case NewObservations(choices) => w.(choices := choices)
  }

  function Schedule(w: World, n: Entity, actions: seq<Action>, locking: bool): World
    decreases |actions|
  {
    if actions == [] then w else Schedule(Act(w, n, actions[0], locking), n, actions[1..], locking)
  }

  function Start(t: Table, builders: nat, choices: seq<FieldChoice>): World {
    World(t, None, seq(builders, _ => Waiting), choices, [], false)
  }

  /** The committed builders run one after the other, in the order they held the lock. */
  function Serial(t: Table, n: Entity, order: seq<seq<FieldChoice>>): Table {
    if order == [] then t
    else Build(Serial(t, n, order[..|order| - 1]), n.id, n.entityType, order[|order| - 1])
  }

  lemma {:induction false} SerialIsOneCurrent(t: Table, n: Entity, order: seq<seq<FieldChoice>>)
    requires OneCurrent(t)
    ensures OneCurrent(Serial(t, n, order))
  {
    if order != [] {
      SerialIsOneCurrent(t, n, order[..|order| - 1]);
      BuildKeepsOtherEntities(Serial(t, n, order[..|order| - 1]), n.id, n.entityType, order[|order| - 1], n.id, "");
    }
  }

  // ---- with the lock ------------------------------------------------------------------------

  ghost predicate Inside(p: Phase) { p.Locked? || p.Observed? || p.Writing? }

  /** Whoever is between lock and commit holds the lock, so there is at most one; nobody has been refused. */
  ghost predicate Exclusive(w: World) {
    && (forall b :: 0 <= b < |w.builders| ==> (Inside(w.builders[b]) <==> w.lock == Some(b)))
    && (forall b :: 0 <= b < |w.builders| ==> !w.builders[b].Refused?)
    && (w.lock.Some? ==> w.lock.value < |w.builders|)
  }

  ghost predicate Sensible(w: World) {
    && DistinctFields(w.choices)
    && (forall b :: 0 <= b < |w.builders| && w.builders[b].Observed? ==> DistinctFields(w.builders[b].choices))
  }

  /** The table is a serial one, or the holder's remaining statements take it to the next serial one. */
  ghost predicate OnTrack(w: World, n: Entity, t: Table) {
    var base := Serial(t, n, w.order);
    if w.lock.Some? && w.lock.value < |w.builders| && w.builders[w.lock.value].Writing? then
      var p := w.builders[w.lock.value];
      var s := ExecAll(Session(w.table, p.last, false, false), n.id, n.entityType, p.rest);
      Clean(s) && s.table == Build(base, n.id, n.entityType, p.choices) && OneCurrent(w.table)
    else
      w.table == base
  }

  ghost predicate Safe(w: World, n: Entity, t: Table) {
    OneCurrent(t) && Exclusive(w) && Sensible(w) && OnTrack(w, n, t) && !w.stale
  }

  lemma {:induction false} ExecKeepsFlags(s: Session, e: nat, entityType: EntityType, stmts: seq<Stmt>)
    ensures s.violated ==> ExecAll(s, e, entityType, stmts).violated
    ensures s.stale ==> ExecAll(s, e, entityType, stmts).stale
    decreases |stmts|
  {
    if stmts != [] { ExecKeepsFlags(Exec(s, e, entityType, stmts[0]), e, entityType, stmts[1..]); }
  }

  lemma ExecKeepsOneCurrent(s: Session, e: nat, entityType: EntityType, stmt: Stmt)
    requires OneCurrent(s.table)
    ensures OneCurrent(Exec(s, e, entityType, stmt).table)
  {
    var u := Exec(s, e, entityType, stmt).table;
    forall i: nat, j: nat | i < j < |u| && !u[i].closed && !u[j].closed
      ensures u[i].entity != u[j].entity || u[i].field != u[j].field
    {
      if j < |s.table| {
        assert !s.table[i].closed && !s.table[j].closed;
      } else if u[i].entity == e && u[i].field == stmt.field {
        assert IsCurrent(s.table, i, e, stmt.field);
      }
    }
  }

  /** One statement of the holder: nothing violated, nothing stale, and still on its way to the next build. */
  lemma HolderWrites(w: World, n: Entity, t: Table, b: nat)
    requires Safe(w, n, t) && b < |w.builders| && w.builders[b].Writing? && w.builders[b].rest != []
    ensures Safe(Next(w, n, b, true), n, t)
  {
    var p := w.builders[b];
    var s0 := Session(w.table, p.last, false, false);
    var s1 := Exec(s0, n.id, n.entityType, p.rest[0]);
    assert w.lock == Some(b);
    ExecKeepsFlags(s1, n.id, n.entityType, p.rest[1..]);
    assert ExecAll(s0, n.id, n.entityType, p.rest) == ExecAll(s1, n.id, n.entityType, p.rest[1..]);
    assert !s1.violated && !s1.stale;
    ExecKeepsOneCurrent(s0, n.id, n.entityType, p.rest[0]);
    assert s1 == Session(s1.table, s1.last, false, false);
  }

  lemma HolderReads(w: World, n: Entity, t: Table, b: nat)
    requires Safe(w, n, t) && b < |w.builders| && w.builders[b].Observed?
    ensures Safe(Next(w, n, b, true), n, t)
  {
    assert w.lock == Some(b) && w.table == Serial(t, n, w.order);
    SerialIsOneCurrent(t, n, w.order);
    ProgramBuilds(w.table, n.id, n.entityType, w.builders[b].choices, 0);
  }

  lemma HolderCommits(w: World, n: Entity, t: Table, b: nat)
    requires Safe(w, n, t) && b < |w.builders| && w.builders[b].Writing? && w.builders[b].rest == []
    ensures Safe(Next(w, n, b, true), n, t)
  {
    assert w.lock == Some(b);
    var u := Next(w, n, b, true);
    assert u.order[..|w.order|] == w.order;
  }

  lemma NextIsSafe(w: World, n: Entity, t: Table, b: nat)
    requires Safe(w, n, t) && b < |w.builders|
    ensures Safe(Next(w, n, b, true), n, t)
  {
    match w.builders[b]
    case Waiting =>
    case Locked => assert w.lock == Some(b);
    case Observed(_) => HolderReads(w, n, t, b);
    case Writing(_, rest, _) => if rest == [] { HolderCommits(w, n, t, b); } else { HolderWrites(w, n, t, b); }
    case Committed =>
    case Refused =>
  }

  lemma SafeIsOneCurrent(w: World, n: Entity, t: Table)
    requires Safe(w, n, t)
    ensures OneCurrent(w.table)
  {
    SerialIsOneCurrent(t, n, w.order);
  }

  ghost predicate SensibleActions(actions: seq<Action>) {
    forall i :: 0 <= i < |actions| && actions[i].NewObservations? ==> DistinctFields(actions[i].choices)
  }

  lemma {:induction false} ScheduleIsSafe(w: World, n: Entity, t: Table, actions: seq<Action>)
    requires Safe(w, n, t) && SensibleActions(actions)
    ensures Safe(Schedule(w, n, actions, true), n, t)
    decreases |actions|
  {
    if actions != [] {
      var next := Act(w, n, actions[0], true);
      assert Safe(next, n, t) by {
        match actions[0] {
          case Builder(b) => if b < |w.builders| { NextIsSafe(w, n, t, b); }
          case NewObservations(_) =>
        }
      }
      assert SensibleActions(actions[1..]) by {
        forall i | 0 <= i < |actions[1..]| ensures actions[1..][i] == actions[i + 1] {}
      }
      ScheduleIsSafe(next, n, t, actions[1..]);
    }
  }

  /**
   * Any number of builders, under any interleaving and any change of observations in between: no two rows
   * of a field are ever current, no insert is refused, every close hits an open row, and whenever the lock
   * is free the table is what the committed builders make of it one after the other.
   */
  lemma LockedBuildersAreSerial(t: Table, n: Entity, builders: nat, choices: seq<FieldChoice>, actions: seq<Action>)
    requires OneCurrent(t) && DistinctFields(choices) && SensibleActions(actions)
    ensures var w := Schedule(Start(t, builders, choices), n, actions, true);
      && OneCurrent(w.table)
      && !w.stale
      && (forall b :: 0 <= b < |w.builders| ==> !w.builders[b].Refused?)
      && (w.lock.None? ==> w.table == Serial(t, n, w.order))
  {
    var w := Start(t, builders, choices);
    assert Serial(t, n, []) == t;
    assert Safe(w, n, t);
    ScheduleIsSafe(w, n, t, actions);
    SafeIsOneCurrent(Schedule(w, n, actions, true), n, t);
  }

  // ---- without it ------------------------------------------------------------------------------

  lemma {:induction false} ScheduleConcat(w: World, n: Entity, a: seq<Action>, b: seq<Action>, locking: bool)
    ensures Schedule(w, n, a + b, locking) == Schedule(Schedule(w, n, a, locking), n, b, locking)
    decreases |a|
  {
    if a == [] {
      assert a + b == b;
    } else {
      assert (a + b)[1..] == a[1..] + b;
      ScheduleConcat(Act(w, n, a[0], locking), n, a[1..], b, locking);
    }
  }

  lemma ScheduleThree(w: World, n: Entity, b: nat, locking: bool)
    requires b < |w.builders|
    ensures |Next(w, n, b, locking).builders| == |w.builders|
    ensures Schedule(w, n, [Builder(b), Builder(b), Builder(b)], locking)
         == Next(Next(Next(w, n, b, locking), n, b, locking), n, b, locking)
  {
    var three, two, one := [Builder(b), Builder(b), Builder(b)], [Builder(b), Builder(b)], [Builder(b)];
    assert three[1..] == two && two[1..] == one && one[1..] == [];
    var w1 := Next(w, n, b, locking);
    var w2 := Next(w1, n, b, locking);
    assert Schedule(w2, n, one, locking) == Next(w2, n, b, locking);
    assert Schedule(w1, n, two, locking) == Schedule(w2, n, one, locking);
  }

  lemma {:induction false} NothingRetired(t: Table, e: nat, fields: set<string>, n: nat)
    requires n <= |t| && NoneUnsupported(t, e, fields)
    ensures RetireProgram(t, e, fields, n) == []
  {
    if n > 0 { NothingRetired(t, e, fields, n - 1); }
  }

  /** A builder replacing the value of the entity's only field sends three statements. */
  lemma ReplacingProgram(t: Table, e: nat, f: string, c: Choice)
    requires Trusted(t, e, f).Some? && Trusted(t, e, f).value.value != c.value && NoneUnsupported(t, e, {f})
    ensures var id := CurrentOf(t, e, f).value;
      Program(t, e, [FieldChoice(f, Some(c))]) == [CloseRow(id), InsertRow(f, c), LinkRow(id)]
  {
    var choices := [FieldChoice(f, Some(c))];
    assert choices[..0] == [] && FieldsOf(choices) == {f};
    NothingRetired(t, e, {f}, |t|);
    assert FieldPrograms(t, e, choices) == FieldProgram(t, e, f, Some(c));
  }

  /** From waiting to having decided what to write. */
  lemma ReadsIn(w: World, n: Entity, b: nat)
    requires b < |w.builders| && w.builders[b] == Waiting
    ensures Schedule(w, n, [Builder(b), Builder(b), Builder(b)], false)
         == With(w, b, Writing(w.choices, Program(w.table, n.id, w.choices), 0))
  {
    ScheduleThree(w, n, b, false);
  }

  /** Two builders without the lock: both have read, then the first writes and commits, then the second writes. */
  const Overlap: seq<Action> :=
    [Builder(0), Builder(0), Builder(0)] + [Builder(1), Builder(1), Builder(1)]
    + [Builder(0), Builder(0), Builder(0)] + [Builder(0), Builder(1), Builder(1)]

  lemma FirstWrites(w: World, n: Entity, f: string, c: Choice)
    requires |w.builders| == 2 && w.lock.None? && OneCurrent(w.table)
    requires Trusted(w.table, n.id, f).Some? && Trusted(w.table, n.id, f).value.value != c.value
    requires var id := CurrentOf(w.table, n.id, f).value;
      w.builders[0] == Writing(w.choices, [CloseRow(id), InsertRow(f, c), LinkRow(id)], 0)
    ensures var u := Schedule(w, n, [Builder(0), Builder(0), Builder(0)], false);
      && u.table == PutChoice(w.table, n.id, n.entityType, f, Some(c))
      && u.lock.None? && u.choices == w.choices && |u.builders| == 2 && u.builders[1] == w.builders[1]
      && u.builders[0].Writing? && u.builders[0].rest == []
  {
    var id := CurrentOf(w.table, n.id, f).value;
    var program := [CloseRow(id), InsertRow(f, c), LinkRow(id)];
    assert program[1..] == [InsertRow(f, c), LinkRow(id)] && program[1..][1..] == [LinkRow(id)] && [LinkRow(id)][1..] == [];
    ScheduleThree(w, n, 0, false);
    ReplaceRow(Session(w.table, 0, false, false), n.id, n.entityType, f, c);
  }

  lemma SecondIsRefused(w: World, n: Entity, f: string, c: Choice, id: nat)
    requires |w.builders| == 2 && id < |w.table| && w.table[id].closed && Trusted(w.table, n.id, f).Some?
    requires w.table[id].entity == n.id && w.table[id].field == f
    requires w.builders[0].Writing? && w.builders[0].rest == []
    requires w.builders[1] == Writing(w.choices, [CloseRow(id), InsertRow(f, c), LinkRow(id)], 0)
    ensures var u := Schedule(w, n, [Builder(0), Builder(1), Builder(1)], false);
      |u.builders| == 2 && u.stale && u.builders[0] == Committed && u.builders[1] == Refused
  {
    var program := [CloseRow(id), InsertRow(f, c), LinkRow(id)];
    assert program[1..] == [InsertRow(f, c), LinkRow(id)];
    var all, rest, last := [Builder(0), Builder(1), Builder(1)], [Builder(1), Builder(1)], [Builder(1)];
    assert all[1..] == rest && rest[1..] == last && last[1..] == [];
    var w1 := Next(w, n, 0, false);
    var w2 := Next(w1, n, 1, false);
    assert w2.table == w.table;
    assert Schedule(w2, n, last, false) == Next(w2, n, 1, false);
    assert Schedule(w1, n, rest, false) == Schedule(w2, n, last, false);
  }

  /**
   * Without the lock two builders that both want to replace a value are enough: the second closes a row
   * that is already closed, and then its insert is refused. It happens for every table and every such value.
   */
  lemma UnlockedBuildersCollide(t: Table, n: Entity, f: string, c: Choice)
    requires OneCurrent(t) && NoneUnsupported(t, n.id, {f})
    requires Trusted(t, n.id, f).Some? && Trusted(t, n.id, f).value.value != c.value
    ensures var w := Schedule(Start(t, 2, [FieldChoice(f, Some(c))]), n, Overlap, false);
      |w.builders| == 2 && w.stale && w.builders[0] == Committed && w.builders[1] == Refused
  {
    hide Schedule, Next, Program;
    var id := CurrentOf(t, n.id, f).value;
    var w0 := Start(t, 2, [FieldChoice(f, Some(c))]);
    ReplacingProgram(t, n.id, f, c);
    ReadsIn(w0, n, 0);
    var w1 := Schedule(w0, n, [Builder(0), Builder(0), Builder(0)], false);
    ReadsIn(w1, n, 1);
    var w2 := Schedule(w1, n, [Builder(1), Builder(1), Builder(1)], false);
    FirstWrites(w2, n, f, c);
    var w3 := Schedule(w2, n, [Builder(0), Builder(0), Builder(0)], false);
    PutChoiceAgrees(t, n.id, n.entityType, f, Some(c));
    SecondIsRefused(w3, n, f, c, id);
    var a, b := [Builder(0), Builder(0), Builder(0)], [Builder(1), Builder(1), Builder(1)];
    var d := [Builder(0), Builder(1), Builder(1)];
    ScheduleConcat(w0, n, a, b, false);
    ScheduleConcat(w0, n, a + b, a, false);
    ScheduleConcat(w0, n, a + b + a, d, false);
  }
}

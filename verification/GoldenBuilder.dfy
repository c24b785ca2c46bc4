/** The builder as the statements it sends, and as the loop that sends them. */
module GoldenBuilder {
  import opened Ordering
  import opened Keys
  import opened Survivorship
  import opened GoldenTable
  import opened GoldenHistory

  // ---- statements -----------------------------------------------------------------------

  datatype Stmt = RefreshRow(id: nat, choice: Choice) | CloseRow(id: nat) | InsertRow(field: string, choice: Choice) | LinkRow(id: nat)

  /**
   * The table, the id the last insert returned, whether an insert hit the unique index, and whether a
   * close hit a row that was no longer open.
   */
  datatype Session = Session(table: Table, last: nat, violated: bool, stale: bool)

  function Exec(s: Session, e: nat, entityType: EntityType, stmt: Stmt): Session {
    var t := s.table;
    match stmt
    case RefreshRow(id, c) => if id < |t| then s.(table := t[id := Refreshed(t[id], c)]) else s
    case CloseRow(id) =>
      if id < |t| then s.(table := t[id := t[id].(closed := true)], stale := s.stale || t[id].closed) else s
    case InsertRow(f, c) =>
      if CurrentOf(t, e, f).Some? then s.(violated := true)
      else s.(table := t + [NewRow(e, entityType, f, c)], last := |t|)
    case LinkRow(id) => if id < |t| then s.(table := t[id := t[id].(supersededBy := Some(s.last))]) else s
  }

  function ExecAll(s: Session, e: nat, entityType: EntityType, stmts: seq<Stmt>): Session
    decreases |stmts|
  {
    if stmts == [] then s else ExecAll(Exec(s, e, entityType, stmts[0]), e, entityType, stmts[1..])
  }

  /** What the builder sends for one field, given the row it read as current. */
  function FieldProgram(read: Table, e: nat, f: string, choice: Option<Choice>): seq<Stmt> {
    if choice.None? then []
    else
      var c := choice.value;
      match CurrentOf(read, e, f)
      case None => [InsertRow(f, c)]
      case Some(id) =>
        if read[id].value == c.value then (if Shows(read[id], c) then [] else [RefreshRow(id, c)])
        else [CloseRow(id), InsertRow(f, c), LinkRow(id)]
  }

  function FieldPrograms(read: Table, e: nat, choices: seq<FieldChoice>): seq<Stmt> {
    if choices == [] then []
    else FieldPrograms(read, e, choices[..|choices| - 1])
         + FieldProgram(read, e, choices[|choices| - 1].field, choices[|choices| - 1].choice)
  }

  function RetireProgram(read: Table, e: nat, fields: set<string>, n: nat): seq<Stmt>
    requires n <= |read|
  {
    if n == 0 then []
    else RetireProgram(read, e, fields, n - 1) + (if Unsupported(read[n - 1], e, fields) then [CloseRow(n - 1)] else [])
  }

  /** Everything one build sends, decided from what it read. */
  function Program(read: Table, e: nat, choices: seq<FieldChoice>): seq<Stmt> {
    FieldPrograms(read, e, choices) + RetireProgram(read, e, FieldsOf(choices), |read|)
  }

  lemma {:induction false} ExecConcat(s: Session, e: nat, entityType: EntityType, a: seq<Stmt>, b: seq<Stmt>)
    ensures ExecAll(s, e, entityType, a + b) == ExecAll(ExecAll(s, e, entityType, a), e, entityType, b)
    decreases |a|
  {
    if a == [] {
      assert a + b == b;
    } else {
      assert (a + b)[1..] == a[1..] + b;
      ExecConcat(Exec(s, e, entityType, a[0]), e, entityType, a[1..], b);
    }
  }

  ghost predicate Clean(s: Session) { !s.violated && !s.stale }

  /** Statements decided from an earlier read do what a fresh read would have decided, if the field's row is same. */
  lemma FieldProgramPuts(s: Session, read: Table, e: nat, entityType: EntityType, f: string, choice: Option<Choice>)
    requires Clean(s) && OneCurrent(s.table)
    requires CurrentOf(read, e, f) == CurrentOf(s.table, e, f) && Trusted(read, e, f) == Trusted(s.table, e, f)
    ensures var u := ExecAll(s, e, entityType, FieldProgram(read, e, f, choice));
      Clean(u) && u.table == PutChoice(s.table, e, entityType, f, choice)
  {
    var at := CurrentOf(s.table, e, f);
    var program := FieldProgram(read, e, f, choice);
    if choice.Some? && at.Some? && s.table[at.value].value != choice.value.value {
      var c := choice.value;
      ExecThree(s, e, entityType, CloseRow(at.value), InsertRow(f, c), LinkRow(at.value));
      ReplaceRow(s, e, entityType, f, c);
    } else if choice.Some? {
      assert program == [] || program[1..] == [];
    }
  }

  lemma ExecThree(s: Session, e: nat, entityType: EntityType, a: Stmt, b: Stmt, c: Stmt)
    ensures ExecAll(s, e, entityType, [a, b, c]) == Exec(Exec(Exec(s, e, entityType, a), e, entityType, b), e, entityType, c)
  {
    assert [a, b, c][1..] == [b, c] && [b, c][1..] == [c] && [c][1..] == [];
    assert ExecAll(Exec(s, e, entityType, a), e, entityType, [b, c])
        == ExecAll(Exec(Exec(s, e, entityType, a), e, entityType, b), e, entityType, [c]);
  }

  lemma ReplaceRow(s: Session, e: nat, entityType: EntityType, f: string, c: Choice)
    requires Clean(s) && OneCurrent(s.table) && CurrentOf(s.table, e, f).Some?
    requires s.table[CurrentOf(s.table, e, f).value].value != c.value
    ensures var id := CurrentOf(s.table, e, f).value;
      var one := Exec(s, e, entityType, CloseRow(id));
      var two := Exec(one, e, entityType, InsertRow(f, c));
      var three := Exec(two, e, entityType, LinkRow(id));
      Clean(three) && three.table == PutChoice(s.table, e, entityType, f, Some(c))
  {
    var id := CurrentOf(s.table, e, f).value;
    var one := Exec(s, e, entityType, CloseRow(id));
    forall i: nat | IsCurrent(one.table, i, e, f) ensures false {
      assert IsCurrent(s.table, i, e, f);
      CurrentIsUnique(s.table, i, e, f);
    }
    assert CurrentOf(one.table, e, f).None?;
    var two := Exec(one, e, entityType, InsertRow(f, c));
    assert two.table == one.table + [NewRow(e, entityType, f, c)];
  }

  lemma {:induction false} FieldProgramsPut(read: Table, e: nat, entityType: EntityType, choices: seq<FieldChoice>, last: nat)
    requires OneCurrent(read) && DistinctFields(choices)
    ensures var u := ExecAll(Session(read, last, false, false), e, entityType, FieldPrograms(read, e, choices));
      Clean(u) && u.table == PutFields(read, e, entityType, choices)
  {
    if choices != [] {
      var n := |choices| - 1;
      var init, c := choices[..n], choices[n];
      FieldProgramsPut(read, e, entityType, init, last);
      PutFieldsKeepOther(read, e, entityType, init, e, c.field);
      assert c.field !in FieldsOf(init);
      var mid := ExecAll(Session(read, last, false, false), e, entityType, FieldPrograms(read, e, init));
      ExecConcat(Session(read, last, false, false), e, entityType, FieldPrograms(read, e, init), FieldProgram(read, e, c.field, c.choice));
      FieldProgramPuts(mid, read, e, entityType, c.field, c.choice);
    }
  }

  /** The first n rows retired. */
  function RetireFirst(t: Table, e: nat, fields: set<string>, n: nat): (r: Table)
    ensures |r| == |t|
  {
    seq(|t|, i requires 0 <= i < |t| => if i < n && Unsupported(t[i], e, fields) then t[i].(closed := true) else t[i])
  }

  lemma RetireFirstStep(t: Table, e: nat, fields: set<string>, i: nat)
    requires i < |t|
    ensures RetireFirst(t, e, fields, i)[i] == t[i]
    ensures RetireFirst(t, e, fields, i + 1) ==
      if Unsupported(t[i], e, fields) then RetireFirst(t, e, fields, i)[i := t[i].(closed := true)]
      else RetireFirst(t, e, fields, i)
  {
  }

  lemma {:induction false} RetireProgramRetires(s: Session, read: Table, e: nat, entityType: EntityType, fields: set<string>, n: nat)
    requires Clean(s) && n <= |read| <= |s.table|
    requires forall i :: 0 <= i < n ==> (Unsupported(read[i], e, fields) <==> Unsupported(s.table[i], e, fields))
    ensures var u := ExecAll(s, e, entityType, RetireProgram(read, e, fields, n));
      Clean(u) && u.table == RetireFirst(s.table, e, fields, n)
  {
    if n > 0 {
      hide RetireFirst;
      RetireProgramRetires(s, read, e, entityType, fields, n - 1);
      var mid := ExecAll(s, e, entityType, RetireProgram(read, e, fields, n - 1));
      var step: seq<Stmt> := if Unsupported(read[n - 1], e, fields) then [CloseRow(n - 1)] else [];
      ExecConcat(s, e, entityType, RetireProgram(read, e, fields, n - 1), step);
      assert step == [] || step[1..] == [];
      RetireFirstStep(s.table, e, fields, n - 1);
    }
  }

  /**
   * A build decides everything from one read, then writes; as long as nobody else writes in between, no
   * insert hits the unique index, every close hits a row still open, and the table ends as one build of it.
   */
  lemma ProgramBuilds(read: Table, e: nat, entityType: EntityType, choices: seq<FieldChoice>, last: nat)
    requires OneCurrent(read) && DistinctFields(choices)
    ensures var u := ExecAll(Session(read, last, false, false), e, entityType, Program(read, e, choices));
      Clean(u) && u.table == Build(read, e, entityType, choices)
  {
    var fields := FieldsOf(choices);
    FieldProgramsPut(read, e, entityType, choices, last);
    PutFieldsEvolve(read, e, entityType, choices);
    var mid := ExecAll(Session(read, last, false, false), e, entityType, FieldPrograms(read, e, choices));
    ExecConcat(Session(read, last, false, false), e, entityType, FieldPrograms(read, e, choices), RetireProgram(read, e, fields, |read|));
    RetireProgramRetires(mid, read, e, entityType, fields, |read|);
    assert RetireFirst(mid.table, e, fields, |read|) == Retire(mid.table, e, fields);
  }

  // ---- the loop that sends them -----------------------------------------------------------

  /** What a build has done so far. */
  datatype Progress = Progress(written: nat, refreshed: nat, same: nat)

  function ProgressAt(read: Table, e: nat, choices: seq<FieldChoice>): Progress {
    Progress(CountChanges(read, e, choices, Written), CountChanges(read, e, choices, Refresh), CountChanges(read, e, choices, Unchanged))
  }

  lemma NoChoiceNoChange(t: Table, read: Table, e: nat, entityType: EntityType, f: string)
    ensures PutChoice(t, e, entityType, f, None) == t && ChangeTo(read, e, f, None) == Skipped
    ensures forall c: Choice :: ChangeTo(read, e, f, Some(c)) != Skipped
  {
  }

  class GoldenAttributes {
    var rows: Table

    constructor ()
      ensures rows == []
    {
      rows := [];
    }

    method RefreshEvidence(id: nat, c: Choice)
      requires id < |rows|
      modifies this
      ensures rows == old(rows)[id := Refreshed(old(rows)[id], c)]
    {
      rows := rows[id := rows[id].(confidence := c.confidence, supporting := c.supporting, competing := c.competing)];
    }

    method CloseValue(id: nat)
      requires id < |rows|
      modifies this
      ensures rows == old(rows)[id := old(rows)[id].(closed := true)]
    {
      rows := rows[id := rows[id].(closed := true)];
    }

    /** None when the unique index refuses the row. */
    method InsertValue(e: nat, entityType: EntityType, f: string, c: Choice) returns (id: Option<nat>)
      modifies this
      ensures id == if CurrentOf(old(rows), e, f).Some? then None else Some(|old(rows)|)
      ensures rows == if id.None? then old(rows) else old(rows) + [NewRow(e, entityType, f, c)]
    {
      if CurrentOf(rows, e, f).Some? { return None; }
      rows := rows + [NewRow(e, entityType, f, c)];
      return Some(|rows| - 1);
    }

    method LinkSupersession(earlier: nat, later: nat)
      requires earlier < |rows|
      modifies this
      ensures rows == old(rows)[earlier := old(rows)[earlier].(supersededBy := Some(later))]
    {
      rows := rows[earlier := rows[earlier].(supersededBy := Some(later))];
    }

    /** One field of the loop, with the row the snapshot calls current. */
    method BuildField(read: Table, e: nat, entityType: EntityType, f: string, c: Choice) returns (change: Change)
      requires OneCurrent(rows)
      requires CurrentOf(read, e, f) == CurrentOf(rows, e, f) && Trusted(read, e, f) == Trusted(rows, e, f)
      modifies this
      ensures rows == PutChoice(old(rows), e, entityType, f, Some(c))
      ensures change == ChangeTo(read, e, f, Some(c))
    {
      var existing := CurrentOf(read, e, f);
      if existing.Some? && read[existing.value].value == c.value {
        var row := read[existing.value];
        if row.supporting != c.supporting || row.competing != c.competing || row.confidence != c.confidence {
          RefreshEvidence(existing.value, c);
          return Refresh;
        }
        return Unchanged;
      }
      if existing.Some? {
        ReplaceRow(Session(rows, 0, false, false), e, entityType, f, c);
        CloseValue(existing.value);
      }
      var id := InsertValue(e, entityType, f, c);
      if existing.Some? && id.Some? {
        LinkSupersession(existing.value, id.value);
      }
      return Written;
    }

    /** One turn of the loop: the field is settled and counted. */
    method BuildNext(read: Table, e: nat, entityType: EntityType, choices: seq<FieldChoice>, k: nat, before: Progress)
      returns (after: Progress)
      requires OneCurrent(read) && DistinctFields(choices) && k < |choices|
      requires rows == PutFields(read, e, entityType, choices[..k]) && before == ProgressAt(read, e, choices[..k])
      modifies this
      ensures rows == PutFields(read, e, entityType, choices[..k + 1]) && after == ProgressAt(read, e, choices[..k + 1])
    {
      assert choices[..k + 1][..k] == choices[..k];
      var f := choices[k].field;
      assert f !in FieldsOf(choices[..k]);
      PutFieldsKeepOther(read, e, entityType, choices[..k], e, f);
      NoChoiceNoChange(rows, read, e, entityType, f);
      hide PutChoice, ChangeTo, OneCurrent, CurrentOf, Trusted;
      after := before;
      if choices[k].choice.Some? {
        var change := BuildField(read, e, entityType, f, choices[k].choice.value);
        if change == Written {
          after := after.(written := after.written + 1);
        } else if change == Refresh {
          after := after.(refreshed := after.refreshed + 1);
        } else {
          after := after.(same := after.same + 1);
        }
      }
    }

    /** `build_entity`: one read of what is current, then the writes, counted as they go. */
    method BuildEntity(e: nat, entityType: EntityType, reports: seq<FieldReports>)
      returns (written: nat, refreshed: nat, same: nat, retired: nat)
      requires OneCurrent(rows)
      requires forall i, j :: 0 <= i < j < |reports| ==> reports[i].field != reports[j].field
      modifies this
      ensures rows == Build(old(rows), e, entityType, ChoicesOf(entityType, reports))
      ensures written == CountChanges(old(rows), e, ChoicesOf(entityType, reports), Written)
      ensures refreshed == CountChanges(old(rows), e, ChoicesOf(entityType, reports), Refresh)
      ensures same == CountChanges(old(rows), e, ChoicesOf(entityType, reports), Unchanged)
      ensures retired == CountRetired(old(rows), e, FieldsOf(ChoicesOf(entityType, reports)))
    {
      var read := rows;
      var choices := ChoicesOf(entityType, reports);
      ChoicesAre(entityType, reports);
      assert DistinctFields(choices);
      var p := Progress(0, 0, 0);
      for k := 0 to |choices|
        invariant rows == PutFields(read, e, entityType, choices[..k]) && p == ProgressAt(read, e, choices[..k])
      {
        hide PutFields, ProgressAt, DistinctFields, OneCurrent;
        p := BuildNext(read, e, entityType, choices, k, p);
      }
      assert choices[..|choices|] == choices;
      written, refreshed, same := p.written, p.refreshed, p.same;
      retired := RetireUnsupported(read, e, entityType, choices);
    }

    method RetireUnsupported(read: Table, e: nat, entityType: EntityType, choices: seq<FieldChoice>) returns (retired: nat)
      requires OneCurrent(read) && rows == PutFields(read, e, entityType, choices)
      modifies this
      ensures rows == Build(read, e, entityType, choices)
      ensures retired == CountRetired(read, e, FieldsOf(choices))
    {
      ghost var mid := rows;
      ghost var fields := FieldsOf(choices);
      PutFieldsEvolve(read, e, entityType, choices);
      retired := 0;
      for i := 0 to |read|
        invariant rows == RetireFirst(mid, e, fields, i)
        invariant retired == CountRetired(read[..i], e, fields)
      {
        assert read[..i + 1][..i] == read[..i];
        RetireFirstStep(mid, e, fields, i);
        assert Unsupported(mid[i], e, fields) <==> Unsupported(read[i], e, fields);
        if Unsupported(read[i], e, FieldsOf(choices)) {
          CloseValue(i);
          retired := retired + 1;
        }
      }
      assert read[..|read|] == read;
      assert RetireFirst(mid, e, fields, |read|) == Retire(mid, e, fields);
    }
  }
}

/** Reading a file in batches: neither how it is cut up nor which path loads it changes what is read. */
module Readers {
  import opened Ordering
  import opened Sequences
  import opened Keys
  import opened Normalization

  // ---- regrouping ---------------------------------------------------------------------------------

  /** Rows that say something, in order. Which rows are blank is left abstract. */
  function Kept(rows: seq<Payload>, blank: Payload -> bool): seq<Payload> {
    if rows == [] then []
    else
      var init := Kept(rows[..|rows| - 1], blank);
      if blank(rows[|rows| - 1]) then init else init + [rows[|rows| - 1]]
  }

  function Flat<T>(parts: seq<seq<T>>): seq<T> {
    if parts == [] then [] else Flat(parts[..|parts| - 1]) + parts[|parts| - 1]
  }

  /** Whole batches off the front, and whatever is left. */
  function Chop<T>(rows: seq<T>, size: nat): seq<seq<T>>
    requires size > 0
    decreases |rows|
  {
    if rows == [] then [] else if |rows| <= size then [rows] else [rows[..size]] + Chop(rows[size..], size)
  }

  function UnlessBlank(blank: Payload -> bool): Payload -> seq<Payload> { (r: Payload) => if blank(r) then [] else [r] }

  /** Every row that is not blank is kept, once for each time it is there, in order, and no other. */
  lemma {:induction false} KeptAre(rows: seq<Payload>, blank: Payload -> bool)
    ensures Kept(rows, blank) == FlatMap(rows, UnlessBlank(blank))
  {
    if rows != [] { KeptAre(rows[..|rows| - 1], blank); }
  }

  lemma {:induction false} KeptConcat(a: seq<Payload>, b: seq<Payload>, blank: Payload -> bool)
    ensures Kept(a + b, blank) == Kept(a, blank) + Kept(b, blank)
  {
    if b == [] {
      assert a + b == a;
    } else {
      var n := |b| - 1;
      assert (a + b)[..|a| + n] == a + b[..n];
      KeptConcat(a, b[..n], blank);
    }
  }

  lemma {:induction false} FlatConcat<T>(a: seq<seq<T>>, b: seq<seq<T>>)
    ensures Flat(a + b) == Flat(a) + Flat(b)
  {
    if b == [] {
      assert a + b == a;
    } else {
      var n := |b| - 1;
      assert (a + b)[..|a| + n] == a + b[..n];
      FlatConcat(a, b[..n]);
    }
  }

  /** Batches of this size: full ones, then at most one that is not empty. */
  ghost predicate Regular<T>(batches: seq<seq<T>>, size: nat) {
    forall i :: 0 <= i < |batches| ==> 0 < |batches[i]| <= size && (i < |batches| - 1 ==> |batches[i]| == size)
  }

  lemma RegularBehind<T>(head: seq<T>, tail: seq<seq<T>>, size: nat)
    requires |head| == size > 0 && Regular(tail, size)
    ensures Regular([head] + tail, size)
  {
  }

  lemma FlatOne<T>(batch: seq<T>)
    ensures Flat([batch]) == batch && Flat<T>([]) == []
  {
    assert [batch][..0] == [];
  }

  lemma {:induction false} ChopIsRegular<T>(rows: seq<T>, size: nat)
    requires size > 0
    ensures Flat(Chop(rows, size)) == rows && Regular(Chop(rows, size), size)
    decreases |rows|
  {
    hide Flat;
    FlatOne(rows);
    if |rows| > size {
      hide Regular;
      ChopIsRegular(rows[size..], size);
      FlatConcat([rows[..size]], Chop(rows[size..], size));
      FlatOne(rows[..size]);
      RegularBehind(rows[..size], Chop(rows[size..], size), size);
      assert rows == rows[..size] + rows[size..];
    }
  }

  lemma FlatHead<T>(batches: seq<seq<T>>)
    requires batches != []
    ensures Flat(batches) == batches[0] + Flat(batches[1..])
  {
    assert batches == [batches[0]] + batches[1..];
    FlatConcat([batches[0]], batches[1..]);
    assert [batches[0]][..0] == [];
  }

  /** There is only one way to cut rows into batches of a size. */
  lemma {:induction false} OnlyOneWay<T>(batches: seq<seq<T>>, rows: seq<T>, size: nat)
    requires size > 0 && Regular(batches, size) && Flat(batches) == rows
    ensures batches == Chop(rows, size)
    decreases |rows|
  {
    if batches != [] {
      FlatHead(batches);
      var first, rest := batches[0], batches[1..];
      if rest == [] {
        assert Flat(rest) == [] && rows == first && batches == [first];
      } else {
        FlatHead(rest);
        assert |first| == size && |rows| > size;
        assert rows[..size] == first && rows[size..] == Flat(rest);
        OnlyOneWay(rest, rows[size..], size);
        assert batches == [first] + rest;
      }
    }
  }

  ghost predicate Full<T>(batches: seq<seq<T>>, size: nat) { forall i :: 0 <= i < |batches| ==> |batches[i]| == size }

  lemma FlatAppend<T>(batches: seq<seq<T>>, last: seq<T>)
    ensures Flat(batches + [last]) == Flat(batches) + last
  {
    assert (batches + [last])[..|batches|] == batches;
  }

  /** Full batches and a remainder smaller than one are the batches of everything read. */
  lemma FullThenRest<T>(batches: seq<seq<T>>, rest: seq<T>, size: nat)
    requires Full(batches, size) && |rest| < size
    ensures (if rest == [] then batches else batches + [rest]) == Chop(Flat(batches) + rest, size)
  {
    FlatAppend(batches, rest);
    if rest == [] {
      assert Flat(batches) + rest == Flat(batches);
      OnlyOneWay(batches, Flat(batches), size);
    } else {
      OnlyOneWay(batches + [rest], Flat(batches) + rest, size);
    }
  }

  /** Batches off the front of the buffer while it holds one. */
  method Drain(before: seq<seq<Payload>>, buffer: seq<Payload>, size: nat)
    returns (batches: seq<seq<Payload>>, pending: seq<Payload>)
    requires size > 0 && Full(before, size)
    ensures Full(batches, size) && |pending| < size && Flat(batches) + pending == Flat(before) + buffer
  {
    batches, pending := before, buffer;
    while |pending| >= size
      invariant Full(batches, size) && Flat(batches) + pending == Flat(before) + buffer
      decreases |pending|
    {
      hide Flat;
      FlatAppend(batches, pending[..size]);
      assert pending == pending[..size] + pending[size..];
      batches, pending := batches + [pending[..size]], pending[size..];
    }
  }

  /** `iter_csv`: a buffer filled by the reader's frames and emptied in batches. */
  method Regroup(frames: seq<seq<Payload>>, blank: Payload -> bool, size: nat) returns (batches: seq<seq<Payload>>)
    requires size > 0
    ensures batches == Chop(Kept(Flat(frames), blank), size)
  {
    batches := [];
    var pending: seq<Payload> := [];
    for f := 0 to |frames|
      invariant |pending| < size && Full(batches, size)
      invariant Flat(batches) + pending == Kept(Flat(frames[..f]), blank)
    {
      FlatAppend(frames[..f], frames[f]);
      hide Flat, Kept;
      assert frames[..f + 1] == frames[..f] + [frames[f]];
      KeptConcat(Flat(frames[..f]), frames[f], blank);
      batches, pending := Drain(batches, pending + Kept(frames[f], blank), size);
    }
    assert frames[..|frames|] == frames;
    FullThenRest(batches, pending, size);
    if pending != [] {
      batches := batches + [pending];
    }
  }

  /** `iter_file`: a batch size below one is refused before anything is read. */
  method ReadFile(frames: seq<seq<Payload>>, blank: Payload -> bool, size: int) returns (batches: Option<seq<seq<Payload>>>)
    ensures batches.None? <==> size < 1
    ensures batches.Some? ==>
      Flat(batches.value) == Kept(Flat(frames), blank) && Regular(batches.value, size)
  {
    if size < 1 { return None; }
    var regrouped := Regroup(frames, blank, size);
    ChopIsRegular(Kept(Flat(frames), blank), size);
    return Some(regrouped);
  }

  /** `iter_excel`: the same batches, sliced from rows already in memory. */
  method Slice(rows: seq<Payload>, size: nat) returns (batches: seq<seq<Payload>>)
    requires size > 0
    ensures batches == Chop(rows, size)
  {
    batches := [];
    var start := 0;
    while start < |rows|
      invariant start <= |rows| && Flat(batches) == rows[..start] && Regular(batches, size)
      invariant start < |rows| ==> Full(batches, size)
      decreases |rows| - start
    {
      var end := if start + size <= |rows| then start + size else |rows|;
      FlatAppend(batches, rows[start..end]);
      assert rows[..end] == rows[..start] + rows[start..end];
      batches, start := batches + [rows[start..end]], end;
    }
    assert rows[..start] == rows;
    OnlyOneWay(batches, rows, size);
  }

  // ---- numbering ------------------------------------------------------------------------------------

  function Decimal(n: nat): string {
    if n < 10 then ["0123456789"[n]] else Decimal(n / 10) + ["0123456789"[n % 10]]
  }

  /** A row on its way into the store. */
  datatype Numbered = Numbered(sourceRecordId: string, rowNumber: nat, row: Payload)

  function CellAt(row: Payload, column: string): Option<Cell> {
    if row == [] then None else if row[0].column == column then Some(row[0]) else CellAt(row[1..], column)
  }

  predicate HasColumn(row: Payload, column: string) { CellAt(row, column).Some? }

  /** `row.get(column) or str(number)`. */
  function IdOf(row: Payload, idColumn: Option<string>, number: nat): string {
    if idColumn.None? || !HasColumn(row, idColumn.value) then Decimal(number)
    else
      match CellAt(row, idColumn.value).value.text
      case None => Decimal(number)
      case Some(text) => if text == "" then Decimal(number) else text
  }

  predicate IsDigit(c: char) { '0' <= c <= '9' }

  function NumberIn(s: string): nat {
    if s == "" then 0 else 10 * NumberIn(s[..|s| - 1]) + (if IsDigit(s[|s| - 1]) then (s[|s| - 1] - '0') as nat else 0)
  }

  /** The number in decimal digits, with no zero in front. */
  ghost predicate Spells(s: string, n: nat) {
    s != "" && (forall i :: 0 <= i < |s| ==> IsDigit(s[i])) && NumberIn(s) == n && (s[0] == '0' ==> s == "0")
  }

  lemma DigitSpells(d: nat)
    requires d < 10
    ensures Spells(["0123456789"[d]], d) && ("0123456789"[d] == '0' <==> d == 0)
  {
    assert ["0123456789"[d]][..0] == "";
  }

  lemma DigitBehind(front: string, n: nat, digit: char, d: nat)
    requires Spells(front, n) && n > 0 && Spells([digit], d)
    ensures Spells(front + [digit], 10 * n + d)
  {
    var all := front + [digit];
    assert all[..|front|] == front && [digit][..0] == "";
    assert NumberIn("0") == 0 by { assert "0"[..0] == ""; }
    assert [digit][0] == digit && IsDigit(digit);
  }

  lemma {:induction false} DecimalSpells(n: nat)
    ensures Spells(Decimal(n), n)
  {
    hide Spells;
    DigitSpells(n % 10);
    if n >= 10 {
      DecimalSpells(n / 10);
      DigitBehind(Decimal(n / 10), n / 10, "0123456789"[n % 10], n % 10);
    }
  }

  ghost predicate OnePerColumn(row: Payload) { forall i, j :: 0 <= i < j < |row| ==> row[i].column != row[j].column }

  lemma {:induction false} CellIsThere(row: Payload, column: string)
    ensures CellAt(row, column).Some? <==> exists c :: c in row && c.column == column
    ensures CellAt(row, column).Some? ==> CellAt(row, column).value in row && CellAt(row, column).value.column == column
    ensures forall c :: OnePerColumn(row) && c in row && c.column == column ==> CellAt(row, column) == Some(c)
  {
    if row != [] {
      CellIsThere(row[1..], column);
      assert row == [row[0]] + row[1..];
      assert forall c :: c in row <==> c == row[0] || c in row[1..];
    }
  }

  /** A row's id is what its id column says; where that is nothing, or no column was named, its number spelled out. */
  lemma IdIs(row: Payload, idColumn: Option<string>, number: nat, c: Cell)
    requires OnePerColumn(row)
    ensures c in row && idColumn == Some(c.column) && c.text.Some? && c.text.value != "" ==> IdOf(row, idColumn, number) == c.text.value
    ensures (forall d :: d in row && idColumn == Some(d.column) ==> d.text == None || d.text == Some("")) ==>
      Spells(IdOf(row, idColumn, number), number)
  {
    DecimalSpells(number);
    if idColumn.Some? { CellIsThere(row, idColumn.value); }
  }

  /** Rows numbered from `offset + 1`. */
  function NumberFrom(rows: seq<Payload>, idColumn: Option<string>, offset: nat): (r: seq<Numbered>)
    ensures |r| == |rows|
  {
    seq(|rows|, i requires 0 <= i < |rows| => Numbered(IdOf(rows[i], idColumn, offset + i + 1), offset + i + 1, rows[i]))
  }

  /** The i-th row of a file is stored as it is, with number i + 1 and its own id. */
  lemma StoredRowIs(rows: seq<Payload>, idColumn: Option<string>, i: nat, c: Cell)
    requires i < |rows| && OnePerColumn(rows[i])
    ensures var stored := NumberFrom(rows, idColumn, 0)[i];
      && stored.row == rows[i] && stored.rowNumber == i + 1
      && (c in rows[i] && idColumn == Some(c.column) && c.text.Some? && c.text.value != "" ==> stored.sourceRecordId == c.text.value)
      && ((forall d :: d in rows[i] && idColumn == Some(d.column) ==> d.text == None || d.text == Some("")) ==>
            Spells(stored.sourceRecordId, i + 1))
  {
    hide IdOf, Spells;
    IdIs(rows[i], idColumn, i + 1, c);
  }

  /** The check in `_source_record_ids`: the named column must be in the first row of the batch. */
  predicate Refuses(rows: seq<Payload>, idColumn: Option<string>) {
    idColumn.Some? && rows != [] && !HasColumn(rows[0], idColumn.value)
  }

  /** The loop of `ingest`; not done means the error a missing id column raises, with what had been stored by then. */
  method Ingest(batches: seq<seq<Payload>>, idColumn: Option<string>) returns (done: bool, stored: seq<Numbered>)
    ensures done <==> forall i :: 0 <= i < |batches| ==> !Refuses(batches[i], idColumn)
    ensures done ==> stored == NumberFrom(Flat(batches), idColumn, 0)
    ensures !done ==> exists i :: 0 <= i < |batches| && Refuses(batches[i], idColumn) && stored == NumberFrom(Flat(batches[..i]), idColumn, 0)
  {
    stored := [];
    var rowsRead := 0;
    for b := 0 to |batches|
      invariant forall i :: 0 <= i < b ==> !Refuses(batches[i], idColumn)
      invariant rowsRead == |Flat(batches[..b])| && stored == NumberFrom(Flat(batches[..b]), idColumn, 0)
    {
      if Refuses(batches[b], idColumn) { return false, stored; }
      assert batches[..b + 1][..b] == batches[..b];
      NumberConcat(Flat(batches[..b]), batches[b], idColumn, 0);
      stored := stored + NumberFrom(batches[b], idColumn, rowsRead);
      rowsRead := rowsRead + |batches[b]|;
    }
    assert batches[..|batches|] == batches;
    done := true;
  }

  lemma NumberConcat(a: seq<Payload>, b: seq<Payload>, idColumn: Option<string>, offset: nat)
    ensures NumberFrom(a + b, idColumn, offset) == NumberFrom(a, idColumn, offset) + NumberFrom(b, idColumn, offset + |a|)
  {
  }

  /** The record-at-a-time loop: one row at a time, whatever was read ahead. */
  method NumberRows(batches: seq<seq<Payload>>, idColumn: Option<string>) returns (stored: seq<Numbered>)
    ensures stored == NumberFrom(Flat(batches), idColumn, 0)
  {
    stored := [];
    var rowsRead := 0;
    for b := 0 to |batches|
      invariant rowsRead == |Flat(batches[..b])| && stored == NumberFrom(Flat(batches[..b]), idColumn, 0)
    {
      assert batches[..b + 1][..b] == batches[..b];
      ghost var before := Flat(batches[..b]);
      for i := 0 to |batches[b]|
        invariant rowsRead == |before| + i && stored == NumberFrom(before + batches[b][..i], idColumn, 0)
      {
        rowsRead := rowsRead + 1;
        assert before + batches[b][..i + 1] == (before + batches[b][..i]) + [batches[b][i]];
        NumberConcat(before + batches[b][..i], [batches[b][i]], idColumn, 0);
        stored := stored + [Numbered(IdOf(batches[b][i], idColumn, rowsRead), rowsRead, batches[b][i])];
      }
      assert batches[b][..|batches[b]|] == batches[b];
    }
    assert batches[..|batches|] == batches;
  }

  // ---- both paths, every batch size ------------------------------------------------------------------

  /** The rows of one file have the same columns. */
  ghost predicate OneHeader(rows: seq<Payload>) {
    forall i, c :: 0 <= i < |rows| ==> (HasColumn(rows[i], c) <==> HasColumn(rows[0], c))
  }

  lemma {:induction false} BatchesShareHeader(rows: seq<Payload>, size: nat, i: nat)
    requires size > 0 && OneHeader(rows) && i < |Chop(rows, size)|
    ensures Chop(rows, size)[i] != [] && forall c :: HasColumn(Chop(rows, size)[i][0], c) <==> HasColumn(rows[0], c)
    decreases |rows|
  {
    if |rows| > size && i > 0 {
      forall j, c | 0 <= j < |rows[size..]| ensures HasColumn(rows[size..][j], c) <==> HasColumn(rows[size..][0], c) {
        assert HasColumn(rows[size + j], c) <==> HasColumn(rows[0], c);
        assert HasColumn(rows[size], c) <==> HasColumn(rows[0], c);
      }
      BatchesShareHeader(rows[size..], size, i - 1);
      assert rows[size..][0] == rows[size];
    }
  }

  /**
   * The staged load stores exactly the numbered rows the record-at-a-time load processes, for every batch
   * size and every read-ahead, if and only if the id column is one the file has, or none was named, or
   * there are no rows. With a column the file does not have, one path refuses the file and the other
   * silently numbers its rows.
   */
  lemma LoadsAgreeIff(rows: seq<Payload>, idColumn: Option<string>, size: nat, readAhead: nat)
    requires size > 0 && readAhead > 0 && OneHeader(rows)
    ensures Flat(Chop(rows, size)) == rows && Flat(Chop(rows, readAhead)) == rows
    ensures (forall i :: 0 <= i < |Chop(rows, size)| ==> !Refuses(Chop(rows, size)[i], idColumn)) <==>
      idColumn.None? || rows == [] || HasColumn(rows[0], idColumn.value)
  {
    ChopIsRegular(rows, size);
    ChopIsRegular(rows, readAhead);
    var batches := Chop(rows, size);
    forall i | 0 <= i < |batches| ensures Refuses(batches[i], idColumn) <==> idColumn.Some? && !HasColumn(rows[0], idColumn.value) {
      BatchesShareHeader(rows, size, i);
    }
    if rows != [] { assert batches != [] && Refuses(batches[0], idColumn) <==> idColumn.Some? && !HasColumn(rows[0], idColumn.value); }
  }

  /**
   * One file through both loads, however the reader frames it for each: where neither refuses, the two
   * store the same ids, numbers and rows.
   */
  method BothLoads(framesA: seq<seq<Payload>>, framesB: seq<seq<Payload>>, blank: Payload -> bool, idColumn: Option<string>,
                   size: nat, readAhead: nat) returns (done: bool, staged: seq<Numbered>, fused: seq<Numbered>)
    requires size > 0 && readAhead > 0 && Flat(framesA) == Flat(framesB) && OneHeader(Kept(Flat(framesA), blank))
    ensures fused == NumberFrom(Kept(Flat(framesA), blank), idColumn, 0)
    ensures done ==> staged == fused
    ensures var rows := Kept(Flat(framesA), blank);
      done <==> idColumn.None? || rows == [] || HasColumn(rows[0], idColumn.value)
  {
    var a := Regroup(framesA, blank, size);
    var b := Regroup(framesB, blank, readAhead);
    LoadsAgreeIff(Kept(Flat(framesA), blank), idColumn, size, readAhead);
    done, staged := Ingest(a, idColumn);
    fused := NumberRows(b, idColumn);
  }
}

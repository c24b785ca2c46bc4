/** From one raw row to attribute observations: every column leaves at least one. */
module Normalization {
  import opened Ordering
  import opened Keys

  datatype MappingStatus = AutoAccepted | Approved | NeedsReview | RejectedMapping | Unmapped

  /** What was decided about a column: a canonical field and whose attribute it is. */
  datatype ColumnMapping = ColumnMapping(status: MappingStatus, field: Option<string>, subject: Role)

  datatype Cell = Cell(column: string, text: Option<string>)

  /** A row's cells; a dictionary, so its columns are distinct. */
  type Payload = seq<Cell>

  datatype Attribute = Attribute(column: string, index: nat, field: Option<string>, status: MappingStatus, raw: string,
                                 normalized: Option<string>, valueType: string, subject: Role, how: string)

  /** Splitting a cell, normalizing a part (and how it was done), and looking up a field's value type; any will do. */
  datatype Normalizer = Normalizer(split: (string, string) -> seq<string>, normalize: (string, string) -> Option<string>,
                                   valueType: (Option<string>, Role) -> string, how: (string, string) -> string)

  /** What the normalizers promise: a cell has at least one part, and a normalized value is never blank. */
  ghost predicate Sound(n: Normalizer) {
    && (forall text, kind :: n.split(text, kind) != [])
    && (forall text, kind :: n.normalize(text, kind) != Some(""))
  }

  predicate Accepted(m: ColumnMapping) { m.status == AutoAccepted || m.status == Approved }

  type Mappings = map<string, ColumnMapping>

  function StatusOf(column: string, mappings: Mappings): MappingStatus {
    if column in mappings then mappings[column].status else Unmapped
  }

  /** Only a confirmed mapping labels a value as canonical. */
  function FieldOf(column: string, mappings: Mappings): Option<string> {
    if column in mappings && Accepted(mappings[column]) then mappings[column].field else None
  }

  function SubjectOf(column: string, mappings: Mappings): Role {
    if column in mappings && Accepted(mappings[column]) then mappings[column].subject else Self
  }

  function PartAt(c: Cell, mappings: Mappings, n: Normalizer, parts: seq<string>, i: nat): Attribute
    requires i < |parts|
  {
    var kind := n.valueType(FieldOf(c.column, mappings), SubjectOf(c.column, mappings));
    Attribute(c.column, i, FieldOf(c.column, mappings), StatusOf(c.column, mappings), parts[i],
              n.normalize(parts[i], kind), kind, SubjectOf(c.column, mappings), n.how(parts[i], kind))
  }

  function CellAttributes(c: Cell, mappings: Mappings, n: Normalizer): seq<Attribute> {
    var kind := n.valueType(FieldOf(c.column, mappings), SubjectOf(c.column, mappings));
    match c.text
    case None => [Attribute(c.column, 0, FieldOf(c.column, mappings), StatusOf(c.column, mappings), "", None, kind,
                            SubjectOf(c.column, mappings), kind + ":absent")]
    case Some(text) =>
      var parts := n.split(text, kind);
      seq(|parts|, i requires 0 <= i < |parts| => PartAt(c, mappings, n, parts, i))
  }

  function AttributesOf(payload: Payload, mappings: Mappings, n: Normalizer): seq<Attribute> {
    if payload == [] then []
    else AttributesOf(payload[..|payload| - 1], mappings, n) + CellAttributes(payload[|payload| - 1], mappings, n)
  }

  method AppendParts(before: seq<Attribute>, cell: Cell, mappings: Mappings, n: Normalizer, parts: seq<string>)
    returns (rows: seq<Attribute>)
    ensures rows == before + seq(|parts|, i requires 0 <= i < |parts| => PartAt(cell, mappings, n, parts, i))
  {
    rows := before;
    ghost var all := seq(|parts|, i requires 0 <= i < |parts| => PartAt(cell, mappings, n, parts, i));
    for i := 0 to |parts|
      invariant rows == before + all[..i]
    {
      rows := rows + [PartAt(cell, mappings, n, parts, i)];
      assert all[..i + 1] == all[..i] + [all[i]];
    }
    assert all[..|parts|] == all;
  }

  /** `observations_for_record`, as the nested loops of the code. */
  method ObservationsForRecord(payload: Payload, mappings: Mappings, n: Normalizer) returns (rows: seq<Attribute>)
    ensures rows == AttributesOf(payload, mappings, n)
  {
    rows := [];
    for c := 0 to |payload|
      invariant rows == AttributesOf(payload[..c], mappings, n)
    {
      assert payload[..c + 1][..c] == payload[..c];
      var cell := payload[c];
      var kind := n.valueType(FieldOf(cell.column, mappings), SubjectOf(cell.column, mappings));
      if cell.text.None? {
        rows := rows + [Attribute(cell.column, 0, FieldOf(cell.column, mappings), StatusOf(cell.column, mappings), "",
                                  None, kind, SubjectOf(cell.column, mappings), kind + ":absent")];
      } else {
        rows := AppendParts(rows, cell, mappings, n, n.split(cell.text.value, kind));
      }
    }
    assert payload[..|payload|] == payload;
  }

  ghost predicate DistinctColumns(payload: Payload) {
    forall i, j :: 0 <= i < j < |payload| ==> payload[i].column != payload[j].column
  }

  predicate SamePlace(a: Attribute, b: Attribute) { a.column == b.column && a.index == b.index }

  lemma CellAttributesAre(c: Cell, mappings: Mappings, n: Normalizer)
    requires Sound(n)
    ensures CellAttributes(c, mappings, n) != []
    ensures forall i :: 0 <= i < |CellAttributes(c, mappings, n)| ==>
      var a := CellAttributes(c, mappings, n)[i];
      && a.column == c.column && a.index == i && a.normalized != Some("")
      && a.field == FieldOf(c.column, mappings) && a.subject == SubjectOf(c.column, mappings)
  {
  }

  ghost predicate DistinctPlaces(rows: seq<Attribute>) {
    forall i, j :: 0 <= i < j < |rows| ==> !SamePlace(rows[i], rows[j])
  }

  ghost predicate FiledUnder(a: Attribute, mappings: Mappings) {
    a.normalized != Some("") && a.field == FieldOf(a.column, mappings) && a.subject == SubjectOf(a.column, mappings)
  }

  function Columns(payload: Payload): set<string> { set c | c in payload :: c.column }

  function ColumnsObserved(rows: seq<Attribute>): set<string> { set a | a in rows :: a.column }

  lemma PlacesConcat(before: seq<Attribute>, own: seq<Attribute>)
    requires DistinctPlaces(before) && DistinctPlaces(own) && ColumnsObserved(before) !! ColumnsObserved(own)
    ensures DistinctPlaces(before + own)
  {
    var rows := before + own;
    forall i, j | 0 <= i < j < |rows| ensures !SamePlace(rows[i], rows[j]) {
      if i < |before| <= j {
        assert before[i] in before && own[j - |before|] in own;
        assert rows[i].column in ColumnsObserved(before) && rows[j].column in ColumnsObserved(own);
      }
    }
  }

  lemma OneCellsColumn(c: Cell, mappings: Mappings, n: Normalizer)
    requires Sound(n)
    ensures ColumnsObserved(CellAttributes(c, mappings, n)) == {c.column}
    ensures DistinctPlaces(CellAttributes(c, mappings, n))
    ensures forall a :: a in CellAttributes(c, mappings, n) ==> FiledUnder(a, mappings)
  {
    CellAttributesAre(c, mappings, n);
    var own := CellAttributes(c, mappings, n);
    assert own[0] in own && own[0].column == c.column;
  }

  /**
   * Nothing of a row is lost and nothing is filed twice: exactly the row's columns leave observations, no
   * two observations share a column and an index, no value is blank, and a column nobody confirmed names
   * no field.
   */
  lemma {:induction false} EveryColumnIsObserved(payload: Payload, mappings: Mappings, n: Normalizer)
    requires Sound(n) && DistinctColumns(payload)
    ensures ColumnsObserved(AttributesOf(payload, mappings, n)) == Columns(payload)
    ensures DistinctPlaces(AttributesOf(payload, mappings, n))
    ensures forall a :: a in AttributesOf(payload, mappings, n) ==> FiledUnder(a, mappings)
  {
    if payload != [] {
      var k := |payload| - 1;
      var init, cell := payload[..k], payload[k];
      EveryColumnIsObserved(init, mappings, n);
      OneCellsColumn(cell, mappings, n);
      var before, own := AttributesOf(init, mappings, n), CellAttributes(cell, mappings, n);
      ColumnsConcat(before, own);
      assert payload == init + [cell];
      assert Columns(payload) == Columns(init) + {cell.column};
      assert cell.column !in Columns(init);
      PlacesConcat(before, own);
    }
  }

  lemma ColumnsConcat(before: seq<Attribute>, own: seq<Attribute>)
    ensures ColumnsObserved(before + own) == ColumnsObserved(before) + ColumnsObserved(own)
  {
    assert forall a :: a in before + own <==> a in before || a in own;
  }
}

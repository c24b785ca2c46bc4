/** What a row's cells become: observation by observation, value by value, and the employer it names. */
module RowMeaning {
  import opened Ordering
  import opened Sequences
  import opened Keys
  import opened KeyMeaning
  import opened Scoring
  import opened EntityStore
  import opened Normalization
  import opened SourceOrder
  import opened RecordSubjects

  // ---- observations -------------------------------------------------------------------------------------------

  /** Only a mapping a person or the mapper accepted gives a column a field and a subject. */
  ghost predicate FiledAs(mappings: Mappings, column: string, field: Option<string>, subject: Role) {
    if column in mappings && (mappings[column].status == AutoAccepted || mappings[column].status == Approved)
    then field == mappings[column].field && subject == mappings[column].subject
    else field == None && subject == Self
  }

  /** One observation of a cell: that the source said nothing, or one part of what it said, read by its field's kind of value. */
  ghost predicate Observes(a: Attribute, c: Cell, mappings: Mappings, n: Normalizer) {
    && a.column == c.column && FiledAs(mappings, c.column, a.field, a.subject)
    && a.status == (if c.column in mappings then mappings[c.column].status else Unmapped)
    && a.valueType == n.valueType(a.field, a.subject)
    && match c.text
       case None => a.index == 0 && a.raw == "" && a.normalized == None && a.how == a.valueType + ":absent"
       case Some(text) =>
         var parts := n.split(text, a.valueType);
         && a.index < |parts| && a.raw == parts[a.index]
         && a.normalized == n.normalize(parts[a.index], a.valueType) && a.how == n.how(parts[a.index], a.valueType)
  }

  lemma CellIsObserved(a: Attribute, c: Cell, mappings: Mappings, n: Normalizer)
    ensures a in CellAttributes(c, mappings, n) <==> Observes(a, c, mappings, n)
  {
    var own := CellAttributes(c, mappings, n);
    if c.text.Some? {
      var kind := n.valueType(FieldOf(c.column, mappings), Normalization.SubjectOf(c.column, mappings));
      var parts := n.split(c.text.value, kind);
      assert |own| == |parts| && forall i :: 0 <= i < |own| ==> own[i] == PartAt(c, mappings, n, parts, i);
      if Observes(a, c, mappings, n) { assert own[a.index] == a; }
    }
  }

  /** The observations of a row are the readings of its cells: all of them, and nothing else. */
  lemma {:induction false} RowIsObserved(payload: Payload, mappings: Mappings, n: Normalizer, a: Attribute)
    ensures a in AttributesOf(payload, mappings, n) <==> exists c :: c in payload && Observes(a, c, mappings, n)
  {
    if payload != [] {
      hide CellAttributes, Observes;
      var k := |payload| - 1;
      RowIsObserved(payload[..k], mappings, n, a);
      CellIsObserved(a, payload[k], mappings, n);
      assert payload == payload[..k] + [payload[k]];
      if c :| c in payload && Observes(a, c, mappings, n) { assert c == payload[k] || c in payload[..k]; }
    }
  }

  // ---- values -------------------------------------------------------------------------------------------------

  function SaidBy(subject: Role, f: string): Attribute -> seq<string> {
    (a: Attribute) => if a.field == Some(f) && a.normalized.Some? && a.subject == subject then [a.normalized.value] else []
  }

  /** A subject's values of a field: what each observation of it says, in the order of the observations. */
  lemma {:induction false} ValuesKeepOrder(rows: seq<Attribute>, subject: Role, f: string)
    ensures Listed(ValuesOf(rows, subject), f) == FlatMap(rows, SaidBy(subject, f))
    ensures f in ValuesOf(rows, subject) <==> FlatMap(rows, SaidBy(subject, f)) != []
  {
    if rows != [] { ValuesKeepOrder(rows[..|rows| - 1], subject, f); }
  }

  /** They are read by column name, and within a column by position. */
  lemma ReadInOrder(rows: seq<Attribute>, i: nat, j: nat)
    requires i < j < |SortByPlace(rows)|
    ensures var a, b := SortByPlace(rows)[i], SortByPlace(rows)[j];
      if a.column == b.column then a.index <= b.index else TextLeq(a.column, b.column)
  {
    SortIsOrdered(rows);
  }

  // ---- the employer -------------------------------------------------------------------------------------------

  /** A name that is a name: not blank, and not one of the words for having no employer. */
  ghost predicate NamesAnEmployer(fold: string -> string, n: string) {
    n != "" && fold(n) !in {"self employed", "selfemployed", "self-employed", "freelance", "freelancer", "unemployed", "retired",
                            "none", "n/a", "na", "student", "independent", "self", "private", "not applicable", "unknown"}
  }

  lemma RealIsNamed(fold: string -> string, n: string)
    ensures NamesAnEmployer(fold, n) <==> n != "" && IsRealEmployer(fold, n)
  {
  }

  lemma {:induction false} EmployerNameIff(fold: string -> string, names: seq<string>)
    ensures EmployerName(fold, names) != "" <==> exists n :: n in names && NamesAnEmployer(fold, n)
  {
    hide NamesAnEmployer, IsRealEmployer;
    if names != [] {
      EmployerNameIff(fold, names[1..]);
      RealIsNamed(fold, names[0]);
      if NamesAnEmployer(fold, names[0]) { assert names[0] in names; }
      forall n ensures n in names <==> n == names[0] || n in names[1..] {
        assert names == [names[0]] + names[1..];
      }
    }
  }

  ghost predicate HasAny(values: Values, field: string) { field in values && values[field] != [] }

  /**
   * A row's employer becomes a subject exactly when some name given is a name, one of five things beside it is
   * given, and some key can be built; it is then a company, under those keys, in the record's employer role.
   */
  lemma EmployerIff(ctx: Context, row: InputRow, values: Values)
    ensures var keys := KeysFor(Company, values, ctx.source.id, false, Organisation, ctx.urls);
      && (EmployerSubject(ctx, row, values).Some? <==>
            && (exists n :: Gives(values, "company_name", n) && NamesAnEmployer(ctx.fold, n))
            && (HasAny(values, "website") || HasAny(values, "linkedin_url") || HasAny(values, "company_external_id")
                || HasAny(values, "phone") || HasAny(values, "address_line1"))
            && keys != [])
      && (EmployerSubject(ctx, row, values).Some? ==>
            EmployerSubject(ctx, row, values).value ==
            Subject(row.record, Employer, Company, ctx.batch, ctx.source.id, keys, row.employerId))
  {
    hide KeysFor, NamesAnEmployer, EmployerName;
    EmployerNameIff(ctx.fold, Listed(values, "company_name"));
    forall n ensures Gives(values, "company_name", n) <==> n in Listed(values, "company_name") {
      GivesIsListed(values, "company_name", n);
    }
    CorroboratedIff(values);
  }

  lemma CorroboratedIff(values: Values)
    ensures Corroborated(values) <==>
      HasAny(values, "website") || HasAny(values, "linkedin_url") || HasAny(values, "company_external_id")
      || HasAny(values, "phone") || HasAny(values, "address_line1")
  {
    if HasAny(values, "website") { assert "website" in CORROBORATING && Listed(values, "website") != []; }
    if HasAny(values, "linkedin_url") { assert "linkedin_url" in CORROBORATING && Listed(values, "linkedin_url") != []; }
    if HasAny(values, "company_external_id") { assert "company_external_id" in CORROBORATING && Listed(values, "company_external_id") != []; }
    if HasAny(values, "phone") { assert "phone" in CORROBORATING && Listed(values, "phone") != []; }
    if HasAny(values, "address_line1") { assert "address_line1" in CORROBORATING && Listed(values, "address_line1") != []; }
  }

  /** Only a person's row has an employer beside it, and only where it says something of one. */
  lemma EmployerIsBesideAPerson(ctx: Context, row: InputRow, rows: seq<Attribute>)
    ensures EmployerIn(ctx, row, rows).Some? ==>
      && ctx.entityType == Person
      && (exists a :: a in rows && a.subject == Employer && a.field.Some? && a.normalized.Some?)
      && EmployerIn(ctx, row, rows) == EmployerSubject(ctx, row, ValuesOf(rows, Employer))
    ensures ctx.entityType == Person && EmployerSubject(ctx, row, ValuesOf(rows, Employer)).Some? ==> EmployerIn(ctx, row, rows).Some?
  {
    hide KeysFor;
    EmployerIff(ctx, row, ValuesOf(rows, Employer));
    if ValuesOf(rows, Employer) != map[] {
      var f :| f in ValuesOf(rows, Employer);
      ValuesKeepOrder(rows, Employer, f);
      FlatMapMembers(rows, SaidBy(Employer, f));
      assert FlatMap(rows, SaidBy(Employer, f))[0] in FlatMap(rows, SaidBy(Employer, f));
      var a :| a in rows && FlatMap(rows, SaidBy(Employer, f))[0] in SaidBy(Employer, f)(a);
    }
  }
}

/** Judging one record: attribute rules on its values, record rules on what they add up to. */
module Validation {
  import opened Ordering
  import opened Sequences
  import opened Keys
  import opened Normalization
  import Quarantine

  datatype Severity = ErrorLevel | WarningLevel | InfoLevel
  datatype Judgement = Judgement(rule: string, severity: Severity, failed: bool)

  /** A result row: about one attribute, or about the record. */
  datatype Result = Result(about: Option<Attribute>, judgement: Judgement)

  /** The attribute rules; any rule set will do. */
  type Judge = Attribute -> seq<Judgement>

  // ---- record rules ----------------------------------------------------------------------

  datatype Facts = Facts(entityType: EntityType, present: set<string>, total: nat, canonical: nat, populated: nat)

  function IdentifyingFields(entityType: EntityType): set<string> {
    match entityType
    case Person => {"email", "linkedin_url", "person_external_id", "full_name"}
    case Company => {"company_name", "legal_name", "website", "company_external_id", "email"}
  }

  function CoreFields(entityType: EntityType): set<string> {
    match entityType case Person => {"full_name", "email"} case Company => {"company_name"}
  }

  function ExpectedFields(entityType: EntityType): set<string> {
    match entityType
    case Person => {"phone", "job_title", "company_name", "city", "country"}
    case Company => {"website", "phone", "address_line1", "city", "country", "industry"}
  }

  predicate HasValue(a: Attribute) { a.normalized.Some? }

  predicate Confirmed(a: Attribute) { a.field.Some? }

  function PresentFields(attributes: seq<Attribute>): set<string> {
    set a | a in attributes && Confirmed(a) && HasValue(a) :: a.field.value
  }

  function Summary(attributes: seq<Attribute>, entityType: EntityType): Facts {
    Facts(entityType, PresentFields(attributes), |attributes|, Count(attributes, Confirmed), Count(attributes, HasValue))
  }

  /** `summarize`, in the one pass the code makes. */
  method Summarize(attributes: seq<Attribute>, entityType: EntityType) returns (facts: Facts)
    ensures facts == Summary(attributes, entityType)
  {
    var present: set<string>, canonical, populated := {}, 0, 0;
    for i := 0 to |attributes|
      invariant present == PresentFields(attributes[..i])
      invariant canonical == Count(attributes[..i], Confirmed) && populated == Count(attributes[..i], HasValue)
    {
      assert attributes[..i + 1] == attributes[..i] + [attributes[i]];
      var a := attributes[i];
      if HasValue(a) { populated := populated + 1; }
      if Confirmed(a) {
        canonical := canonical + 1;
        if HasValue(a) { present := present + {a.field.value}; }
      }
    }
    assert attributes[..|attributes|] == attributes;
    facts := Facts(entityType, present, |attributes|, canonical, populated);
  }

  /** Something here could identify the record: an identifying field, or for a person both name parts. */
  predicate Identified(facts: Facts) {
    || IdentifyingFields(facts.entityType) * facts.present != {}
    || (facts.entityType == Person && "first_name" in facts.present && "last_name" in facts.present)
  }

  /** `judge_record`: the five rules, in order. */
  function JudgeRecord(facts: Facts): seq<Judgement> {
    [Judgement("record.all_values_missing", ErrorLevel, facts.populated == 0),
     Judgement("record.has_identifier", ErrorLevel, !Identified(facts)),
     Judgement("record.core_fields", WarningLevel, !(CoreFields(facts.entityType) <= facts.present)),
     Judgement("record.expected_fields", InfoLevel, !(ExpectedFields(facts.entityType) <= facts.present)),
     Judgement("record.mapping_coverage", WarningLevel, facts.total == 0 || 2 * facts.canonical < facts.total)]
  }

  // ---- the verdict --------------------------------------------------------------------------

  function JudgementsOf(judge: Judge, a: Attribute): seq<Judgement> {
    if Confirmed(a) then judge(a) else []
  }

  function ResultsOf(judge: Judge, a: Attribute): seq<Result> {
    seq(|JudgementsOf(judge, a)|, i requires 0 <= i < |JudgementsOf(judge, a)| => Result(Some(a), JudgementsOf(judge, a)[i]))
  }

  function ResultsBy(judge: Judge): Attribute -> seq<Result> { (a: Attribute) => ResultsOf(judge, a) }

  function RecordResults(facts: Facts): seq<Result> {
    seq(|JudgeRecord(facts)|, i requires 0 <= i < |JudgeRecord(facts)| => Result(None, JudgeRecord(facts)[i]))
  }

  predicate Fails(r: Result, severity: Severity) { r.judgement.failed && r.judgement.severity == severity }

  function FailingAs(severity: Severity): Result -> bool { (r: Result) => Fails(r, severity) }

  /** The rules behind the failures of this severity, in the order they failed. */
  function FailedRules(rs: seq<Result>, severities: set<Severity>): seq<string> {
    FlatMap(rs, RuleIf(severities))
  }

  function RuleIf(severities: set<Severity>): Result -> seq<string> {
    (r: Result) => if r.judgement.failed && r.judgement.severity in severities then [r.judgement.rule] else []
  }

  datatype RecordVerdict = RecordVerdict(status: Quarantine.Verdict, results: seq<Result>, errors: nat, warnings: nat,
                                         validated: nat, unvalidated: nat, failedRules: seq<string>, errorRules: seq<string>)

  function StatusFor(recordErrors: nat, attributeErrors: nat, warnings: nat): Quarantine.Verdict {
    if recordErrors > 0 then Quarantine.Invalid
    else if attributeErrors > 0 || warnings > 0 then Quarantine.Warning
    else Quarantine.Valid
  }

  function AttributeResults(judge: Judge, attributes: seq<Attribute>): seq<Result> {
    FlatMap(attributes, ResultsBy(judge))
  }

  function AllResults(judge: Judge, attributes: seq<Attribute>, entityType: EntityType): seq<Result> {
    AttributeResults(judge, attributes) + RecordResults(Summary(attributes, entityType))
  }

  function WasJudged(judge: Judge): Attribute -> bool { (a: Attribute) => JudgementsOf(judge, a) != [] }

  function WasNotJudged(judge: Judge): Attribute -> bool { (a: Attribute) => JudgementsOf(judge, a) == [] }

  /** `validate_record`. */
  function Verdict(judge: Judge, attributes: seq<Attribute>, entityType: EntityType): RecordVerdict {
    var all := AllResults(judge, attributes, entityType);
    RecordVerdict(
      StatusFor(Count(RecordResults(Summary(attributes, entityType)), FailingAs(ErrorLevel)),
                Count(AttributeResults(judge, attributes), FailingAs(ErrorLevel)),
                Count(all, FailingAs(WarningLevel))),
      all, Count(all, FailingAs(ErrorLevel)), Count(all, FailingAs(WarningLevel)),
      Count(attributes, WasJudged(judge)), Count(attributes, WasNotJudged(judge)),
      SortedSet(FailedRules(all, {ErrorLevel, WarningLevel})), SortedSet(FailedRules(all, {ErrorLevel})))
  }

  /** Running totals of the loop. */
  datatype Tally = Tally(rows: seq<Result>, errors: nat, warnings: nat, failed: seq<string>, errorRules: seq<string>)

  function TallyOf(rows: seq<Result>): Tally {
    Tally(rows, Count(rows, FailingAs(ErrorLevel)), Count(rows, FailingAs(WarningLevel)),
          FailedRules(rows, {ErrorLevel, WarningLevel}), FailedRules(rows, {ErrorLevel}))
  }

  /** One judgement, as the body of the loop counts it. */
  method Note(t: Tally, r: Result) returns (u: Tally)
    requires t == TallyOf(t.rows)
    ensures u == TallyOf(t.rows + [r])
  {
    hide Count, FlatMap;
    u := t;
    CountAppend(t.rows, r, FailingAs(ErrorLevel));
    CountAppend(t.rows, r, FailingAs(WarningLevel));
    FlatMapAppend(t.rows, r, RuleIf({ErrorLevel}));
    FlatMapAppend(t.rows, r, RuleIf({ErrorLevel, WarningLevel}));
    if r.judgement.failed {
      if r.judgement.severity == ErrorLevel {
        u := u.(errors := u.errors + 1, errorRules := u.errorRules + [r.judgement.rule], failed := u.failed + [r.judgement.rule]);
      } else if r.judgement.severity == WarningLevel {
        u := u.(warnings := u.warnings + 1, failed := u.failed + [r.judgement.rule]);
      }
    }
    u := u.(rows := u.rows + [r]);
  }

  /** The loop over the attributes. */
  method JudgeAttributes(judge: Judge, attributes: seq<Attribute>) returns (t: Tally, validated: nat, unvalidated: nat)
    ensures t == TallyOf(AttributeResults(judge, attributes))
    ensures validated == Count(attributes, WasJudged(judge)) && unvalidated == Count(attributes, WasNotJudged(judge))
  {
    validated, unvalidated := 0, 0;
    t := Tally([], 0, 0, [], []);
    for i := 0 to |attributes|
      invariant t == TallyOf(AttributeResults(judge, attributes[..i]))
      invariant validated == Count(attributes[..i], WasJudged(judge))
      invariant unvalidated == Count(attributes[..i], WasNotJudged(judge))
    {
      var a := attributes[i];
      assert t.rows == AttributeResults(judge, attributes[..i]);
      NextAttribute(judge, attributes, i);
      if JudgementsOf(judge, a) == [] {
        unvalidated := unvalidated + 1;
        assert ResultsOf(judge, a) == [];
        assert AttributeResults(judge, attributes[..i + 1]) == AttributeResults(judge, attributes[..i]);
      } else {
        validated := validated + 1;
        t := NoteAll(t, ResultsOf(judge, a));
      }
    }
    assert attributes[..|attributes|] == attributes;
  }

  lemma NextAttribute(judge: Judge, attributes: seq<Attribute>, i: nat)
    requires i < |attributes|
    ensures AttributeResults(judge, attributes[..i + 1]) ==
      AttributeResults(judge, attributes[..i]) + ResultsOf(judge, attributes[i])
    ensures Count(attributes[..i + 1], WasJudged(judge)) ==
      Count(attributes[..i], WasJudged(judge)) + (if JudgementsOf(judge, attributes[i]) != [] then 1 else 0)
    ensures Count(attributes[..i + 1], WasNotJudged(judge)) ==
      Count(attributes[..i], WasNotJudged(judge)) + (if JudgementsOf(judge, attributes[i]) == [] then 1 else 0)
  {
    assert attributes[..i + 1] == attributes[..i] + [attributes[i]];
    CountAppend(attributes[..i], attributes[i], WasJudged(judge));
    CountAppend(attributes[..i], attributes[i], WasNotJudged(judge));
    FlatMapAppend(attributes[..i], attributes[i], ResultsBy(judge));
  }

  /** `validate_record`: the attributes, then the record rules, with the counters the code keeps. */
  method ValidateRecord(judge: Judge, attributes: seq<Attribute>, entityType: EntityType) returns (v: RecordVerdict)
    ensures v == Verdict(judge, attributes, entityType)
  {
    var t, validated, unvalidated := JudgeAttributes(judge, attributes);
    var attributeErrors := t.errors;
    var facts := Summarize(attributes, entityType);
    CountConcat(t.rows, RecordResults(facts), FailingAs(ErrorLevel));
    t := NoteAll(t, RecordResults(facts));
    var status := StatusFor(t.errors - attributeErrors, attributeErrors, t.warnings);
    v := RecordVerdict(status, t.rows, t.errors, t.warnings, validated, unvalidated, SortedSet(t.failed), SortedSet(t.errorRules));
  }

  method NoteAll(t: Tally, more: seq<Result>) returns (u: Tally)
    requires t == TallyOf(t.rows)
    ensures u == TallyOf(t.rows + more)
  {
    u := t;
    assert t.rows + more[..0] == t.rows;
    for i := 0 to |more|
      invariant u == TallyOf(t.rows + more[..i])
    {
      assert t.rows + more[..i + 1] == (t.rows + more[..i]) + [more[i]];
      u := Note(u, more[i]);
    }
    assert more[..|more|] == more;
  }

  // ---- what the verdict means -----------------------------------------------------------------

  lemma IdentifiedBy(facts: Facts, field: string)
    requires field in IdentifyingFields(facts.entityType) && field in facts.present
    ensures Identified(facts)
  {
    assert field in IdentifyingFields(facts.entityType) * facts.present;
  }

  lemma NothingPresentIdentifiesNothing(facts: Facts)
    requires facts.present == {}
    ensures !Identified(facts)
  {
  }

  /** Of the five record rules only two are errors. */
  lemma {:induction false} RecordErrorsIff(facts: Facts)
    ensures Count(RecordResults(facts), FailingAs(ErrorLevel)) == 0 <==> facts.populated != 0 && Identified(facts)
  {
    var rows := RecordResults(facts);
    CountZero(rows, FailingAs(ErrorLevel));
    assert rows[0] in rows && rows[1] in rows;
  }

  lemma UnpopulatedHasNothingPresent(attributes: seq<Attribute>)
    requires Count(attributes, HasValue) == 0
    ensures PresentFields(attributes) == {}
  {
    CountZero(attributes, HasValue);
  }

  /**
   * A record is invalid exactly when none of its values could identify it, whatever the attribute rules
   * say about them: no junk column condemns a row, and no clean one saves it.
   */
  lemma InvalidIffUnidentified(judge: Judge, attributes: seq<Attribute>, entityType: EntityType)
    ensures Verdict(judge, attributes, entityType).status == Quarantine.Invalid <==> !Identified(Summary(attributes, entityType))
  {
    var facts := Summary(attributes, entityType);
    RecordErrorsIff(facts);
    if facts.populated == 0 {
      UnpopulatedHasNothingPresent(attributes);
      NothingPresentIdentifiesNothing(facts);
    }
  }

  /** More observations never turn a record invalid. */
  lemma MoreObservationsNeverInvalidate(judge: Judge, few: seq<Attribute>, more: seq<Attribute>, entityType: EntityType)
    requires forall a :: a in few ==> a in more
    requires Verdict(judge, few, entityType).status != Quarantine.Invalid
    ensures Verdict(judge, more, entityType).status != Quarantine.Invalid
  {
    InvalidIffUnidentified(judge, few, entityType);
    InvalidIffUnidentified(judge, more, entityType);
    assert PresentFields(few) <= PresentFields(more);
    if IdentifyingFields(entityType) * PresentFields(few) != {} {
      var f :| f in IdentifyingFields(entityType) * PresentFields(few);
      assert f in IdentifyingFields(entityType) * PresentFields(more);
    }
  }

  /** The counters add up: every attribute is validated or not, and the totals are those of the rows written. */
  lemma CountsReconcile(judge: Judge, attributes: seq<Attribute>, entityType: EntityType)
    ensures var v := Verdict(judge, attributes, entityType);
      && v.validated + v.unvalidated == |attributes|
      && v.errors == Count(v.results, FailingAs(ErrorLevel))
      && v.warnings == Count(v.results, FailingAs(WarningLevel))
      && (v.errorRules == [] <==> v.errors == 0)
      && (v.failedRules == [] <==> v.errors == 0 && v.warnings == 0)
      && (v.status == Quarantine.Valid <==> v.errors == 0 && v.warnings == 0)
  {
    var v := Verdict(judge, attributes, entityType);
    CountComplement(attributes, WasJudged(judge), WasNotJudged(judge));
    CountConcat(AttributeResults(judge, attributes), RecordResults(Summary(attributes, entityType)), FailingAs(ErrorLevel));
    RulesTellFailures(v.results, {ErrorLevel});
    RulesTellFailures(v.results, {ErrorLevel, WarningLevel});
    CountZero(v.results, FailingAs(ErrorLevel));
    CountZero(v.results, FailingAs(WarningLevel));
  }

  /**
   * Nothing to report, said without the rules: the row can be identified, no value of it failed a rule that
   * counts, the fields that make it legible are there, and at least half its attributes are confirmed.
   */
  lemma ValidIffClean(judge: Judge, attributes: seq<Attribute>, entityType: EntityType)
    ensures var facts := Summary(attributes, entityType);
      Verdict(judge, attributes, entityType).status == Quarantine.Valid <==>
        && Identified(facts) && CoreFields(entityType) <= facts.present
        && facts.total > 0 && 2 * facts.canonical >= facts.total
        && (forall r :: r in AttributeResults(judge, attributes) ==> !Fails(r, ErrorLevel) && !Fails(r, WarningLevel))
  {
    var facts := Summary(attributes, entityType);
    var rows := AttributeResults(judge, attributes);
    InvalidIffUnidentified(judge, attributes, entityType);
    CountConcat(rows, RecordResults(facts), FailingAs(WarningLevel));
    CountZero(rows, FailingAs(ErrorLevel));
    CountZero(rows, FailingAs(WarningLevel));
    RecordWarningsIff(facts);
  }

  lemma RecordWarningsIff(facts: Facts)
    ensures Count(RecordResults(facts), FailingAs(WarningLevel)) == 0 <==>
      CoreFields(facts.entityType) <= facts.present && facts.total > 0 && 2 * facts.canonical >= facts.total
  {
    var rows := RecordResults(facts);
    CountZero(rows, FailingAs(WarningLevel));
    assert rows[2] in rows && rows[4] in rows;
  }

  lemma RulesTellFailures(rs: seq<Result>, severities: set<Severity>)
    ensures SortedSet(FailedRules(rs, severities)) == [] <==>
      forall r :: r in rs ==> !(r.judgement.failed && r.judgement.severity in severities)
  {
    var rules := FailedRules(rs, severities);
    var f := RuleIf(severities);
    FlatMapMembers(rs, f);
    if SortedSet(rules) != [] {
      assert SortedSet(rules)[0] in rules;
      var r :| r in rs && SortedSet(rules)[0] in f(r);
    }
    if r :| r in rs && r.judgement.failed && r.judgement.severity in severities {
      assert r.judgement.rule in f(r);
      assert r.judgement.rule in SortedSet(rules);
    }
  }

  /** The status, the counts and the rule lists do not depend on the order the observations are read in. */
  lemma VerdictIgnoresOrder(judge: Judge, a: seq<Attribute>, b: seq<Attribute>, entityType: EntityType)
    requires multiset(a) == multiset(b)
    ensures var x, y := Verdict(judge, a, entityType), Verdict(judge, b, entityType);
      && y == x.(results := y.results)
      && multiset(x.results) == multiset(y.results)
  {
    SummaryIgnoresOrder(a, b, entityType);
    FlatMapIgnoresOrder(a, b, ResultsBy(judge));
    var x, y := AllResults(judge, a, entityType), AllResults(judge, b, entityType);
    assert multiset(x) == multiset(y);
    CountIgnoresOrder(x, y, FailingAs(ErrorLevel));
    CountIgnoresOrder(x, y, FailingAs(WarningLevel));
    CountIgnoresOrder(AttributeResults(judge, a), AttributeResults(judge, b), FailingAs(ErrorLevel));
    RulesIgnoreOrder(x, y, {ErrorLevel});
    RulesIgnoreOrder(x, y, {ErrorLevel, WarningLevel});
    CountIgnoresOrder(a, b, WasJudged(judge));
    CountIgnoresOrder(a, b, WasNotJudged(judge));
  }

  lemma SummaryIgnoresOrder(a: seq<Attribute>, b: seq<Attribute>, entityType: EntityType)
    requires multiset(a) == multiset(b)
    ensures Summary(a, entityType) == Summary(b, entityType)
  {
    SameMultisetSameMembers(a, b);
    CountIgnoresOrder(a, b, Confirmed);
    CountIgnoresOrder(a, b, HasValue);
  }

  lemma RulesIgnoreOrder(a: seq<Result>, b: seq<Result>, severities: set<Severity>)
    requires multiset(a) == multiset(b)
    ensures SortedSet(FailedRules(a, severities)) == SortedSet(FailedRules(b, severities))
  {
    var f := RuleIf(severities);
    FlatMapIgnoresOrder(a, b, f);
    SameMultisetSameMembers(FlatMap(a, f), FlatMap(b, f));
    SortedSetDependsOnElements(FlatMap(a, f), FlatMap(b, f));
  }

  // ---- whose identifier it is -------------------------------------------------------------------

  function Own(attributes: seq<Attribute>): seq<Attribute> {
    if attributes == [] then []
    else
      var init := Own(attributes[..|attributes| - 1]);
      if attributes[|attributes| - 1].subject == Self then init + [attributes[|attributes| - 1]] else init
  }

  lemma {:induction false} OwnAre(attributes: seq<Attribute>)
    ensures forall a :: a in Own(attributes) <==> a in attributes && a.subject == Self
  {
    if attributes != [] {
      OwnAre(attributes[..|attributes| - 1]);
      assert attributes == attributes[..|attributes| - 1] + [attributes[|attributes| - 1]];
    }
  }

  lemma PresentIf(attributes: seq<Attribute>, a: Attribute)
    requires a in attributes && Confirmed(a) && HasValue(a)
    ensures a.field.value in PresentFields(attributes)
  {
  }

  lemma OwnIsPresent(attributes: seq<Attribute>, a: Attribute, fields: set<string>)
    requires a in attributes && Confirmed(a) && HasValue(a) && a.subject == Self && a.field.value in fields
    ensures fields * PresentFields(Own(attributes)) != {}
  {
    OwnAre(attributes);
    PresentIf(Own(attributes), a);
    assert a.field.value in fields * PresentFields(Own(attributes));
  }

  /** Which of these fields a row has a value for, when none of them is its own. */
  lemma SuppliedByEmployer(attributes: seq<Attribute>, fields: set<string>)
    requires fields * PresentFields(Own(attributes)) == {}
    ensures fields * PresentFields(attributes) != {} <==>
      exists a :: a in attributes && a.subject == Employer && Confirmed(a) && HasValue(a) && a.field.value in fields
  {
    OwnAre(attributes);
    forall a | a in attributes && Confirmed(a) && HasValue(a) && a.field.value in fields
      ensures a.subject == Employer && a.field.value in fields * PresentFields(attributes)
    {
      PresentIf(attributes, a);
      if a.subject == Self { OwnIsPresent(attributes, a, fields); }
    }
    if f :| f in fields * PresentFields(attributes) {
      var a :| a in attributes && Confirmed(a) && HasValue(a) && a.field.value == f;
    }
  }

  /**
   * The record rules look at fields, not at whose they are. A row passes although nothing of its own
   * identifies it exactly when its employer's values supply what the row lacks.
   */
  lemma PassesOnEmployersIdentityIff(judge: Judge, attributes: seq<Attribute>, entityType: EntityType)
    requires !Identified(Summary(Own(attributes), entityType))
    ensures Verdict(judge, attributes, entityType).status != Quarantine.Invalid <==>
      || (exists a :: a in attributes && a.subject == Employer && Confirmed(a) && HasValue(a)
            && a.field.value in IdentifyingFields(entityType))
      || (entityType == Person && "first_name" in PresentFields(attributes) && "last_name" in PresentFields(attributes))
  {
    InvalidIffUnidentified(judge, attributes, entityType);
    SuppliedByEmployer(attributes, IdentifyingFields(entityType));
  }

  /** A person row holding nothing but its employer's LinkedIn page is let through. */
  lemma EmployersPageIsEnough(judge: Judge, page: string)
    ensures var row := [Attribute("Company Linkedin Url", 0, Some("linkedin_url"), AutoAccepted, page, Some(page), "url", Employer, "url")];
      && Own(row) == []
      && Verdict(judge, row, Person).status != Quarantine.Invalid
  {
    var a := Attribute("Company Linkedin Url", 0, Some("linkedin_url"), AutoAccepted, page, Some(page), "url", Employer, "url");
    assert [a][..0] == [];
    InvalidIffUnidentified(judge, [a], Person);
    PresentIf([a], a);
    IdentifiedBy(Summary([a], Person), "linkedin_url");
  }
}

/** What a verdict says, rule by rule and without the rules. */
module VerdictMeaning {
  import opened Ordering
  import opened Sequences
  import opened Keys
  import opened Normalization
  import opened Validation
  import Quarantine

  /** The row has a value for the field under a confirmed column, its own or not. */
  ghost predicate Has(attributes: seq<Attribute>, f: string) {
    exists a :: a in attributes && a.field == Some(f) && a.normalized.Some?
  }

  lemma HasIsPresent(attributes: seq<Attribute>, f: string)
    ensures f in PresentFields(attributes) <==> Has(attributes, f)
  {
    if Has(attributes, f) {
      var a :| a in attributes && a.field == Some(f) && a.normalized.Some?;
      assert Confirmed(a) && HasValue(a);
    }
  }

  /** Something a person, or a company, can be told by. */
  ghost predicate CanBeTold(attributes: seq<Attribute>, entityType: EntityType) {
    match entityType
    case Person =>
      || Has(attributes, "email") || Has(attributes, "linkedin_url") || Has(attributes, "person_external_id") || Has(attributes, "full_name")
      || (Has(attributes, "first_name") && Has(attributes, "last_name"))
    case Company =>
      || Has(attributes, "company_name") || Has(attributes, "legal_name") || Has(attributes, "website")
      || Has(attributes, "company_external_id") || Has(attributes, "email")
  }

  /** Its name, and for a person a mailbox. */
  ghost predicate HasItsCore(attributes: seq<Attribute>, entityType: EntityType) {
    match entityType
    case Person => Has(attributes, "full_name") && Has(attributes, "email")
    case Company => Has(attributes, "company_name")
  }

  ghost predicate HasTheUsual(attributes: seq<Attribute>, entityType: EntityType) {
    && Has(attributes, "phone") && Has(attributes, "city") && Has(attributes, "country")
    && match entityType
       case Person => Has(attributes, "job_title") && Has(attributes, "company_name")
       case Company => Has(attributes, "website") && Has(attributes, "address_line1") && Has(attributes, "industry")
  }

  lemma IdentifiedMeans(attributes: seq<Attribute>, entityType: EntityType)
    ensures Identified(Summary(attributes, entityType)) <==> CanBeTold(attributes, entityType)
  {
    hide Has, PresentFields;
    forall f ensures f in PresentFields(attributes) <==> Has(attributes, f) { HasIsPresent(attributes, f); }
    var facts := Summary(attributes, entityType);
    forall f | f in IdentifyingFields(entityType) ensures f in facts.present ==> Identified(facts) {
      if f in facts.present { IdentifiedBy(facts, f); }
    }
    if IdentifyingFields(entityType) * facts.present != {} {
      var f :| f in IdentifyingFields(entityType) * facts.present;
    }
  }

  lemma CoreMeans(attributes: seq<Attribute>, entityType: EntityType)
    ensures CoreFields(entityType) <= PresentFields(attributes) <==> HasItsCore(attributes, entityType)
    ensures ExpectedFields(entityType) <= PresentFields(attributes) <==> HasTheUsual(attributes, entityType)
  {
    hide Has, PresentFields;
    forall f ensures f in PresentFields(attributes) <==> Has(attributes, f) { HasIsPresent(attributes, f); }
  }

  /** A judgement on a confirmed observation of the row. */
  ghost predicate Judged(judge: Judge, attributes: seq<Attribute>, j: Judgement) {
    exists a :: a in attributes && a.field.Some? && j in judge(a)
  }

  lemma ResultIsJudged(judge: Judge, attributes: seq<Attribute>, r: Result)
    requires r in AttributeResults(judge, attributes)
    ensures Judged(judge, attributes, r.judgement)
  {
    FlatMapMembers(attributes, ResultsBy(judge));
    var a :| a in attributes && r in ResultsBy(judge)(a);
    assert r in ResultsOf(judge, a);
  }

  lemma JudgedIsResult(judge: Judge, attributes: seq<Attribute>, j: Judgement) returns (r: Result)
    requires Judged(judge, attributes, j)
    ensures r in AttributeResults(judge, attributes) && r.judgement == j
  {
    var a :| a in attributes && a.field.Some? && j in judge(a);
    FlatMapMembers(attributes, ResultsBy(judge));
    var i :| 0 <= i < |judge(a)| && judge(a)[i] == j;
    r := Result(Some(a), j);
    assert ResultsOf(judge, a)[i] == r;
    assert r in ResultsBy(judge)(a);
  }

  function IsConfirmed(): Attribute -> bool { (a: Attribute) => a.field.Some? }

  lemma {:induction false} CountsAlike<T>(s: seq<T>, p: T -> bool, q: T -> bool)
    requires forall x :: x in s ==> p(x) == q(x)
    ensures Count(s, p) == Count(s, q)
  {
    if s != [] {
      assert forall x :: x in s[..|s| - 1] ==> x in s;
      CountsAlike(s[..|s| - 1], p, q);
    }
  }

  /**
   * A record is invalid exactly when nothing it says tells whose it is, and valid exactly when it also has its
   * core, at least half its observations are of confirmed columns, and no judgement of consequence failed on one.
   */
  lemma StatusMeans(judge: Judge, attributes: seq<Attribute>, entityType: EntityType)
    ensures var status := Verdict(judge, attributes, entityType).status;
      && (status == Quarantine.Invalid <==> !CanBeTold(attributes, entityType))
      && (status == Quarantine.Valid <==>
            && CanBeTold(attributes, entityType) && HasItsCore(attributes, entityType)
            && attributes != [] && 2 * Count(attributes, IsConfirmed()) >= |attributes|
            && forall j :: Judged(judge, attributes, j) && j.failed ==> j.severity == InfoLevel)
  {
    hide CanBeTold, HasItsCore, Identified, PresentFields, Judged, Verdict, AttributeResults;
    InvalidIffUnidentified(judge, attributes, entityType);
    ValidIffClean(judge, attributes, entityType);
    IdentifiedMeans(attributes, entityType);
    CoreMeans(attributes, entityType);
    CountsAlike(attributes, Confirmed, IsConfirmed());
    forall j | Judged(judge, attributes, j) ensures exists r :: r in AttributeResults(judge, attributes) && r.judgement == j {
      var r := JudgedIsResult(judge, attributes, j);
    }
    forall r | r in AttributeResults(judge, attributes) ensures Judged(judge, attributes, r.judgement) {
      ResultIsJudged(judge, attributes, r);
    }
  }

  ghost predicate AboutTheRecord(attributes: seq<Attribute>, entityType: EntityType, j: seq<Judgement>) {
    && |j| == 5
    && j[0] == Judgement("record.all_values_missing", ErrorLevel, forall a :: a in attributes ==> a.normalized.None?)
    && j[1] == Judgement("record.has_identifier", ErrorLevel, !CanBeTold(attributes, entityType))
    && j[2] == Judgement("record.core_fields", WarningLevel, !HasItsCore(attributes, entityType))
    && j[3] == Judgement("record.expected_fields", InfoLevel, !HasTheUsual(attributes, entityType))
    && j[4] == Judgement("record.mapping_coverage", WarningLevel, attributes == [] || 2 * Count(attributes, IsConfirmed()) < |attributes|)
  }

  lemma RecordIsJudged(attributes: seq<Attribute>, entityType: EntityType)
    ensures AboutTheRecord(attributes, entityType, JudgeRecord(Summary(attributes, entityType)))
  {
    hide CanBeTold, HasItsCore, HasTheUsual, Identified, PresentFields, CoreFields, ExpectedFields;
    IdentifiedMeans(attributes, entityType);
    CoreMeans(attributes, entityType);
    CountsAlike(attributes, Confirmed, IsConfirmed());
    CountZero(attributes, HasValue);
  }

  /** The rows of a verdict: those about the observations, then five about the record itself. */
  lemma RecordRowsSay(judge: Judge, attributes: seq<Attribute>, entityType: EntityType) returns (j: seq<Judgement>)
    ensures AboutTheRecord(attributes, entityType, j)
    ensures var rows, results := AttributeResults(judge, attributes), Verdict(judge, attributes, entityType).results;
      |results| == |rows| + 5 && results[..|rows|] == rows && forall i: nat :: i < 5 ==> results[|rows| + i] == Result(None, j[i])
  {
    hide AboutTheRecord, AttributeResults, Summary, JudgeRecord;
    RecordIsJudged(attributes, entityType);
    j := JudgeRecord(Summary(attributes, entityType));
    FiveRows(attributes, entityType, j);
  }

  lemma FiveRows(attributes: seq<Attribute>, entityType: EntityType, j: seq<Judgement>)
    requires j == JudgeRecord(Summary(attributes, entityType))
    ensures |j| == 5 && |RecordResults(Summary(attributes, entityType))| == 5
    ensures forall i: nat :: i < 5 ==> RecordResults(Summary(attributes, entityType))[i] == Result(None, j[i])
  {
    hide Summary;
  }

  lemma FailedRulesAre(rs: seq<Result>, severities: set<Severity>, x: string)
    ensures x in SortedSet(FailedRules(rs, severities)) <==>
      exists r :: r in rs && r.judgement.failed && r.judgement.severity in severities && r.judgement.rule == x
  {
    var f := RuleIf(severities);
    FlatMapMembers(rs, f);
    if r :| r in rs && r.judgement.failed && r.judgement.severity in severities && r.judgement.rule == x { assert x in f(r); }
    if x in FailedRules(rs, severities) {
      var r :| r in rs && x in f(r);
    }
  }

  function JudgedAtAll(judge: Judge): Attribute -> bool { (a: Attribute) => a.field.Some? && judge(a) != [] }

  /** The rule lists name exactly the failed rules of consequence, once each in order; the counters count what was judged. */
  lemma ListsNameFailures(judge: Judge, attributes: seq<Attribute>, entityType: EntityType, x: string)
    ensures var v := Verdict(judge, attributes, entityType);
      && StrictlyAscending(v.errorRules) && StrictlyAscending(v.failedRules)
      && (x in v.errorRules <==>
            exists r :: r in v.results && r.judgement.failed && r.judgement.severity == ErrorLevel && r.judgement.rule == x)
      && (x in v.failedRules <==>
            exists r :: r in v.results && r.judgement.failed && r.judgement.severity != InfoLevel && r.judgement.rule == x)
      && v.validated == Count(attributes, JudgedAtAll(judge)) && v.unvalidated == |attributes| - Count(attributes, JudgedAtAll(judge))
  {
    hide AttributeResults, RecordResults, Summary, StatusFor;
    var v := Verdict(judge, attributes, entityType);
    FailedRulesAre(v.results, {ErrorLevel}, x);
    FailedRulesAre(v.results, {ErrorLevel, WarningLevel}, x);
    CountsAlike(attributes, WasJudged(judge), JudgedAtAll(judge));
    CountsReconcile(judge, attributes, entityType);
  }
}

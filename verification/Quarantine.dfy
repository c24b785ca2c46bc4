/** What happens to a record validation calls invalid: automatic routing, human review, and the event log. */
module Quarantine {
  import opened Ordering

  datatype Verdict = Valid | Warning | Invalid
  datatype Status = Open | Released | Rejected | Resolved
  datatype Action = Quarantined | ReleasedAction | RejectedAction | ResolvedAction | Reopened | ReasonsChanged

  datatype Item = Item(status: Status, reasons: seq<string>)

  datatype Transition = Transition(action: Action, from: Option<Status>, to: Status, reasons: seq<string>, actor: string)

  const SYSTEM := "system"

  /** `route`: the consequence of a verdict; None means nothing needs to happen. */
  function Route(verdict: Verdict, errorRules: seq<string>, current: Option<Item>): Option<Transition> {
    var reasons := SortedSet(errorRules);
    if current.None? then
      if verdict != Invalid then None else Some(Transition(Quarantined, None, Open, reasons, SYSTEM))
    else
      var status := current.value.status;
      var previous := SortedSet(current.value.reasons);
      if status == Rejected then None
      else if verdict != Invalid then
        if status == Open || status == Released then Some(Transition(ResolvedAction, Some(status), Resolved, [], SYSTEM))
        else None
      else if status == Released then
        if reasons == previous then None else Some(Transition(Reopened, Some(status), Open, reasons, SYSTEM))
      else if status == Resolved then Some(Transition(Quarantined, Some(status), Open, reasons, SYSTEM))
      else if reasons != previous then Some(Transition(ReasonsChanged, Some(status), Open, reasons, SYSTEM))
      else None
  }

  /** What a person may ask for. */
  datatype ReviewAction = Release | Reject | Reopen

  /** `review`: a human decision; None stands for the error an impossible one raises. */
  function Review(action: ReviewAction, current: Item, actor: string): Option<Transition> {
    var reasons := SortedSet(current.reasons);
    match action
    case Reopen =>
      if current.status == Open then None else Some(Transition(Reopened, Some(current.status), Open, reasons, actor))
    case Release =>
      if current.status == Resolved || current.status == Released then None
      else Some(Transition(ReleasedAction, Some(current.status), Released, reasons, actor))
    case Reject =>
      if current.status == Resolved || current.status == Rejected then None
      else Some(Transition(RejectedAction, Some(current.status), Rejected, reasons, actor))
  }

  // ---- one record's item and its history -------------------------------------------------

  /** The latest verdict, the standing item, and every event, oldest first. */
  datatype Case = Case(verdict: Option<Verdict>, item: Option<Item>, events: seq<Transition>)

  /** A verdict arrives from validation, or a person decides. */
  datatype Event = Validated(verdict: Verdict, errorRules: seq<string>) | Reviewed(action: ReviewAction, actor: string)

  /** `_APPLY_TRANSITION`: item and event in one statement; the reasons are replaced. */
  function ApplyTransition(c: Case, t: Transition): Case {
    c.(item := Some(Item(t.to, t.reasons)), events := c.events + [t])
  }

  /** `record_review`: status and event; the item keeps its reasons. */
  function RecordReview(c: Case, t: Transition): Case
    requires c.item.Some?
  {
    c.(item := Some(c.item.value.(status := t.to)), events := c.events + [t])
  }

  function Step(c: Case, e: Event): Case {
    match e
    case Validated(verdict, errorRules) =>
      var judged := c.(verdict := Some(verdict));
      (match Route(verdict, errorRules, c.item) case None => judged case Some(t) => ApplyTransition(judged, t))
    case Reviewed(action, actor) =>
      if c.item.None? then c
      else match Review(action, c.item.value, actor) case None => c case Some(t) => RecordReview(c, t)
  }

  const NewCase := Case(None, None, [])

  function Run(c: Case, es: seq<Event>): Case {
    if es == [] then c else Step(Run(c, es[..|es| - 1]), es[|es| - 1])
  }

  /** The view resolution reads: not rejected, and either passing or released by a person. */
  predicate Resolvable(c: Case) {
    && c.verdict.Some?
    && (c.item.None? || c.item.value.status != Rejected)
    && (c.verdict.value != Invalid || (c.item.Some? && c.item.value.status == Released))
  }

  // ---- what every step keeps ---------------------------------------------------------------

  /** The log is a path: each event starts where the one before it ended, and the first starts nowhere. */
  ghost predicate Chained(events: seq<Transition>) {
    && (events != [] ==> events[0].from == None)
    && (forall i :: 0 < i < |events| ==> events[i].from == Some(events[i - 1].to))
  }

  /** Only a person releases or rejects, and only a person takes a record out of rejection. */
  ghost predicate HumanOnly(events: seq<Transition>, humans: set<string>) {
    forall i :: 0 <= i < |events| ==>
      (events[i].to in {Released, Rejected} || events[i].from == Some(Rejected)) ==>
      events[i].actor in humans && events[i].action in {ReleasedAction, RejectedAction, Reopened}
  }

  ghost predicate Inv(c: Case) {
    && Chained(c.events)
    && (c.item.None? <==> c.events == [])
    && (c.item.Some? ==> c.item.value.status == c.events[|c.events| - 1].to && c.item.value.reasons == SortedSet(c.item.value.reasons))
    && (c.verdict.None? ==> c.item.None?)
    && (c.item.None? && c.verdict.Some? ==> c.verdict.value != Invalid)
    && (c.item.Some? && c.item.value.status == Resolved ==> c.verdict.Some? && c.verdict.value != Invalid)
  }

  lemma ChainGrows(events: seq<Transition>, t: Transition)
    requires Chained(events) && t.from == if events == [] then None else Some(events[|events| - 1].to)
    ensures Chained(events + [t])
  {
  }

  lemma StepKeeps(c: Case, e: Event)
    requires Inv(c)
    ensures Inv(Step(c, e)) && c.events <= Step(c, e).events
  {
    assert SortedSet([]) == [];
    hide Chained, SortedSet;
    var d := Step(c, e);
    if |d.events| > |c.events| {
      assert d.events == c.events + [d.events[|c.events|]];
      ChainGrows(c.events, d.events[|c.events|]);
    }
    if c.item.Some? { SortedSetIdempotent(c.item.value.reasons); }
    if e.Validated? { SortedSetIdempotent(e.errorRules); }
  }

  function Actors(es: seq<Event>): set<string> {
    set e | e in es && e.Reviewed? :: e.actor
  }

  lemma {:induction false} RunKeeps(es: seq<Event>)
    ensures Inv(Run(NewCase, es))
  {
    if es != [] {
      RunKeeps(es[..|es| - 1]);
      StepKeeps(Run(NewCase, es[..|es| - 1]), es[|es| - 1]);
    }
  }

  /**
   * Over any sequence of verdicts and reviews the item's status is where its log ends, the log is a path
   * without gaps, and nobody but a person who reviewed this record ever released it, rejected it or undid a rejection.
   */
  lemma {:induction false} LogTellsTheStatus(es: seq<Event>)
    ensures var c := Run(NewCase, es);
      && Chained(c.events)
      && (c.item.Some? <==> c.events != [])
      && (c.item.Some? ==> c.item.value.status == c.events[|c.events| - 1].to)
      && HumanOnly(c.events, Actors(es))
  {
    RunKeeps(es);
    if es != [] {
      var n := |es| - 1;
      LogTellsTheStatus(es[..n]);
      var before, after := Run(NewCase, es[..n]), Run(NewCase, es);
      assert Actors(es[..n]) <= Actors(es) by { assert forall e :: e in es[..n] ==> e in es; }
      assert es[n] in es;
      StepActor(before, es[n]);
      forall i | 0 <= i < |after.events|
        && (after.events[i].to in {Released, Rejected} || after.events[i].from == Some(Rejected))
        ensures after.events[i].actor in Actors(es) && after.events[i].action in {ReleasedAction, RejectedAction, Reopened}
      {
        if i < |before.events| { assert after.events[i] == before.events[i]; }
      }
    }
  }

  lemma StepActor(c: Case, e: Event)
    ensures var d := Step(c, e);
      && |c.events| <= |d.events| <= |c.events| + 1 && d.events[..|c.events|] == c.events
      && (|d.events| > |c.events| ==>
            var t := d.events[|c.events|];
            (t.to in {Released, Rejected} || t.from == Some(Rejected)) ==>
              e.Reviewed? && t.actor == e.actor && t.action in {ReleasedAction, RejectedAction, Reopened})
  {
  }

  /**
   * Right after an invalid verdict the record is held: open with exactly these reasons, or rejected, or
   * released by somebody who had these very reasons in front of them.
   */
  lemma InvalidVerdictIsHeld(es: seq<Event>, errorRules: seq<string>)
    ensures var c := Step(Run(NewCase, es), Validated(Invalid, errorRules));
      && c.item.Some?
      && (c.item.value.status == Rejected
          || (c.item.value.status in {Open, Released} && c.item.value.reasons == SortedSet(errorRules)))
  {
    RunKeeps(es);
    var c := Run(NewCase, es);
    if c.item.Some? { SortedSetIdempotent(c.item.value.reasons); }
  }

  /** The same verdict again changes nothing and logs nothing, whatever came before. */
  lemma SameVerdictTwiceIsSilent(c: Case, verdict: Verdict, errorRules: seq<string>)
    ensures var once := Step(c, Validated(verdict, errorRules));
      Step(once, Validated(verdict, errorRules)) == once
  {
    SortedSetIdempotent(errorRules);
  }

  /**
   * What a verdict does to a standing item, whatever it is: a rejection stands; a pass resolves everything
   * else; a failure keeps a release exactly when its reasons are the ones that were released, and
   * otherwise leaves the item open with its own reasons.
   */
  lemma VerdictDecides(c: Case, verdict: Verdict, errorRules: seq<string>)
    requires Inv(c) && c.item.Some?
    ensures var was, now := c.item.value, Step(c, Validated(verdict, errorRules)).item;
      && now.Some?
      && (now.value.status == Rejected <==> was.status == Rejected)
      && (now.value.status == Resolved <==> was.status != Rejected && verdict != Invalid)
      && (now.value.status == Released <==> was.status == Released && verdict == Invalid && SortedSet(errorRules) == was.reasons)
      && (now.value.status == Open ==> now.value.reasons == SortedSet(errorRules))
  {
    SortedSetIdempotent(c.item.value.reasons);
  }

  /** The log gains an event exactly when the item changes, so a silent change and an empty event are both impossible. */
  lemma EventIffChange(c: Case, e: Event)
    requires Inv(c)
    ensures var d := Step(c, e);
      && (d.events != c.events <==> d.item != c.item)
      && (d.item != c.item ==>
            |d.events| == |c.events| + 1 && d.item.Some? && d.events[|c.events|].to == d.item.value.status
            && d.events[|c.events|].reasons == d.item.value.reasons)
  {
    if c.item.Some? { SortedSetIdempotent(c.item.value.reasons); }
    if e.Validated? { SortedSetIdempotent(e.errorRules); }
  }

  // ---- what a person's decision does, and what a verdict is logged as ----------------------------------------

  /** The item moves, and the log says who moved it, by what, from where, and on which reasons; nothing else changes. */
  ghost predicate Moves(c: Case, d: Case, action: Action, to: Status, reasons: seq<string>, actor: string) {
    && c.item.Some?
    && d == c.(item := Some(Item(to, reasons)),
               events := c.events + [Transition(action, Some(c.item.value.status), to, reasons, actor)])
  }

  /**
   * A release needs an item that is open or rejected and makes the record resolvable; a rejection needs one
   * that is open or released and makes it not; a reopening needs one that is not open and leaves it so only
   * if its verdict lets it. Each keeps the reasons, and what cannot be done, or has no item, changes nothing.
   */
  lemma ReviewDoes(c: Case, action: ReviewAction, actor: string)
    requires Inv(c)
    ensures var d := Step(c, Reviewed(action, actor));
      && (c.item.None? ==> d == c)
      && (c.item.Some? ==>
            var status, reasons := c.item.value.status, c.item.value.reasons;
            match action
            case Release =>
              if status == Open || status == Rejected
              then Moves(c, d, ReleasedAction, Released, reasons, actor) && (c.verdict.Some? ==> Resolvable(d))
              else d == c
            case Reject =>
              if status == Open || status == Released then Moves(c, d, RejectedAction, Rejected, reasons, actor) && !Resolvable(d)
              else d == c
            case Reopen =>
              if status != Open
              then Moves(c, d, Reopened, Open, reasons, actor) && (Resolvable(d) <==> c.verdict.Some? && c.verdict != Some(Invalid))
              else d == c)
  {
    hide SortedSet;
  }

  /** A verdict is always recorded; what it changes in the item is logged as the system's, under its own name. */
  lemma VerdictIsLogged(c: Case, verdict: Verdict, errorRules: seq<string>)
    requires Inv(c)
    ensures var d, judged := Step(c, Validated(verdict, errorRules)), c.(verdict := Some(verdict));
      var reasons := SortedSet(errorRules);
      if c.item.None? then
        if verdict == Invalid
        then d == judged.(item := Some(Item(Open, reasons)), events := c.events + [Transition(Quarantined, None, Open, reasons, "system")])
        else d == judged
      else
        match c.item.value.status
        case Rejected => d == judged
        case Resolved => if verdict == Invalid then Moves(judged, d, Quarantined, Open, reasons, "system") else d == judged
        case Open =>
          if verdict != Invalid then Moves(judged, d, ResolvedAction, Resolved, [], "system")
          else if reasons != c.item.value.reasons then Moves(judged, d, ReasonsChanged, Open, reasons, "system")
          else d == judged
        case Released =>
          if verdict != Invalid then Moves(judged, d, ResolvedAction, Resolved, [], "system")
          else if reasons != c.item.value.reasons then Moves(judged, d, Reopened, Open, reasons, "system")
          else d == judged
  {
    hide SortedSet;
  }

  // ---- who is visible to resolution ----------------------------------------------------------

  /**
   * In every reachable state an invalid record is visible exactly when a person has released it, a rejected
   * one never is, and an open one is invisible exactly when its latest verdict is invalid.
   */
  lemma VisibleIff(es: seq<Event>)
    ensures var c := Run(NewCase, es);
      && (c.verdict == Some(Invalid) ==> (Resolvable(c) <==> c.item.Some? && c.item.value.status == Released))
      && (c.item.Some? && c.item.value.status == Rejected ==> !Resolvable(c))
      && (c.item.Some? && c.item.value.status == Open ==> (Resolvable(c) <==> c.verdict != Some(Invalid)))
      && (c.item.None? && c.verdict.Some? ==> Resolvable(c))
  {
    RunKeeps(es);
  }

  /**
   * So an open item does not keep a record out by itself: a record that failed, then passed, then was
   * reopened by somebody who disagreed stands open in quarantine and is resolvable all the same.
   */
  lemma ReopenedRecordIsStillVisible(rule: string, person: string)
    ensures var c := Run(NewCase, [Validated(Invalid, [rule]), Validated(Valid, []), Reviewed(Reopen, person)]);
      c.item.Some? && c.item.value.status == Open && Resolvable(c)
  {
    var es := [Validated(Invalid, [rule]), Validated(Valid, []), Reviewed(Reopen, person)];
    assert es[..2] == [Validated(Invalid, [rule]), Validated(Valid, [])];
    assert es[..2][..1] == [Validated(Invalid, [rule])];
    assert es[..2][..1][..0] == [];
    var one := Step(NewCase, es[0]);
    assert Run(NewCase, es[..2][..1]) == one;
    var two := Step(one, es[1]);
    assert Run(NewCase, es[..2]) == two;
    assert two.item == Some(Item(Resolved, []));
  }

  /** Only a person's reopening can leave an open item on a record that passes. */
  lemma OpenWhilePassingWasReopened(es: seq<Event>)
    ensures var c := Run(NewCase, es);
      c.item.Some? && c.item.value.status == Open && c.verdict.Some? && c.verdict.value != Invalid ==>
        exists i :: 0 <= i < |c.events| && c.events[i].action == Reopened && c.events[i].actor in Actors(es)
  {
    if es != [] {
      var n := |es| - 1;
      OpenWhilePassingWasReopened(es[..n]);
      RunKeeps(es[..n]);
      var before, after := Run(NewCase, es[..n]), Run(NewCase, es);
      assert forall e :: e in es[..n] ==> e in es;
      assert Actors(es[..n]) <= Actors(es);
      assert es[n] in es;
      if after.item.Some? && after.item.value.status == Open && after.verdict.Some? && after.verdict.value != Invalid {
        if es[n].Reviewed? && es[n].action == Reopen && after.events != before.events {
          assert after.events[|before.events|].action == Reopened;
        } else if exists i :: 0 <= i < |before.events| && before.events[i].action == Reopened && before.events[i].actor in Actors(es[..n]) {
          var i :| 0 <= i < |before.events| && before.events[i].action == Reopened && before.events[i].actor in Actors(es[..n]);
          assert after.events[i] == before.events[i];
        }
      }
    }
  }

  // ---- the tables ------------------------------------------------------------------------------

  class QuarantineTables {
    var verdicts: map<nat, Verdict>
    var items: map<nat, Item>
    var events: map<nat, seq<Transition>>

    function CaseOf(record: nat): Case
      reads this
    {
      Case(if record in verdicts then Some(verdicts[record]) else None,
           if record in items then Some(items[record]) else None,
           if record in events then events[record] else [])
    }

    constructor ()
      ensures forall r :: CaseOf(r) == NewCase
    {
      verdicts, items, events := map[], map[], map[];
    }

    /** Validation's own transaction: verdict, item and event land together. */
    method Validate(record: nat, verdict: Verdict, errorRules: seq<string>)
      modifies this
      ensures CaseOf(record) == Step(old(CaseOf(record)), Validated(verdict, errorRules))
      ensures forall r :: r != record ==> CaseOf(r) == old(CaseOf(r))
    {
      var transition := Route(verdict, errorRules, if record in items then Some(items[record]) else None);
      verdicts := verdicts[record := verdict];
      if transition.Some? {
        var t := transition.value;
        items := items[record := Item(t.to, t.reasons)];
        events := events[record := (if record in events then events[record] else []) + [t]];
      }
    }

    /** A review command; false is the error an unknown or impossible one is refused with. */
    method Decide(record: nat, action: ReviewAction, actor: string) returns (done: bool)
      modifies this
      ensures CaseOf(record) == Step(old(CaseOf(record)), Reviewed(action, actor))
      ensures forall r :: r != record ==> CaseOf(r) == old(CaseOf(r))
      ensures done ==> record in old(items)
      ensures record in old(items) ==>
        (done <==> match action
                   case Release => old(items)[record].status == Open || old(items)[record].status == Rejected
                   case Reject => old(items)[record].status == Open || old(items)[record].status == Released
                   case Reopen => old(items)[record].status != Open)
      ensures verdicts == old(verdicts)
      ensures !done ==> items == old(items) && events == old(events)
      ensures done ==>
        var to := match action case Release => Released case Reject => Rejected case Reopen => Open;
        var log := match action case Release => ReleasedAction case Reject => RejectedAction case Reopen => Reopened;
        var was := old(items)[record];
        && items == old(items)[record := Item(to, was.reasons)]
        && events == old(events)[record := old(CaseOf(record)).events
                                           + [Transition(log, Some(was.status), to, SortedSet(was.reasons), actor)]]
    {
      if record !in items { return false; }
      var decided := Review(action, items[record], actor);
      if decided.None? { return false; }
      items := items[record := items[record].(status := decided.value.to)];
      events := events[record := (if record in events then events[record] else []) + [decided.value]];
      return true;
    }
  }
}

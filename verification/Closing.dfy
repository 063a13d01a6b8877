/** Closing a resolved dispute (src/mediation/guide.rs): thanks to the parties
    who resolved it, a final report to the solvers, and one `finished` record,
    however the resolution hook, the ticks and restarts interleave. */
module Closing {
  import opened Domain
  import opened Sessions

  datatype Outcome = WasHandedOff(reason: Reason) | WasSuperseded | SelfResolved

  /** A handoff comes first; a status set by a solver means a human took the
      dispute. */
  function OutcomeOf(row: Row, byParties: bool): Outcome {
    if row.handoffReason.Some? then WasHandedOff(row.handoffReason.value)
    else if row.state.Superseded? || !byParties then WasSuperseded
    else SelfResolved
  }

  datatype PerParty = PerParty(buyer: nat, seller: nat)
  {
    function Of(p: Party): nat {
      if p == Buyer then buyer else seller
    }

    function Plus(p: Party): PerParty {
      if p == Buyer then this.(buyer := buyer + 1) else this.(seller := seller + 1)
    }
  }

  /** What a closing still has to do, one atomic step each. */
  datatype Task =
    | Load
    | Thank(party: Party)
    | SendThanks(party: Party)
    | StoreThanks(party: Party)
    | Report
    | Finish

  /** One dispute's closing. `reports` and `finished` count the events,
      `stored` the `resolved_thanks` rows; `sent` counts what relays accepted
      and `lost` the rows of those that were never stored. `complete` and
      `outcome` belong to the closing under way; `finishedAs` is what the
      recorded one read. */
  datatype Desk = Desk(row: Row, stored: PerParty, sent: PerParty, lost: PerParty, reports: nat, finished: nat,
                       finishedAs: Option<Outcome>, closing: seq<Task>, complete: bool, outcome: Outcome)

  datatype RowMove = Handed(reason: Reason) | SetTo(state: State) | Guided

  /** The hook and the tick both begin a closing; the lock lets one run. A
      restart drops the one under way. `reached` solvers got the report and
      are recorded. */
  datatype Move = Begin | Go(ok: bool, reached: nat) | Restart | Moves(row: RowMove, now: int)

  function MovedRow(row: Row, m: RowMove, now: int): Row {
    match m
    case Handed(reason) => HandOffRow(row, reason, now)
    case SetTo(state) => SetStateRow(row, state, now)
    case Guided => StartGuidingRow(row, now)
  }

  function Plan(outcome: Outcome, reported: bool): seq<Task> {
    (if outcome.SelfResolved? then [Thank(Buyer), Thank(Seller)] else []) + (if reported then [] else [Report]) + [Finish]
  }

  function RunTask(d: Desk, byParties: bool, task: Task, rest: seq<Task>, ok: bool, reached: nat): Desk {
    match task
    case Load =>
      if d.finished > 0 then d.(closing := [])
      else
        var outcome := OutcomeOf(d.row, byParties);
        d.(closing := Plan(outcome, d.reports > 0), complete := true, outcome := outcome)
    case Thank(p) => d.(closing := if d.stored.Of(p) > 0 then rest else [SendThanks(p)] + rest)
    case SendThanks(p) =>
      if d.row.state.Closed? && ok then d.(closing := [StoreThanks(p)] + rest, sent := d.sent.Plus(p))
      else d.(closing := rest, complete := false)
    case StoreThanks(p) =>
      if ok then d.(closing := rest, stored := d.stored.Plus(p))
      else d.(closing := rest, complete := false, lost := d.lost.Plus(p))
    case Report =>
      d.(closing := if ok then rest else [], reports := d.reports + reached, complete := d.complete && reached > 0)
    case Finish =>
      if d.complete then d.(closing := rest, finished := d.finished + 1, finishedAs := Some(d.outcome))
      else d.(closing := rest)
  }

  /** A restart loses the row of a message a relay just accepted. */
  function Dropped(d: Desk): Desk {
    var stopped := d.(closing := []);
    if d.closing != [] && d.closing[0].StoreThanks? then stopped.(lost := d.lost.Plus(d.closing[0].party)) else stopped
  }

  function Step(d: Desk, byParties: bool, m: Move): Desk {
    match m
    case Begin => if d.closing == [] then d.(closing := [Load]) else d
    case Go(ok, reached) =>
      if d.closing == [] then d else RunTask(d, byParties, d.closing[0], d.closing[1..], ok, reached)
    case Restart => Dropped(d)
    case Moves(row, now) => d.(row := MovedRow(d.row, row, now))
  }

  function Initial(row: Row): Desk {
    Desk(row, PerParty(0, 0), PerParty(0, 0), PerParty(0, 0), 0, 0, None, [], false, WasSuperseded)
  }

  function Exec(d: Desk, byParties: bool, moves: seq<Move>): Desk {
    if moves == [] then d else Step(Exec(d, byParties, moves[..|moves| - 1]), byParties, moves[|moves| - 1])
  }

  // ----- what holds in every run -----

  predicate Thanks(task: Task, p: Party) {
    (task.Thank? || task.SendThanks? || task.StoreThanks?) && task.party == p
  }

  /** The message was accepted and its row is still to come. */
  predicate Unstored(d: Desk, p: Party) {
    d.closing != [] && d.closing[0] == StoreThanks(p)
  }

  ghost predicate ShapeOk(closing: seq<Task>) {
    && (forall i :: 0 <= i < |closing| && closing[i].Load? ==> closing == [Load])
    && (forall i :: 1 <= i < |closing| ==> !closing[i].SendThanks? && !closing[i].StoreThanks?)
    && (forall i :: 0 <= i < |closing| && closing[i].Finish? ==> i == |closing| - 1)
    && (forall i, j, p :: 0 <= i < j < |closing| && Thanks(closing[i], p) ==> !Thanks(closing[j], p))
  }

  /** Everything the closing owes is done, or still ahead, or failed. */
  ghost predicate OwesNothing(d: Desk) {
    && (d.reports > 0 || !d.complete || Report in d.closing)
    && (d.outcome.SelfResolved? ==>
          forall p :: d.stored.Of(p) > 0 || !d.complete || exists task :: task in d.closing && Thanks(task, p))
  }

  ghost predicate DeskOk(d: Desk) {
    && ShapeOk(d.closing)
    && d.finished <= 1
    && (d.closing != [] && !d.closing[0].Load? ==> d.finished == 0 && OwesNothing(d))
    && (d.finished == 1 ==>
          && d.reports > 0 && d.finishedAs.Some?
          && (d.finishedAs.value.SelfResolved? ==> forall p :: d.stored.Of(p) > 0))
    && (forall p :: d.stored.Of(p) <= 1)
    && (forall p :: d.closing != [] && Thanks(d.closing[0], p) && !d.closing[0].Thank? ==> d.stored.Of(p) == 0)
    && (forall p :: d.sent.Of(p) == d.stored.Of(p) + d.lost.Of(p) + if Unstored(d, p) then 1 else 0)
  }

  lemma RestShape(closing: seq<Task>)
    requires ShapeOk(closing) && closing != []
    ensures ShapeOk(closing[1..])
    ensures forall x :: x in closing[1..] ==> !x.Load? && !x.SendThanks? && !x.StoreThanks?
    ensures forall x :: x in closing ==> x == closing[0] || x in closing[1..]
  {
    var rest := closing[1..];
    assert forall i :: 0 <= i < |rest| ==> rest[i] == closing[i + 1];
    assert forall x :: x in closing ==> x == closing[0] || x in rest;
  }

  lemma HeadShape(task: Task, rest: seq<Task>, closing: seq<Task>)
    requires closing != [] && ShapeOk(closing) && rest == closing[1..]
    requires exists p :: Thanks(closing[0], p) && Thanks(task, p)
    ensures ShapeOk([task] + rest)
  {
    RestShape(closing);
    var all := [task] + rest;
    assert forall i :: 1 <= i < |all| ==> all[i] == closing[i];
  }

  lemma PlanThanks(reported: bool, p: Party)
    ensures exists task :: task in Plan(SelfResolved, reported) && Thanks(task, p)
  {
    var plan := Plan(SelfResolved, reported);
    assert plan[0] == Thank(Buyer) && plan[1] == Thank(Seller);
    assert Thank(p) in plan && Thanks(Thank(p), p);
  }

  lemma PlanShape(outcome: Outcome, reported: bool)
    ensures var plan := Plan(outcome, reported);
            && ShapeOk(plan) && plan != []
            && !plan[0].Load? && !plan[0].SendThanks? && !plan[0].StoreThanks?
            && (!reported ==> Report in plan)
  {
    var plan := Plan(outcome, reported);
    if !reported {
      assert plan[|plan| - 2] == Report;
    }
  }

  lemma LoadKeepsDesk(d: Desk, byParties: bool, ok: bool, reached: nat)
    requires DeskOk(d) && d.closing == [Load]
    ensures DeskOk(RunTask(d, byParties, Load, [], ok, reached))
  {
    hide Plan, ShapeOk;
    NothingLeft();
    PlanShape(OutcomeOf(d.row, byParties), d.reports > 0);
    PlanThanks(d.reports > 0, Buyer);
    PlanThanks(d.reports > 0, Seller);
  }

  lemma NothingLeft()
    ensures ShapeOk([])
  {
  }

  lemma ThanksShape(d: Desk, byParties: bool, task: Task, rest: seq<Task>, ok: bool, reached: nat)
    requires ShapeOk(d.closing) && d.closing == [task] + rest && (task.Thank? || task.SendThanks? || task.StoreThanks?)
    ensures ShapeOk(RunTask(d, byParties, task, rest, ok, reached).closing)
    ensures rest != [] ==> !rest[0].Load? && !rest[0].SendThanks? && !rest[0].StoreThanks?
  {
    hide ShapeOk;
    assert d.closing[1..] == rest && d.closing[0] == task;
    RestShape(d.closing);
    assert Thanks(SendThanks(task.party), task.party) && Thanks(StoreThanks(task.party), task.party);
    HeadShape(SendThanks(task.party), rest, d.closing);
    HeadShape(StoreThanks(task.party), rest, d.closing);
  }

  lemma ThanksOwe(d: Desk, byParties: bool, task: Task, rest: seq<Task>, ok: bool, reached: nat)
    requires OwesNothing(d) && d.closing == [task] + rest && (task.Thank? || task.SendThanks? || task.StoreThanks?)
    ensures OwesNothing(RunTask(d, byParties, task, rest, ok, reached))
  {
    var after := RunTask(d, byParties, task, rest, ok, reached);
    forall q | after.outcome.SelfResolved? && after.complete && after.stored.Of(q) == 0
      ensures exists x :: x in after.closing && Thanks(x, q)
    {
      var x :| x in d.closing && Thanks(x, q);
      if x == task {
        assert after.closing[0] in after.closing;
      } else {
        assert x in after.closing;
      }
    }
  }

  lemma ThanksKeepDesk(d: Desk, byParties: bool, task: Task, rest: seq<Task>, ok: bool, reached: nat)
    requires DeskOk(d) && d.closing == [task] + rest && (task.Thank? || task.SendThanks? || task.StoreThanks?)
    ensures DeskOk(RunTask(d, byParties, task, rest, ok, reached))
  {
    hide ShapeOk, OwesNothing;
    assert d.closing[0] == task;
    assert Thanks(task, task.party);
    ThanksShape(d, byParties, task, rest, ok, reached);
    ThanksOwe(d, byParties, task, rest, ok, reached);
    var after := RunTask(d, byParties, task, rest, ok, reached);
    forall p: Party
      ensures after.stored.Of(p) <= 1
      ensures after.closing != [] && Thanks(after.closing[0], p) && !after.closing[0].Thank? ==> after.stored.Of(p) == 0
      ensures after.sent.Of(p) == after.stored.Of(p) + after.lost.Of(p) + if Unstored(after, p) then 1 else 0
    {
      assert d.sent.Of(p) == d.stored.Of(p) + d.lost.Of(p) + if Unstored(d, p) then 1 else 0;
    }
  }

  lemma LastTasksKeepDesk(d: Desk, byParties: bool, task: Task, rest: seq<Task>, ok: bool, reached: nat)
    requires DeskOk(d) && d.closing == [task] + rest && (task.Report? || task.Finish?)
    ensures DeskOk(RunTask(d, byParties, task, rest, ok, reached))
  {
    assert d.closing[1..] == rest && d.closing[0] == task;
    RestShape(d.closing);
    var after := RunTask(d, byParties, task, rest, ok, reached);
    if task.Finish? {
      assert rest == [];
    } else if ok {
      forall q | after.outcome.SelfResolved? && after.complete && after.stored.Of(q) == 0
        ensures exists x :: x in after.closing && Thanks(x, q)
      {
        var x :| x in d.closing && Thanks(x, q);
        assert x in after.closing;
      }
    }
  }

  lemma {:induction false} StepKeepsDesk(d: Desk, byParties: bool, m: Move)
    requires DeskOk(d)
    ensures DeskOk(Step(d, byParties, m))
  {
    if m.Go? && d.closing != [] {
      var task, rest := d.closing[0], d.closing[1..];
      assert d.closing == [task] + rest;
      match task
      case Load => LoadKeepsDesk(d, byParties, m.ok, m.reached);
      case Report => LastTasksKeepDesk(d, byParties, task, rest, m.ok, m.reached);
      case Finish => LastTasksKeepDesk(d, byParties, task, rest, m.ok, m.reached);
      case _ => ThanksKeepDesk(d, byParties, task, rest, m.ok, m.reached);
    }
  }

  lemma {:induction false} RunsKeepDesk(row: Row, byParties: bool, moves: seq<Move>)
    ensures DeskOk(Exec(Initial(row), byParties, moves))
  {
    if moves != [] {
      var before := moves[..|moves| - 1];
      RunsKeepDesk(row, byParties, before);
      StepKeepsDesk(Exec(Initial(row), byParties, before), byParties, moves[|moves| - 1]);
    }
  }

  /** In every run the closing is recorded at most once, and only when the
      report reached a solver and, for a dispute the parties resolved
      themselves, both were thanked. */
  lemma {:induction false} FinishedOnce(row: Row, byParties: bool, moves: seq<Move>)
    ensures var d := Exec(Initial(row), byParties, moves);
            && d.finished <= 1
            && (d.finished == 1 ==>
                  && d.reports > 0
                  && (d.finishedAs == Some(SelfResolved) ==> d.stored.buyer == 1 && d.stored.seller == 1))
  {
    RunsKeepDesk(row, byParties, moves);
    var d := Exec(Initial(row), byParties, moves);
    assert d.stored.buyer == d.stored.Of(Buyer) && d.stored.seller == d.stored.Of(Seller);
  }

  /** No party is thanked twice, except when a restart, or a failed write,
      came between a relay accepting the thanks and their row. */
  lemma {:induction false} ThankedOnce(row: Row, byParties: bool, moves: seq<Move>, p: Party)
    ensures var d := Exec(Initial(row), byParties, moves);
            d.stored.Of(p) <= 1 && d.sent.Of(p) <= 1 + d.lost.Of(p)
  {
    RunsKeepDesk(row, byParties, moves);
  }

  // ----- who is thanked, and what the record says -----

  /** How a dispute whose session is in this row ended: a handoff comes first;
      else the parties resolved it, unless a solver did or took the session
      over. */
  predicate EndedAs(row: Row, byParties: bool, outcome: Outcome) {
    match outcome
    case WasHandedOff(reason) => row.handoffReason == Some(reason)
    case SelfResolved => row.handoffReason == None && byParties && row.state != Superseded
    case WasSuperseded => row.handoffReason == None && (!byParties || row.state == Superseded)
  }

  /** What a closing plans: nothing once it was recorded; else thanks to both
      parties exactly when they resolved it, the report unless some solver has
      it, and the record last. */
  lemma ClosingPlans(d: Desk, byParties: bool, ok: bool, reached: nat)
    requires d.closing == [Load]
    ensures var plan := Step(d, byParties, Go(ok, reached)).closing;
            if d.finished > 0 then plan == []
            else
              && plan != [] && plan[|plan| - 1] == Finish
              && (forall p :: Thank(p) in plan <==> EndedAs(d.row, byParties, SelfResolved))
              && (Report in plan <==> d.reports == 0)
              && EndedAs(d.row, byParties, Step(d, byParties, Go(ok, reached)).outcome)
  {
    assert [Load][1..] == [];
    if OutcomeOf(d.row, byParties).SelfResolved? && d.finished == 0 {
      var plan := Step(d, byParties, Go(ok, reached)).closing;
      assert plan[0] == Thank(Buyer) && plan[1] == Thank(Seller);
      forall p: Party
        ensures Thank(p) in plan
      {
        assert p == Buyer || p == Seller;
      }
    }
  }

  /** The session ended before its closing began, as it has once its dispute
      is resolved: what the closing read stays so. */
  ghost predicate ClosesAs(row: Row, byParties: bool, d: Desk) {
    && d.row == row
    && (d.closing != [] && !d.closing[0].Load? ==> EndedAs(row, byParties, d.outcome))
    && (forall task, p :: task in d.closing && Thanks(task, p) ==> EndedAs(row, byParties, SelfResolved))
    && (forall p :: d.sent.Of(p) > 0 ==> EndedAs(row, byParties, SelfResolved) && row.state.Closed?)
    && (d.finishedAs.Some? ==> EndedAs(row, byParties, d.finishedAs.value))
  }

  lemma EndedRowsStay(row: Row, m: RowMove, now: int)
    requires row.state.Terminal()
    ensures MovedRow(row, m, now) == row
  {
  }

  /** What a task other than the first leaves as it is. */
  lemma GoingKeeps(d: Desk, byParties: bool, task: Task, rest: seq<Task>, ok: bool, reached: nat)
    requires d.closing == [task] + rest && !task.Load?
    ensures var after := RunTask(d, byParties, task, rest, ok, reached);
            && after.row == d.row && after.outcome == d.outcome
            && (forall x :: x in after.closing ==> x in rest || (task.Thank? && x == SendThanks(task.party))
                                                   || (task.SendThanks? && x == StoreThanks(task.party)))
            && (forall p :: after.sent.Of(p) == d.sent.Of(p) || (task == SendThanks(p) && d.row.state.Closed?))
            && (after.finishedAs == d.finishedAs || after.finishedAs == Some(d.outcome))
  {
  }

  lemma GoingClosesAs(row: Row, byParties: bool, d: Desk, ok: bool, reached: nat)
    requires ClosesAs(row, byParties, d) && DeskOk(d) && d.closing != []
    ensures ClosesAs(row, byParties, Step(d, byParties, Go(ok, reached)))
  {
    hide DeskOk, EndedAs, RunTask, ShapeOk;
    var task, rest := d.closing[0], d.closing[1..];
    assert d.closing == [task] + rest;
    DeskShape(d);
    RestShape(d.closing);
    if task.Load? {
      LoadingClosesAs(row, byParties, d, ok, reached);
    } else {
      GoingKeeps(d, byParties, task, rest, ok, reached);
      if task.Thank? || task.SendThanks? {
        assert task in d.closing && Thanks(task, task.party);
      }
    }
  }

  lemma LoadingClosesAs(row: Row, byParties: bool, d: Desk, ok: bool, reached: nat)
    requires ClosesAs(row, byParties, d) && ShapeOk(d.closing) && d.closing != [] && d.closing[0].Load?
    ensures ClosesAs(row, byParties, Step(d, byParties, Go(ok, reached)))
  {
    hide EndedAs;
    assert d.closing == [Load];
    ClosingPlans(d, byParties, ok, reached);
    PlannedThanks(d, byParties, ok, reached);
  }

  lemma DeskShape(d: Desk)
    requires DeskOk(d)
    ensures ShapeOk(d.closing)
  {
  }

  lemma PlannedThanks(d: Desk, byParties: bool, ok: bool, reached: nat)
    requires d.closing == [Load]
    ensures var plan := Step(d, byParties, Go(ok, reached)).closing;
            forall task, p :: task in plan && Thanks(task, p) ==> Thank(p) in plan && d.finished == 0
  {
    assert [Load][1..] == [];
  }

  lemma {:induction false} RunsCloseAs(row: Row, byParties: bool, moves: seq<Move>)
    requires row.state.Terminal()
    ensures ClosesAs(row, byParties, Exec(Initial(row), byParties, moves))
  {
    if moves != [] {
      var before := moves[..|moves| - 1];
      RunsCloseAs(row, byParties, before);
      RunsKeepDesk(row, byParties, before);
      var d := Exec(Initial(row), byParties, before);
      match moves[|moves| - 1]
      case Go(ok, reached) =>
        if d.closing != [] {
          GoingClosesAs(row, byParties, d, ok, reached);
        }
      case Moves(m, now) => EndedRowsStay(row, m, now);
      case _ =>
    }
  }

  /** In every closing of an ended session, whatever restarts and fails: the
      recorded outcome is how the dispute ended, and a party is thanked only
      when the parties resolved it themselves and nobody had taken over. */
  lemma OnlyTheirOwnResolutionIsThanked(row: Row, byParties: bool, moves: seq<Move>, p: Party)
    requires row.state.Terminal()
    ensures var d := Exec(Initial(row), byParties, moves);
            && (d.finishedAs.Some? ==> EndedAs(row, byParties, d.finishedAs.value))
            && (d.sent.Of(p) > 0 ==> byParties && row.state == Closed && row.handoffReason == None)
  {
    hide Exec;
    RunsCloseAs(row, byParties, moves);
  }

  /** The exception is reachable: the row is lost to a restart, and the next
      closing thanks the buyer again. */
  lemma {:induction false} ARestartThanksTwice(row: Row)
    requires row.state.Closed? && row.handoffReason.None?
    ensures var go := Go(true, 1);
            Exec(Initial(row), true, [Begin, go, go, go] + [Restart, Begin, go, go, go, go]).sent.buyer == 2
  {
    var d := AcceptedThanks(row);
    AgainFrom(Initial(row), [Begin, Go(true, 1), Go(true, 1), Go(true, 1)], d, d.closing[1..]);
  }

  lemma {:induction false} AcceptedThanks(row: Row) returns (d: Desk)
    requires row.state.Closed? && row.handoffReason.None?
    ensures var go := Go(true, 1); d == Exec(Initial(row), true, [Begin, go, go, go])
    ensures d.closing != [] && d.closing == [StoreThanks(Buyer)] + d.closing[1..]
    ensures d.stored == PerParty(0, 0) && d.sent == PerParty(1, 0) && d.reports == 0 && d.finished == 0 && d.row == row
  {
    var go := Go(true, 1);
    var d0 := Initial(row);
    var rest := [Thank(Seller), Report, Finish];
    var d1 := d0.(closing := [Thank(Buyer)] + rest, complete := true, outcome := SelfResolved);
    assert Plan(SelfResolved, false) == [Thank(Buyer)] + rest && ([Thank(Buyer)] + rest)[1..] == rest;
    assert ([SendThanks(Buyer)] + rest)[1..] == rest;
    assert Exec(d0, true, []) == d0;
    ExecStep(d0, true, [], Begin);
    ExecStep(d0, true, [Begin], go);
    ExecStep(d0, true, [Begin, go], go);
    ExecStep(d0, true, [Begin, go, go], go);
    assert [] + [Begin] == [Begin] && [Begin] + [go] == [Begin, go] && [Begin, go] + [go] == [Begin, go, go];
    assert [Begin, go, go] + [go] == [Begin, go, go, go];
    assert Exec(d0, true, [Begin, go]) == d1;
    d := d1.(closing := [StoreThanks(Buyer)] + rest, sent := PerParty(1, 0));
    assert d.closing[1..] == rest;
  }

  lemma {:induction false} ExecStep(d: Desk, byParties: bool, moves: seq<Move>, m: Move)
    ensures Exec(d, byParties, moves + [m]) == Step(Exec(d, byParties, moves), byParties, m)
  {
    assert (moves + [m])[..|moves|] == moves;
  }

  /** A start after the row was lost: the closing begins again. */
  lemma {:induction false} AgainPlans(d0: Desk, moves: seq<Move>, d: Desk, rest: seq<Task>)
    requires Exec(d0, true, moves) == d && d.closing == [StoreThanks(Buyer)] + rest
    requires d.stored == PerParty(0, 0) && d.sent == PerParty(1, 0) && d.reports == 0 && d.finished == 0
    requires d.row.state.Closed? && d.row.handoffReason.None?
    ensures var again := Exec(d0, true, moves + [Restart] + [Begin] + [Go(true, 1)]);
            && again.closing == [Thank(Buyer), Thank(Seller), Report, Finish]
            && again.sent == PerParty(1, 0) && again.stored == PerParty(0, 0) && again.row == d.row
  {
    hide Exec;
    var a := moves + [Restart];
    var b := a + [Begin];
    ExecStep(d0, true, moves, Restart);
    ExecStep(d0, true, a, Begin);
    ExecStep(d0, true, b, Go(true, 1));
    assert Plan(SelfResolved, false) == [Thank(Buyer), Thank(Seller), Report, Finish];
  }

  lemma {:induction false} AgainFrom(d0: Desk, moves: seq<Move>, d: Desk, rest: seq<Task>)
    requires Exec(d0, true, moves) == d && d.closing == [StoreThanks(Buyer)] + rest
    requires d.stored == PerParty(0, 0) && d.sent == PerParty(1, 0) && d.reports == 0 && d.finished == 0
    requires d.row.state.Closed? && d.row.handoffReason.None?
    ensures var go := Go(true, 1);
            Exec(d0, true, moves + [Restart, Begin, go, go, go, go]).sent.buyer == 2
  {
    hide Exec;
    var go := Go(true, 1);
    var e := moves + [Restart] + [Begin] + [go];
    var f := e + [go];
    var g := f + [go];
    AgainPlans(d0, moves, d, rest);
    ExecStep(d0, true, e, go);
    ExecStep(d0, true, f, go);
    ExecStep(d0, true, g, go);
    var next := [Thank(Seller), Report, Finish];
    assert [Thank(Buyer), Thank(Seller), Report, Finish] == [Thank(Buyer)] + next;
    assert ([Thank(Buyer)] + next)[1..] == next;
    assert ([SendThanks(Buyer)] + next)[1..] == next;
    assert Exec(d0, true, f).closing == [SendThanks(Buyer)] + next;
    assert Exec(d0, true, g).sent == PerParty(2, 0) && Exec(d0, true, g).closing == [StoreThanks(Buyer)] + next;
    assert g + [go] == moves + [Restart, Begin, go, go, go, go];
  }
}

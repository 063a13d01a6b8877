/** A party gets at most one reminder in the whole life of a session, and one
    more at most for each whose row was lost. */
module Reminders {
  import opened Domain
  import opened Policy
  import opened MessageLog
  import opened Views
  import opened EventLog
  import opened Sessions
  import opened Mediation
  import opened Effects
  import opened Protocol
  import opened Turns
  import opened Relays
  import opened Runs
  import Timers

  function ReminderTo(p: Party): Letter {
    (p, Reminder)
  }

  predicate ReadsClocks(op: Op) {
    op.ListSession? || op.OpenChat? || op.ReadClocks?
  }

  /** A tick reads the clocks before it plans anything. */
  ghost predicate TickOk(tick: seq<Op>) {
    && (forall i :: 1 <= i < |tick| ==> !ReadsClocks(tick[i]))
    && (tick != [] && ReadsClocks(tick[0]) ==> forall i :: 1 <= i < |tick| ==> tick[i].Retry?)
  }

  ghost predicate RemindersOk(s: Sys) {
    && TickOk(s.tick)
    && forall p :: Rows(s.log, ReminderTo(p)) + Coming(s.tick, ReminderTo(p)) <= 1
  }

  /** The clocks let the timers remind only who never was. */
  lemma OnlyUnremindedAreReminded(session: Row, log: seq<Message>, events: seq<Event>, now: int, c: Config, p: Party)
    ensures var timer := Timers.Check(ClocksRead(session, Listed(log), events, now), c.timeouts);
            && Coming(TimerOps(timer), ReminderTo(p)) <= 1
            && (Coming(TimerOps(timer), ReminderTo(p)) == 1 ==> Rows(log, ReminderTo(p)) == 0)
  {
    hide Listed, ClocksRead, Timers.Check, Reminders;
    var clocks := ClocksRead(session, Listed(log), events, now);
    var timer := Timers.Check(clocks, c.timeouts);
    if timer.Remind? {
      RemindedAreDue(clocks, c.timeouts);
      RemindersPlan(timer.parties, p);
      if p in timer.parties {
        DueIsUnreminded(session, log, events, now, c.timeouts, p);
      }
    } else {
      OthersRemindNobody(timer, p);
    }
  }

  lemma OthersRemindNobody(timer: Timers.Timer, p: Party)
    requires !timer.Remind?
    ensures Coming(TimerOps(timer), ReminderTo(p)) == 0
  {
    NothingComing(TimerOps(timer), ReminderTo(p));
  }

  lemma RemindedAreDue(clocks: Timers.Clocks, timeouts: Timers.Timeouts)
    requires Timers.Check(clocks, timeouts).Remind?
    ensures var parties := Timers.Check(clocks, timeouts).parties;
            && (parties == [Buyer] || parties == [Seller] || parties == [Buyer, Seller])
            && forall p :: p in parties ==> Timers.RemindDue(clocks, timeouts, p)
  {
    hide Timers.GraceDeadline, Timers.StallDeadline, Timers.SilenceDue, Timers.RemindDue;
  }

  lemma DueIsUnreminded(session: Row, log: seq<Message>, events: seq<Event>, now: int, timeouts: Timers.Timeouts, p: Party)
    requires Timers.RemindDue(ClocksRead(session, Listed(log), events, now), timeouts, p)
    ensures Rows(log, ReminderTo(p)) == 0
  {
    hide Listed, CurrentHold, GuidedAt;
    ListedElements(log);
    NoRows(log, ReminderTo(p));
  }

  lemma RemindersPlan(parties: seq<Party>, p: Party)
    requires parties == [Buyer] || parties == [Seller] || parties == [Buyer, Seller]
    ensures Coming(Reminders(parties), ReminderTo(p)) == if p in parties then 1 else 0
  {
    assert [Buyer, Seller][1..] == [Seller] && [Buyer][1..] == [] && [Seller][1..] == [];
    assert Reminders([]) == [];
    var op := (q: Party) => Send(q, Reminder, WhileMediating, Abort);
    assert Reminders([Seller]) == [op(Seller)] && Reminders([Buyer]) == [op(Buyer)];
    assert [op(Buyer)][1..] == [] && [op(Seller)][1..] == [];
    assert Reminders([Buyer, Seller]) == [op(Buyer)] + [op(Seller)];
    ComingAppend([op(Buyer)], [op(Seller)], ReminderTo(p));
  }

  // ----- one step of the tick -----

  lemma TickPlans(c: Config, s: Sys, op: Op, rest: seq<Op>, o: Oracle, p: Party)
    requires !IsShared(op) && TickOk([op] + rest)
    requires Rows(s.log, ReminderTo(p)) + Coming([op] + rest, ReminderTo(p)) <= 1
    ensures Rows(s.log, ReminderTo(p)) + Coming(RunTickOp(c, s, op, rest, o).1, ReminderTo(p)) <= 1
  {
    hide RunTickOp, Rows, Coming, TickOk;
    ComingAppend([op], rest, ReminderTo(p));
    OneComing(op, ReminderTo(p));
    if op.ReadClocks? {
      ReadingPlans(c, s, op, rest, o, p);
    } else {
      OthersPlanNothing(c, s, op, rest, o, p);
    }
  }

  lemma ReadingPlans(c: Config, s: Sys, op: Op, rest: seq<Op>, o: Oracle, p: Party)
    requires op.ReadClocks? && TickOk([op] + rest) && Rows(s.log, ReminderTo(p)) <= 1
    ensures Rows(s.log, ReminderTo(p)) + Coming(RunTickOp(c, s, op, rest, o).1, ReminderTo(p)) <= 1
  {
    hide ClocksRead, TimerOps, Timers.Check, Listed, Coming, Rows;
    assert ([op] + rest)[0] == op;
    assert forall i :: 0 <= i < |rest| ==> rest[i] == ([op] + rest)[i + 1];
    OnlyUnremindedAreReminded(op.session, s.log, s.events, s.now, c, p);
    NothingComing(rest, ReminderTo(p));
    ComingAppend(TimerOps(Timers.Check(ClocksRead(op.session, Listed(s.log), s.events, s.now), c.timeouts)), rest,
                 ReminderTo(p));
  }

  lemma OthersPlanNothing(c: Config, s: Sys, op: Op, rest: seq<Op>, o: Oracle, p: Party)
    requires !IsShared(op) && !op.ReadClocks?
    ensures Coming(RunTickOp(c, s, op, rest, o).1, ReminderTo(p)) <= Coming(rest, ReminderTo(p))
  {
    hide RetryOps, Coming;
    var left := RunTickOp(c, s, op, rest, o).1;
    match op
    case Retry(session) =>
      RetriesDoNotRemind(c, s, session, p);
      NothingComing(left, ReminderTo(p));
    case OpenChat(_) =>
      ComingAppend([left[0]], rest, ReminderTo(p));
      assert left == [left[0]] + rest;
      OneComing(left[0], ReminderTo(p));
    case ListSession => NothingComing(left, ReminderTo(p));
    case _ =>
  }

  lemma RetriesDoNotRemind(c: Config, s: Sys, session: Row, p: Party)
    ensures forall op :: op in RetryOps(c, s, session) ==> !Carries(op, ReminderTo(p)) && !ReadsClocks(op)
  {
    PendingBriefsAre(s.events, s.events);
  }

  // ----- the shape of a tick -----

  lemma SharedKeepsTick(s: Sys, op: Op, rest: seq<Op>, o: Oracle)
    requires IsShared(op) && TickOk([op] + rest)
    ensures TickOk(RunSharedOp(s, TheTick, op, rest, o).1)
  {
    var left := RunSharedOp(s, TheTick, op, rest, o).1;
    assert forall i :: 0 <= i < |rest| ==> rest[i] == ([op] + rest)[i + 1];
    forall x | x in left
      ensures !ReadsClocks(x) || x in rest
    {
      ToRetryKeeps(rest);
    }
    assert forall i :: 0 <= i < |rest| ==> !ReadsClocks(rest[i]);
    AllAct(left);
  }

  lemma AllAct(ops: seq<Op>)
    requires forall x :: x in ops ==> !ReadsClocks(x)
    ensures TickOk(ops)
  {
    assert forall i :: 0 <= i < |ops| ==> ops[i] in ops;
  }

  lemma TimersDoNotRead(timer: Timers.Timer)
    ensures forall x :: x in TimerOps(timer) ==> !ReadsClocks(x)
  {
    if timer.Remind? {
      RemindersAre(timer.parties);
    }
  }

  lemma TickKeepsTick(c: Config, s: Sys, op: Op, rest: seq<Op>, o: Oracle)
    requires !IsShared(op) && TickOk([op] + rest)
    ensures TickOk(RunTickOp(c, s, op, rest, o).1)
  {
    hide ClocksRead, RetryOps, TimerOps, Timers.Check, Listed;
    var left := RunTickOp(c, s, op, rest, o).1;
    assert ([op] + rest)[0] == op;
    assert forall i :: 0 <= i < |rest| ==> rest[i] == ([op] + rest)[i + 1];
    match op
    case ReadClocks(session) =>
      TimersDoNotRead(Timers.Check(ClocksRead(session, Listed(s.log), s.events, s.now), c.timeouts));
      AllAct(left);
    case Retry(session) =>
      RetriesDoNotRemind(c, s, session, Buyer);
      AllAct(left);
    case _ =>
  }

  lemma TickKeepsReminders(c: Config, s: Sys, o: Oracle)
    requires ProtocolOk(s) && RemindersOk(s) && s.tick != []
    ensures RemindersOk(Step(c, s, Run(TheTick, o)))
  {
    hide RunSharedOp, RunTickOp, RunTurnOp, RunOpeningOp, Apply, Logs, SentOwn, OpeningOk, StillOpening, RowOk, TurnMay;
    var op, rest := s.tick[0], s.tick[1..];
    var (e, left) := RunOp(c, s, TheTick, op, rest, o);
    var after := Step(c, s, Run(TheTick, o));
    assert s.tick == [op] + rest && op in s.tick;
    RunEffects(c, s, TheTick, op, rest, o);
    ApplyIs(s, e, o);
    forall p: Party
      ensures Rows(after.log, ReminderTo(p)) + Coming(left, ReminderTo(p)) <= 1
    {
      if e.StoreOut? {
        RowsAppend(s.log, after.log[|s.log|], ReminderTo(p));
      }
      if IsShared(op) {
        SharedComing(s, TheTick, op, rest, o, ReminderTo(p));
      } else {
        TickPlans(c, s, op, rest, o, p);
      }
    }
    if IsShared(op) {
      SharedKeepsTick(s, op, rest, o);
    } else {
      TickKeepsTick(c, s, op, rest, o);
    }
  }

  /** Neither the opening nor a turn ever sends a reminder: a language resend
      repeats the question instead. */
  lemma OthersDoNotRemind(s: Sys, a: Actor, op: Op)
    requires ProtocolOk(s) && op in OpsOf(s, a) && !a.TheTick?
    ensures op.StoreRow? ==> op.template != Reminder
  {
    hide Logs, SentOwn, StillOpening, RowOk, TickMay, OpenerSent;
  }

  lemma OthersKeepReminders(c: Config, s: Sys, a: Actor, o: Oracle)
    requires ProtocolOk(s) && RemindersOk(s) && !a.TheTick? && OpsOf(s, a) != []
    ensures RemindersOk(Step(c, s, Run(a, o)))
  {
    hide Step, RunOp, Apply, ProtocolOk, TickOk, Rows, Coming;
    var op, rest := OpsOf(s, a)[0], OpsOf(s, a)[1..];
    var e := RunOp(c, s, a, op, rest, o).0;
    assert op in OpsOf(s, a);
    RunIs(c, s, a, o);
    RunEffects(c, s, a, op, rest, o);
    OthersDoNotRemind(s, a, op);
    ApplyIs(s, e, o);
    forall p: Party
      ensures Rows(Apply(s, e, o).log, ReminderTo(p)) == Rows(s.log, ReminderTo(p))
    {
      RowsAfter(s, e, o, ReminderTo(p));
    }
  }

  lemma EnvironmentKeepsReminders(c: Config, s: Sys, m: Move)
    requires RemindersOk(s) && !m.Run?
    ensures RemindersOk(Step(c, s, m))
  {
    hide RunOp;
    match m
    case Receive(p, createdAt, gap) =>
      forall q: Party
        ensures Rows(Step(c, s, m).log, ReminderTo(q)) == Rows(s.log, ReminderTo(q))
      {
        RowsAppend(s.log, Message(LastId(s.log) + 1 + gap, In, p, None, createdAt), ReminderTo(q));
      }
    case StartTick => assert [ListSession][1..] == [];
    case _ =>
  }

  lemma {:induction false} RunsKeepReminders(c: Config, dispute: string, now: int, moves: seq<Move>)
    ensures RemindersOk(Exec(c, Initial(dispute, now), moves))
  {
    hide Step, ProtocolOk;
    if moves != [] {
      var before := moves[..|moves| - 1];
      var m := moves[|moves| - 1];
      var s := Exec(c, Initial(dispute, now), before);
      RunsKeepReminders(c, dispute, now, before);
      RunsAreOk(c, dispute, now, before);
      if !m.Run? {
        EnvironmentKeepsReminders(c, s, m);
      } else if OpsOf(s, m.actor) == [] {
        NothingToRun(c, s, m);
      } else if m.actor.TheTick? {
        TickKeepsReminders(c, s, m.oracle);
      } else {
        OthersKeepReminders(c, s, m.actor, m.oracle);
      }
    }
  }

  /** Only the tick reminds. */
  lemma RemindersOnTheWay(s: Sys, p: Party)
    requires ProtocolOk(s)
    ensures OnTheWay(s, ReminderTo(p)) <= Coming(s.tick, ReminderTo(p))
  {
    hide ProtocolOk, Unstored, Coming;
    UnstoredComes(s.tick, ReminderTo(p));
    if s.turn != [] {
      OthersDoNotRemind(s, TheTurn, s.turn[0]);
    }
    if s.opening != [] {
      OthersDoNotRemind(s, TheOpening, s.opening[0]);
    }
    NoReminderUnstored(s.turn, p);
    NoReminderUnstored(s.opening, p);
  }

  lemma NoReminderUnstored(ops: seq<Op>, p: Party)
    requires ops != [] ==> (ops[0].StoreRow? ==> ops[0].template != Reminder)
    ensures Unstored(ops)[ReminderTo(p)] == 0
  {
  }

  /** In every run, however questions, replies, language changes and restarts
      follow each other, at most one reminder to a party is stored, and the
      relays took one more at most for each reminder whose row was lost. */
  lemma {:induction false} AtMostOneReminder(c: Config, dispute: string, now: int, moves: seq<Move>, p: Party)
    ensures var s := Exec(c, Initial(dispute, now), moves);
            && Rows(s.log, ReminderTo(p)) <= 1
            && s.ledger.sent[ReminderTo(p)] <= 1 + s.ledger.lost[ReminderTo(p)]
  {
    hide Exec, Rows, Coming, ProtocolOk, TickOk;
    var s := Exec(c, Initial(dispute, now), moves);
    RunsKeepReminders(c, dispute, now, moves);
    RunsAreOk(c, dispute, now, moves);
    SentIsStoredOrLost(c, dispute, now, moves);
    RemindersOnTheWay(s, p);
  }

  lemma RestartLosesReminder(c: Config, s: Sys)
    requires s.row.state.Active? && s.turn == [] && s.opening == [] && s.log != [] && s.log[|s.log| - 1].direction.In?
    ensures Step(c, Reminding(s), Restart) ==
            Taken(s, Seller, Reminder).(
              tick := [], wake := true,
              ledger := Taken(s, Seller, Reminder).ledger.(lost := s.ledger.lost + multiset{(Seller, Reminder)},
                                                           forgotten := false))
  {
    hide HasRemedy, Step, Unstored;
    RestartIs(c, Reminding(s));
    NoRemedyLeft();
    ReminderUnstored(s.row);
    assert s.ledger.lost + multiset{} + multiset{} + multiset{(Seller, Reminder)}
        == s.ledger.lost + multiset{(Seller, Reminder)};
  }

  lemma ReminderUnstored(row: Row)
    ensures Unstored([StoreRow(Seller, Reminder, Abort), Retry(row)]) == multiset{(Seller, Reminder)}
    ensures Unstored([]) == multiset{}
  {
  }

  lemma NoRemedyLeft()
    ensures !HasRemedy([])
  {
  }

  /** The bound is met: a restart between a relay taking the reminder and its
      row being stored, and the next tick reminds the seller again. */
  lemma AReminderIsSentTwice(c: Config, dispute: string) returns (moves: seq<Move>)
    ensures var s := Exec(c, Initial(dispute, 100), moves);
            && s.ledger.sent[ReminderTo(Seller)] == 2
            && s.ledger.lost[ReminderTo(Seller)] == 1 && Rows(s.log, ReminderTo(Seller)) == 0
  {
    hide Exec, Step;
    var late := SellerIsLate(c, dispute);
    var s := Overdue(c, dispute);
    moves := late + TickUntilTaken() + [Restart] + TickUntilTaken();
    TickTakesReminder(c, s);
    OneStep(c, Reminding(s), Restart);
    RestartLosesReminder(c, s);
    var again := Step(c, Reminding(s), Restart);
    TickTakesReminder(c, again);
    ExecAppend(c, Initial(dispute, 100), late, TickUntilTaken());
    ExecAppend(c, Initial(dispute, 100), late + TickUntilTaken(), [Restart]);
    ExecAppend(c, Initial(dispute, 100), late + TickUntilTaken() + [Restart], TickUntilTaken());
    NoRows(Reminding(again).log, ReminderTo(Seller));
    assert OPENERS[ReminderTo(Seller)] == 0;
  }
}

/** How a session can still stall: runs that end asleep, with party messages
    that no turn judges and timers that never act, and sessions whose opening
    a restart cut short. */
module StallExceptions {
  import opened Domain
  import opened Next
  import opened Policy
  import opened MessageLog
  import opened Views
  import opened EventLog
  import opened Sessions
  import opened JudgeState
  import opened Mediation
  import opened Effects
  import opened Protocol
  import opened Stall
  import opened WakeUps
  import opened Runs
  import Timers

  /** What the timers of the session would do at `now`. */
  function Tick(c: Config, s: Sys, now: int): Timers.Timer {
    Timers.Check(ClocksRead(s.row, Listed(s.log), s.events, now), c.timeouts)
  }

  /** No turn runs or is due, and at no time do the timers act. */
  ghost predicate Asleep(c: Config, s: Sys) {
    s.row.state.Active? && s.turn == [] && !s.wake && forall now :: Tick(c, s, now).Nothing?
  }

  /** The timers of a session that owes nothing and does not hold never act. */
  lemma TimersStaySilent(c: Config, s: Sys, now: int)
    requires s.row.state.Active? && Arrival(s.log) && !Owes(s.log, Buyer) && !Owes(s.log, Seller)
    requires CurrentHold(s.events, s.log).None?
    ensures Tick(c, s, now).Nothing?
  {
    hide Listed, ClockOf, LatestHeld, AskedSince, GuidedAt, Owes, PartyHistoryOf;
    ListedElements(s.log);
    ClocksAgreeWithHistory(s.log, Listed(s.log), Buyer);
    ClocksAgreeWithHistory(s.log, Listed(s.log), Seller);
    HistoryIsArrival(s.log, Listed(s.log), Buyer);
    HistoryIsArrival(s.log, Listed(s.log), Seller);
    var held := LatestHeld(s.events);
    if held.Some? {
      SameAskedSince(s.log, held.value.body.cutoff);
    }
  }

  lemma FallsAsleep(c: Config, s: Sys)
    requires s.row.state.Active? && s.turn == [] && !s.wake
    requires Arrival(s.log) && !Owes(s.log, Buyer) && !Owes(s.log, Seller) && s.events == []
    ensures Asleep(c, s)
  {
    hide Owes, Tick, Arrival;
    forall now
      ensures Tick(c, s, now).Nothing?
    {
      TimersStaySilent(c, s, now);
    }
  }

  lemma AsleepDoesNotHold(c: Config, s: Sys)
    requires Asleep(c, s) && Arrival(s.log)
    ensures CurrentHold(s.events, s.log).None? && !Owes(s.log, Buyer) && !Owes(s.log, Seller)
  {
    hide Owes, CurrentHold, Arrival, ActsFrom;
    NoDeadlineAsleep(c, s);
    if CurrentHold(s.events, s.log).Some? {
      HoldIsADeadline(c, s);
    } else if Owes(s.log, Buyer) {
      OwedIsADeadline(c, s, Buyer);
    } else if Owes(s.log, Seller) {
      OwedIsADeadline(c, s, Seller);
    }
  }

  /** In every run, an active session with no turn under way or due is asleep
      exactly when neither party owes an answer and it does not hold; and then
      for one of the five reasons. */
  lemma {:induction false} AsleepIff(c: Config, dispute: string, now: int, moves: seq<Move>)
    requires var s := Exec(c, Initial(dispute, now), moves); s.row.state.Active? && s.turn == [] && !s.wake
    ensures var s := Exec(c, Initial(dispute, now), moves);
            && (Asleep(c, s) <==>
                !Owes(s.log, Buyer) && !Owes(s.log, Seller) && CurrentHold(s.events, s.log).None?)
            && (Asleep(c, s) ==> Overlooked(s) || (!Unjudged(s) && (s.ledger.courtesy || s.ledger.aborted)))
  {
    hide Exec, Owes, CurrentHold, Tick, Overlooked, Unjudged;
    var s := Exec(c, Initial(dispute, now), moves);
    RunsAreOk(c, dispute, now, moves);
    NoSilentStall(c, dispute, now, moves);
    if Asleep(c, s) {
      AsleepDoesNotHold(c, s);
      NoDeadlineAsleep(c, s);
    } else if !Owes(s.log, Buyer) && !Owes(s.log, Seller) && CurrentHold(s.events, s.log).None? {
      forall at
        ensures Tick(c, s, at).Nothing?
      {
        TimersStaySilent(c, s, at);
      }
    }
  }

  lemma NoDeadlineAsleep(c: Config, s: Sys)
    requires Asleep(c, s)
    ensures !exists deadline :: ActsFrom(c, s, deadline)
  {
    hide Timers.Check, ClocksRead;
    forall deadline
      ensures !ActsFrom(c, s, deadline)
    {
      assert Tick(c, s, deadline).Nothing?;
    }
  }

  // ----- no brief before guidance or a handoff -----

  /** A session that is opening or active never recorded a brief. */
  ghost predicate Unbriefed(s: Sys) {
    Early(s) ==> forall e :: e in s.events ==> !e.body.BriefPending?
  }

  lemma AppendsNoBrief(s: Sys, op: Op, row: Row, bodies: seq<EventBody>)
    requires AppendAllowed(s, op, row, bodies) && (row.state.Opening? || row.state.Active?)
    ensures forall i :: 0 <= i < |bodies| ==> !bodies[i].BriefPending?
  {
  }

  lemma EffectKeepsUnbriefed(s: Sys, a: Actor, op: Op, o: Oracle, e: Effect)
    requires Unbriefed(s) && RowOk(s.row) && EffectAllowed(s, a, op, o, e)
    requires op.Activate? ==> s.row.state.Opening? || s.row.state.Terminal()
    ensures Unbriefed(Apply(s, e, o))
  {
    hide Apply, NotedAll, AppendAllowed;
    EffectMovesRow(s, a, op, o, e);
    ApplyIs(s, e, o);
    var after := Apply(s, e, o);
    if Early(after) {
      if e.Append? {
        AppendsNoBrief(s, op, e.row, e.bodies);
        NotedUnbriefed(s.(row := e.row), e.bodies, o.at, o.gap);
        AppendIs(s, e, o);
      } else if e.BeginHold? {
        BeginHoldIsNotedAll(s, o);
        NotedUnbriefed(s, [Held(LastId(s.log))], s.now, o.gap);
      }
    }
  }

  lemma NotedUnbriefed(s: Sys, bodies: seq<EventBody>, at: int, gap: nat)
    requires forall e :: e in s.events ==> !e.body.BriefPending?
    requires forall i :: 0 <= i < |bodies| ==> !bodies[i].BriefPending?
    ensures forall e :: e in NotedAll(s, bodies, at, gap).events ==> !e.body.BriefPending?
  {
    forall e | e in NotedAll(s, bodies, at, gap).events
      ensures !e.body.BriefPending?
    {
      NotedAllNewEvents(s, bodies, at, gap, e);
    }
  }

  lemma StepKeepsUnbriefed(c: Config, s: Sys, m: Move)
    requires ProtocolOk(s) && Unbriefed(s)
    ensures Unbriefed(Step(c, s, m))
  {
    hide RunOp, Apply, EffectAllowed, Stored, PendingAtStart, HasRemedy, SentOwn, Logs, StillOpening, TurnMay, TickMay;
    hide OpenerSent;
    if m.Run? && OpsOf(s, m.actor) != [] {
      var op, rest := OpsOf(s, m.actor)[0], OpsOf(s, m.actor)[1..];
      assert op in OpsOf(s, m.actor);
      if !m.actor.TheOpening? {
        NotActivating(s, m.actor, op);
      }
      RunEffects(c, s, m.actor, op, rest, m.oracle);
      EffectKeepsUnbriefed(s, m.actor, op, m.oracle, RunOp(c, s, m.actor, op, rest, m.oracle).0);
    } else if m.Receive? {
      StoredIs(s, m.party, m.createdAt, m.gap);
    }
  }

  lemma {:induction false} RunsAreUnbriefed(c: Config, dispute: string, now: int, moves: seq<Move>)
    ensures Unbriefed(Exec(c, Initial(dispute, now), moves))
  {
    hide Step, ProtocolOk;
    if moves != [] {
      var before := moves[..|moves| - 1];
      RunsAreUnbriefed(c, dispute, now, before);
      RunsAreOk(c, dispute, now, before);
      StepKeepsUnbriefed(c, Exec(c, Initial(dispute, now), before), moves[|moves| - 1]);
    }
  }

  // ----- asleep for good -----

  /** The clock runs, turns and ticks come and go, and whatever they try
      succeeds. */
  predicate Calm(m: Move) {
    m.StartTurn? || m.StartTick? || m.Advance? || (m.Run? && m.oracle.ok)
  }

  predicate IdleTick(s: Sys) {
    || s.tick == [] || s.tick == [ListSession] || s.tick == [OpenChat(s.row), Retry(s.row)]
    || s.tick == [ReadClocks(s.row), Retry(s.row)] || s.tick == [Retry(s.row)]
  }

  /** Asleep, and nothing is under way or to be sent again. */
  ghost predicate Still(c: Config, s: Sys) {
    && Asleep(c, s) && s.opening == [] && IdleTick(s) && CurrentHold(s.events, s.log).None?
    && forall e :: e in s.events ==> !e.body.BriefPending?
  }

  lemma CalmStep(c: Config, s: Sys, m: Move)
    requires Still(c, s) && Calm(m)
    ensures var after := Step(c, s, m);
            after == s.(now := after.now, tick := after.tick) && IdleTick(after)
  {
    hide Step, Listed, Timers.Check, ClocksRead, CurrentHold;
    if m.Run? && m.actor.TheTick? && s.tick != [] {
      assert [OpenChat(s.row), Retry(s.row)] == [OpenChat(s.row)] + [Retry(s.row)];
      assert [ReadClocks(s.row), Retry(s.row)] == [ReadClocks(s.row)] + [Retry(s.row)];
      match s.tick[0]
      case ListSession => ListStep(c, s, m.oracle);
      case OpenChat(_) => ChatStep(c, s, s.row, [Retry(s.row)], m.oracle);
      case ReadClocks(_) =>
        ClocksStep(c, s, s.row, [Retry(s.row)], m.oracle);
        assert Tick(c, s, s.now).Nothing?;
        assert [] + [Retry(s.row)] == [Retry(s.row)];
      case Retry(_) => RetryStep(c, s, s.row, m.oracle);
    } else {
      CalmStart(c, s, m);
    }
  }

  lemma CalmStart(c: Config, s: Sys, m: Move)
    requires s.turn == [] && s.opening == [] && !s.wake && Calm(m) && (m.Run? && m.actor.TheTick? ==> s.tick == [])
    ensures var after := Step(c, s, m);
            && after == s.(now := after.now, tick := after.tick)
            && (after.tick == s.tick || (s.tick == [] && after.tick == [ListSession]))
  {
    hide RunOp;
  }

  lemma StillAsleep(c: Config, s: Sys, after: Sys)
    requires Asleep(c, s) && after == s.(now := after.now, tick := after.tick)
    ensures Asleep(c, after)
  {
    hide Timers.Check, ClocksRead, Listed;
    forall now
      ensures Tick(c, after, now).Nothing?
    {
      assert Tick(c, s, now) == Tick(c, after, now);
    }
  }

  lemma {:induction false} StaysStill(c: Config, s: Sys, moves: seq<Move>)
    requires Still(c, s) && forall m :: m in moves ==> Calm(m)
    ensures var after := Exec(c, s, moves);
            after == s.(now := after.now, tick := after.tick) && Still(c, after)
  {
    hide Step, Asleep, CurrentHold;
    if moves != [] {
      var n := |moves| - 1;
      assert forall m :: m in moves[..n] ==> m in moves;
      assert moves[n] in moves;
      StaysStill(c, s, moves[..n]);
      CalmStep(c, Exec(c, s, moves[..n]), moves[n]);
      StillAsleep(c, s, Exec(c, s, moves));
    }
  }

  /** Whatever run a session fell asleep in: once no tick is under way, it
      stays as it is however long it is left. Only a party's message, a
      restart, a chat that cannot be opened or the end of the dispute changes
      it. */
  lemma {:induction false} SleepsOn(c: Config, dispute: string, now: int, before: seq<Move>, moves: seq<Move>)
    requires var s := Exec(c, Initial(dispute, now), before); Asleep(c, s) && s.tick == []
    requires forall m :: m in moves ==> Calm(m)
    ensures var s, after := Exec(c, Initial(dispute, now), before), Exec(c, Initial(dispute, now), before + moves);
            after == s.(now := after.now, tick := after.tick) && Asleep(c, after)
  {
    hide Exec, Tick, CurrentHold, SentOwn, StillOpening, Shapes, RowOk, OpenerSent;
    var s := Exec(c, Initial(dispute, now), before);
    RunsAreOk(c, dispute, now, before);
    RunsAreUnbriefed(c, dispute, now, before);
    AsleepDoesNotHold(c, s);
    StaysStill(c, s, moves);
    ExecAppend(c, Initial(dispute, now), before, moves);
  }

  // ----- replies stamped before what Serbero sent -----

  /** A turn of an active session without anything to judge changes nothing,
      and is over; only a judge that is not ready makes it due again. */
  lemma TurnsAreSkipped(c: Config, s: Sys, first: Oracle, second: Oracle)
    requires s.row.state.Active? && s.turn == [] && s.wake && Arrival(s.log) && NothingToJudge(s.log)
    ensures Exec(c, s, [StartTurn, Run(TheTurn, first), Run(TheTurn, second)]) ==
            s.(wake := !second.ok, ledger := s.ledger.(forgotten := false, skipped := false, unsent := false))
  {
    hide Listed, Wrote, Before, Exec;
    WroteIff(s.log, Buyer);
    WroteIff(s.log, Seller);
    ThreeSteps(c, s, StartTurn, Run(TheTurn, first), Run(TheTurn, second));
    var s1 := Started(s);
    assert s.log[..|s.log|] == s.log && s1.turn[1..] == [];
    var s2 := s1.(turn := [CheckFlood(s.row, |s.log|)]);
    assert Step(c, s1, Run(TheTurn, first)) == s2;
    assert s2.turn[1..] == [];
  }

  lemma RepliesAreEarly(log: seq<Message>)
    requires log == Openers() + [Message(3, In, Buyer, None, 90), Message(4, In, Seller, None, 95)]
    ensures NothingToJudge(log)
  {
    assert log[0] in log && log[1] in log;
    forall p, m | m in log && IsIn(m, p)
      ensures exists x :: x in log && IsOut(x, p) && !Before(ByTime, x, m)
    {
      assert m == log[2] || m == log[3];
      assert IsOut(if p == Buyer then log[0] else log[1], p);
    }
  }

  /** Both parties reply, with clocks that are behind: the turn finds nothing
      to judge, and the session is asleep with two replies no one judged. */
  lemma EarlyRepliesStall(c: Config, dispute: string) returns (moves: seq<Move>)
    ensures var s := Exec(c, Initial(dispute, 100), moves);
            && Asleep(c, s) && Unjudged(s) && NothingToJudge(s.log)
            && !s.ledger.courtesy && !s.ledger.aborted && !s.ledger.forgotten && !s.ledger.skipped
            && s.opening == [] && s.tick == [] && s.events == []
  {
    hide Exec, Step, Asleep, NothingToJudge, Arrival, Owes;
    var opens := Opens(c, dispute);
    var replies := [Receive(Buyer, 90, 0), Receive(Seller, 95, 0)];
    var turn := [StartTurn, Goes(TheTurn, 0), Goes(TheTurn, 0)];
    moves := opens + replies + turn;
    BothReply(c, Opened(dispute), 90, 95);
    var s := BothReplied(Opened(dispute), 90, 95);
    RepliesAnswer(s.log, 90, 95);
    RepliesAreEarly(s.log);
    TurnsAreSkipped(c, s, Goes(TheTurn, 0).oracle, Goes(TheTurn, 0).oracle);
    ExecAppend(c, Initial(dispute, 100), opens, replies);
    ExecAppend(c, Initial(dispute, 100), opens + replies, turn);
    var end := s.(wake := false);
    assert end.log[2] in end.log;
    FallsAsleep(c, end);
  }

  // ----- replies that come before the session is active -----

  /** Both parties reply after both openers are stored and before the session
      is set active: the turn that comes for the replies finds the session
      opening and is skipped, and the session is asleep. */
  lemma RepliesWhileOpeningStall(c: Config, dispute: string) returns (moves: seq<Move>)
    ensures var s := Exec(c, Initial(dispute, 100), moves);
            && Asleep(c, s) && Unjudged(s) && s.ledger.skipped && !NothingToJudge(s.log)
            && !s.ledger.courtesy && !s.ledger.aborted && !s.ledger.forgotten
            && s.opening == [] && s.tick == [] && s.events == []
  {
    hide Exec, Step, Asleep, NothingToJudge, Arrival, Owes;
    var greets := Greets(c, dispute);
    var replies := [Receive(Buyer, 101, 0), Receive(Seller, 102, 0)];
    var go := Goes(TheTurn, 0);
    var turn := [StartTurn, go, Goes(TheOpening, 0)];
    moves := greets + replies + turn;
    BothReply(c, BothGreeted(dispute), 101, 102);
    var s := BothReplied(BothGreeted(dispute), 101, 102);
    RepliesAnswer(s.log, 101, 102);
    RepliesAreInTime(s.log);
    ThreeSteps(c, s, StartTurn, go, Goes(TheOpening, 0));
    TurnWhileOpening(c, s, go.oracle);
    var skipped := s.(wake := false, ledger := s.ledger.(forgotten := false, skipped := true, unsent := false));
    Activates(c, skipped, Goes(TheOpening, 0).oracle);
    ExecAppend(c, Initial(dispute, 100), greets, replies);
    ExecAppend(c, Initial(dispute, 100), greets + replies, turn);
    var end := skipped.(row := SetStateRow(s.row, Active, 100), opening := []);
    assert end.log[2] in end.log;
    FallsAsleep(c, end);
  }

  lemma RepliesAreInTime(log: seq<Message>)
    requires log == Openers() + [Message(3, In, Buyer, None, 101), Message(4, In, Seller, None, 102)]
    ensures !NothingToJudge(log)
  {
    assert log[2] in log && IsIn(log[2], Buyer);
    assert forall x :: x in log && IsOut(x, Buyer) ==> x == log[0];
  }

  // ----- replies a restart passes over -----

  /** A reminder crosses the seller's reply: its row is stored after it. */
  function Crossed(c: Config): seq<Message> {
    var now := 100 + c.timeouts.response;
    Openers() + [Message(3, In, Buyer, None, 101), Message(4, In, Seller, None, now),
                 Message(5, Out, Seller, Some(Reminder), now)]
  }

  lemma CrossedAnswer(c: Config, log: seq<Message>)
    requires log == Crossed(c)
    ensures Arrival(log) && !Owes(log, Buyer) && !Owes(log, Seller) && !NothingToJudge(log)
  {
    assert log[..4][..3] == log[..3] && log[..3][2] == log[2] && log[..4][3] == log[3];
    assert !Owes(log[..3], Buyer);
    assert !Owes(log[..4], Buyer) && !Owes(log[..4], Seller);
    assert log[2] in log && IsIn(log[2], Buyer);
    assert forall x :: x in log && IsOut(x, Buyer) ==> x == log[0];
  }

  lemma RestartPassesOver(c: Config, s: Sys)
    requires s.row.state.Active? && s.turn == [] && s.opening == [] && s.tick == [Retry(s.row)] && OursLast(s.log)
    ensures Step(c, s, Restart) == s.(tick := [], wake := false, ledger := s.ledger.(forgotten := true))
  {
    assert s.ledger.lost + multiset{} + multiset{} + multiset{} == s.ledger.lost;
  }

  /** The turn loop did not come to judge the replies yet when the process
      restarts: the newest row is Serbero's reminder, so the start does not
      schedule the session, which owes nothing and is asleep. */
  lemma AReplyIsForgottenAtStart(c: Config, dispute: string) returns (moves: seq<Move>)
    ensures var s := Exec(c, Initial(dispute, 100), moves);
            && Asleep(c, s) && Unjudged(s) && s.ledger.forgotten && OursLast(s.log) && !NothingToJudge(s.log)
            && !s.ledger.courtesy && !s.ledger.aborted && !s.ledger.skipped
            && s.opening == [] && s.tick == [] && s.events == []
  {
    hide Exec, Step, Asleep, NothingToJudge, Arrival, Owes;
    var late := SellerIsLate(c, dispute);
    var s := Overdue(c, dispute);
    TickTakesReminder(c, s);
    var reminding := Reminding(s);
    var crossing := [Receive(Seller, s.now, 0), Goes(TheTick, s.now), Restart];
    moves := late + TickUntilTaken() + crossing;
    ThreeSteps(c, reminding, crossing[0], crossing[1], crossing[2]);
    Receives(c, reminding, Seller, s.now);
    var replied := reminding.(log := s.log + [Message(4, In, Seller, None, s.now)], wake := true);
    assert replied.tick == [StoreRow(Seller, Reminder, Abort)] + [Retry(s.row)];
    RowIsStored(c, replied, TheTick, Seller, Reminder, Abort, [Retry(s.row)]);
    var crossed := replied.(log := Crossed(c), tick := [Retry(s.row)]);
    assert replied.log + [Message(5, Out, Seller, Some(Reminder), s.now)] == Crossed(c);
    RestartPassesOver(c, crossed);
    ExecAppend(c, Initial(dispute, 100), late, TickUntilTaken());
    ExecAppend(c, Initial(dispute, 100), late + TickUntilTaken(), crossing);
    var end := crossed.(tick := [], wake := false, ledger := crossed.ledger.(forgotten := true));
    CrossedAnswer(c, end.log);
    assert end.log[2] in end.log;
    FallsAsleep(c, end);
  }

  /** Serbero stored a row after every party message. */
  ghost predicate OursAfterAll(log: seq<Message>) {
    exists x :: x in log && x.direction.Out? && forall m :: m in log && m.direction.In? ==> m.id < x.id
  }

  lemma OursAfterAllIsLast(log: seq<Message>)
    requires Arrival(log) && log != []
    ensures OursAfterAll(log) <==> OursLast(log)
  {
    var last := log[|log| - 1];
    if OursLast(log) {
      forall m | m in log && m.direction.In?
        ensures m.id < last.id
      {
        var i :| 0 <= i < |log| && log[i] == m;
        assert i < |log| - 1;
      }
      assert last in log;
    }
    if x :| x in log && x.direction.Out? && forall m :: m in log && m.direction.In? ==> m.id < x.id {
      ArrivalBelowLast(log, x);
      assert last in log;
    }
  }

  /** In every run, whenever the process restarts while a party message of a
      session Serbero mediates is not judged: the start passes the session
      over exactly when Serbero stored a row after every party message. */
  lemma {:induction false} ForgottenAtStartIff(c: Config, dispute: string, now: int, moves: seq<Move>)
    requires var s := Exec(c, Initial(dispute, now), moves); s.row.state.Mediating() && Unjudged(s)
    ensures var s := Exec(c, Initial(dispute, now), moves);
            !Exec(c, Initial(dispute, now), moves + [Restart]).wake <==> OursAfterAll(s.log)
  {
    hide Exec, Step, OursAfterAll;
    RunsAreOk(c, dispute, now, moves);
    ExecStep(c, Initial(dispute, now), moves, Restart);
    var s := Exec(c, Initial(dispute, now), moves);
    RestartIs(c, s);
    OursAfterAllIsLast(s.log);
  }

  // ----- a turn cut short -----

  /** What a failed send, or a lost row, does to a turn that had a question,
      a hold, guidance or a handoff ahead. */
  lemma AFailedSendEndsTheTurn(c: Config, s: Sys, op: Op, rest: seq<Op>, o: Oracle)
    requires s.turn == [op] + rest && (op.InFlight? || op.StoreRow?) && op.onFailure.Abort? && HasRemedy(s.turn) && !o.ok
    ensures var after := Step(c, s, Run(TheTurn, o));
            && after.turn == [] && after.ledger.aborted
            && after == s.(turn := [], ledger := after.ledger)
  {
    hide HasRemedy;
    assert s.turn[1..] == rest && s.turn[0] == op;
  }

  /** When a message of a turn that was about to ask cannot be sent, or its
      row is not stored, the turn is over; and from then on the timers act at
      some time exactly when a party still owes an answer or the session
      holds. */
  lemma AFailedQuestionLeavesNoTimer(c: Config, s: Sys, op: Op, rest: seq<Op>, o: Oracle)
    requires s.row.state.Active? && Arrival(s.log)
    requires s.turn == [op] + rest && (op.InFlight? || op.StoreRow?) && op.onFailure.Abort? && HasRemedy(s.turn) && !o.ok
    ensures var after := Step(c, s, Run(TheTurn, o));
            var timed := Owes(s.log, Buyer) || Owes(s.log, Seller) || CurrentHold(s.events, s.log).Some?;
            && after.turn == [] && after.ledger.aborted
            && ((exists deadline :: ActsFrom(c, after, deadline)) <==> timed)
            && ((exists now :: !Tick(c, after, now).Nothing?) <==> timed)
  {
    hide Step, Owes, CurrentHold, HasRemedy, Arrival;
    AFailedSendEndsTheTurn(c, s, op, rest, o);
    var after := Step(c, s, Run(TheTurn, o));
    if Owes(s.log, Buyer) {
      OwedIsADeadline(c, after, Buyer);
    } else if Owes(s.log, Seller) {
      OwedIsADeadline(c, after, Seller);
    } else if CurrentHold(s.events, s.log).Some? {
      HoldIsADeadline(c, after);
    } else {
      forall now
        ensures Tick(c, after, now).Nothing?
      {
        TimersStaySilent(c, after, now);
      }
    }
    if deadline :| ActsFrom(c, after, deadline) {
      assert !Tick(c, after, deadline).Nothing?;
    }
  }

  lemma SendFails(c: Config, s: Sys, p: Party, t: Template, rest: seq<Op>, o: Oracle)
    requires s.turn == [InFlight(p, t, Abort)] + rest && IsQuestion(t) && !o.ok
    ensures Step(c, s, Run(TheTurn, o)) == s.(turn := [], ledger := s.ledger.(aborted := true))
  {
    var op := s.turn[0];
    assert s.turn[1..] == rest && op in [op] + rest && Remedy(op);
  }

  /** Both parties reply, a turn asks the buyer for details, and no relay
      takes the question: the session is asleep, its replies judged. */
  lemma AFailedQuestionStalls(c: Config, dispute: string) returns (moves: seq<Move>)
    requires c.maxRounds >= 1 && c.maxMessagesPerTurn >= 1
    ensures var s := Exec(c, Initial(dispute, 100), moves);
            && Asleep(c, s) && s.ledger.aborted && !Unjudged(s) && !s.ledger.courtesy
            && s.opening == [] && s.tick == [] && s.events == []
  {
    hide Exec, Step, Asleep, Arrival, Owes, JudgedTurn, AwaitsDetails;
    var opens := Opens(c, dispute);
    var replies := [Receive(Buyer, 101, 0), Receive(Seller, 102, 0)];
    var sends := [Goes(TheTurn, 0), Fails(TheTurn)];
    moves := opens + replies + JudgedTurn(PAID) + sends;
    BothReply(c, Opened(dispute), 101, 102);
    var s := BothReplied(Opened(dispute), 101, 102);
    RepliesAwait(c, s);
    DetailsAreAsked(c, s);
    var asking := AskingDetails(s);
    var rest := DETAILS_OPS[1..];
    assert asking.turn == [DETAILS_OPS[0]] + rest;
    TwoSteps(c, asking, sends[0], sends[1]);
    SendPasses(c, asking, TheTurn, Buyer, AskBuyerDetails, WhileMediating, Abort, rest, sends[0].oracle);
    SendFails(c, asking.(turn := [InFlight(Buyer, AskBuyerDetails, Abort)] + rest), Buyer, AskBuyerDetails, rest,
              sends[1].oracle);
    ExecAppend(c, Initial(dispute, 100), opens, replies);
    ExecAppend(c, Initial(dispute, 100), opens + replies, JudgedTurn(PAID));
    ExecAppend(c, Initial(dispute, 100), opens + replies + JudgedTurn(PAID), sends);
    var end := asking.(turn := [], ledger := asking.ledger.(aborted := true));
    RepliesAnswer(end.log, 101, 102);
    assert end.evaluations[..0] == [];
    FallsAsleep(c, end);
  }

  // ----- an opening cut short -----

  lemma OrphanStep(c: Config, s: Sys, m: Move)
    requires ProtocolOk(s) && s.row.state.Opening? && s.opening == [] && !m.Supersede? && !m.Close?
    ensures var after := Step(c, s, m);
            && after.row.state.Opening? && after.opening == []
            && after.ledger.sent == s.ledger.sent
            && s.log <= after.log && forall i :: |s.log| <= i < |after.log| ==> after.log[i].direction.In?
  {
    hide RunOp, Apply, OpeningOk, Shapes, SentOwn, Logs, RowOk, HasRemedy, PendingAtStart;
    if m.Run? && OpsOf(s, m.actor) != [] {
      var op, rest := OpsOf(s, m.actor)[0], OpsOf(s, m.actor)[1..];
      assert op in OpsOf(s, m.actor);
      IdleWhileOpening(c, s, m.actor, op, rest, m.oracle);
      ApplyIs(s, RunOp(c, s, m.actor, op, rest, m.oracle).0, m.oracle);
    }
  }

  lemma {:induction false} OrphanStays(c: Config, s: Sys, moves: seq<Move>)
    requires ProtocolOk(s) && s.row.state.Opening? && s.opening == []
    requires forall m :: m in moves ==> !m.Supersede? && !m.Close?
    ensures var after := Exec(c, s, moves);
            && ProtocolOk(after) && after.row.state.Opening? && after.opening == []
            && after.ledger.sent == s.ledger.sent
            && s.log <= after.log && forall i :: |s.log| <= i < |after.log| ==> after.log[i].direction.In?
  {
    hide Step, ProtocolOk;
    if moves != [] {
      var n := |moves| - 1;
      assert moves[n] in moves && forall m :: m in moves[..n] ==> m in moves;
      OrphanStays(c, s, moves[..n]);
      StepKeepsProtocol(c, Exec(c, s, moves[..n]), moves[n]);
      OrphanStep(c, Exec(c, s, moves[..n]), moves[n]);
    }
  }

  /** A restart while the session opens leaves it opening for ever: no move
      sends or stores anything for the parties, activates the session or hands
      it off, until the dispute ends. */
  lemma {:induction false} ARestartOrphansTheOpening(c: Config, dispute: string, now: int, before: seq<Move>,
                                                       moves: seq<Move>)
    requires Exec(c, Initial(dispute, now), before).row.state.Opening?
    requires forall m :: m in moves ==> !m.Supersede? && !m.Close?
    ensures var s := Exec(c, Initial(dispute, now), before);
            var after := Exec(c, Initial(dispute, now), before + [Restart] + moves);
            && after.row.state.Opening? && after.opening == []
            && after.ledger.sent == s.ledger.sent
            && s.log <= after.log && forall i :: |s.log| <= i < |after.log| ==> after.log[i].direction.In?
  {
    hide Step, ProtocolOk, Exec;
    RunsAreOk(c, dispute, now, before + [Restart]);
    ExecStep(c, Initial(dispute, now), before, Restart);
    var s := Exec(c, Initial(dispute, now), before);
    assert Step(c, s, Restart) == Restarted(s) by { RestartIs(c, s); }
    OrphanStays(c, Restarted(s), moves);
    ExecAppend(c, Initial(dispute, now), before + [Restart], moves);
  }
}

/** After a handoff: every later party message reaches a solver, or a turn is
    due for it, or the last update was left behind. */
module Updates {
  import opened Domain
  import opened Next
  import opened Policy
  import opened MessageLog
  import opened EventLog
  import opened Sessions
  import opened Mediation
  import opened Effects
  import opened Protocol
  import opened Turns
  import opened Delivery
  import opened WakeUps
  import opened Runs

  predicate LoadsFirst(turn: seq<Op>) {
    turn != [] && turn[0].Load?
  }

  /** The turn under way will take the message up for the solvers. */
  predicate InHand(turn: seq<Op>, i: nat) {
    turn != [] && (turn[0].Load? || turn[0].Forward? || (turn[0].Forwarded? && i < turn[0].n))
  }

  /** The session was never handed off as such: its opening was abandoned. */
  ghost predicate Abandoned(events: seq<Event>) {
    forall e :: e in events ==> !e.body.HandoffRecorded?
  }

  /** A party message after the handoff that no solver received. */
  ghost predicate Untold(s: Sys, i: nat) {
    i < |s.log| && s.log[i].direction.In? && s.log[i].id > Cutoff(s.events) && s.log[i].id !in s.ledger.told
  }

  ghost predicate Kept(s: Sys, i: nat) {
    s.wake || s.ledger.unsent || (s.ledger.skipped && Abandoned(s.events)) || InHand(s.turn, i)
  }

  /** While the session opens, what the parties write makes a turn due, or a
      turn came for it too early. */
  ghost predicate HeardEarly(s: Sys) {
    s.row.state.Opening? && s.opening != [] && (exists m :: m in s.log && m.direction.In?) ==>
      s.wake || s.ledger.skipped || LoadsFirst(s.turn)
  }

  ghost predicate UpdatesOk(s: Sys) {
    HeardEarly(s) && (s.row.state.HandedOff? ==> forall i: nat :: Untold(s, i) ==> Kept(s, i))
  }

  // ----- what a step leaves -----

  lemma NotedCutoff(s: Sys, bodies: seq<EventBody>, at: int, gap: nat)
    requires forall i :: 0 <= i < |bodies| ==> !bodies[i].HandoffRecorded?
    ensures Cutoff(NotedAll(s, bodies, at, gap).events) == Cutoff(s.events)
    ensures Abandoned(s.events) ==> Abandoned(NotedAll(s, bodies, at, gap).events)
    decreases |bodies|
  {
    if bodies != [] {
      var next := Noted(s, bodies[0], at, gap);
      CutoffAppend(s.events, next.events[|s.events|]);
      assert next.events == s.events + [next.events[|s.events|]];
      NotedCutoff(next, bodies[1..], at, 0);
    }
  }

  lemma AppendsNoHandoff(s: Sys, op: Op, row: Row, bodies: seq<EventBody>)
    requires AppendAllowed(s, op, row, bodies) && !(op.HandOff? && s.row.state.Mediating())
    ensures forall i :: 0 <= i < |bodies| ==> !bodies[i].HandoffRecorded?
  {
  }

  /** A step that hands nothing off moves no cutoff and takes nothing back. */
  lemma EffectKeepsCutoff(s: Sys, a: Actor, op: Op, o: Oracle, e: Effect)
    requires EffectAllowed(s, a, op, o, e) && !(op.HandOff? && s.row.state.Mediating())
    ensures var after := Apply(s, e, o);
            && Cutoff(after.events) == Cutoff(s.events)
            && (Abandoned(s.events) ==> Abandoned(after.events))
            && SameOrOurs(s.log, after.log) && s.ledger.told <= after.ledger.told
            && (s.wake ==> after.wake) && (s.ledger.unsent ==> after.ledger.unsent)
            && (s.ledger.skipped ==> after.ledger.skipped)
  {
    hide Apply, NotedAll, AppendAllowed, Cutoff, Abandoned, SameOrOurs;
    ApplyIs(s, e, o);
    StoresOurs(s, e, o);
    if e.Append? {
      AppendsNoHandoff(s, op, e.row, e.bodies);
      NotedCutoff(s.(row := e.row), e.bodies, o.at, o.gap);
      AppendIs(s, e, o);
    } else if e.BeginHold? {
      NotedCutoff(s, [Held(LastId(s.log))], s.now, o.gap);
      BeginHoldIsNotedAll(s, o);
    }
  }

  lemma StaysKept(s: Sys, after: Sys)
    requires UpdatesOk(s) && s.row.state.HandedOff? && after.row.state.HandedOff?
    requires Cutoff(after.events) == Cutoff(s.events) && (Abandoned(s.events) ==> Abandoned(after.events))
    requires SameOrOurs(s.log, after.log) && s.ledger.told <= after.ledger.told
    requires s.wake ==> after.wake
    requires s.ledger.unsent ==> after.ledger.unsent
    requires s.ledger.skipped ==> after.ledger.skipped
    requires forall i: nat :: Untold(s, i) && Untold(after, i) && InHand(s.turn, i) ==> Kept(after, i)
    ensures UpdatesOk(after)
  {
    hide Cutoff, Abandoned, InHand;
    forall i: nat | Untold(after, i)
      ensures Kept(after, i)
    {
      assert after.log[i] == s.log[i];
      assert Untold(s, i);
    }
  }

  // ----- a turn that forwards -----

  /** A message in hand is still so after one step, or reached a solver, or
      the update was left behind. */
  lemma ForwardingKeeps(c: Config, s: Sys, op: Op, rest: seq<Op>, o: Oracle, i: nat)
    requires EventsOk(s) && UpdateOk(s, op) && s.row.state.HandedOff? && Untold(s, i) && InHand([op] + rest, i)
    ensures var (e, left) := RunOp(c, s, TheTurn, op, rest, o);
            InHand(left, i) || e.KeepUnseen? || (e.TellSolvers? && s.log[i].id in e.ids)
  {
    hide Listed, Unseen, LastSeen, Cutoff, InboundIds, EventsOk;
    SeenIsTold(s, i);
    assert ([op] + rest)[0] == op;
    match op
    case Load =>
    case Forward => UnseenIsThere(s.log, i, LastSeen(s.events));
    case Forwarded(n, seen, last) =>
      UnseenIsThere(s.log[..n], i, seen);
      assert s.log[i] == s.log[..n][i];
      IdIsThere(Unseen(Listed(s.log[..n]), seen), s.log[i]);
  }

  lemma UnseenIsThere(log: seq<Message>, i: nat, seen: nat)
    requires i < |log| && log[i].direction.In? && log[i].id > seen
    ensures log[i] in Unseen(Listed(log), seen)
  {
    hide Listed, Unseen;
    ListedElements(log);
    UnseenAre(Listed(log), seen);
    assert log[i] in log;
  }

  lemma IdIsThere(messages: seq<Message>, m: Message)
    requires m in messages && m.direction.In?
    ensures m.id in InboundIds(messages)
  {
  }

  lemma SeenIsTold(s: Sys, i: nat)
    requires EventsOk(s) && Untold(s, i)
    ensures s.log[i].id > LastSeen(s.events)
  {
    assert s.log[i] in s.log;
  }

  lemma TurnKeepsUpdates(c: Config, s: Sys, o: Oracle)
    requires ProtocolOk(s) && DeliveryOk(s) && UpdatesOk(s) && s.turn != [] && s.row.state.HandedOff?
    ensures UpdatesOk(Step(c, s, Run(TheTurn, o)))
  {
    hide RunOp, Apply, EffectAllowed, EventsOk, UpdateOk, BriefOk, Cutoff, Abandoned, SameOrOurs, TurnMay, TickMay, Logs;
    hide OpeningOk, StillOpening, SentOwn, InHand;
    var op, rest := s.turn[0], s.turn[1..];
    assert s.turn == [op] + rest && op in s.turn;
    var (e, left) := RunOp(c, s, TheTurn, op, rest, o);
    var after := Step(c, s, Run(TheTurn, o));
    RunEffects(c, s, TheTurn, op, rest, o);
    NotActivating(s, TheTurn, op);
    EffectMovesRow(s, TheTurn, op, o, e);
    EffectKeepsCutoff(s, TheTurn, op, o, e);
    ApplyIs(s, e, o);
    forall i: nat | Untold(s, i) && Untold(after, i) && InHand(s.turn, i)
      ensures Kept(after, i)
    {
      ForwardingKeeps(c, s, op, rest, o, i);
      OursStay(s.log, after.log, i);
    }
    StaysKept(s, after);
  }

  lemma OursStay(log: seq<Message>, after: seq<Message>, i: nat)
    requires SameOrOurs(log, after) && i < |log|
    ensures i < |after| && after[i] == log[i]
  {
  }

  lemma OthersKeepUpdates(c: Config, s: Sys, a: Actor, o: Oracle)
    requires ProtocolOk(s) && UpdatesOk(s) && !a.TheTurn? && OpsOf(s, a) != [] && s.row.state.HandedOff?
    ensures UpdatesOk(Step(c, s, Run(a, o)))
  {
    hide RunOp, Apply, EffectAllowed, Cutoff, Abandoned, SameOrOurs, TurnMay, TickMay, Logs, StillOpening, SentOwn, InHand;
    hide OpenerSent;
    var op, rest := OpsOf(s, a)[0], OpsOf(s, a)[1..];
    assert op in OpsOf(s, a);
    var e := RunOp(c, s, a, op, rest, o).0;
    RunEffects(c, s, a, op, rest, o);
    if a.TheTick? {
      NotActivating(s, a, op);
    }
    EffectMovesRow(s, a, op, o, e);
    EffectKeepsCutoff(s, a, op, o, e);
    ApplyIs(s, e, o);
    StaysKept(s, Step(c, s, Run(a, o)));
  }

  // ----- the handoff itself -----

  /** Nothing is untold at the moment of a handoff. */
  lemma HandoffTellsFrom(s: Sys, row: Row, reason: Reason, o: Oracle, i: nat)
    requires Arrival(s.log)
    ensures var bodies := [HandoffRecorded(reason, LastId(s.log)), BriefPending(AboutHandoff)];
            var after := NotedAll(s.(row := row), bodies, o.at, o.gap);
            && Cutoff(after.events) == LastId(s.log) && after.log == s.log
            && (i < |s.log| ==> s.log[i].id <= LastId(s.log))
  {
    hide Cutoff, NotedAll, Noted;
    var handoff := Event(LastEventId(s.events) + 1 + o.gap, Min(o.at, s.now), HandoffRecorded(reason, LastId(s.log)));
    var brief := Event(handoff.id + 1, Min(o.at, s.now), BriefPending(AboutHandoff));
    NotedTwo(s.(row := row), handoff.body, brief.body, o.at, o.gap);
    HandoffNotes(s, row, handoff, brief, o);
    CutoffAppend(s.events, handoff);
    CutoffAppend(s.events + [handoff], brief);
    if i < |s.log| {
      ArrivalBelowLast(s.log, s.log[i]);
    }
  }

  lemma HandOffStarts(c: Config, s: Sys, a: Actor, o: Oracle)
    requires Logs(s) && OpsOf(s, a) != [] && OpsOf(s, a)[0].HandOff? && s.row.state.Mediating()
    ensures UpdatesOk(Step(c, s, Run(a, o)))
  {
    hide NotedAll, Cutoff, RunSharedOp, RunTurnOp, RunTickOp, RunOpeningOp, Logs, Kept, Apply;
    var op, rest := OpsOf(s, a)[0], OpsOf(s, a)[1..];
    var e := RunSharedOp(s, a, op, rest, o).0;
    var after := Step(c, s, Run(a, o));
    LogsAreArrival(s);
    HandOffIs(s, a, op, rest, o);
    ApplyIs(s, e, o);
    AppendIs(s, e, o);
    forall i: nat
      ensures !Untold(after, i)
    {
      HandoffTellsFrom(s, e.row, op.reason, o, i);
    }
  }

  // ----- while the session opens -----

  lemma OpeningStep(c: Config, s: Sys, o: Oracle)
    requires ProtocolOk(s) && UpdatesOk(s) && s.row.state.Opening? && s.opening != []
    ensures UpdatesOk(Step(c, s, Run(TheOpening, o)))
  {
    hide RunSharedOp, RunTurnOp, RunTickOp, RunOpeningOp, Apply, TurnMay, TickMay, SentOwn, OpenerSent, Logs, Cutoff;
    var op, rest := s.opening[0], s.opening[1..];
    var e := RunOp(c, s, TheOpening, op, rest, o).0;
    var after := Step(c, s, Run(TheOpening, o));
    OpeningNext(s, op, rest, o);
    ApplyIs(s, e, o);
    assert forall m :: m in after.log && m.direction.In? ==> m in s.log;
    if op.Abandon? {
      AppendIs(s, e, o);
      NotedCutoff(s.(row := e.row), e.bodies, o.at, o.gap);
      forall i: nat | Untold(after, i)
        ensures Kept(after, i)
      {
        assert s.log[i] in s.log;
      }
    }
  }

  lemma StillOpeningStep(c: Config, s: Sys, a: Actor, o: Oracle)
    requires ProtocolOk(s) && UpdatesOk(s) && s.row.state.Opening? && !a.TheOpening? && OpsOf(s, a) != []
    ensures UpdatesOk(Step(c, s, Run(a, o)))
  {
    hide RunOp, Apply, TurnMay, TickMay, SentOwn, OpenerSent, Logs, Cutoff, OpeningOk;
    var op, rest := OpsOf(s, a)[0], OpsOf(s, a)[1..];
    assert op in OpsOf(s, a);
    var e := RunOp(c, s, a, op, rest, o).0;
    IdleWhileOpening(c, s, a, op, rest, o);
    LoadDefersOrSkips(c, s, rest, o);
    ApplyIs(s, e, o);
  }

  lemma LoadDefersOrSkips(c: Config, s: Sys, rest: seq<Op>, o: Oracle)
    requires s.row.state.Opening?
    ensures var e := RunOp(c, s, TheTurn, Load, rest, o).0; e.Defer? || e.SkipTurn?
  {
  }

  /** Before a handoff, and once the session is no longer opening, there is
      nothing to keep. */
  lemma MediatingStep(c: Config, s: Sys, a: Actor, o: Oracle)
    requires ProtocolOk(s) && OpsOf(s, a) != [] && !s.row.state.Opening? && !s.row.state.HandedOff?
    requires !(OpsOf(s, a)[0].HandOff? && s.row.state.Mediating())
    ensures UpdatesOk(Step(c, s, Run(a, o)))
  {
    hide RunOp, Apply, TurnMay, TickMay, SentOwn, OpenerSent, Logs, Cutoff, StillOpening, EffectAllowed;
    var op, rest := OpsOf(s, a)[0], OpsOf(s, a)[1..];
    assert op in OpsOf(s, a);
    var e := RunOp(c, s, a, op, rest, o).0;
    RunEffects(c, s, a, op, rest, o);
    if !a.TheOpening? {
      NotActivating(s, a, op);
    }
    OnlyHandoffsHandOff(s, a, op, o, e);
    ApplyIs(s, e, o);
  }

  lemma OnlyHandoffsHandOff(s: Sys, a: Actor, op: Op, o: Oracle, e: Effect)
    requires EffectAllowed(s, a, op, o, e) && RowOk(s.row) && !s.row.state.Opening? && !s.row.state.HandedOff?
    requires op.Activate? || op.Abandon? ==> s.row.state.Terminal()
    requires !(op.HandOff? && s.row.state.Mediating())
    ensures !RowAfter(s, e).state.HandedOff? && !RowAfter(s, e).state.Opening?
  {
  }

  // ----- every step -----

  lemma RunKeepsUpdates(c: Config, s: Sys, a: Actor, o: Oracle)
    requires ProtocolOk(s) && DeliveryOk(s) && UpdatesOk(s) && OpsOf(s, a) != []
    ensures UpdatesOk(Step(c, s, Run(a, o)))
  {
    hide Step, ProtocolOk, DeliveryOk, UpdatesOk;
    if OpsOf(s, a)[0].HandOff? && s.row.state.Mediating() {
      LogsOk(s);
      HandOffStarts(c, s, a, o);
    } else if s.row.state.HandedOff? {
      if a.TheTurn? {
        TurnKeepsUpdates(c, s, o);
      } else {
        OthersKeepUpdates(c, s, a, o);
      }
    } else if s.row.state.Opening? {
      if a.TheOpening? {
        OpeningStep(c, s, o);
      } else {
        StillOpeningStep(c, s, a, o);
      }
    } else {
      MediatingStep(c, s, a, o);
    }
  }

  lemma RestartKeepsUpdates(c: Config, s: Sys)
    requires DeliveryOk(s) && UpdatesOk(s)
    ensures UpdatesOk(Step(c, s, Restart))
  {
    hide HasRemedy, Unstored, Cutoff, LastSeen, RunOp;
    var after := Step(c, s, Restart);
    forall i: nat | s.row.state.HandedOff? && Untold(after, i)
      ensures after.wake
    {
      SeenIsTold(s, i);
      assert s.log[i] in s.log;
    }
  }

  lemma EnvironmentKeepsUpdates(c: Config, s: Sys, m: Move)
    requires DeliveryOk(s) && UpdatesOk(s) && !m.Run?
    ensures UpdatesOk(Step(c, s, m))
  {
    hide RunOp, Cutoff, DeliveryOk, Restarted, Abandoned;
    match m
    case Restart => RestartKeepsUpdates(c, s);
    case Supersede(_, _) => EndedIsOver(s, Superseded, m.at, m.gap);
    case Close(_, _) => EndedIsOver(s, Closed, m.at, m.gap);
    case Receive(p, createdAt, gap) =>
    case StartTurn =>
    case StartTick => SameKeepsUpdates(s, Step(c, s, m));
    case Advance(_) => SameKeepsUpdates(s, Step(c, s, m));
  }

  lemma SameKeepsUpdates(s: Sys, after: Sys)
    requires UpdatesOk(s) && after == s.(now := after.now, tick := after.tick)
    ensures UpdatesOk(after)
  {
    hide Cutoff, Abandoned;
    forall i: nat | Untold(after, i)
      ensures Untold(s, i)
    {
    }
  }

  lemma EndedIsOver(s: Sys, state: State, at: int, gap: nat)
    requires state.Terminal()
    ensures Ended(s, state, at, gap).row.state.Terminal()
  {
  }

  lemma {:induction false} RunsKeepUpdates(c: Config, dispute: string, now: int, moves: seq<Move>)
    ensures UpdatesOk(Exec(c, Initial(dispute, now), moves))
  {
    hide Step, ProtocolOk, DeliveryOk, UpdatesOk;
    if moves == [] {
      NothingYet(dispute, now);
    } else {
      var before := moves[..|moves| - 1];
      var m := moves[|moves| - 1];
      var s := Exec(c, Initial(dispute, now), before);
      RunsKeepUpdates(c, dispute, now, before);
      RunsAreOk(c, dispute, now, before);
      RunsKeepDelivery(c, dispute, now, before);
      if !m.Run? {
        EnvironmentKeepsUpdates(c, s, m);
      } else if OpsOf(s, m.actor) == [] {
        NothingToRun(c, s, m);
      } else {
        RunKeepsUpdates(c, s, m.actor, m.oracle);
      }
    }
  }

  lemma NothingYet(dispute: string, now: int)
    ensures UpdatesOk(Initial(dispute, now))
  {
  }

  // ----- no silent update -----

  /** In every run, a handed-off session with no turn under way has told some
      solver every party message since the handoff, or a turn is due, or its
      last turn had an update that no solver received; or its opening was
      abandoned after a turn had come for the messages too early. Once the
      handoff's brief was delivered this holds of every party message. */
  lemma {:induction false} NoSilentUpdate(c: Config, dispute: string, now: int, moves: seq<Move>)
    ensures var s := Exec(c, Initial(dispute, now), moves);
            s.row.state.HandedOff? && s.turn == [] ==>
              || s.wake
              || s.ledger.unsent
              || (s.ledger.skipped && Abandoned(s.events))
              || (&& (forall m :: m in s.log && m.direction.In? && m.id > Cutoff(s.events) ==> m.id in s.ledger.told)
                  && (HandoffDelivered(s.events) ==>
                        forall m :: m in s.log && m.direction.In? ==> m.id in s.ledger.told))
  {
    hide Exec, Cutoff, LastSeen, HandoffDelivered, Abandoned;
    var s := Exec(c, Initial(dispute, now), moves);
    RunsKeepUpdates(c, dispute, now, moves);
    RunsAreOk(c, dispute, now, moves);
    RunsKeepDelivery(c, dispute, now, moves);
    NoMessageIsLost(c, dispute, now, moves);
    if s.row.state.HandedOff? && s.turn == [] && !s.wake && !s.ledger.unsent && !(s.ledger.skipped && Abandoned(s.events)) {
      forall m | m in s.log && m.direction.In? && m.id > Cutoff(s.events)
        ensures m.id in s.ledger.told
      {
        var i :| 0 <= i < |s.log| && s.log[i] == m;
        assert !Kept(s, i);
        assert !Untold(s, i);
      }
      forall m | m in s.log
        ensures m.id > 0
      {
        ArrivalBelowLast(s.log, m);
      }
      CutoffIsSeen(s);
    }
  }

  lemma CutoffIsSeen(s: Sys)
    requires DeliveryOk(s)
    ensures Cutoff(s.events) <= LastSeen(s.events)
  {
    hide Cutoff, LastSeen, Told;
  }

  // ----- an update no solver received -----

  const HANDOFF_BODIES: seq<EventBody> := [HandoffRecorded(OpeningFailed, 2), BriefPending(AboutHandoff)]

  function HandoffEvents(): seq<Event> {
    [Event(1, 100, HANDOFF_BODIES[0]), Event(2, 100, HANDOFF_BODIES[1])]
  }

  function AfterBrief(s: Sys): seq<Op> {
    [TellHandoff(Buyer), TellHandoff(Seller), Retry(s.row)]
  }

  /** The chat of the session could not be opened. */
  function HandedOver(s: Sys): Sys {
    s.(row := HandOffRow(s.row, OpeningFailed, 100), events := HandoffEvents(), tick := [Brief(2)] + AfterBrief(s))
  }

  lemma ChatFails(c: Config, s: Sys)
    requires s.row.state.Active? && s.tick == []
    ensures Exec(c, s, [StartTick, Goes(TheTick, 100), Fails(TheTick)]) ==
            s.(tick := [HandOff(OpeningFailed), Retry(s.row)])
  {
    hide Exec, Step;
    ThreeSteps(c, s, StartTick, Goes(TheTick, 100), Fails(TheTick));
    TickStarts(c, s);
    ListStep(c, s.(tick := [ListSession]), Goes(TheTick, 100).oracle);
    NoChat(c, s.(tick := [OpenChat(s.row), Retry(s.row)]), s.row);
  }

  lemma NoChat(c: Config, s: Sys, session: Row)
    requires s.tick == [OpenChat(session), Retry(session)]
    ensures Step(c, s, Fails(TheTick)) == s.(tick := [HandOff(OpeningFailed), Retry(session)])
  {
    assert s.tick[1..] == [Retry(session)];
    assert [HandOff(OpeningFailed)] + [Retry(session)] == [HandOff(OpeningFailed), Retry(session)];
  }

  lemma HandsOver(c: Config, s: Sys)
    requires s.row.state.Active? && s.events == [] && LastId(s.log) == 2 && s.now == 100
    ensures Step(c, s.(tick := [HandOff(OpeningFailed), Retry(s.row)]), Goes(TheTick, 100)) == HandedOver(s)
  {
    hide Step, NotedAll, Apply, RunSharedOp;
    var before := s.(tick := [HandOff(OpeningFailed), Retry(s.row)]);
    var o := Goes(TheTick, 100).oracle;
    assert before.tick[1..] == [Retry(s.row)];
    RunIs(c, before, TheTick, o);
    HandOffIs(before, TheTick, HandOff(OpeningFailed), [Retry(s.row)], o);
    AppendIs(before, Append(HandOffRow(s.row, OpeningFailed, 100), HANDOFF_BODIES), o);
    NotedTwo(before.(row := HandOffRow(s.row, OpeningFailed, 100)), HANDOFF_BODIES[0], HANDOFF_BODIES[1], 100, 0);
    assert [] + [HandoffEvents()[0]] + [HandoffEvents()[1]] == HandoffEvents();
    assert [Brief(2), TellHandoff(Buyer), TellHandoff(Seller)] + [Retry(s.row)] == [Brief(2)] + AfterBrief(s);
  }

  function SolversKnow(s: Sys): Sys {
    HandedOver(s).(events := HandoffEvents() + [Event(3, 100, BriefSent(2))], tick := AfterBrief(s))
  }

  lemma BriefStep(c: Config, s: Sys, pending: nat, rest: seq<Op>, o: Oracle)
    requires s.tick == [Brief(pending)] + rest
    ensures Step(c, s, Run(TheTick, o)) == s.(tick := [Briefed(pending, |s.log|)] + rest)
  {
    assert s.tick[1..] == rest && s.tick[0] == Brief(pending);
  }

  lemma BriefedStep(c: Config, s: Sys, pending: nat, rest: seq<Op>, o: Oracle)
    requires s.tick == [Briefed(pending, |s.log|)] + rest && o.ok
    ensures Step(c, s, Run(TheTick, o)) ==
            s.(tick := [MarkBrief(pending)] + rest, ledger := s.ledger.(told := s.ledger.told + InboundIds(s.log)))
  {
    assert s.tick[1..] == rest && s.tick[0] == Briefed(pending, |s.log|);
    assert s.log[..|s.log|] == s.log;
  }

  lemma MarkStep(c: Config, s: Sys, pending: nat, rest: seq<Op>, o: Oracle)
    requires s.tick == [MarkBrief(pending)] + rest
    ensures Step(c, s, Run(TheTick, o)) == Noted(s, BriefSent(pending), o.at, o.gap).(tick := rest)
  {
    hide NotedAll;
    assert s.tick[1..] == rest && s.tick[0] == MarkBrief(pending);
    assert s.(row := s.row) == s;
    NotedOne(s, BriefSent(pending), o.at, o.gap);
  }

  lemma BriefGoes(c: Config, s: Sys)
    requires s.log == Openers() && s.ledger.told == {} && s.now == 100
    ensures Exec(c, HandedOver(s), [Goes(TheTick, 100), Goes(TheTick, 100), Goes(TheTick, 100)]) == SolversKnow(s)
  {
    hide Exec, Step;
    var go := Goes(TheTick, 100);
    var s0 := HandedOver(s);
    var rest := AfterBrief(s);
    ThreeSteps(c, s0, go, go, go);
    BriefStep(c, s0, 2, rest, go.oracle);
    BriefedStep(c, s0.(tick := [Briefed(2, 2)] + rest), 2, rest, go.oracle);
    assert InboundIds(Openers()) == {};
    assert {} + InboundIds(s.log) == s.ledger.told;
    MarkStep(c, s0.(tick := [MarkBrief(2)] + rest), 2, rest, go.oracle);
  }

  /** A message after the handoff, a turn that forwards it, and no solver who
      receives it. */
  function LeftBehind(s: Sys): Sys {
    s.(log := s.log + [Message(3, In, Buyer, None, 101)], turn := [], wake := false,
       ledger := s.ledger.(forgotten := false, skipped := false, unsent := true))
  }

  lemma OnlyUnseen(log: seq<Message>)
    requires log == Openers() + [Message(3, In, Buyer, None, 101)]
    ensures var unseen := Unseen(Listed(log), 2); unseen != [] && unseen[|unseen| - 1].id == 3
  {
    hide Listed, Unseen;
    var unseen := Unseen(Listed(log), 2);
    ListedElements(log);
    UnseenAre(Listed(log), 2);
    UnseenIsThere(log, 2, 2);
    assert unseen[|unseen| - 1] in unseen;
    assert forall m :: m in log && m.direction.In? ==> m == log[2];
  }

  lemma ForwardStep(c: Config, s: Sys)
    requires s.turn == [Forward] && s.log == Openers() + [Message(3, In, Buyer, None, 101)] && LastSeen(s.events) == 2
    ensures Step(c, s, Goes(TheTurn, 100)) == s.(turn := [Forwarded(3, 2, 3)])
  {
    hide Listed, Unseen, LastSeen;
    OnlyUnseen(s.log);
  }

  lemma SeenIsCutoff(events: seq<Event>)
    requires events == HandoffEvents() + [Event(3, 100, BriefSent(2))]
    ensures LastSeen(events) == 2 && HandoffDelivered(events)
  {
    hide LastSeen, Cutoff;
    CutoffAppend([], HandoffEvents()[0]);
    assert [] + [HandoffEvents()[0]] == [HandoffEvents()[0]];
    CutoffAppend([HandoffEvents()[0]], HandoffEvents()[1]);
    assert [HandoffEvents()[0]] + [HandoffEvents()[1]] == HandoffEvents();
    CutoffAppend(HandoffEvents(), Event(3, 100, BriefSent(2)));
    NothingSeen();
    BriefIsDelivered(events);
  }

  lemma NothingSeen()
    ensures LastSeen([]) == 0
  {
  }

  lemma BriefIsDelivered(events: seq<Event>)
    requires events == HandoffEvents() + [Event(3, 100, BriefSent(2))]
    ensures HandoffDelivered(events)
  {
    assert events[1] in events && events[2] in events;
    assert IsHandoffBrief(events, 2) && Delivered(events, 2);
  }

  function UpdateMoves(): seq<Move> {
    [Receive(Buyer, 101, 0), StartTurn, Goes(TheTurn, 100)] + [Goes(TheTurn, 100), Fails(TheTurn)]
  }

  lemma LoadForwards(c: Config, s: Sys, o: Oracle)
    requires s.row.state.HandedOff? && s.turn == [Load]
    ensures Step(c, s, Run(TheTurn, o)) == s.(turn := [Forward])
  {
  }

  lemma NoSolver(c: Config, s: Sys, n: nat, seen: nat, last: nat)
    requires s.turn == [Forwarded(n, seen, last)]
    ensures Step(c, s, Fails(TheTurn)) == s.(turn := [], ledger := s.ledger.(unsent := true))
  {
  }

  lemma TurnStarts(c: Config, s: Sys)
    requires s.turn == [] && s.wake
    ensures Step(c, s, StartTurn) == Started(s)
  {
  }

  lemma UpdateFails(c: Config, s: Sys)
    requires s.row.state.HandedOff? && s.turn == [] && s.log == Openers() && LastSeen(s.events) == 2
    ensures Exec(c, s, UpdateMoves()) == LeftBehind(s)
  {
    hide Exec, Step, LastSeen;
    var go := Goes(TheTurn, 100);
    ThreeSteps(c, s, Receive(Buyer, 101, 0), StartTurn, go);
    Receives(c, s, Buyer, 101);
    var due := s.(log := s.log + [Message(3, In, Buyer, None, 101)], wake := true);
    TurnStarts(c, due);
    LoadForwards(c, Started(due), go.oracle);
    var forwarding := Started(due).(turn := [Forward]);
    TwoSteps(c, forwarding, go, Fails(TheTurn));
    ForwardStep(c, forwarding);
    NoSolver(c, forwarding.(turn := [Forwarded(3, 2, 3)]), 3, 2, 3);
    ExecAppend(c, s, [Receive(Buyer, 101, 0), StartTurn, go], [go, Fails(TheTurn)]);
  }

  /** The solvers have the handoff's brief, a party writes, and the update
      with its message reaches none of them: no turn is due for it. */
  lemma AnUpdateIsLeftBehind(c: Config, dispute: string) returns (moves: seq<Move>)
    ensures var s := Exec(c, Initial(dispute, 100), moves);
            && s.row.state.HandedOff? && s.turn == [] && !s.wake && s.ledger.unsent && HandoffDelivered(s.events)
            && exists m :: m in s.log && m.direction.In? && m.id > LastSeen(s.events) && m.id !in s.ledger.told
  {
    hide Exec, Step, LastSeen, HandoffDelivered;
    var opens := Opens(c, dispute);
    var s := Opened(dispute);
    var go := Goes(TheTick, 100);
    var fails := [StartTick, go, Fails(TheTick)];
    moves := opens + fails + [go] + [go, go, go] + UpdateMoves();
    ChatFails(c, s);
    HandsOver(c, s);
    OneStep(c, s.(tick := [HandOff(OpeningFailed), Retry(s.row)]), go);
    BriefGoes(c, s);
    SeenIsCutoff(SolversKnow(s).events);
    UpdateFails(c, SolversKnow(s));
    ExecAppend(c, Initial(dispute, 100), opens, fails);
    ExecAppend(c, Initial(dispute, 100), opens + fails, [go]);
    ExecAppend(c, Initial(dispute, 100), opens + fails + [go], [go, go, go]);
    ExecAppend(c, Initial(dispute, 100), opens + fails + [go] + [go, go, go], UpdateMoves());
    var end := LeftBehind(SolversKnow(s));
    assert end.log[2] in end.log;
  }

  // ----- a message before an abandoned opening -----

  lemma OpeningFails(c: Config, s: Sys, rest: seq<Op>)
    requires s.opening == [InFlight(Seller, Opener(Seller), Abort)] + rest
    ensures Step(c, s, Fails(TheOpening)) == s.(opening := [Abandon])
  {
    assert s.opening[1..] == rest;
  }

  lemma Abandons(c: Config, s: Sys)
    requires s.opening == [Abandon] && s.row.state.Opening? && s.events == [] && s.now == 100
    ensures Step(c, s, Goes(TheOpening, 100)) ==
            s.(row := HandOffRow(s.row, OpeningFailed, 100), events := [Event(1, 100, MediationFailed)], opening := [])
  {
    hide NotedAll;
    assert s.opening[1..] == [];
    NotedOne(s.(row := HandOffRow(s.row, OpeningFailed, 100)), MediationFailed, 100, 0);
    assert [] + [Event(1, 100, MediationFailed)] == [Event(1, 100, MediationFailed)];
  }

  /** The buyer replies to its opener, a turn comes for the reply while the
      session is still opening, and then no relay takes the seller's opener:
      the session is handed off, its reply with no solver, and no turn due. */
  lemma AnEarlyReplyIsLeftBehind(c: Config, dispute: string) returns (moves: seq<Move>)
    ensures var s := Exec(c, Initial(dispute, 100), moves);
            && s.row.state.HandedOff? && s.turn == [] && !s.wake && s.opening == [] && s.tick == []
            && s.ledger.skipped && Abandoned(s.events) && !s.ledger.unsent
            && exists m :: m in s.log && m.direction.In? && m.id > LastSeen(s.events) && m.id !in s.ledger.told
  {
    hide Exec, Step;
    var s := Initial(dispute, 100);
    var go := Goes(TheOpening, 100);
    var turn := [Receive(Buyer, 101, 0), StartTurn, Goes(TheTurn, 0)];
    var ends := [go, Fails(TheOpening), go];
    var rest := [Send(Seller, Opener(Seller), WhileLive, Abort), Activate];
    moves := [go, go, go] + turn + ends;
    assert s.opening == [Send(Buyer, Opener(Buyer), WhileLive, Abort)] + rest;
    SendGoes(c, s, TheOpening, Buyer, Opener(Buyer), WhileLive, Abort, rest);
    var greeted := WithOps(SentAndStored(s, Buyer, Opener(Buyer)), TheOpening, rest);
    ThreeSteps(c, greeted, turn[0], turn[1], turn[2]);
    Receives(c, greeted, Buyer, 101);
    var replied := greeted.(log := greeted.log + [Message(2, In, Buyer, None, 101)], wake := true);
    TurnWhileOpening(c, replied, Goes(TheTurn, 0).oracle);
    var skipped := replied.(wake := false, ledger := replied.ledger.(forgotten := false, skipped := true, unsent := false));
    assert rest == [Send(Seller, Opener(Seller), WhileLive, Abort)] + [Activate];
    ThreeSteps(c, skipped, ends[0], ends[1], ends[2]);
    SendPasses(c, skipped, TheOpening, Seller, Opener(Seller), WhileLive, Abort, [Activate], go.oracle);
    OpeningFails(c, skipped.(opening := [InFlight(Seller, Opener(Seller), Abort)] + [Activate]), [Activate]);
    Abandons(c, skipped.(opening := [Abandon]));
    ExecAppend(c, s, [go, go, go], turn);
    ExecAppend(c, s, [go, go, go] + turn, ends);
    var end := Exec(c, s, moves);
    assert end.log[1] in end.log;
    assert end.events[..0] == [];
    assert LastSeen(end.events) == 0;
  }
}

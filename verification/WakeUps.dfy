/** No silent stall: an active session with no turn under way has a timer, or
    a turn is due, or it stalls in one of five named ways. */
module WakeUps {
  import opened Domain
  import opened Next
  import opened Policy
  import opened MessageLog
  import opened Views
  import opened EventLog
  import opened Sessions
  import opened JudgeState
  import opened Mediation
  import opened Effects
  import opened Protocol
  import opened Turns
  import opened Stall
  import opened Flood
  import Timers

  /** Neither party wrote after what Serbero last sent it, by time. */
  ghost predicate NothingToJudge(log: seq<Message>) {
    forall p, m :: m in log && IsIn(m, p) ==> exists x :: x in log && IsOut(x, p) && !Before(ByTime, x, m)
  }

  /** The newest row, by arrival, is Serbero's. */
  predicate OursLast(log: seq<Message>) {
    log != [] && log[|log| - 1].direction.Out?
  }

  /** The session was not handed off, guided or ended yet. */
  predicate Early(s: Sys) {
    s.row.state.Opening? || s.row.state.Active?
  }

  /** A turn is due, or nothing will start one. */
  ghost predicate Excused(s: Sys) {
    s.wake || s.ledger.forgotten || s.ledger.skipped || NothingToJudge(s.log)
  }

  /** The turn under way will judge what it read, or hand off. */
  predicate Busy(turn: seq<Op>) {
    turn != [] && (turn[0].Load? || turn[0].HandOff? || IsJudging(turn[|turn| - 1]))
  }

  /** What arrived after the first `n` rows makes a turn due. */
  ghost predicate Covered(s: Sys, n: nat) {
    n <= |s.log| && forall i :: n <= i < |s.log| && s.log[i].direction.In? ==> s.wake
  }

  ghost predicate WakeOk(s: Sys) {
    && (Early(s) && Unjudged(s) ==> Excused(s) || Busy(s.turn))
    && (Early(s) && s.ledger.forgotten && !s.wake ==> s.log == [] || OursLast(s.log))
    && (forall op :: op in s.turn && IsJudging(op) ==> Covered(s, op.n))
  }

  // ----- rows Serbero stores -----

  ghost predicate SameOrOurs(log: seq<Message>, after: seq<Message>) {
    after == log || (after != [] && after[..|after| - 1] == log && OursLast(after))
  }

  lemma OursKeepNothingToJudge(log: seq<Message>, after: seq<Message>)
    requires SameOrOurs(log, after) && NothingToJudge(log)
    ensures NothingToJudge(after)
  {
    hide Before;
    forall p, m | m in after && IsIn(m, p)
      ensures exists x :: x in after && IsOut(x, p) && !Before(ByTime, x, m)
    {
      assert m in log;
      var x :| x in log && IsOut(x, p) && !Before(ByTime, x, m);
      assert x in after;
    }
  }

  lemma OursAreNotUnjudged(s: Sys, after: Sys)
    requires SameOrOurs(s.log, after.log) && after.evaluations == s.evaluations && Unjudged(after)
    ensures Unjudged(s)
  {
    var m :| m in after.log && m.direction.In? && m.id > LastJudged(after.evaluations);
    assert m in s.log;
  }

  lemma CoveredStays(s: Sys, after: Sys, n: nat)
    requires Covered(s, n) && SameOrOurs(s.log, after.log) && (s.wake ==> after.wake)
    ensures Covered(after, n)
  {
    forall i | n <= i < |after.log| && after.log[i].direction.In?
      ensures after.wake
    {
      assert after.log[i] == s.log[i];
    }
  }

  /** A step that judges nothing keeps the wake-ups, if what is left of the
      turn is still to judge or excused. */
  lemma KeepsWake(s: Sys, after: Sys)
    requires WakeOk(s) && SameOrOurs(s.log, after.log) && after.evaluations == s.evaluations
    requires s.wake ==> after.wake
    requires after.ledger.forgotten == s.ledger.forgotten && (s.ledger.skipped ==> after.ledger.skipped)
    requires Early(after) ==> Early(s)
    requires Early(after) && Busy(s.turn) ==> Busy(after.turn) || Excused(after)
    requires forall op :: op in after.turn && IsJudging(op) ==> Covered(s, op.n)
    ensures WakeOk(after)
  {
    hide Covered, NothingToJudge, Unjudged, Busy;
    if Early(after) && Unjudged(after) {
      OursAreNotUnjudged(s, after);
      if NothingToJudge(s.log) {
        OursKeepNothingToJudge(s.log, after.log);
      }
    }
    forall op | op in after.turn && IsJudging(op)
      ensures Covered(after, op.n)
    {
      CoveredStays(s, after, op.n);
    }
  }

  // ----- a judging turn -----

  /** A turn finds nothing to judge only if no message came since it read. */
  lemma NothingWrote(s: Sys, n: nat)
    requires Arrival(s.log) && Covered(s, n) && !s.wake
    requires !Wrote(Listed(Prefix(s.log, n)), Buyer) && !Wrote(Listed(Prefix(s.log, n)), Seller)
    ensures NothingToJudge(s.log)
  {
    hide Listed, Wrote, Before;
    var read := s.log[..n];
    ArrivalPrefix(s.log, n);
    WroteIff(read, Buyer);
    WroteIff(read, Seller);
    forall p, m | m in s.log && IsIn(m, p)
      ensures exists x :: x in s.log && IsOut(x, p) && !Before(ByTime, x, m)
    {
      var i :| 0 <= i < |s.log| && s.log[i] == m;
      assert i < n && read[i] == m;
      var x :| x in read && IsOut(x, p) && !Before(ByTime, x, m);
      assert x in s.log;
    }
  }

  lemma JudgingStaysBusy(c: Config, s: Sys, op: Op, o: Oracle)
    requires IsJudging(op) && !op.Record? && OpReads(c, s, op) && Early(s)
    requires Arrival(s.log) && Covered(s, op.n)
    ensures var (e, left) := RunTurnOp(c, s, op, [], o);
            Busy(left) || e.Defer? || s.wake || NothingToJudge(s.log)
  {
    hide Strikes, Floods, Listed, Changes, WithLanguage, NothingToJudge, Covered, Wrote, Arrival;
    if op.CheckFlood? && o.ok && !s.wake
       && !Wrote(Listed(Prefix(s.log, op.n)), Buyer) && !Wrote(Listed(Prefix(s.log, op.n)), Seller) {
      NothingWrote(s, op.n);
    }
  }

  lemma RecordKeepsWake(c: Config, s: Sys, op: Op, o: Oracle)
    requires WakeOk(s) && Arrival(s.log) && s.turn == [op] && op.Record?
    ensures WakeOk(Step(c, s, Run(TheTurn, o)))
  {
    hide Step, ActionOps, Decide, OnlyCourtesy, Resent, NothingToJudge;
    var after := Step(c, s, Run(TheTurn, o));
    RecordIs(c, s, op, o);
    assert op in s.turn;
    ActionDoesNotJudge(op.turn.next, Decide(op.turn));
    JudgedIsBounded(s.evaluations, Evaluation(LastId(Prefix(s.log, op.n)), Decide(op.turn)));
    if Unjudged(after) {
      var m :| m in s.log && m.direction.In? && m.id > LastJudged(after.evaluations);
      var i :| 0 <= i < |s.log| && s.log[i] == m;
      NewerIsLater(s.log, op.n, i);
      assert s.wake;
    }
  }

  lemma NewerIsLater(log: seq<Message>, n: nat, i: nat)
    requires Arrival(log) && n <= |log| && i < |log| && log[i].id > LastId(log[..n])
    ensures n <= i
  {
    if n > 0 {
      assert log[..n][n - 1] == log[n - 1];
    }
  }

  // ----- a turn's other steps -----

  lemma LoadIsBusy(c: Config, s: Sys, rest: seq<Op>, o: Oracle)
    ensures var (e, left) := RunTurnOp(c, s, Load, rest, o);
            && (Early(s) ==> Busy(left) || e.Defer? || e.SkipTurn?)
            && (forall x :: x in left && IsJudging(x) ==> x.n == |s.log|)
  {
  }

  lemma HandsOff(s: Sys, a: Actor, op: Op, rest: seq<Op>, o: Oracle)
    requires op.HandOff? && Early(s)
    ensures RowAfter(s, RunSharedOp(s, a, op, rest, o).0).state.HandedOff?
  {
  }

  lemma StoresOurs(s: Sys, e: Effect, o: Oracle)
    ensures SameOrOurs(s.log, Apply(s, e, o).log)
  {
    hide Apply;
    ApplyIs(s, e, o);
  }

  lemma NothingRecorded(s: Sys, a: Actor, op: Op, o: Oracle, e: Effect)
    requires EffectAllowed(s, a, op, o, e) && (!op.Record? || !a.TheTurn?)
    ensures !e.StoreEvaluation?
  {
  }

  /** A turn's step before its judgment: it stays busy, or a turn is due, or
      there is nothing to judge. */
  lemma TurnStaysBusy(c: Config, s: Sys, op: Op, rest: seq<Op>, o: Oracle)
    requires ProtocolOk(s) && TurnReads(c, s) && WakeOk(s) && s.turn == [op] + rest && !op.Record?
    ensures var (e, left) := RunOp(c, s, TheTurn, op, rest, o);
            && (Early(s) && RowAfter(s, e).state != HandedOff && Busy(s.turn) ==>
                  Busy(left) || e.Defer? || e.SkipTurn? || s.wake || NothingToJudge(s.log))
            && (forall x :: x in left && IsJudging(x) ==> Covered(s, x.n))
  {
    hide RunTurnOp, RunSharedOp, RunTickOp, RunOpeningOp, ProtocolOk, NothingToJudge, OpReads, TurnMay;
    assert op in s.turn;
    MayRun(s, op);
    LogsOk(s);
    if op.Load? {
      LoadIsBusy(c, s, rest, o);
    } else if IsJudging(op) {
      JudgingIsAlone(c, s);
      JudgingCovered(c, s, op, o);
      if Early(s) {
        JudgingStaysBusy(c, s, op, o);
      }
    } else {
      ActingCovered(c, s, op, rest, o);
      if op.HandOff? && Early(s) {
        HandsOff(s, TheTurn, op, rest, o);
      } else if Busy(s.turn) && !op.HandOff? {
        assert rest != [] && rest[|rest| - 1] == s.turn[|s.turn| - 1];
        var pre := PrefaceExpands(s, op, rest, o);
      }
    }
  }

  lemma JudgingCovered(c: Config, s: Sys, op: Op, o: Oracle)
    requires IsJudging(op) && !op.Record? && Covered(s, op.n)
    ensures forall x :: x in RunTurnOp(c, s, op, [], o).1 && IsJudging(x) ==> Covered(s, x.n)
  {
    hide RunTurnOp, Covered, Judged;
    if op.ReadHold? {
      ReadHoldIs(c, s, op, o);
    } else {
      JudgingNext(c, s, op, o);
    }
  }

  lemma ReadHoldIs(c: Config, s: Sys, op: Op, o: Oracle)
    requires op.ReadHold?
    ensures RunTurnOp(c, s, op, [], o).1 == [Judged(c, s, op.session, op.n, op.facts, op.changed, op.row)]
  {
    hide Judged;
  }

  lemma ActingCovered(c: Config, s: Sys, op: Op, rest: seq<Op>, o: Oracle)
    requires WakeOk(s) && s.turn == [op] + rest && !IsJudging(op) && !op.Load?
    ensures forall x :: x in RunOp(c, s, TheTurn, op, rest, o).1 && IsJudging(x) ==> Covered(s, x.n)
  {
    hide RunOp, Covered, NothingToJudge, Unjudged;
    forall x | x in RunOp(c, s, TheTurn, op, rest, o).1 && IsJudging(x)
      ensures Covered(s, x.n)
    {
      LeftIsOld(c, s, op, rest, o, x);
      assert x in s.turn;
    }
  }

  lemma TurnKeepsWake(c: Config, s: Sys, o: Oracle)
    requires ProtocolOk(s) && TurnReads(c, s) && WakeOk(s) && s.turn != []
    ensures WakeOk(Step(c, s, Run(TheTurn, o)))
  {
    hide RunOp, Apply, ProtocolOk, NothingToJudge, OpReads, EffectAllowed, Busy, SameOrOurs;
    var op, rest := s.turn[0], s.turn[1..];
    assert s.turn == [op] + rest && op in s.turn;
    LogsOk(s);
    if op.Record? {
      assert s.turn == [op];
      RecordKeepsWake(c, s, op, o);
    } else {
      var (e, left) := RunOp(c, s, TheTurn, op, rest, o);
      var applied := Apply(s, e, o);
      TurnStaysBusy(c, s, op, rest, o);
      RunEffects(c, s, TheTurn, op, rest, o);
      NothingRecorded(s, TheTurn, op, o, e);
      RowIsOk(s);
      MayRun(s, op);
      TurnsDoNotActivate(op);
      EffectMovesRow(s, TheTurn, op, o, e);
      ApplyIs(s, e, o);
      StoresOurs(s, e, o);
      if NothingToJudge(s.log) {
        OursKeepNothingToJudge(s.log, applied.log);
      }
      KeepsWake(s, applied.(turn := left));
    }
  }

  // ----- every step -----

  lemma OthersKeepWake(c: Config, s: Sys, a: Actor, o: Oracle)
    requires ProtocolOk(s) && WakeOk(s) && !a.TheTurn? && OpsOf(s, a) != []
    ensures WakeOk(Step(c, s, Run(a, o)))
  {
    hide RunOp, Apply, NothingToJudge, EffectAllowed, Busy, SameOrOurs, Covered;
    hide TurnMay, TickMay, SentOwn, Logs, StillOpening;
    var op, rest := OpsOf(s, a)[0], OpsOf(s, a)[1..];
    assert op in OpsOf(s, a);
    var e := RunOp(c, s, a, op, rest, o).0;
    RunEffects(c, s, a, op, rest, o);
    NothingRecorded(s, a, op, o, e);
    if a.TheTick? {
      NotActivating(s, a, op);
    }
    EffectMovesRow(s, a, op, o, e);
    ApplyIs(s, e, o);
    StoresOurs(s, e, o);
    KeepsWake(s, Step(c, s, Run(a, o)));
  }

  lemma StartKeepsWake(c: Config, s: Sys, m: Move)
    requires WakeOk(s) && (m.StartTurn? || m.Restart?)
    ensures WakeOk(Step(c, s, m))
  {
    hide RunOp, NothingToJudge, HasRemedy, Unjudged;
  }

  lemma ReceivingKeepsWake(c: Config, s: Sys, m: Move)
    requires WakeOk(s) && m.Receive?
    ensures WakeOk(Step(c, s, m))
  {
    hide RunOp, NothingToJudge, Unjudged;
  }

  lemma OtherMovesKeepWake(c: Config, s: Sys, m: Move)
    requires WakeOk(s) && (m.StartTick? || m.Advance? || m.Supersede? || m.Close?)
    ensures WakeOk(Step(c, s, m))
  {
    hide RunOp, NothingToJudge, Unjudged, Busy, Covered;
    KeepsWake(s, Step(c, s, m));
  }

  lemma StepKeepsWake(c: Config, s: Sys, m: Move)
    requires ProtocolOk(s) && TurnReads(c, s) && WakeOk(s)
    ensures WakeOk(Step(c, s, m))
  {
    hide Step, ProtocolOk, TurnReads, WakeOk;
    match m
    case Run(a, o) =>
      if OpsOf(s, a) == [] {
        NothingToRun(c, s, m);
      } else if a.TheTurn? {
        TurnKeepsWake(c, s, o);
      } else {
        OthersKeepWake(c, s, a, o);
      }
    case Receive(_, _, _) => ReceivingKeepsWake(c, s, m);
    case StartTurn => StartKeepsWake(c, s, m);
    case Restart => StartKeepsWake(c, s, m);
    case _ => OtherMovesKeepWake(c, s, m);
  }

  lemma {:induction false} RunsKeepWake(c: Config, dispute: string, now: int, moves: seq<Move>)
    ensures WakeOk(Exec(c, Initial(dispute, now), moves))
  {
    hide Step;
    if moves != [] {
      var before := moves[..|moves| - 1];
      RunsKeepWake(c, dispute, now, before);
      RunsAreOk(c, dispute, now, before);
      RunsRead(c, dispute, now, before);
      StepKeepsWake(c, Exec(c, Initial(dispute, now), before), moves[|moves| - 1]);
    }
  }

  // ----- no silent stall -----

  /** A message waits for a judgment that nothing will start: every one is
      stamped before what Serbero sent since; or the last start passed it
      over, because Serbero's own row is the newest; or a turn came for it
      while the session was still opening. */
  ghost predicate Overlooked(s: Sys) {
    && Unjudged(s)
    && (NothingToJudge(s.log) || (s.ledger.forgotten && OursLast(s.log)) || s.ledger.skipped)
  }

  /** In every run, an active session with no turn under way has a time from
      which the timers act, or a turn is due; or it stalls in one of five
      ways: its unjudged messages were overlooked in one of the three ways
      above, or every message is judged and the last judged turn did nothing
      but repeat a courtesy in a new language, or was cut short, by a failed
      send, a lost row or a restart, before it asked, held, guided or handed
      off. */
  lemma {:induction false} NoSilentStall(c: Config, dispute: string, now: int, moves: seq<Move>)
    ensures var s := Exec(c, Initial(dispute, now), moves);
            s.row.state.Active? && s.turn == [] ==>
              || (exists deadline :: ActsFrom(c, s, deadline))
              || s.wake
              || Overlooked(s)
              || (!Unjudged(s) && (s.ledger.courtesy || s.ledger.aborted))
  {
    hide Exec, ActsFrom, NothingToJudge;
    var s := Exec(c, Initial(dispute, now), moves);
    DeadlineOrUnjudged(c, dispute, now, moves);
    RunsKeepWake(c, dispute, now, moves);
  }
}

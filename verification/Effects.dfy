/** What one step can do to a session's row and logs: the few effects each
    operation has, proved once, so that later proofs need not look at the
    operations again. */
module Effects {
  import opened Domain
  import opened Next
  import opened Policy
  import opened MessageLog
  import opened Views
  import opened EventLog
  import opened Sessions
  import opened Mediation

  // ----- the logs only grow -----

  ghost predicate Logs(s: Sys) {
    && Arrival(s.log)
    && Appended(s.events)
    && (forall e :: e in s.events ==> e.at <= s.now)
  }

  lemma StoredKeepsLogs(s: Sys, direction: Direction, p: Party, t: Option<Template>, createdAt: int, gap: nat)
    requires Logs(s)
    ensures var after := Stored(s, direction, p, t, createdAt, gap);
            Logs(after) && after == s.(log := after.log) && s.log <= after.log
  {
  }

  lemma StoredIs(s: Sys, p: Party, createdAt: int, gap: nat)
    ensures Stored(s, In, p, None, createdAt, gap) == s.(log := Stored(s, In, p, None, createdAt, gap).log)
  {
  }

  lemma NotedKeepsLogs(s: Sys, body: EventBody, at: int, gap: nat)
    requires Logs(s)
    ensures var after := Noted(s, body, at, gap);
            Logs(after) && after == s.(events := after.events) && s.events <= after.events
  {
  }

  lemma NotedAllKeepsLogs(s: Sys, bodies: seq<EventBody>, at: int, gap: nat)
    requires Logs(s)
    ensures var after := NotedAll(s, bodies, at, gap);
            Logs(after) && after == s.(events := after.events) && s.events <= after.events
    decreases |bodies|
  {
    if bodies != [] {
      NotedKeepsLogs(s, bodies[0], at, gap);
      NotedAllKeepsLogs(Noted(s, bodies[0], at, gap), bodies[1..], at, 0);
    }
  }

  /** Whatever a step does, the logs only grow, in order. */
  lemma ApplyKeepsLogs(s: Sys, e: Effect, o: Oracle)
    requires Logs(s)
    ensures var after := Apply(s, e, o);
            && Logs(after) && s.log <= after.log && s.events <= after.events
            && s.evaluations <= after.evaluations && after.now == s.now
            && after.opening == s.opening && after.turn == s.turn && after.tick == s.tick
  {
    hide NotedAll, Stored, Noted;
    match e
    case Append(row, bodies) => NotedAllKeepsLogs(s.(row := row), bodies, o.at, o.gap);
    case StoreOut(p, t) => StoredKeepsLogs(s, Out, p, Some(t), Min(o.at, s.now), o.gap);
    case BeginHold => NotedKeepsLogs(s, Held(LastId(s.log)), s.now, o.gap);
    case _ =>
  }

  /** The events a transaction appends carry exactly its bodies, and nothing
      else changes. */
  lemma NotedAllBodies(s: Sys, bodies: seq<EventBody>, at: int, gap: nat)
    ensures var events := NotedAll(s, bodies, at, gap).events;
            && |events| == |s.events| + |bodies|
            && s.events <= events
            && forall i :: 0 <= i < |bodies| ==> events[|s.events| + i].body == bodies[i]
    ensures NotedAll(s, bodies, at, gap) == s.(events := NotedAll(s, bodies, at, gap).events)
    decreases |bodies|
  {
    if bodies != [] {
      var next := Noted(s, bodies[0], at, gap);
      NotedAllBodies(next, bodies[1..], at, 0);
      var events := NotedAll(s, bodies, at, gap).events;
      forall i | 0 <= i < |bodies|
        ensures events[|s.events| + i].body == bodies[i]
      {
        if i == 0 {
          assert events[|s.events|] == next.events[|s.events|];
        } else {
          assert bodies[i] == bodies[1..][i - 1];
        }
      }
    }
  }

  lemma NotedAllNewEvents(s: Sys, bodies: seq<EventBody>, at: int, gap: nat, e: Event)
    requires e in NotedAll(s, bodies, at, gap).events
    ensures e in s.events || exists i :: 0 <= i < |bodies| && e.body == bodies[i]
  {
    NotedAllBodies(s, bodies, at, gap);
    var events := NotedAll(s, bodies, at, gap).events;
    var k :| 0 <= k < |events| && events[k] == e;
    if k < |s.events| {
      assert e == s.events[k];
    } else {
      assert e.body == bodies[k - |s.events|];
    }
  }

  lemma NotedOne(s: Sys, a: EventBody, at: int, gap: nat)
    ensures NotedAll(s, [a], at, gap) == Noted(s, a, at, gap)
  {
    assert [a][1..] == [];
    assert NotedAll(s, [a], at, gap) == NotedAll(Noted(s, a, at, gap), [], at, 0);
  }

  lemma NotedTwo(s: Sys, a: EventBody, b: EventBody, at: int, gap: nat)
    ensures NotedAll(s, [a, b], at, gap) == Noted(Noted(s, a, at, gap), b, at, 0)
  {
    assert [a, b][1..] == [b];
    NotedOne(Noted(s, a, at, gap), b, at, 0);
    assert NotedAll(s, [a, b], at, gap) == NotedAll(Noted(s, a, at, gap), [b], at, 0);
  }

  // ----- the effects of each operation -----

  /** Everything but the languages and the update time. */
  predicate OnlyLanguages(a: Row, b: Row) {
    b == a.(buyerLanguage := b.buyerLanguage, sellerLanguage := b.sellerLanguage, updatedAt := b.updatedAt)
  }

  predicate AppendAllowed(s: Sys, op: Op, row: Row, bodies: seq<EventBody>) {
    match op
    case HandOff(reason) =>
      && s.row.state.Mediating()
      && row == HandOffRow(s.row, reason, s.now)
      && bodies == [HandoffRecorded(reason, LastId(s.log)), BriefPending(AboutHandoff)]
    case StartGuide(path) =>
      && s.row.state.Active?
      && row == StartGuidingRow(s.row, s.now)
      && bodies == [Guided(path), BriefPending(AboutGuide)]
    case Abandon => row == HandOffRow(s.row, OpeningFailed, s.now) && bodies == [MediationFailed]
    case CheckFlood(_, n) => row == s.row && forall i :: 0 <= i < |bodies| ==> bodies[i].FloodStrike?
    case MarkBrief(pending) => row == s.row && bodies == [BriefSent(pending)]
    case MarkUpdate(last) => row == s.row && bodies == [UpdateSent(last)]
    case _ => false
  }

  predicate EffectAllowed(s: Sys, a: Actor, op: Op, o: Oracle, e: Effect) {
    match e
    case NoEffect => true
    case SetRow(row) =>
      || (op.Activate? && row == SetStateRow(s.row, Active, s.now))
      || (op.UpdateLanguages? && OnlyLanguages(s.row, row))
    case Append(row, bodies) => AppendAllowed(s, op, row, bodies)
    case RelayTook(p, t) => op.InFlight? && op.party == p && op.template == t && o.ok
    case StoreOut(p, t) => op.StoreRow? && op.party == p && op.template == t && o.ok
    case LoseRow(p, t, aborts) =>
      op.StoreRow? && op.party == p && op.template == t && !o.ok && (aborts ==> a.TheTurn? && op.onFailure.Abort?)
    case StoreEvaluation(_, _, _) => op.Record? && a.TheTurn?
    case CountQuestion(p, q, first) => op == CountRound(p, q, first) && a.TheTurn?
    case BeginHold => op.StartHold? && a.TheTurn?
    case TellSolvers(_) => op.Briefed? || op.Forwarded?
    case AbortTurn => a.TheTurn? && (op.Send? || op.InFlight?) && op.onFailure.Abort?
    case Defer => a.TheTurn? && (op.Load? || op.CheckFlood? || op.CheckNewer?)
    case SkipTurn => a.TheTurn? && op.Load?
    case KeepUnseen => a.TheTurn? && op.Forwarded? && !o.ok
  }

  lemma SharedEffects(s: Sys, a: Actor, op: Op, rest: seq<Op>, o: Oracle)
    ensures EffectAllowed(s, a, op, o, RunSharedOp(s, a, op, rest, o).0)
    ensures op.StoreRow? && o.ok ==> RunSharedOp(s, a, op, rest, o) == (StoreOut(op.party, op.template), rest)
    ensures op.StoreRow? && !o.ok ==> RunSharedOp(s, a, op, rest, o).0.LoseRow?
    ensures op.InFlight? && o.ok ==>
              RunSharedOp(s, a, op, rest, o)
              == (RelayTook(op.party, op.template), [StoreRow(op.party, op.template, op.onFailure)] + rest)
  {
  }

  lemma TurnEffects(c: Config, s: Sys, op: Op, rest: seq<Op>, o: Oracle)
    ensures EffectAllowed(s, TheTurn, op, o, RunTurnOp(c, s, op, rest, o).0)
  {
    hide Decide, OnlyCourtesy, Judged, Listed, Floods, Unseen, InboundIds;
  }

  lemma OtherEffects(c: Config, s: Sys, op: Op, rest: seq<Op>, o: Oracle)
    ensures EffectAllowed(s, TheTick, op, o, RunTickOp(c, s, op, rest, o).0)
    ensures EffectAllowed(s, TheOpening, op, o, RunOpeningOp(s, op, rest).0)
  {
    hide RetryOps, TimerOps, ClocksRead;
  }

  /** Every step of every actor has one of the allowed effects. */
  lemma RunEffects(c: Config, s: Sys, a: Actor, op: Op, rest: seq<Op>, o: Oracle)
    ensures EffectAllowed(s, a, op, o, RunOp(c, s, a, op, rest, o).0)
    ensures op.StoreRow? && o.ok ==> RunOp(c, s, a, op, rest, o) == (StoreOut(op.party, op.template), rest)
    ensures op.StoreRow? && !o.ok ==> RunOp(c, s, a, op, rest, o).0.LoseRow?
    ensures op.InFlight? && o.ok ==>
              RunOp(c, s, a, op, rest, o)
              == (RelayTook(op.party, op.template), [StoreRow(op.party, op.template, op.onFailure)] + rest)
  {
    hide RunSharedOp, RunTurnOp, RunTickOp, RunOpeningOp, EffectAllowed;
    SharedEffects(s, a, op, rest, o);
    TurnEffects(c, s, op, rest, o);
    OtherEffects(c, s, op, rest, o);
  }

  // ----- what the effects mean for the row and the log -----

  /** The state never goes back, an ended session never changes state, and
      the first handoff reason stays. */
  predicate RowMoves(before: Row, after: Row) {
    && before.state.Rank() <= after.state.Rank()
    && (before.state.Terminal() ==> after.state == before.state)
    && (before.handoffReason.Some? ==> after.handoffReason == before.handoffReason)
  }

  ghost predicate RowOk(row: Row) {
    && (row.handoffReason.Some? ==> row.state.Rank() >= HandedOff.Rank())
    && (row.state.HandedOff? ==> row.handoffReason.Some?)
  }

  function RowAfter(s: Sys, e: Effect): Row {
    match e
    case SetRow(row) => row
    case Append(row, _) => row
    case CountQuestion(p, _, first) => CountRoundRow(s.row, p, first, s.now)
    case _ => s.row
  }

  function LedgerAfter(s: Sys, e: Effect): Ledger {
    match e
    case StoreOut(_, t) => if IsQuestion(t) then s.ledger.(holds := false) else s.ledger
    case RelayTook(p, t) => s.ledger.(sent := s.ledger.sent + multiset{(p, t)})
    case LoseRow(p, t, aborts) =>
      s.ledger.(lost := s.ledger.lost + multiset{(p, t)}, aborted := s.ledger.aborted || aborts)
    case StoreEvaluation(_, courtesy, resent) =>
      s.ledger.(courtesy := courtesy, aborted := false, resent := s.ledger.resent + resent)
    case CountQuestion(p, q, _) => s.ledger.(counted := s.ledger.counted + {(p, q)})
    case BeginHold => s.ledger.(holds := true)
    case TellSolvers(ids) => s.ledger.(told := s.ledger.told + ids)
    case AbortTurn => s.ledger.(aborted := true)
    case SkipTurn => s.ledger.(skipped := true)
    case KeepUnseen => s.ledger.(unsent := true)
    case _ => s.ledger
  }

  /** The row, the log and the ledger after a step. */
  lemma ApplyIs(s: Sys, e: Effect, o: Oracle)
    ensures var after := Apply(s, e, o);
            && after.row == RowAfter(s, e)
            && after.ledger == LedgerAfter(s, e)
            && after.log == (if e.StoreOut?
                             then s.log + [Message(LastId(s.log) + 1 + o.gap, Out, e.party, Some(e.template),
                                                   Min(o.at, s.now))]
                             else s.log)
            && (!e.Append? && !e.BeginHold? ==> after.events == s.events)
            && (!e.StoreEvaluation? ==> after.evaluations == s.evaluations)
            && after.wake == (s.wake || e.Defer?)
            && after.opening == s.opening && after.turn == s.turn && after.tick == s.tick && after.now == s.now
  {
    if e.Append? {
      NotedAllBodies(s.(row := e.row), e.bodies, o.at, o.gap);
    }
  }

  lemma RestartIs(c: Config, s: Sys)
    ensures Step(c, s, Restart) == Restarted(s)
  {
    hide Restarted;
  }

  lemma HandOffIs(s: Sys, a: Actor, op: Op, rest: seq<Op>, o: Oracle)
    requires op.HandOff? && s.row.state.Mediating()
    ensures RunSharedOp(s, a, op, rest, o) ==
            (Append(HandOffRow(s.row, op.reason, s.now),
                    [HandoffRecorded(op.reason, LastId(s.log)), BriefPending(AboutHandoff)]),
             [Brief(PendingId(s, o)), TellHandoff(Buyer), TellHandoff(Seller)] + rest)
  {
  }

  lemma RunIs(c: Config, s: Sys, a: Actor, o: Oracle)
    requires OpsOf(s, a) != []
    ensures var (e, left) := RunOp(c, s, a, OpsOf(s, a)[0], OpsOf(s, a)[1..], o);
            Step(c, s, Run(a, o)) == WithOps(Apply(s, e, o), a, left)
  {
    hide RunOp, Apply, WithOps;
  }

  lemma BeginHoldIs(s: Sys, o: Oracle)
    ensures var noted := Noted(s, Held(LastId(s.log)), s.now, o.gap);
            Apply(s, BeginHold, o) == noted.(ledger := noted.ledger.(holds := true))
  {
    hide NotedAll, Noted;
  }

  lemma NotedIs(s: Sys, body: EventBody, at: int, gap: nat)
    ensures Noted(s, body, at, gap) == s.(events := Noted(s, body, at, gap).events)
  {
  }

  lemma AppendIs(s: Sys, e: Effect, o: Oracle)
    requires e.Append?
    ensures Apply(s, e, o) == NotedAll(s.(row := e.row), e.bodies, o.at, o.gap)
  {
    hide NotedAll;
  }

  lemma EffectMovesRow(s: Sys, a: Actor, op: Op, o: Oracle, e: Effect)
    requires EffectAllowed(s, a, op, o, e) && RowOk(s.row)
    requires op.Activate? ==> s.row.state.Opening? || s.row.state.Terminal()
    ensures var row := RowAfter(s, e);
            && RowMoves(s.row, row) && RowOk(row)
            && (row.state.Active? && !s.row.state.Active? ==> op.Activate?)
            && (row.state.Guiding? && !s.row.state.Guiding? ==> s.row.state.Active?)
            && (row.state != s.row.state && !op.Activate? ==> s.row.state.Mediating())
            && (!e.CountQuestion? ==> row.buyerRounds == s.row.buyerRounds && row.sellerRounds == s.row.sellerRounds)
  {
  }

  lemma NotRecorded(s: Sys, op: Op, o: Oracle, e: Effect)
    requires EffectAllowed(s, TheTurn, op, o, e) && !op.Record?
    ensures !e.StoreEvaluation?
  {
  }

  /** The send cannot go out in this step, or its row cannot be stored. */
  predicate FailsNow(s: Sys, op: Op, f: OnFailure, o: Oracle) {
    match op
    case Send(_, _, guard, onFailure) => onFailure == f && !guard.Allows(s.row.state)
    case InFlight(_, _, onFailure) => onFailure == f && !o.ok
    case StoreRow(_, _, onFailure) => onFailure == f && !o.ok
    case _ => false
  }
}

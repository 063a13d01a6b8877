/** What every run of a session keeps: the order of its states, one handoff
    with its first reason, and nothing asked after it. */
module Protocol {
  import opened Domain
  import opened Next
  import opened Policy
  import opened MessageLog
  import opened Views
  import opened EventLog
  import opened Sessions
  import opened Mediation
  import opened Effects
  import Timers

  lemma RunKeepsLogs(c: Config, s: Sys, a: Actor, o: Oracle)
    requires Logs(s)
    ensures var after := Step(c, s, Run(a, o));
            && Logs(after) && s.log <= after.log && s.events <= after.events
            && s.evaluations <= after.evaluations && s.now == after.now
  {
    hide RunOp, Apply;
    if OpsOf(s, a) != [] {
      ApplyKeepsLogs(s, RunOp(c, s, a, OpsOf(s, a)[0], OpsOf(s, a)[1..], o).0, o);
    }
  }

  lemma StepKeepsLogs(c: Config, s: Sys, m: Move)
    requires Logs(s)
    ensures var after := Step(c, s, m);
            && Logs(after) && s.log <= after.log && s.events <= after.events
            && s.evaluations <= after.evaluations && s.now <= after.now
  {
    hide RunOp, Stored, Noted;
    match m
    case Run(a, o) => RunKeepsLogs(c, s, a, o);
    case Receive(p, createdAt, gap) => StoredKeepsLogs(s, In, p, None, createdAt, gap);
    case Supersede(at, gap) => NotedKeepsLogs(s.(row := SetStateRow(s.row, Superseded, s.now)), SessionEnded, at, gap);
    case Close(at, gap) => NotedKeepsLogs(s.(row := SetStateRow(s.row, Closed, s.now)), SessionEnded, at, gap);
    case _ =>
  }

  // ----- what each actor may still do -----

  predicate IsGuide(t: Template) {
    t in {GuideArrivedSeller, GuideArrivedBuyer, GuideNotSentBuyer, GuideNotSentSeller}
  }

  /** A question goes only to its own party, ends the turn when it fails, and
      a turn never repeats a reminder. */
  predicate TurnSends(p: Party, t: Template, f: OnFailure) {
    t != Reminder && (IsQuestion(t) ==> t in QuestionsFor(p) && f.Abort?)
  }

  predicate NextShape(next: NextQuestions) {
    forall p :: && |next.To(p)| <= 2
                && (forall i :: 0 <= i < |next.To(p)| ==> OwnOrCourtesy(p, next.To(p)[i]))
                && (|next.To(p)| == 2 ==> next.To(p)[0] == WhatHappensNext)
  }

  predicate TurnMay(op: Op) {
    match op
    case Activate => false
    case Abandon => false
    case ListSession => false
    case OpenChat(_) => false
    case ReadClocks(_) => false
    case Retry(_) => false
    case Send(p, t, guard, f) => TurnSends(p, t, f) && (guard.WhileLive? ==> t == HandoffNotice)
    case InFlight(p, t, f) => TurnSends(p, t, f)
    case StoreRow(p, t, f) => TurnSends(p, t, f)
    case TellGuide(p, t) => IsGuide(t)
    case Record(_, turn, _) => NextShape(turn.next)
    case CountRound(p, q, _) => q in QuestionsFor(p)
    case _ => true
  }

  predicate TickMay(op: Op) {
    match op
    case Send(p, t, guard, f) => !IsQuestion(t) && (guard.WhileLive? ==> t == HandoffNotice)
    case InFlight(p, t, f) => !IsQuestion(t)
    case StoreRow(p, t, f) => !IsQuestion(t)
    case TellGuide(p, t) => IsGuide(t)
    case ListSession => true
    case OpenChat(_) => true
    case ReadClocks(_) => true
    case Retry(_) => true
    case _ => IsShared(op)
  }

  ghost predicate Shapes(s: Sys) {
    && (forall op :: op in s.turn ==> TurnMay(op))
    && (forall op :: op in s.tick ==> TickMay(op))
  }

  /** Every question sent to a party is one of its own. */
  ghost predicate SentOwn(log: seq<Message>) {
    forall m, p :: m in log && IsOutQuestion(m, p) ==> m.template.value in QuestionsFor(p)
  }

  predicate OpenerSent(log: seq<Message>, p: Party) {
    exists m :: m in log && IsOutTemplate(m, p, Opener(p))
  }

  function Greeting(p: Party): Op {
    Send(p, Opener(p), WhileLive, Abort)
  }

  function Sending(p: Party): Op {
    InFlight(p, Opener(p), Abort)
  }

  function Greeted(p: Party): Op {
    StoreRow(p, Opener(p), Abort)
  }

  /** How far the opening is. It runs only while the session is still
      opening, or after it ended. */
  ghost predicate OpeningOk(s: Sys) {
    && (s.opening != [] ==> s.row.state.Opening? || s.row.state.Terminal())
    && (s.row.state.Active? || s.row.state.Guiding? ==> OpenerSent(s.log, Buyer) && OpenerSent(s.log, Seller))
    && (|| s.opening == []
        || s.opening == [Abandon]
        || s.opening == [Greeting(Buyer), Greeting(Seller), Activate]
        || s.opening == [Sending(Buyer), Greeting(Seller), Activate]
        || s.opening == [Greeted(Buyer), Greeting(Seller), Activate]
        || (s.opening == [Greeting(Seller), Activate] && OpenerSent(s.log, Buyer))
        || (s.opening == [Sending(Seller), Activate] && OpenerSent(s.log, Buyer))
        || (s.opening == [Greeted(Seller), Activate] && OpenerSent(s.log, Buyer))
        || (s.opening == [Activate] && OpenerSent(s.log, Buyer) && OpenerSent(s.log, Seller)))
  }

  /** Before the session is active nothing was decided: a turn or a tick
      that finds it opening leaves it alone. */
  ghost predicate StillOpening(s: Sys) {
    s.row.state.Opening? ==>
      && s.events == [] && s.evaluations == []
      && (forall op :: op in s.turn ==> op.Load?)
      && (forall op :: op in s.tick ==> op.ListSession? || (op.Retry? && op.session.state.Opening?))
  }

  ghost predicate ProtocolOk(s: Sys) {
    Logs(s) && Shapes(s) && SentOwn(s.log) && OpeningOk(s) && StillOpening(s) && RowOk(s.row)
  }

  // ----- the shapes are kept -----

  lemma SendsAre(p: Party, ts: seq<Template>)
    ensures forall op :: op in Sends(p, ts) ==>
                           op.Send? && op.party == p && op.template in ts && op.guard.WhileMediating? && op.onFailure.Abort?
  {
  }

  lemma RemindersAre(parties: seq<Party>)
    ensures forall op :: op in Reminders(parties) ==>
                           op.Send? && op.template == Reminder && op.guard.WhileMediating? && op.party in parties
  {
  }

  lemma PendingBriefsAre(events: seq<Event>, all: seq<Event>)
    ensures forall op :: op in PendingBriefs(events, all) ==> op.Brief?
  {
  }

  lemma ToRetryKeeps(ops: seq<Op>)
    ensures forall op :: op in ToRetry(ops) ==> op in ops
  {
  }

  lemma AskedQuestionIsLast(next: NextQuestions, p: Party)
    requires NextShape(next) && next.Asks(p)
    ensures var ts := next.To(p);
            ts != [] && ts[|ts| - 1] in QuestionsFor(p)
            && forall i :: 0 <= i < |ts| - 1 ==> !IsQuestion(ts[i])
  {
    var ts := next.To(p);
    var t :| t in ts && IsQuestion(t);
    var i :| 0 <= i < |ts| && ts[i] == t;
    assert OwnOrCourtesy(p, ts[i]);
    assert i == |ts| - 1;
  }

  lemma AskOpsMay(next: NextQuestions, p: Party, firstInTurn: bool)
    requires NextShape(next)
    ensures forall op :: op in AskOps(p, next.To(p), next.Asks(p), firstInTurn) ==> TurnMay(op)
  {
    var ts := next.To(p);
    SendsAre(p, ts);
    forall op | op in Sends(p, ts)
      ensures TurnMay(op)
    {
      var i :| 0 <= i < |ts| && ts[i] == op.template;
      assert OwnOrCourtesy(p, ts[i]);
    }
    if next.Asks(p) {
      AskedQuestionIsLast(next, p);
    }
  }

  lemma ActionOpsMay(turn: Turn)
    requires NextShape(turn.next)
    ensures forall op :: op in ActionOps(turn.next, Decide(turn)) ==> TurnMay(op)
  {
    if Decide(turn).Ask? {
      AskCarriesThePick(turn);
      AskOpsMay(turn.next, Buyer, true);
      AskOpsMay(turn.next, Seller, !turn.next.Asks(Buyer));
    }
  }

  lemma SortedOwn(log: seq<Message>, p: Party, changed: set<Party>)
    requires SentOwn(log)
    ensures OwnHistory(p, HistoryRead(Listed(log), changed))
  {
    var arrived := Sort(ByArrival, Listed(log));
    SortIsSortedPermutation(ByArrival, Listed(log));
    ListedElements(log);
    assert forall m :: m in arrived <==> m in multiset(arrived);
    forall i | 0 <= i < |arrived| && IsOutQuestion(arrived[i], p)
      ensures arrived[i].template.value in QuestionsFor(p)
    {
      assert arrived[i] in multiset(Listed(log));
    }
  }

  lemma PickShape(facts: Facts, log: seq<Message>, changed: set<Party>)
    requires SentOwn(log)
    ensures NextShape(Pick(facts, HistoryRead(Listed(log), changed)))
  {
    SortedOwn(log, Buyer, changed);
    PickedShape(Buyer, facts, HistoryRead(Listed(log), changed));
    SortedOwn(log, Seller, changed);
    PickedShape(Seller, facts, HistoryRead(Listed(log), changed));
  }

  lemma SharedKeepsTurnShape(s: Sys, op: Op, rest: seq<Op>, o: Oracle)
    requires TurnMay(op) && forall x :: x in rest ==> TurnMay(x)
    ensures forall x :: x in RunSharedOp(s, TheTurn, op, rest, o).1 ==> TurnMay(x)
  {
  }

  lemma SharedKeepsTickShape(s: Sys, op: Op, rest: seq<Op>, o: Oracle)
    requires TickMay(op) && forall x :: x in rest ==> TickMay(x)
    ensures forall x :: x in RunSharedOp(s, TheTick, op, rest, o).1 ==> TickMay(x)
  {
    ToRetryKeeps(rest);
  }

  lemma JudgedShape(c: Config, s: Sys, session: Row, n: nat, facts: Facts, changed: set<Party>, row: Row)
    requires SentOwn(s.log)
    ensures TurnMay(Judged(c, s, session, n, facts, changed, row))
  {
    assert SentOwn(Prefix(s.log, n));
    PickShape(facts, Prefix(s.log, n), changed);
  }

  lemma TurnKeepsShape(c: Config, s: Sys, op: Op, rest: seq<Op>, o: Oracle)
    requires SentOwn(s.log) && TurnMay(op) && forall x :: x in rest ==> TurnMay(x)
    ensures forall x :: x in RunTurnOp(c, s, op, rest, o).1 ==> TurnMay(x)
  {
    hide TurnMay;
    if op.ReadHold? || op.Record? {
      DecidingKeepsShape(c, s, op, rest, o);
    } else {
      OthersKeepShape(c, s, op, rest, o);
    }
  }

  lemma DecidingKeepsShape(c: Config, s: Sys, op: Op, rest: seq<Op>, o: Oracle)
    requires SentOwn(s.log) && TurnMay(op) && (op.ReadHold? || op.Record?)
    ensures forall x :: x in RunTurnOp(c, s, op, rest, o).1 ==> TurnMay(x)
  {
    hide Judged, ActionOps, Decide, OnlyCourtesy;
    if op.ReadHold? {
      JudgedShape(c, s, op.session, op.n, op.facts, op.changed, op.row);
    } else {
      ActionOpsMay(op.turn);
    }
  }

  lemma OthersKeepShape(c: Config, s: Sys, op: Op, rest: seq<Op>, o: Oracle)
    requires !op.ReadHold? && !op.Record? && forall x :: x in rest ==> TurnMay(x)
    ensures forall x :: x in RunTurnOp(c, s, op, rest, o).1 ==> TurnMay(x)
  {
    hide Judged, Listed, Unseen, Strikes, Floods, NextShape;
  }

  lemma RetryOpsMay(c: Config, s: Sys, session: Row)
    ensures forall x :: x in RetryOps(c, s, session) ==> TickMay(x)
  {
    PendingBriefsAre(s.events, s.events);
  }

  lemma TimerOpsMay(timer: Timers.Timer)
    ensures forall x :: x in TimerOps(timer) ==> TickMay(x)
  {
    if timer.Remind? {
      RemindersAre(timer.parties);
    }
  }

  lemma TickKeepsShape(c: Config, s: Sys, op: Op, rest: seq<Op>, o: Oracle)
    requires TickMay(op) && forall x :: x in rest ==> TickMay(x)
    ensures forall x :: x in RunTickOp(c, s, op, rest, o).1 ==> TickMay(x)
  {
    hide RetryOps, TimerOps, ClocksRead, Timers.Check;
    match op
    case ReadClocks(session) =>
      TimerOpsMay(Timers.Check(ClocksRead(session, Listed(s.log), s.events, s.now), c.timeouts));
    case Retry(session) => RetryOpsMay(c, s, session);
    case _ =>
  }

  lemma RunKeepsShapes(c: Config, s: Sys, a: Actor, o: Oracle)
    requires ProtocolOk(s) && OpsOf(s, a) != [] && !a.TheOpening?
    ensures Shapes(Step(c, s, Run(a, o)))
  {
    hide RunSharedOp, RunTurnOp, RunTickOp, RunOpeningOp, Apply;
    var op, rest := OpsOf(s, a)[0], OpsOf(s, a)[1..];
    assert op in OpsOf(s, a);
    ApplyIs(s, RunOp(c, s, a, op, rest, o).0, o);
    if a.TheTurn? {
      SharedKeepsTurnShape(s, op, rest, o);
      TurnKeepsShape(c, s, op, rest, o);
    } else {
      SharedKeepsTickShape(s, op, rest, o);
      TickKeepsShape(c, s, op, rest, o);
    }
  }

  // ----- the opening -----

  lemma OpenerStays(before: seq<Message>, after: seq<Message>, p: Party)
    requires before <= after
    ensures OpenerSent(before, p) ==> OpenerSent(after, p)
  {
    if OpenerSent(before, p) {
      var m :| m in before && IsOutTemplate(m, p, Opener(p));
      assert m in after;
    }
  }

  lemma OpeningNext(s: Sys, op: Op, rest: seq<Op>, o: Oracle)
    requires op in {Greeting(Buyer), Greeting(Seller), Sending(Buyer), Sending(Seller), Greeted(Buyer), Greeted(Seller),
                    Activate, Abandon}
    ensures var (e, left) := if IsShared(op) then RunSharedOp(s, TheOpening, op, rest, o) else RunOpeningOp(s, op, rest);
            && (op.Send? ==> e.NoEffect? && (left == [Sending(op.party)] + rest || left == [Abandon]))
            && (op.InFlight? ==> if o.ok then e == RelayTook(op.party, op.template) && left == [Greeted(op.party)] + rest
                                 else e.NoEffect? && left == [Abandon])
            && (op.StoreRow? ==> if o.ok then e == StoreOut(op.party, op.template) && left == rest
                                 else e == LoseRow(op.party, op.template, false) && left == [Abandon])
            && (op.Activate? ==> e == SetRow(SetStateRow(s.row, Active, s.now)) && left == rest)
            && (op.Abandon? ==> e == Append(HandOffRow(s.row, OpeningFailed, s.now), [MediationFailed]) && left == rest)
  {
  }

  lemma OpeningRuns(c: Config, s: Sys, o: Oracle)
    requires ProtocolOk(s) && s.opening != []
    ensures var after := Step(c, s, Run(TheOpening, o));
            SentOwn(after.log) && StillOpening(after) && Shapes(after)
            && RowMoves(s.row, after.row) && RowOk(after.row)
  {
    hide RunSharedOp, RunTurnOp, RunTickOp, RunOpeningOp, Apply, TurnMay, TickMay, Logs, OpenerSent;
    var op, rest := s.opening[0], s.opening[1..];
    var e := RunOp(c, s, TheOpening, op, rest, o).0;
    OpeningNext(s, op, rest, o);
    ApplyIs(s, e, o);
  }

  lemma OpeningGoesOn(c: Config, s: Sys, o: Oracle)
    requires ProtocolOk(s) && s.opening != []
    ensures OpeningOk(Step(c, s, Run(TheOpening, o)))
  {
    hide Step, RunSharedOp, RunTurnOp, RunTickOp, RunOpeningOp, Apply, TurnMay, TickMay, Logs, SentOwn;
    var op, rest := s.opening[0], s.opening[1..];
    var after := Step(c, s, Run(TheOpening, o));
    OpeningNext(s, op, rest, o);
    RunIs(c, s, TheOpening, o);
    ApplyIs(s, RunOp(c, s, TheOpening, op, rest, o).0, o);
    OpenerStays(s.log, after.log, Buyer);
    OpenerStays(s.log, after.log, Seller);
    if op.StoreRow? && o.ok {
      var m := after.log[|s.log|];
      assert m in after.log && IsOutTemplate(m, op.party, Opener(op.party));
    }
    assert |s.opening| == 1 ==> rest == [];
    assert |s.opening| == 2 ==> rest == [Activate];
    assert |s.opening| == 3 ==> rest == [Greeting(Seller), Activate];
  }

  // ----- the other actors -----

  lemma IdleWhileOpening(c: Config, s: Sys, a: Actor, op: Op, rest: seq<Op>, o: Oracle)
    requires s.row.state.Opening? && s.events == [] && !a.TheOpening?
    requires op.Load? || op.ListSession? || (op.Retry? && op.session.state.Opening?)
    requires a.TheTurn? <==> op.Load?
    ensures var (e, left) := RunOp(c, s, a, op, rest, o);
            && (e.NoEffect? || e.Defer? || e.SkipTurn?)
            && (left == [] || (left == [Retry(s.row)] && a.TheTick?))
  {
  }

  lemma OthersKeepRow(c: Config, s: Sys, a: Actor, o: Oracle)
    requires ProtocolOk(s) && !a.TheOpening? && OpsOf(s, a) != []
    ensures var after := Step(c, s, Run(a, o));
            OpeningOk(after) && RowMoves(s.row, after.row) && RowOk(after.row)
            && (s.row.state.Opening? || !after.row.state.Opening?)
  {
    hide RunOp, Apply, TurnMay, TickMay, EffectAllowed, SentOwn, Logs;
    var op, rest := OpsOf(s, a)[0], OpsOf(s, a)[1..];
    var after := Step(c, s, Run(a, o));
    assert op in OpsOf(s, a);
    var e := RunOp(c, s, a, op, rest, o).0;
    RunEffects(c, s, a, op, rest, o);
    NotActivating(s, a, op);
    EffectMovesRow(s, a, op, o, e);
    ApplyIs(s, e, o);
    if s.row.state.Opening? {
      IdleWhileOpening(c, s, a, op, rest, o);
    }
    OpenerStays(s.log, after.log, Buyer);
    OpenerStays(s.log, after.log, Seller);
  }

  lemma TurnsDoNotActivate(op: Op)
    requires TurnMay(op)
    ensures !op.Activate? && !op.Abandon?
  {
  }

  lemma NotActivating(s: Sys, a: Actor, op: Op)
    requires Shapes(s) && op in OpsOf(s, a) && !a.TheOpening?
    ensures !op.Activate? && !op.Abandon?
  {
  }

  lemma OthersKeepLog(c: Config, s: Sys, a: Actor, o: Oracle)
    requires ProtocolOk(s) && !a.TheOpening? && OpsOf(s, a) != []
    ensures var after := Step(c, s, Run(a, o));
            SentOwn(after.log) && (s.row.state.Opening? ==> StillOpening(after))
  {
    hide RunOp, Apply, OpeningOk, Logs;
    var op, rest := OpsOf(s, a)[0], OpsOf(s, a)[1..];
    assert op in OpsOf(s, a);
    var e := RunOp(c, s, a, op, rest, o).0;
    RunEffects(c, s, a, op, rest, o);
    ApplyIs(s, e, o);
    if s.row.state.Opening? {
      IdleWhileOpening(c, s, a, op, rest, o);
    }
  }

  // ----- every step -----

  lemma StartsKeepProtocol(c: Config, s: Sys, m: Move)
    requires ProtocolOk(s) && (m.StartTurn? || m.StartTick? || m.Restart?)
    ensures ProtocolOk(Step(c, s, m)) && Step(c, s, m).row == s.row
  {
    hide RunOp, SentOwn, RowOk, OpenerSent;
  }

  lemma ReceivedOwn(log: seq<Message>, m: Message)
    requires SentOwn(log) && m.direction.In?
    ensures SentOwn(log + [m])
  {
    assert forall x :: x in log + [m] <==> x in log || x == m;
  }

  lemma ReceivingKeepsProtocol(c: Config, s: Sys, m: Move)
    requires ProtocolOk(s) && (m.Receive? || m.Advance?)
    ensures ProtocolOk(Step(c, s, m)) && Step(c, s, m).row == s.row
  {
    hide RunOp, Shapes, SentOwn, OpenerSent, Logs, RowOk;
    var after := Step(c, s, m);
    StepKeepsLogs(c, s, m);
    OpenerStays(s.log, after.log, Buyer);
    OpenerStays(s.log, after.log, Seller);
    if m.Receive? {
      ReceivedOwn(s.log, after.log[|s.log|]);
    }
    SameShapes(s, after);
  }

  lemma SameShapes(s: Sys, after: Sys)
    requires Shapes(s) && after.turn == s.turn && after.tick == s.tick
    ensures Shapes(after)
  {
  }

  lemma EndingKeepsProtocol(c: Config, s: Sys, m: Move)
    requires ProtocolOk(s) && (m.Supersede? || m.Close?)
    ensures ProtocolOk(Step(c, s, m)) && RowMoves(s.row, Step(c, s, m).row)
  {
    hide RunOp, TurnMay, TickMay, SentOwn, OpenerSent, Logs, Noted;
    StepKeepsLogs(c, s, m);
    var at, gap := m.at, m.gap;
    var ended := s.(row := SetStateRow(s.row, if m.Close? then Closed else Superseded, s.now));
    NotedIs(ended, SessionEnded, at, gap);
  }

  lemma StepKeepsProtocol(c: Config, s: Sys, m: Move)
    requires ProtocolOk(s)
    ensures ProtocolOk(Step(c, s, m))
    ensures RowMoves(s.row, Step(c, s, m).row)
  {
    hide Step, OpeningOk, StillOpening, Shapes, SentOwn, RowOk, Logs;
    StepKeepsLogs(c, s, m);
    if m.StartTurn? || m.StartTick? || m.Restart? {
      StartsKeepProtocol(c, s, m);
    } else if m.Receive? || m.Advance? {
      ReceivingKeepsProtocol(c, s, m);
    } else if !m.Run? {
      EndingKeepsProtocol(c, s, m);
    } else if OpsOf(s, m.actor) == [] {
      NothingToRun(c, s, m);
    } else if m.actor.TheOpening? {
      OpeningRuns(c, s, m.oracle);
      OpeningGoesOn(c, s, m.oracle);
    } else {
      RunKeepsShapes(c, s, m.actor, m.oracle);
      OthersKeepRow(c, s, m.actor, m.oracle);
      OthersKeepLog(c, s, m.actor, m.oracle);
      OpeningIsOver(s, Step(c, s, m));
    }
  }

  lemma OpeningIsOver(s: Sys, after: Sys)
    requires s.row.state.Opening? ==> StillOpening(after)
    requires s.row.state.Opening? || !after.row.state.Opening?
    ensures StillOpening(after)
  {
  }

  lemma NothingToRun(c: Config, s: Sys, m: Move)
    requires m.Run? && OpsOf(s, m.actor) == []
    ensures Step(c, s, m) == s
  {
  }

  lemma {:induction false} RunsAreOk(c: Config, dispute: string, now: int, moves: seq<Move>)
    ensures ProtocolOk(Exec(c, Initial(dispute, now), moves))
  {
    hide Step;
    if moves != [] {
      var before := moves[..|moves| - 1];
      RunsAreOk(c, dispute, now, before);
      StepKeepsProtocol(c, Exec(c, Initial(dispute, now), before), moves[|moves| - 1]);
    }
  }

  // ----- the session protocol -----

  /** Under any interleaving, the state of a session never goes back
      (opening, active, guiding, handed off, ended), an ended session stays
      as it ended, and the first handoff reason is kept for ever. */
  lemma {:induction false} SessionNeverGoesBack(c: Config, dispute: string, now: int, moves: seq<Move>, more: seq<Move>)
    ensures var s := Initial(dispute, now);
            RowMoves(Exec(c, s, moves).row, Exec(c, s, moves + more).row)
  {
    hide Step;
    var s := Initial(dispute, now);
    if more == [] {
      assert moves + more == moves;
    } else {
      var before := more[..|more| - 1];
      SessionNeverGoesBack(c, dispute, now, moves, before);
      assert (moves + more)[..|moves + more| - 1] == moves + before;
      RunsAreOk(c, dispute, now, moves + before);
      StepKeepsProtocol(c, Exec(c, s, moves + before), more[|more| - 1]);
    }
  }

  /** The template whose state check passes in this move, if any: from here
      on the message is on its way to a relay. */
  function PassesCheck(s: Sys, m: Move): Option<Template> {
    if !m.Run? || OpsOf(s, m.actor) == [] then None
    else
      var op := OpsOf(s, m.actor)[0];
      if op.Send? && op.guard.Allows(s.row.state) then Some(op.template) else None
  }

  /** Once a session was handed off or ended, no question, reminder, hold
      notice or guidance passes its state check: only the handoff notice
      does, although the two openers are guarded by a weaker check. */
  lemma {:induction false} NothingAskedAfterTheHandoff(c: Config, dispute: string, now: int, moves: seq<Move>, more: seq<Move>, m: Move)
    requires !Exec(c, Initial(dispute, now), moves).row.state.Mediating()
    ensures PassesCheck(Exec(c, Initial(dispute, now), moves + more), m) in {None, Some(HandoffNotice)}
  {
    hide Exec;
    SessionNeverGoesBack(c, dispute, now, moves, more);
    RunsAreOk(c, dispute, now, moves + more);
    var s := Exec(c, Initial(dispute, now), moves + more);
    if PassesCheck(s, m).Some? {
      assert OpsOf(s, m.actor)[0] in OpsOf(s, m.actor);
    }
  }

  // ----- one handoff -----

  function Handoffs(events: seq<Event>): nat {
    if events == [] then 0
    else
      var n := |events| - 1;
      Handoffs(events[..n]) + if events[n].body.HandoffRecorded? then 1 else 0
  }

  function HandoffBodies(bodies: seq<EventBody>): nat {
    if bodies == [] then 0 else (if bodies[0].HandoffRecorded? then 1 else 0) + HandoffBodies(bodies[1..])
  }

  lemma NotedAllHandoffs(s: Sys, bodies: seq<EventBody>, at: int, gap: nat)
    ensures Handoffs(NotedAll(s, bodies, at, gap).events) == Handoffs(s.events) + HandoffBodies(bodies)
    decreases |bodies|
  {
    if bodies != [] {
      var next := Noted(s, bodies[0], at, gap);
      assert next.events[..|s.events|] == s.events;
      NotedAllHandoffs(next, bodies[1..], at, 0);
    }
  }

  lemma NoHandoffBodies(bodies: seq<EventBody>)
    requires forall i :: 0 <= i < |bodies| ==> !bodies[i].HandoffRecorded?
    ensures HandoffBodies(bodies) == 0
  {
  }

  /** At most one handoff is recorded, and its reason is the session's. */
  ghost predicate OneHandoff(s: Sys) {
    && Handoffs(s.events) <= 1
    && (Handoffs(s.events) == 1 ==> !s.row.state.Mediating())
    && (forall e :: e in s.events && e.body.HandoffRecorded? ==>
                      Handoffs(s.events) == 1 && s.row.handoffReason == Some(e.body.reason))
  }

  ghost predicate AppendsHandoff(s: Sys, row: Row, bodies: seq<EventBody>) {
    && s.row.state.Mediating() && !row.state.Mediating()
    && |bodies| == 2 && bodies[0].HandoffRecorded? && !bodies[1].HandoffRecorded?
    && row.handoffReason == Some(bodies[0].reason)
  }

  lemma AppendKeepsOneHandoff(s: Sys, row: Row, bodies: seq<EventBody>, at: int, gap: nat)
    requires OneHandoff(s) && RowMoves(s.row, row)
    requires || (forall i :: 0 <= i < |bodies| ==> !bodies[i].HandoffRecorded?)
             || AppendsHandoff(s, row, bodies)
    ensures OneHandoff(NotedAll(s.(row := row), bodies, at, gap))
  {
    var after := NotedAll(s.(row := row), bodies, at, gap);
    NotedAllHandoffs(s.(row := row), bodies, at, gap);
    NotedAllBodies(s.(row := row), bodies, at, gap);
    if AppendsHandoff(s, row, bodies) {
      NoHandoffBodies(bodies[1..]);
    } else {
      NoHandoffBodies(bodies);
    }
    forall e | e in after.events && e.body.HandoffRecorded?
      ensures Handoffs(after.events) == 1 && row.handoffReason == Some(e.body.reason)
    {
      NotedAllNewEvents(s.(row := row), bodies, at, gap, e);
    }
  }

  lemma BeginHoldIsNotedAll(s: Sys, o: Oracle)
    ensures Apply(s, BeginHold, o) ==
            NotedAll(s, [Held(LastId(s.log))], s.now, o.gap).(ledger := s.ledger.(holds := true))
  {
    hide NotedAll, Noted, Apply;
    BeginHoldIs(s, o);
    NotedOne(s, Held(LastId(s.log)), s.now, o.gap);
    NotedIs(s, Held(LastId(s.log)), s.now, o.gap);
  }

  lemma EffectKeepsOneHandoff(s: Sys, a: Actor, op: Op, o: Oracle, e: Effect)
    requires OneHandoff(s) && RowOk(s.row) && EffectAllowed(s, a, op, o, e)
    requires op.Activate? ==> s.row.state.Opening? || s.row.state.Terminal()
    ensures OneHandoff(Apply(s, e, o))
  {
    hide NotedAll, Apply, OneHandoff, EffectAllowed;
    EffectMovesRow(s, a, op, o, e);
    if e.Append? {
      AppendsOneHandoff(s, a, op, o, e);
      AppendKeepsOneHandoff(s, e.row, e.bodies, o.at, o.gap);
    } else if e.BeginHold? {
      BeginHoldIsNotedAll(s, o);
      AppendKeepsOneHandoff(s, s.row, [Held(LastId(s.log))], s.now, o.gap);
      assert s.(row := s.row) == s;
      NotedAllBodies(s, [Held(LastId(s.log))], s.now, o.gap);
      SameKeepsOneHandoff(NotedAll(s, [Held(LastId(s.log))], s.now, o.gap), Apply(s, e, o));
    } else {
      ApplyIs(s, e, o);
      SameKeepsOneHandoff(s, Apply(s, e, o));
    }
  }

  lemma AppendsOneHandoff(s: Sys, a: Actor, op: Op, o: Oracle, e: Effect)
    requires EffectAllowed(s, a, op, o, e) && e.Append?
    ensures || (forall i :: 0 <= i < |e.bodies| ==> !e.bodies[i].HandoffRecorded?)
            || AppendsHandoff(s, e.row, e.bodies)
    ensures Apply(s, e, o) == NotedAll(s.(row := e.row), e.bodies, o.at, o.gap)
  {
    hide NotedAll;
  }

  lemma SameKeepsOneHandoff(s: Sys, after: Sys)
    requires OneHandoff(s) && after.events == s.events && RowMoves(s.row, after.row)
    ensures OneHandoff(after)
  {
  }

  lemma EndingKeepsOneHandoff(s: Sys, state: State, at: int, gap: nat)
    requires OneHandoff(s) && state.Terminal() && RowOk(s.row)
    ensures OneHandoff(Ended(s, state, at, gap))
  {
    if !s.row.state.Terminal() {
      var row := SetStateRow(s.row, state, s.now);
      assert [SessionEnded][1..] == [];
      assert Ended(s, state, at, gap) == NotedAll(s.(row := row), [SessionEnded], at, gap);
      AppendKeepsOneHandoff(s, row, [SessionEnded], at, gap);
    }
  }

  lemma StepKeepsOneHandoff(c: Config, s: Sys, m: Move)
    requires ProtocolOk(s) && OneHandoff(s)
    ensures OneHandoff(Step(c, s, m))
  {
    hide RunOp, Apply, Ended;
    match m
    case Run(a, o) =>
      if OpsOf(s, a) != [] {
        var op, rest := OpsOf(s, a)[0], OpsOf(s, a)[1..];
        assert op in OpsOf(s, a);
        RunEffects(c, s, a, op, rest, o);
        EffectKeepsOneHandoff(s, a, op, o, RunOp(c, s, a, op, rest, o).0);
      }
    case Supersede(at, gap) => EndingKeepsOneHandoff(s, Superseded, at, gap);
    case Close(at, gap) => EndingKeepsOneHandoff(s, Closed, at, gap);
    case _ =>
  }

  /** Each session is handed off at most once, whoever tries and however
      often, and the reason recorded is the one the session keeps. */
  lemma {:induction false} HandedOffOnce(c: Config, dispute: string, now: int, moves: seq<Move>)
    ensures OneHandoff(Exec(c, Initial(dispute, now), moves))
  {
    hide Step;
    if moves != [] {
      var before := moves[..|moves| - 1];
      HandedOffOnce(c, dispute, now, before);
      RunsAreOk(c, dispute, now, before);
      StepKeepsOneHandoff(c, Exec(c, Initial(dispute, now), before), moves[|moves| - 1]);
    }
  }

  lemma LogsOk(s: Sys)
    requires ProtocolOk(s)
    ensures Logs(s)
  {
  }
}

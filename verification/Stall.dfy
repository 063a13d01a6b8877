/** An active session with no turn under way has a timer or an unjudged
    message, but for two exceptions. */
module Stall {
  import opened Domain
  import opened Next
  import opened Policy
  import opened MessageLog
  import opened Views
  import opened EventLog
  import opened Sessions
  import opened Mediation
  import opened Effects
  import opened Protocol
  import opened Turns
  import Timers

  // ----- the hold flag -----

  /** The hold read back from the two logs is the flag that a hold sets and
      any later question clears. */
  ghost predicate HoldOk(s: Sys) {
    && (s.ledger.holds <==> CurrentHold(s.events, s.log).Some?)
    && (forall e :: e in s.events && e.body.Held? ==> e.body.cutoff <= LastId(s.log))
  }

  predicate AnyQuestion(m: Message) {
    IsOutQuestion(m, Buyer) || IsOutQuestion(m, Seller)
  }

  lemma AskedSinceAppend(log: seq<Message>, m: Message, cutoff: nat)
    ensures AskedSince(log + [m], cutoff) <==> AskedSince(log, cutoff) || (AnyQuestion(m) && m.id > cutoff)
  {
    assert forall x :: x in log + [m] <==> x in log || x == m;
    if AskedSince(log, cutoff) {
      var x :| x in log && x.id > cutoff && AnyQuestion(x);
      assert x in log + [m];
    }
    if AnyQuestion(m) && m.id > cutoff {
      assert m in log + [m];
    }
  }

  lemma AppendKeepsHold(s: Sys, m: Message, holds: bool)
    requires HoldOk(s) && m.id > LastId(s.log)
    requires holds == (s.ledger.holds && !AnyQuestion(m))
    ensures HoldOk(s.(log := s.log + [m], ledger := s.ledger.(holds := holds)))
  {
    var held := LatestHeld(s.events);
    if held.Some? {
      AskedSinceAppend(s.log, m, held.value.body.cutoff);
    }
  }

  lemma NotedAllKeepsHeld(s: Sys, bodies: seq<EventBody>, at: int, gap: nat)
    requires forall i :: 0 <= i < |bodies| ==> !bodies[i].Held?
    ensures LatestHeld(NotedAll(s, bodies, at, gap).events) == LatestHeld(s.events)
    decreases |bodies|
  {
    if bodies != [] {
      var next := Noted(s, bodies[0], at, gap);
      assert next.events[..|s.events|] == s.events;
      NotedAllKeepsHeld(next, bodies[1..], at, 0);
    }
  }

  lemma NotingKeepsHold(s: Sys, row: Row, bodies: seq<EventBody>, at: int, gap: nat)
    requires HoldOk(s) && forall i :: 0 <= i < |bodies| ==> !bodies[i].Held?
    ensures HoldOk(NotedAll(s.(row := row), bodies, at, gap))
  {
    var after := NotedAll(s.(row := row), bodies, at, gap);
    NotedAllBodies(s.(row := row), bodies, at, gap);
    NotedAllKeepsHeld(s.(row := row), bodies, at, gap);
    forall e | e in after.events && e.body.Held?
      ensures e.body.cutoff <= LastId(s.log)
    {
      NotedAllNewEvents(s.(row := row), bodies, at, gap, e);
    }
  }

  lemma NothingAskedSinceNow(log: seq<Message>)
    requires Arrival(log)
    ensures !AskedSince(log, LastId(log))
  {
    forall m | m in log
      ensures m.id <= LastId(log)
    {
      ArrivalBelowLast(log, m);
    }
  }

  lemma HoldingHolds(s: Sys, o: Oracle)
    requires HoldOk(s) && Logs(s)
    ensures HoldOk(Apply(s, BeginHold, o))
  {
    hide AskedSince, Arrival, LatestHeld;
    var e := Event(LastEventId(s.events) + 1 + o.gap, s.now, Held(LastId(s.log)));
    NotedKeepsLogs(s, Held(LastId(s.log)), s.now, o.gap);
    assert Apply(s, BeginHold, o).events == s.events + [e];
    LatestHeldAppend(s.events, e);
    NothingAskedSinceNow(s.log);
    forall x | x in s.events + [e] && x.body.Held?
      ensures x.body.cutoff <= LastId(s.log)
    {
      if x != e {
        assert x in s.events;
      }
    }
  }

  lemma EffectKeepsHold(s: Sys, a: Actor, op: Op, o: Oracle, e: Effect)
    requires HoldOk(s) && Logs(s) && EffectAllowed(s, a, op, o, e)
    ensures HoldOk(Apply(s, e, o))
  {
    hide HoldOk, NotedAll, Apply, AppendAllowed, Logs;
    match e
    case StoreOut(_, _) => StoringKeepsHold(s, e, o);
    case Append(row, bodies) =>
      NothingHeld(s, op, row, bodies);
      AppendIs(s, e, o);
      NotingKeepsHold(s, row, bodies, o.at, o.gap);
    case BeginHold => HoldingHolds(s, o);
    case _ =>
      ApplyIs(s, e, o);
      SameLogsKeepHold(s, Apply(s, e, o));
  }

  lemma StoringKeepsHold(s: Sys, e: Effect, o: Oracle)
    requires HoldOk(s) && e.StoreOut?
    ensures HoldOk(Apply(s, e, o))
  {
    hide HoldOk, Apply;
    var after := Apply(s, e, o);
    ApplyIs(s, e, o);
    var m := after.log[|s.log|];
    var holds := s.ledger.holds && !AnyQuestion(m);
    AppendKeepsHold(s, m, holds);
    SameLogsKeepHold(s.(log := s.log + [m], ledger := s.ledger.(holds := holds)), after);
  }

  lemma NothingHeld(s: Sys, op: Op, row: Row, bodies: seq<EventBody>)
    requires AppendAllowed(s, op, row, bodies)
    ensures forall i :: 0 <= i < |bodies| ==> !bodies[i].Held?
  {
  }

  lemma SameLogsKeepHold(s: Sys, after: Sys)
    requires HoldOk(s) && after.events == s.events && after.log == s.log && after.ledger.holds == s.ledger.holds
    ensures HoldOk(after)
  {
  }

  lemma EndingKeepsHold(s: Sys, state: State, at: int, gap: nat)
    requires HoldOk(s)
    ensures HoldOk(Ended(s, state, at, gap))
  {
    var row := SetStateRow(s.row, state, s.now);
    assert [SessionEnded][1..] == [];
    assert !s.row.state.Terminal() ==>
        Ended(s, state, at, gap) == NotedAll(s.(row := row), [SessionEnded], at, gap);
    NotingKeepsHold(s, row, [SessionEnded], at, gap);
  }

  lemma StepKeepsHold(c: Config, s: Sys, m: Move)
    requires HoldOk(s) && Logs(s)
    ensures HoldOk(Step(c, s, m))
  {
    hide RunOp, Apply, HoldOk, Ended;
    match m
    case Run(a, o) =>
      if OpsOf(s, a) != [] {
        var op, rest := OpsOf(s, a)[0], OpsOf(s, a)[1..];
        var e := RunOp(c, s, a, op, rest, o).0;
        RunEffects(c, s, a, op, rest, o);
        EffectKeepsHold(s, a, op, o, e);
        SameLogsKeepHold(Apply(s, e, o), Step(c, s, m));
      }
    case Receive(p, createdAt, gap) =>
      AppendKeepsHold(s, Message(LastId(s.log) + 1 + gap, In, p, None, createdAt), s.ledger.holds);
      SameLogsKeepHold(Stored(s, In, p, None, createdAt, gap), Step(c, s, m));
    case Supersede(at, gap) => EndingKeepsHold(s, Superseded, at, gap);
    case Close(at, gap) => EndingKeepsHold(s, Closed, at, gap);
    case _ => SameLogsKeepHold(s, Step(c, s, m));
  }

  /** In every run, `hold::current` is the flag a hold sets and any later
      question clears. */
  lemma {:induction false} HoldIsTheFlag(c: Config, dispute: string, now: int, moves: seq<Move>)
    ensures HoldOk(Exec(c, Initial(dispute, now), moves))
  {
    hide Step;
    if moves != [] {
      var before := moves[..|moves| - 1];
      HoldIsTheFlag(c, dispute, now, before);
      RunsAreOk(c, dispute, now, before);
      StepKeepsHold(c, Exec(c, Initial(dispute, now), before), moves[|moves| - 1]);
    }
  }

  // ----- timers -----

  ghost predicate Unjudged(s: Sys) {
    exists m :: m in s.log && m.direction.In? && m.id > LastJudged(s.evaluations)
  }

  /** What keeps the session moving: a hold, an owed answer or a message to
      judge; or one of the two exceptions. */
  ghost predicate Timed(s: Sys) {
    || s.ledger.holds
    || Owes(s.log, Buyer)
    || Owes(s.log, Seller)
    || Unjudged(s)
    || s.ledger.courtesy
    || s.ledger.aborted
  }

  /** Steps of a turn that decided: each leaves the steps after it alone,
      unless a failed send ends the turn. */
  predicate Acting(op: Op) {
    || (IsShared(op) && !op.ResendGuides?)
    || op.CountRound? || op.StartHold? || op.StartGuide?
  }

  /** Every judgment so far was of messages a turn read, and a turn that is
      about to record knows whether the session holds. */
  ghost predicate OpKnows(s: Sys, op: Op) {
    && (IsJudging(op) ==> op.n <= |s.log| && LastJudged(s.evaluations) <= LastId(s.log[..op.n]))
    && (op.Record? && op.turn.held ==> s.ledger.holds)
  }

  ghost predicate StallOk(s: Sys) {
    && LastJudged(s.evaluations) <= LastId(s.log)
    && (forall op :: op in s.turn ==> OpKnows(s, op))
    && (s.row.state.Active? ==>
          Timed(s) || (HasRemedy(s.turn) && forall op :: op in s.turn ==> Acting(op)))
  }

  // ----- what any step but a judgment keeps -----

  lemma OwesAppend(log: seq<Message>, m: Message, p: Party)
    ensures Owes(log + [m], p) <==> IsOutQuestion(m, p) || (Owes(log, p) && !IsIn(m, p))
  {
    assert (log + [m])[..|log|] == log;
  }

  /** A new row keeps the session timed: a reply is a message to judge, a
      question is an owed answer. */
  lemma AppendKeepsTimed(s: Sys, m: Message, after: Sys)
    requires Timed(s) && m.id > LastId(s.log) && LastJudged(s.evaluations) <= LastId(s.log)
    requires after.log == s.log + [m] && after.evaluations == s.evaluations
    requires after.ledger == s.ledger.(holds := s.ledger.holds && !AnyQuestion(m))
    ensures Timed(after)
  {
    OwesAppend(s.log, m, Buyer);
    OwesAppend(s.log, m, Seller);
    assert m in after.log;
    if Unjudged(s) {
      var x :| x in s.log && x.direction.In? && x.id > LastJudged(s.evaluations);
      assert x in after.log;
    }
  }

  lemma QuestionIsTimed(s: Sys, log: seq<Message>, m: Message, p: Party)
    requires s.log == log + [m] && IsOutQuestion(m, p)
    ensures Timed(s)
  {
    OwesAppend(log, m, p);
  }

  lemma SameKeepsTimed(s: Sys, after: Sys)
    requires Timed(s) && after.log == s.log && after.evaluations == s.evaluations
    requires s.ledger.holds ==> after.ledger.holds
    requires s.ledger.courtesy ==> after.ledger.courtesy
    requires s.ledger.aborted ==> after.ledger.aborted
    ensures Timed(after)
  {
  }

  lemma EffectKeepsTimed(s: Sys, e: Effect, o: Oracle)
    requires Timed(s) && !e.StoreEvaluation? && LastJudged(s.evaluations) <= LastId(s.log)
    ensures Timed(Apply(s, e, o))
  {
    hide Apply, Timed;
    ApplyIs(s, e, o);
    var after := Apply(s, e, o);
    if e.StoreOut? {
      AppendKeepsTimed(s, after.log[|s.log|], after);
    } else {
      SameKeepsTimed(s, after);
    }
  }

  lemma KnowsStays(s: Sys, after: Sys, op: Op)
    requires OpKnows(s, op) && s.log <= after.log && after.evaluations == s.evaluations
    requires op.Record? && s.ledger.holds ==> after.ledger.holds
    ensures OpKnows(after, op)
  {
    if IsJudging(op) {
      UndisturbedPrefix(s.log, after.log, op.n);
    }
  }

  // ----- the decision -----

  lemma OwesStays(log: seq<Message>, n: nat, p: Party)
    requires QuietSince(log, n) && Owes(log[..n], p)
    requires forall i :: n <= i < |log| ==> !log[i].direction.In?
    ensures Owes(log, p)
    decreases |log|
  {
    if n == |log| {
      assert log[..n] == log;
    } else {
      var before := log[..|log| - 1];
      assert before[..n] == log[..n];
      OwesStays(before, n, p);
      assert log == before + [log[|log| - 1]];
      OwesAppend(before, log[|log| - 1], p);
    }
  }

  lemma HistoryOwes(messages: seq<Message>, changed: set<Party>, p: Party)
    requires Arrival(messages) && OpenerSent(messages, p)
    ensures var history := HistoryRead(Listed(messages), changed);
            && history.Of(p).outstanding == Owes(messages, p)
            && history.asked.Sent(p, Opener(p))
            && (!Heard(Listed(messages), p) ==> Owes(messages, p))
  {
    ListedElements(messages);
    HistoryIsArrival(messages, Listed(messages), p);
    var m :| m in messages && IsOutTemplate(m, p, Opener(p));
    var i :| 0 <= i < |messages| && messages[i] == m;
    assert Matches(SentQuestion, p, messages[i]);
    assert m in Listed(messages);
    if !Heard(Listed(messages), p) {
      UnheardOwes(messages, p);
    }
  }

  /** What the decision table needs to know of a turn is what it read. */
  lemma DecidedIsTurnOf(c: Config, s: Sys, n: nat, turn: Turn, history: History)
    requires Decided(c, s, n, turn, history) && Arrival(s.log) && turn.phase.Gathering?
    ensures TurnOf(turn, history)
    ensures forall p :: history.Of(p).outstanding ==> Owes(s.log[..n], p)
  {
    hide Listed, Owes, PartyHistoryOf, AskedOf, Pick;
    var messages := s.log[..n];
    var changed: set<Party>, row: Row :|
      && history == HistoryRead(Listed(messages), changed)
      && turn == TurnRead(c, turn.phase, Listed(messages), turn.facts, history, row, turn.held);
    HistoryOwes(messages, changed, Buyer);
    HistoryOwes(messages, changed, Seller);
  }

  lemma JudgedIsBounded(evaluations: seq<Evaluation>, e: Evaluation)
    ensures LastJudged(evaluations + [e]) == if LastJudged(evaluations) < e.lastMessage then e.lastMessage
                                             else LastJudged(evaluations)
  {
    assert (evaluations + [e])[..|evaluations|] == evaluations;
  }

  lemma QuestionIsSent(p: Party, ts: seq<Template>, t: Template)
    requires t in ts && IsQuestion(t)
    ensures HasRemedy(Sends(p, ts))
  {
    var op := Sends(p, ts)[0];
    assert op in Sends(p, ts);
    if ts[0] != t {
      QuestionIsSent(p, ts[1..], t);
      var x :| x in Sends(p, ts[1..]) && Remedy(x);
      assert x in Sends(p, ts);
    }
  }

  lemma ActionActs(next: NextQuestions, action: Action)
    ensures forall op :: op in ActionOps(next, action) ==> Acting(op)
    ensures !Quiet(action) ==> HasRemedy(ActionOps(next, action))
  {
    hide HasRemedy;
    match action
    case Ask(buyer, seller) =>
      hide HasQuestion;
      SendsAre(Buyer, buyer);
      SendsAre(Seller, seller);
      if HasQuestion(buyer) {
        AskHasRemedy(Buyer, buyer, next.Asks(Buyer), true);
      }
      if HasQuestion(seller) {
        AskHasRemedy(Seller, seller, next.Asks(Seller), !next.Asks(Buyer));
      }
      RemedyInEither(AskOps(Buyer, buyer, next.Asks(Buyer), true),
                     AskOps(Seller, seller, next.Asks(Seller), !next.Asks(Buyer)));
    case Wait =>
    case _ => RemedyFirst(ActionOps(next, action));
  }

  lemma RemedyFirst(ops: seq<Op>)
    requires ops != [] && Remedy(ops[0])
    ensures HasRemedy(ops)
  {
    assert ops[0] in ops;
  }

  lemma RemedyInEither(a: seq<Op>, b: seq<Op>)
    ensures HasRemedy(a) || HasRemedy(b) ==> HasRemedy(a + b)
  {
    if HasRemedy(a) || HasRemedy(b) {
      var op :| (op in a || op in b) && Remedy(op);
      assert op in a + b;
    }
  }

  lemma AskHasRemedy(p: Party, ts: seq<Template>, asks: bool, first: bool)
    requires HasQuestion(ts)
    ensures HasRemedy(AskOps(p, ts, asks, first))
  {
    var t :| t in ts && IsQuestion(t);
    QuestionIsSent(p, ts, t);
    var op :| op in Sends(p, ts) && Remedy(op);
    assert op in AskOps(p, ts, asks, first);
  }

  /** An owed answer the turn read is still owed, or the party replied since
      and the reply is not judged. */
  lemma OutstandingIsTimed(s: Sys, n: nat, p: Party)
    requires QuietSince(s.log, n) && Arrival(s.log) && Owes(s.log[..n], p)
    requires LastJudged(s.evaluations) == LastId(s.log[..n])
    ensures Timed(s)
  {
    if i :| n <= i < |s.log| && s.log[i].direction.In? {
      assert s.log[i] in s.log;
      if n > 0 {
        assert s.log[n - 1].id < s.log[i].id;
      }
    } else {
      OwesStays(s.log, n, p);
    }
  }

  lemma RecordIsTimed(c: Config, s: Sys, op: Op, o: Oracle)
    requires Logs(s) && s.turn == [op] && op.Record? && s.row.state.Active?
    requires Decided(c, s, op.n, op.turn, op.history) && OpKnows(s, op)
    ensures var after := Step(c, s, Run(TheTurn, o));
            Timed(after) || (HasRemedy(after.turn) && forall op :: op in after.turn ==> Acting(op))
  {
    hide Step, ActionOps, Decide, CourtesyResend, TurnOf, Decided, Owes, HasRemedy, Quiet;
    var after := Step(c, s, Run(TheTurn, o));
    var turn, action, history := op.turn, Decide(op.turn), op.history;
    RecordIs(c, s, op, o);
    DecidedIsQuiet(c, s, op.n, turn, history);
    ActionActs(turn.next, action);
    JudgedIsBounded(s.evaluations, Evaluation(LastId(s.log[..op.n]), action));
    if Quiet(action) {
      DecidedIsTurnOf(c, s, op.n, turn, history);
      QuietTurnKeepsATimer(turn, history);
      if history.buyer.outstanding {
        assert history.Of(Buyer).outstanding;
        OutstandingIsTimed(after, op.n, Buyer);
      } else if history.seller.outstanding {
        assert history.Of(Seller).outstanding;
        OutstandingIsTimed(after, op.n, Seller);
      }
    }
  }

  lemma DecidedIsQuiet(c: Config, s: Sys, n: nat, turn: Turn, history: History)
    requires Decided(c, s, n, turn, history) && s.row.state.Active?
    ensures QuietSince(s.log, n) && turn.phase.Gathering?
  {
  }

  // ----- one step of a turn -----

  /** While a decided turn acts, its remedy is still ahead, or just took
      effect, or is recorded as lost. */
  lemma ActingKeepsRemedy(c: Config, s: Sys, op: Op, rest: seq<Op>, o: Oracle)
    requires Acting(op) && TurnMay(op) && HasRemedy([op] + rest) && s.row.state.Active?
    ensures var (e, left) := RunOp(c, s, TheTurn, op, rest, o);
            || !RowAfter(s, e).state.Active?
            || HasRemedy(left)
            || e.BeginHold?
            || (e.StoreOut? && IsQuestion(e.template))
            || e.AbortTurn?
            || (e.LoseRow? && e.aborts)
  {
    hide HasRemedy, RunSharedOp, RunTurnOp;
    if Remedy(op) {
      if op.Send? || op.InFlight? || op.StoreRow? {
        SendingKeepsRemedy(s, op, rest, o);
      } else {
        RemedyActs(c, s, op, rest, o);
      }
    } else {
      RemedyLater(op, rest);
      RestKeepsRemedy(c, s, op, rest, o);
    }
  }

  lemma RemedyLater(op: Op, rest: seq<Op>)
    requires HasRemedy([op] + rest) && !Remedy(op)
    ensures HasRemedy(rest)
  {
    var r :| r in [op] + rest && Remedy(r);
    assert r in rest;
  }

  /** A question on its way goes on, or ends the turn. */
  lemma SendingKeepsRemedy(s: Sys, op: Op, rest: seq<Op>, o: Oracle)
    requires (op.Send? || op.InFlight? || op.StoreRow?) && IsQuestion(op.template) && TurnMay(op)
    ensures var (e, left) := RunSharedOp(s, TheTurn, op, rest, o);
            HasRemedy(left) || e == StoreOut(op.party, op.template) || e.AbortTurn? || (e.LoseRow? && e.aborts)
  {
    hide HasRemedy;
    RemedyFirst([op] + rest);
    RemedyFirst([InFlight(op.party, op.template, op.onFailure)] + rest);
    RemedyFirst([StoreRow(op.party, op.template, op.onFailure)] + rest);
  }

  lemma RemedyActs(c: Config, s: Sys, op: Op, rest: seq<Op>, o: Oracle)
    requires (op.StartHold? || op.StartGuide? || op.HandOff?) && s.row.state.Active?
    ensures var e := RunOp(c, s, TheTurn, op, rest, o).0; !RowAfter(s, e).state.Active? || e.BeginHold?
  {
  }

  /** A step that is no remedy leaves the remedy ahead, or ends the turn. */
  lemma RestKeepsRemedy(c: Config, s: Sys, op: Op, rest: seq<Op>, o: Oracle)
    requires Acting(op) && !Remedy(op) && HasRemedy(rest)
    ensures var (e, left) := RunOp(c, s, TheTurn, op, rest, o);
            HasRemedy(left) || e.AbortTurn? || (e.LoseRow? && e.aborts)
  {
    hide HasRemedy, ReceivedEver;
    var left := RunOp(c, s, TheTurn, op, rest, o).1;
    RemedyInEither([op], rest);
    if left != [] {
      var pre := left[..|left| - |rest|];
      assert left == pre + rest;
      RemedyInEither(pre, rest);
    }
  }

  lemma ActingLeavesActing(c: Config, s: Sys, op: Op, rest: seq<Op>, o: Oracle)
    requires Acting(op) && forall x :: x in rest ==> Acting(x)
    ensures forall x :: x in RunOp(c, s, TheTurn, op, rest, o).1 ==> Acting(x)
  {
  }

  lemma RemedyIsTimed(s: Sys, e: Effect, o: Oracle)
    requires e.BeginHold? || (e.StoreOut? && IsQuestion(e.template)) || e.AbortTurn? || (e.LoseRow? && e.aborts)
    ensures Timed(Apply(s, e, o))
  {
    hide Apply;
    ApplyIs(s, e, o);
    if e.StoreOut? {
      var after := Apply(s, e, o);
      QuestionIsTimed(after, s.log, after.log[|s.log|], e.party);
    }
  }

  lemma TimedActors(s: Sys, turn: seq<Op>)
    requires Timed(s)
    ensures Timed(s.(turn := turn))
  {
  }

  /** What is left of a turn knows what the turn knew. */
  lemma LeftKnows(c: Config, s: Sys, op: Op, o: Oracle)
    requires s.turn == [op] && IsJudging(op) && !op.Record? && !op.ReadHold? && OpKnows(s, op)
    ensures forall x :: x in Step(c, s, Run(TheTurn, o)).turn ==> OpKnows(Step(c, s, Run(TheTurn, o)), x)
  {
    hide RunTurnOp, RunSharedOp, RunTickOp, RunOpeningOp, Apply, OpKnows;
    var e := RunOp(c, s, TheTurn, op, [], o).0;
    var after := Step(c, s, Run(TheTurn, o));
    assert s.turn[1..] == [];
    RunEffects(c, s, TheTurn, op, [], o);
    ApplyIs(s, e, o);
    JudgingNext(c, s, op, o);
    forall x | x in after.turn
      ensures OpKnows(after, x)
    {
      SameKnows(s, after, op, x);
    }
  }

  lemma SameKnows(s: Sys, after: Sys, op: Op, x: Op)
    requires OpKnows(s, op) && IsJudging(op) && after.log == s.log && after.evaluations == s.evaluations
    requires !x.Record? && (IsJudging(x) ==> x.n == op.n)
    ensures OpKnows(after, x)
  {
  }

  lemma AskedSincePrefix(log: seq<Message>, n: nat, cutoff: nat)
    requires QuietSince(log, n)
    ensures AskedSince(log, cutoff) <==> AskedSince(Listed(log[..n]), cutoff)
  {
    ListedElements(log[..n]);
    if AskedSince(log, cutoff) {
      var i :| 0 <= i < |log| && log[i].id > cutoff && AnyQuestion(log[i]);
      assert AnyQuestion(log[i]);
      assert log[i] == log[..n][i];
      assert log[i] in Listed(log[..n]);
    }
    if AskedSince(Listed(log[..n]), cutoff) {
      var m :| m in Listed(log[..n]) && m.id > cutoff && AnyQuestion(m);
      assert m in log[..n];
      assert m in log;
    }
  }

  lemma ReadHoldKnows(c: Config, s: Sys, session: Row, n: nat, facts: Facts, changed: set<Party>, row: Row)
    requires HoldOk(s) && QuietSince(s.log, n) && OpKnows(s, ReadHold(session, n, facts, changed, row))
    ensures OpKnows(s, Judged(c, s, session, n, facts, changed, row))
  {
    hide Listed, AskedSince;
    var held := LatestHeld(s.events);
    if held.Some? {
      AskedSincePrefix(s.log, n, held.value.body.cutoff);
    }
  }

  lemma LoadKnows(c: Config, s: Sys, rest: seq<Op>, o: Oracle)
    requires s.turn == [Load] + rest && LastJudged(s.evaluations) <= LastId(s.log)
    ensures var after := Step(c, s, Run(TheTurn, o));
            forall x :: x in after.turn ==> OpKnows(after, x)
  {
    hide LastJudged, LastId;
    assert s.log[..|s.log|] == s.log;
  }

  lemma DecidingKnows(c: Config, s: Sys, op: Op, o: Oracle)
    requires HoldOk(s) && TurnReads(c, s) && s.turn == [op] && op.ReadHold? && OpKnows(s, op)
    ensures var after := Step(c, s, Run(TheTurn, o));
            forall x :: x in after.turn ==> OpKnows(after, x)
  {
    hide HoldOk, Judged, Listed, OpKnows, OpenerSent;
    var after := Step(c, s, Run(TheTurn, o));
    var judged := Judged(c, s, op.session, op.n, op.facts, op.changed, op.row);
    assert op in s.turn;
    ReadHoldKnows(c, s, op.session, op.n, op.facts, op.changed, op.row);
    assert after == s.(turn := [judged]);
    KnowsStays(s, after, judged);
  }

  /** What an acting turn, or the preface of a judging one, leaves. */
  lemma RestKnows(c: Config, s: Sys, op: Op, rest: seq<Op>, o: Oracle)
    requires TurnReads(c, s) && s.turn == [op] + rest && !IsJudging(op) && !op.Load? && TurnMay(op)
    requires forall x :: x in s.turn ==> OpKnows(s, x)
    ensures var after := Step(c, s, Run(TheTurn, o));
            forall x :: x in after.turn ==> OpKnows(after, x)
  {
    hide RunOp, Apply, OpKnows;
    var e := RunOp(c, s, TheTurn, op, rest, o).0;
    var after := Step(c, s, Run(TheTurn, o));
    assert s.turn[1..] == rest;
    RunEffects(c, s, TheTurn, op, rest, o);
    ApplyIs(s, e, o);
    forall x | x in after.turn
      ensures OpKnows(after, x)
    {
      if x in rest && IsJudging(x) {
        var i :| 0 <= i < |rest| && rest[i] == x;
        assert s.turn[i + 1] == x && Preface(s.turn[0]);
        KnowsStays(s, after, x);
      } else {
        LeftIsOld(c, s, op, rest, o, x);
        NotJudgingKnows(after, x);
      }
    }
  }

  lemma NotJudgingKnows(s: Sys, op: Op)
    requires !IsJudging(op)
    ensures OpKnows(s, op)
  {
  }

  lemma LeftIsOld(c: Config, s: Sys, op: Op, rest: seq<Op>, o: Oracle, x: Op)
    requires !IsJudging(op) && !op.Load? && x in RunOp(c, s, TheTurn, op, rest, o).1
    ensures x in rest || !IsJudging(x)
  {
    if IsShared(op) {
      SharedDoesNotJudge(s, op, rest, o);
    }
  }

  lemma RecordKeepsStall(c: Config, s: Sys, op: Op, o: Oracle)
    requires ProtocolOk(s) && TurnReads(c, s) && StallOk(s) && s.turn == [op] && op.Record?
    ensures StallOk(Step(c, s, Run(TheTurn, o)))
  {
    hide Step, ActionOps, Decide, OnlyCourtesy, Decided, HasRemedy, Timed, Acting, RowOk, SentOwn, Shapes;
    hide OpeningOk, StillOpening;
    var action := Decide(op.turn);
    var after := Step(c, s, Run(TheTurn, o));
    assert op in s.turn;
    RecordIs(c, s, op, o);
    PrefixBelowLast(s.log, op.n);
    JudgedIsBounded(s.evaluations, Evaluation(LastId(Prefix(s.log, op.n)), action));
    ActionDoesNotJudge(op.turn.next, action);
    if s.row.state.Active? {
      RecordIsTimed(c, s, op, o);
    }
  }

  lemma PrefixBelowLast(log: seq<Message>, n: nat)
    requires Arrival(log)
    ensures LastId(Prefix(log, n)) <= LastId(log)
  {
    LastGrows(Prefix(log, n), log);
  }

  lemma ApplyKeepsBound(s: Sys, e: Effect, o: Oracle)
    requires Logs(s) && LastJudged(s.evaluations) <= LastId(s.log) && !e.StoreEvaluation?
    ensures LastJudged(Apply(s, e, o).evaluations) <= LastId(Apply(s, e, o).log)
  {
    hide Apply;
    ApplyIs(s, e, o);
    ApplyKeepsLogs(s, e, o);
    LastGrows(s.log, Apply(s, e, o).log);
  }

  /** A step that is not a judgment keeps an active session timed, or its
      remedy ahead. */
  lemma TurnStaysTimed(c: Config, s: Sys, op: Op, rest: seq<Op>, o: Oracle)
    requires ProtocolOk(s) && StallOk(s) && s.turn == [op] + rest && !op.Record?
    ensures var after := Step(c, s, Run(TheTurn, o));
            after.row.state.Active? ==>
              Timed(after) || (HasRemedy(after.turn) && forall x :: x in after.turn ==> Acting(x))
  {
    hide RunOp, Apply, Timed, HasRemedy, TurnMay, Acting, OpKnows, EffectAllowed;
    var (e, left) := RunOp(c, s, TheTurn, op, rest, o);
    assert s.turn[1..] == rest && op in s.turn;
    MayRun(s, op);
    TurnsDoNotActivate(op);
    RunEffects(c, s, TheTurn, op, rest, o);
    NotRecorded(s, op, o, e);
    EffectMovesRow(s, TheTurn, op, o, e);
    ApplyIs(s, e, o);
    if RowAfter(s, e).state.Active? {
      if Timed(s) {
        EffectKeepsTimed(s, e, o);
        TimedActors(Apply(s, e, o), left);
      } else {
        ActingKeepsRemedy(c, s, op, rest, o);
        ActingLeavesActing(c, s, op, rest, o);
        if !HasRemedy(left) {
          RemedyIsTimed(s, e, o);
          TimedActors(Apply(s, e, o), left);
        }
      }
    }
  }

  lemma TurnKeepsStall(c: Config, s: Sys, o: Oracle)
    requires ProtocolOk(s) && TurnReads(c, s) && HoldOk(s) && StallOk(s) && s.turn != []
    ensures StallOk(Step(c, s, Run(TheTurn, o)))
  {
    hide RunOp, Apply, Timed, HasRemedy, TurnMay, Acting, OpKnows, OpReads, HoldOk;
    var op, rest := s.turn[0], s.turn[1..];
    assert s.turn == [op] + rest && op in s.turn;
    MayRun(s, op);
    if op.Record? {
      assert s.turn == [op];
      RecordKeepsStall(c, s, op, o);
    } else {
      TurnStaysTimed(c, s, op, rest, o);
      RunEffects(c, s, TheTurn, op, rest, o);
      NotRecorded(s, op, o, RunOp(c, s, TheTurn, op, rest, o).0);
      ApplyKeepsBound(s, RunOp(c, s, TheTurn, op, rest, o).0, o);
      if op.Load? {
        LoadKnows(c, s, rest, o);
      } else if op.ReadHold? {
        assert s.turn == [op];
        DecidingKnows(c, s, op, o);
      } else if IsJudging(op) {
        assert s.turn == [op];
        LeftKnows(c, s, op, o);
      } else {
        RestKnows(c, s, op, rest, o);
      }
    }
  }

  // ----- every step -----

  lemma OthersKnow(s: Sys, after: Sys)
    requires forall x :: x in s.turn ==> OpKnows(s, x)
    requires s.log <= after.log && after.evaluations == s.evaluations && after.turn == s.turn
    requires s.ledger.holds ==> after.ledger.holds
    ensures forall x :: x in after.turn ==> OpKnows(after, x)
  {
    hide OpKnows;
    forall x | x in after.turn
      ensures OpKnows(after, x)
    {
      KnowsStays(s, after, x);
    }
  }

  lemma TickStores(s: Sys, op: Op, o: Oracle, e: Effect)
    requires EffectAllowed(s, TheTick, op, o, e) && TickMay(op)
    ensures !e.StoreEvaluation? && !e.BeginHold? && !e.AbortTurn? && (e.LoseRow? ==> !e.aborts)
    ensures e.StoreOut? ==> !IsQuestion(e.template)
    ensures !op.Activate?
  {
  }

  lemma TickKeepsStall(c: Config, s: Sys, o: Oracle)
    requires ProtocolOk(s) && StallOk(s) && s.tick != []
    ensures StallOk(Step(c, s, Run(TheTick, o)))
  {
    hide RunOp, Apply, Timed, HasRemedy, TurnMay, TickMay, Acting, OpKnows, EffectAllowed;
    var op, rest := s.tick[0], s.tick[1..];
    assert op in s.tick;
    var e := RunOp(c, s, TheTick, op, rest, o).0;
    var after := Step(c, s, Run(TheTick, o));
    RunEffects(c, s, TheTick, op, rest, o);
    TickStores(s, op, o, e);
    EffectMovesRow(s, TheTick, op, o, e);
    ApplyIs(s, e, o);
    ApplyKeepsLogs(s, e, o);
    ApplyKeepsBound(s, e, o);
    OthersKnow(s, after);
    if Timed(s) {
      EffectKeepsTimed(s, e, o);
      TimedTicks(Apply(s, e, o), after);
    }
  }

  lemma TimedTicks(s: Sys, after: Sys)
    requires Timed(s) && after == s.(tick := after.tick, opening := after.opening)
    ensures Timed(after)
  {
  }

  /** A session that just opened awaits both answers, or has one to judge. */
  lemma GreetedIsTimed(s: Sys)
    requires OpenerSent(s.log, Buyer) && s.evaluations == [] && Arrival(s.log)
    ensures Timed(s)
  {
    var m :| m in s.log && IsOutTemplate(m, Buyer, Opener(Buyer));
    var i :| 0 <= i < |s.log| && s.log[i] == m;
    assert Matches(SentQuestion, Buyer, s.log[i]);
    if Heard(s.log, Buyer) {
      var r :| r in s.log && IsIn(r, Buyer);
      ArrivalBelowLast(s.log, r);
    } else {
      UnheardOwes(s.log, Buyer);
    }
  }

  lemma NoJudgingWhileOpening(c: Config, s: Sys)
    requires TurnReads(c, s) && s.opening != []
    ensures forall x :: x in s.turn ==> !IsJudging(x)
  {
  }

  lemma OpeningKeepsStall(c: Config, s: Sys, o: Oracle)
    requires ProtocolOk(s) && TurnReads(c, s) && StallOk(s) && s.opening != []
    ensures StallOk(Step(c, s, Run(TheOpening, o)))
  {
    hide RunOp, Apply, Timed, HasRemedy, TurnMay, TickMay, Acting, OpKnows, EffectAllowed, OpReads, SentOwn;
    var op, rest := s.opening[0], s.opening[1..];
    var e := RunOp(c, s, TheOpening, op, rest, o).0;
    var after := Step(c, s, Run(TheOpening, o));
    RunEffects(c, s, TheOpening, op, rest, o);
    OpeningStores(s, op, o, e);
    EffectMovesRow(s, TheOpening, op, o, e);
    ApplyIs(s, e, o);
    ApplyKeepsLogs(s, e, o);
    ApplyKeepsBound(s, e, o);
    NoJudgingWhileOpening(c, s);
    forall x | x in after.turn
      ensures OpKnows(after, x)
    {
      NotJudgingKnows(after, x);
    }
    if after.row.state.Active? {
      OpeningGoesOn(c, s, o);
      GreetedIsTimed(after);
    }
  }

  lemma OpeningStores(s: Sys, op: Op, o: Oracle, e: Effect)
    requires EffectAllowed(s, TheOpening, op, o, e)
    ensures !e.StoreEvaluation?
  {
  }

  lemma ReceivingKeepsStall(s: Sys, m: Message)
    requires ProtocolOk(s) && StallOk(s) && m.direction.In? && m.id > LastId(s.log)
    ensures StallOk(s.(log := s.log + [m]))
  {
    hide Timed, HasRemedy, Acting, OpKnows, Logs, Shapes, SentOwn, OpeningOk, StillOpening;
    var after := s.(log := s.log + [m]);
    OthersKnow(s, after);
    if Timed(s) {
      AppendKeepsTimed(s, m, after);
    }
  }

  lemma QuietMoveKeepsStall(s: Sys, after: Sys)
    requires StallOk(s) && after.log == s.log && after.evaluations == s.evaluations
    requires after.ledger.holds == s.ledger.holds
    requires after.ledger.courtesy == s.ledger.courtesy && after.ledger.aborted == s.ledger.aborted
    requires after.row.state.Active? ==> s.row.state.Active?
    requires after.turn == s.turn || (s.turn == [] && after.turn == [Load])
    ensures StallOk(after)
  {
    if after.turn == s.turn {
      OthersKnow(s, after);
    }
  }

  lemma RestartKeepsStall(c: Config, s: Sys)
    requires StallOk(s)
    ensures StallOk(Step(c, s, Restart))
  {
  }

  lemma StepKeepsStall(c: Config, s: Sys, m: Move)
    requires ProtocolOk(s) && TurnReads(c, s) && HoldOk(s) && StallOk(s)
    ensures StallOk(Step(c, s, m))
  {
    hide RunOp, Apply, StallOk, ProtocolOk, TurnReads, HoldOk;
    match m
    case Run(a, o) =>
      if OpsOf(s, a) == [] {
        NothingToRun(c, s, m);
      } else {
        match a
        case TheOpening => OpeningKeepsStall(c, s, o);
        case TheTurn => TurnKeepsStall(c, s, o);
        case TheTick => TickKeepsStall(c, s, o);
      }
    case Receive(p, createdAt, gap) =>
      ReceivingKeepsStall(s, Message(LastId(s.log) + 1 + gap, In, p, None, createdAt));
      QuietMoveKeepsStall(Stored(s, In, p, None, createdAt, gap), Step(c, s, m));
    case Restart => RestartKeepsStall(c, s);
    case _ => QuietMoveKeepsStall(s, Step(c, s, m));
  }

  lemma {:induction false} RunsKeepStall(c: Config, dispute: string, now: int, moves: seq<Move>)
    ensures StallOk(Exec(c, Initial(dispute, now), moves))
  {
    hide Step;
    if moves != [] {
      var before := moves[..|moves| - 1];
      RunsKeepStall(c, dispute, now, before);
      RunsAreOk(c, dispute, now, before);
      RunsRead(c, dispute, now, before);
      HoldIsTheFlag(c, dispute, now, before);
      StepKeepsStall(c, Exec(c, Initial(dispute, now), before), moves[|moves| - 1]);
    }
  }

  // ----- the deadlines -----

  /** From `deadline` on, every reading of the session's clocks makes the
      timers act, as long as nothing else happens. */
  ghost predicate ActsFrom(c: Config, s: Sys, deadline: int) {
    forall now :: now >= deadline ==>
      !Timers.Check(ClocksRead(s.row, Listed(s.log), s.events, now), c.timeouts).Nothing?
  }

  lemma OwedIsADeadline(c: Config, s: Sys, p: Party)
    requires s.row.state.Active? && Arrival(s.log) && Owes(s.log, p)
    ensures exists deadline :: ActsFrom(c, s, deadline)
  {
    hide Listed, CurrentHold, GuidedAt, Owes;
    ListedElements(s.log);
    ClocksAgreeWithHistory(s.log, Listed(s.log), p);
    HistoryIsArrival(s.log, Listed(s.log), p);
    OwesIsLastIndex(s.log, p);
    var clock := ClockOf(Listed(s.log), p);
    var deadline := if clock.remindedAt.Some?
                    then Max(Timers.After(clock.questionAt.value, c.timeouts.response),
                             Timers.After(clock.remindedAt.value, c.timeouts.response))
                    else Timers.After(clock.questionAt.value, c.timeouts.response);
    forall now | now >= deadline
      ensures !Timers.Check(ClocksRead(s.row, Listed(s.log), s.events, now), c.timeouts).Nothing?
    {
      var clocks := ClocksRead(s.row, Listed(s.log), s.events, now);
      assert clocks.Of(p) == clock;
      Timers.TimersActFromTheDeadlineOn(clocks, c.timeouts, p, now);
    }
    assert ActsFrom(c, s, deadline);
  }

  lemma HoldIsADeadline(c: Config, s: Sys)
    requires s.row.state.Active? && CurrentHold(s.events, s.log).Some?
    ensures exists deadline :: ActsFrom(c, s, deadline)
  {
    hide Listed, AskedSince, GuidedAt, LatestHeld, ClockOf;
    var held := LatestHeld(s.events);
    assert s.log[..|s.log|] == s.log;
    SameAskedSince(s.log, held.value.body.cutoff);
    var deadline := Timers.After(held.value.at, c.timeouts.handoffGrace);
    forall now | now >= deadline
      ensures !Timers.Check(ClocksRead(s.row, Listed(s.log), s.events, now), c.timeouts).Nothing?
    {
      var clocks := ClocksRead(s.row, Listed(s.log), s.events, now);
      Timers.TimersActFromTheDeadlineOn(clocks, c.timeouts, Buyer, now);
    }
    assert ActsFrom(c, s, deadline);
  }

  lemma SameAskedSince(log: seq<Message>, cutoff: nat)
    ensures AskedSince(Listed(log), cutoff) == AskedSince(log, cutoff)
  {
    assert log[..|log|] == log;
    AskedSincePrefix(log, |log|, cutoff);
  }

  /** In every run, an active session with no turn under way has a time from
      which the timers act, or a party message no turn has judged; unless the
      last judged turn only repeated a courtesy in a new language, or was cut
      short, by a failed send or a restart, before it asked, held, guided or
      handed off. */
  lemma {:induction false} DeadlineOrUnjudged(c: Config, dispute: string, now: int, moves: seq<Move>)
    ensures var s := Exec(c, Initial(dispute, now), moves);
            s.row.state.Active? && s.turn == [] ==>
              || (exists deadline :: ActsFrom(c, s, deadline))
              || Unjudged(s)
              || s.ledger.courtesy
              || s.ledger.aborted
  {
    hide Exec, ActsFrom, Unjudged, Owes;
    var s := Exec(c, Initial(dispute, now), moves);
    RunsKeepStall(c, dispute, now, moves);
    RunsAreOk(c, dispute, now, moves);
    HoldIsTheFlag(c, dispute, now, moves);
    if s.row.state.Active? && s.turn == [] {
      if s.ledger.holds {
        HoldIsADeadline(c, s);
      } else if Owes(s.log, Buyer) {
        OwedIsADeadline(c, s, Buyer);
      } else if Owes(s.log, Seller) {
        OwedIsADeadline(c, s, Seller);
      }
    }
  }
}

/** How often a party is asked the same question: once, once more for each
    time a turn repeats it in a new language, and once more for each time its
    row was lost. */
module Repeats {
  import opened Domain
  import opened Next
  import opened Policy
  import opened MessageLog
  import opened EventLog
  import opened Sessions
  import opened JudgeState
  import opened Mediation
  import opened Effects
  import opened Protocol
  import opened Turns
  import opened Rounds
  import opened Relays
  import opened Runs

  /** The question is stored, or about to be sent, once for the first time
      and once for each time a turn decided to repeat it. */
  ghost predicate AskedOnce(s: Sys, x: Letter) {
    Rows(s.log, x) + Coming(s.turn, x) + Coming(s.opening, x) <= 1 + s.ledger.resent[x]
  }

  // ----- what a decision sends -----

  lemma SendsCome(p: Party, ts: seq<Template>, x: Letter)
    requires |ts| <= 2 && (|ts| == 2 ==> !IsQuestion(ts[0])) && IsQuestion(x.1)
    ensures Coming(Sends(p, ts), x) == if x.0 == p && x.1 in ts then 1 else 0
  {
    if ts != [] {
      var first := [Send(p, ts[0], WhileMediating, Abort)];
      ComingAppend(first, Sends(p, ts[1..]), x);
      OneComing(first[0], x);
      if |ts| == 2 {
        SendsCome(p, ts[1..], x);
        assert ts == [ts[0], ts[1]];
      } else {
        assert Sends(p, ts[1..]) == [];
        assert ts == [ts[0]];
      }
    }
  }

  lemma AskCome(next: NextQuestions, p: Party, first: bool, x: Letter)
    requires NextShape(next) && IsQuestion(x.1)
    ensures Coming(AskOps(p, next.To(p), next.Asks(p), first), x) == if x.0 == p && x.1 in next.To(p) then 1 else 0
  {
    var ts := next.To(p);
    var count := AskOps(p, ts, next.Asks(p), first)[|Sends(p, ts)|..];
    assert OwnOrCourtesy(p, WhatHappensNext) && !IsQuestion(WhatHappensNext);
    SendsCome(p, ts, x);
    assert AskOps(p, ts, next.Asks(p), first) == Sends(p, ts) + count;
    ComingAppend(Sends(p, ts), count, x);
    NothingComing(count, x);
  }

  /** A decision sends each question at most once. */
  lemma ActionCome(next: NextQuestions, action: Action, x: Letter)
    requires NextShape(next) && IsQuestion(x.1) && (action.Ask? ==> action == Ask(next.buyer, next.seller))
    ensures Coming(ActionOps(next, action), x) <= if action.Ask? && x.1 in next.To(x.0) then 1 else 0
  {
    hide NextShape;
    match action
    case Ask(buyer, seller) =>
      AskCome(next, Buyer, true, x);
      AskCome(next, Seller, !next.Asks(Buyer), x);
      ComingAppend(AskOps(Buyer, buyer, next.Asks(Buyer), true),
                   AskOps(Seller, seller, next.Asks(Seller), !next.Asks(Buyer)), x);
    case _ => NothingComing(ActionOps(next, action), x);
  }

  lemma ResendIsAlone(p: Party, facts: Facts, history: History)
    requires Pick(facts, history).Resend(p)
    ensures |Pick(facts, history).To(p)| == 1
  {
    hide NeededQuestion;
  }

  /** What a turn decides to send again is noted as such. */
  lemma ResentIsNoted(c: Config, s: Sys, n: nat, turn: Turn, history: History, p: Party, t: Template)
    requires Decided(c, s, n, turn, history) && Decide(turn).Ask? && turn.next.Resend(p) && t in turn.next.To(p)
    ensures Resent(turn.next, Decide(turn))[(p, t)] >= 1
  {
    hide Decide, Pick;
    AskCarriesThePick(turn);
    DecidedPick(c, s, n, turn, history);
    ResendIsAlone(p, turn.facts, history);
    var ts := turn.next.To(p);
    assert ts == [ts[0]] && ResentTo(turn.next, p, ts) == multiset{(p, t)};
  }

  lemma DecidedPick(c: Config, s: Sys, n: nat, turn: Turn, history: History)
    requires Decided(c, s, n, turn, history)
    ensures turn.next == Pick(turn.facts, history) && s.opening == []
  {
    hide Pick, HistoryRead, QuietSince;
  }

  // ----- every step -----

  lemma NoRowOf(log: seq<Message>, x: Letter)
    requires IsQuestion(x.1) && x !in Questions(log)
    ensures Rows(log, x) == 0
  {
    forall m | m in log
      ensures !IsOutTemplate(m, x.0, x.1)
    {
      assert m.direction.Out? && m.template.Some? && IsQuestion(m.template.value) ==>
          (m.party, m.template.value) in Questions(log);
    }
    NoRows(log, x);
  }

  lemma RecordAsksOnce(c: Config, s: Sys, op: Op, o: Oracle, x: Letter)
    requires ProtocolOk(s) && TurnReads(c, s) && AskedOnce(s, x) && IsQuestion(x.1) && s.turn == [op] && op.Record?
    ensures var next, action := op.turn.next, Decide(op.turn);
            Rows(s.log, x) + Coming(ActionOps(next, action), x) + Coming(s.opening, x)
            <= 1 + s.ledger.resent[x] + Resent(next, action)[x]
  {
    hide ActionOps, Decide, Decided, Questions, SentOwn, OpeningOk, StillOpening, RowOk, Logs, Rows, Resent, NextShape;
    var turn, action := op.turn, Decide(op.turn);
    assert op in s.turn;
    MayRun(s, op);
    OneComing(op, x);
    if action.Ask? {
      AskCarriesThePick(turn);
    }
    ActionCome(turn.next, action, x);
    if action.Ask? && x.1 in turn.next.To(x.0) {
      if turn.next.Resend(x.0) {
        ResentIsNoted(c, s, op.n, turn, op.history, x.0, x.1);
        assert x == (x.0, x.1);
      } else {
        AskedIsNew(c, s, op.n, turn, op.history, x.0, x.1);
        assert x == (x.0, x.1);
        NoRowOf(s.log, x);
        DecidedPick(c, s, op.n, turn, op.history);
      }
    }
  }

  /** A step of a turn that decides nothing sends nothing twice. */
  lemma OwnComing(c: Config, s: Sys, op: Op, rest: seq<Op>, o: Oracle, x: Letter)
    requires !IsShared(op) && !op.Record? && (IsQuestion(x.1) || x.1 == Reminder)
    ensures Coming(RunTurnOp(c, s, op, rest, o).1, x) <= Coming([op] + rest, x)
  {
    hide RunTurnOp, Coming;
    var left := RunTurnOp(c, s, op, rest, o).1;
    ComingAppend([op], rest, x);
    if op.StartHold? || op.StartGuide? {
      StartsAskNothing(c, s, op, rest, o, x);
    } else {
      OthersAskNothing(c, s, op, rest, o, x);
      if left != rest {
        NothingComing(left, x);
      }
    }
  }

  lemma StartsAskNothing(c: Config, s: Sys, op: Op, rest: seq<Op>, o: Oracle, x: Letter)
    requires (op.StartHold? || op.StartGuide?) && (IsQuestion(x.1) || x.1 == Reminder)
    ensures Coming(RunTurnOp(c, s, op, rest, o).1, x) == Coming(rest, x)
  {
    hide Coming;
    var left := RunTurnOp(c, s, op, rest, o).1;
    var pre := left[..|left| - |rest|];
    assert left == pre + rest;
    ComingAppend(pre, rest, x);
    NothingComing(pre, x);
  }

  lemma OthersAskNothing(c: Config, s: Sys, op: Op, rest: seq<Op>, o: Oracle, x: Letter)
    requires !IsShared(op) && !op.Record? && !op.StartHold? && !op.StartGuide?
    ensures var left := RunTurnOp(c, s, op, rest, o).1;
            left == rest || forall y :: y in left ==> !Carries(y, x)
  {
    hide Judged, Strikes, Floods, Listed, Changes, WithLanguage, Unseen, Wrote;
  }

  /** A step of a turn that decides nothing stores or sends a question at most
      as often as the turn was about to. */
  lemma TurnComing(c: Config, s: Sys, op: Op, rest: seq<Op>, o: Oracle, x: Letter)
    requires TurnMay(op) && !op.Record? && IsQuestion(x.1)
    ensures var (e, left) := RunOp(c, s, TheTurn, op, rest, o);
            && Coming(left, x) + (if e == StoreOut(x.0, x.1) then 1 else 0) <= Coming([op] + rest, x)
            && !e.StoreEvaluation?
  {
    hide RunSharedOp, RunTurnOp, RunTickOp, RunOpeningOp, TurnMay, EffectAllowed, Coming;
    var e := RunOp(c, s, TheTurn, op, rest, o).0;
    RunEffects(c, s, TheTurn, op, rest, o);
    StoresWhatItCarries(s, TheTurn, op, o, e);
    NotRecorded(s, op, o, e);
    if IsShared(op) {
      GuidesOnly(op);
      SharedComing(s, TheTurn, op, rest, o, x);
    } else {
      OwnComing(c, s, op, rest, o, x);
    }
  }

  lemma TurnAsksOnce(c: Config, s: Sys, o: Oracle, x: Letter)
    requires ProtocolOk(s) && TurnReads(c, s) && AskedOnce(s, x) && IsQuestion(x.1) && s.turn != []
    ensures AskedOnce(Step(c, s, Run(TheTurn, o)), x)
  {
    hide Step, ProtocolOk, TurnReads, AskedOnce;
    if s.turn[0].Record? {
      JudgingIsAlone(c, s);
      DecisionAsksOnce(c, s, s.turn[0], o, x);
    } else {
      ActingAsksOnce(c, s, o, x);
    }
  }

  lemma DecisionAsksOnce(c: Config, s: Sys, op: Op, o: Oracle, x: Letter)
    requires ProtocolOk(s) && TurnReads(c, s) && AskedOnce(s, x) && IsQuestion(x.1) && s.turn == [op] && op.Record?
    ensures AskedOnce(Step(c, s, Run(TheTurn, o)), x)
  {
    hide Step, ProtocolOk, TurnReads, Rows, Coming, ActionOps, Resent, Decide, OnlyCourtesy;
    RecordAsksOnce(c, s, op, o, x);
    RecordIs(c, s, op, o);
  }

  lemma ResentStays(s: Sys, e: Effect, o: Oracle, left: seq<Op>)
    requires !e.StoreEvaluation?
    ensures var after := WithOps(Apply(s, e, o), TheTurn, left);
            && after.ledger.resent == s.ledger.resent && after.opening == s.opening && after.turn == left
            && after.log == Apply(s, e, o).log
  {
    hide Apply;
    ApplyIs(s, e, o);
  }

  lemma ActingAsksOnce(c: Config, s: Sys, o: Oracle, x: Letter)
    requires ProtocolOk(s) && AskedOnce(s, x) && IsQuestion(x.1) && s.turn != [] && !s.turn[0].Record?
    ensures AskedOnce(Step(c, s, Run(TheTurn, o)), x)
  {
    hide Step, RunOp, Apply, ProtocolOk, Rows, Coming, TurnMay, WithOps;
    var op, rest := s.turn[0], s.turn[1..];
    assert op in s.turn && s.turn == [op] + rest;
    MayRun(s, op);
    RunIs(c, s, TheTurn, o);
    TurnComing(c, s, op, rest, o, x);
    var (e, left) := RunOp(c, s, TheTurn, op, rest, o);
    RowsAfter(s, e, o, x);
    ResentStays(s, e, o, left);
  }

  lemma GuidesOnly(op: Op)
    requires TurnMay(op) || TickMay(op)
    ensures op.TellGuide? ==> IsGuide(op.template)
  {
  }

  lemma StoresWhatItCarries(s: Sys, a: Actor, op: Op, o: Oracle, e: Effect)
    requires EffectAllowed(s, a, op, o, e)
    ensures e.StoreOut? ==> op.StoreRow? && op.party == e.party && op.template == e.template
  {
  }

  lemma TickAsksNothing(c: Config, s: Sys, o: Oracle, x: Letter)
    requires ProtocolOk(s) && AskedOnce(s, x) && IsQuestion(x.1) && s.tick != []
    ensures AskedOnce(Step(c, s, Run(TheTick, o)), x)
  {
    hide RunOp, Apply, Rows, EffectAllowed, TurnMay, OpeningOk, StillOpening, Logs, SentOwn;
    var op, rest := s.tick[0], s.tick[1..];
    var e := RunOp(c, s, TheTick, op, rest, o).0;
    assert op in s.tick;
    RunEffects(c, s, TheTick, op, rest, o);
    StoresWhatItCarries(s, TheTick, op, o, e);
    RowsAfter(s, e, o, x);
    NotRecording(s, TheTick, op, o, e);
    ApplyIs(s, e, o);
  }

  lemma NotRecording(s: Sys, a: Actor, op: Op, o: Oracle, e: Effect)
    requires EffectAllowed(s, a, op, o, e) && !a.TheTurn?
    ensures !e.StoreEvaluation?
  {
  }

  lemma OpeningAsksOnce(c: Config, s: Sys, o: Oracle, x: Letter)
    requires ProtocolOk(s) && AskedOnce(s, x) && IsQuestion(x.1) && s.opening != []
    ensures AskedOnce(Step(c, s, Run(TheOpening, o)), x)
  {
    hide RunSharedOp, RunTurnOp, RunTickOp, RunOpeningOp, Apply, TurnMay, TickMay, Logs, SentOwn, OpenerSent, Rows, Coming;
    var op, rest := s.opening[0], s.opening[1..];
    var (e, left) := RunOp(c, s, TheOpening, op, rest, o);
    assert s.opening == [op] + rest;
    OpeningNext(s, op, rest, o);
    RowsAfter(s, e, o, x);
    ApplyIs(s, e, o);
    ComingAppend([op], rest, x);
    OneComing(op, x);
    OneComing(Abandon, x);
    if op.Send? || op.InFlight? {
      ComingAppend([left[0]], rest, x);
      OneComing(left[0], x);
    }
  }

  lemma EnvironmentAsksNothing(c: Config, s: Sys, m: Move, x: Letter)
    requires AskedOnce(s, x) && IsQuestion(x.1) && !m.Run?
    ensures AskedOnce(Step(c, s, m), x)
  {
    hide RunOp, Rows, HasRemedy, PendingAtStart;
    if m.Receive? {
      RowsAppend(s.log, Step(c, s, m).log[|s.log|], x);
    }
    OneComing(Load, x);
  }

  lemma StepAsksOnce(c: Config, s: Sys, m: Move, x: Letter)
    requires ProtocolOk(s) && TurnReads(c, s) && AskedOnce(s, x) && IsQuestion(x.1)
    ensures AskedOnce(Step(c, s, m), x)
  {
    hide Step, ProtocolOk, TurnReads, AskedOnce;
    if !m.Run? {
      EnvironmentAsksNothing(c, s, m, x);
    } else if OpsOf(s, m.actor) == [] {
      NothingToRun(c, s, m);
    } else {
      match m.actor
      case TheOpening => OpeningAsksOnce(c, s, m.oracle, x);
      case TheTurn => TurnAsksOnce(c, s, m.oracle, x);
      case TheTick => TickAsksNothing(c, s, m.oracle, x);
    }
  }

  lemma OpenersComeOnce(dispute: string, now: int, x: Letter)
    ensures AskedOnce(Initial(dispute, now), x)
  {
    hide Coming;
    var ops := Initial(dispute, now).opening;
    assert ops == [ops[0]] + ([ops[1]] + [ops[2]]);
    ComingAppend([ops[0]], [ops[1]] + [ops[2]], x);
    ComingAppend([ops[1]], [ops[2]], x);
    OneComing(ops[0], x);
    OneComing(ops[1], x);
    OneComing(ops[2], x);
    NothingComing([], x);
  }

  lemma {:induction false} RunsAskOnce(c: Config, dispute: string, now: int, moves: seq<Move>, x: Letter)
    requires IsQuestion(x.1)
    ensures AskedOnce(Exec(c, Initial(dispute, now), moves), x)
  {
    hide Step, AskedOnce;
    if moves == [] {
      OpenersComeOnce(dispute, now, x);
    } else {
      var before := moves[..|moves| - 1];
      RunsAskOnce(c, dispute, now, before, x);
      RunsAreOk(c, dispute, now, before);
      RunsRead(c, dispute, now, before);
      StepAsksOnce(c, Exec(c, Initial(dispute, now), before), moves[|moves| - 1], x);
    }
  }

  lemma QuestionsOnTheWay(s: Sys, x: Letter)
    requires ProtocolOk(s) && IsQuestion(x.1)
    ensures OnTheWay(s, x) <= Coming(s.turn, x) + Coming(s.opening, x)
  {
    hide Logs, SentOwn, StillOpening, RowOk, OpeningOk, TurnMay, Coming;
    UnstoredComes(s.turn, x);
    UnstoredComes(s.opening, x);
    if s.tick != [] {
      assert s.tick[0] in s.tick;
    }
  }

  /** In every run, whatever the interleaving, a party has at most one stored
      row of each question, and one more for each time a turn repeated it in a
      new language; and the relays took one more at most for each time its row
      was lost. */
  lemma {:induction false} EachQuestionOnce(c: Config, dispute: string, now: int, moves: seq<Move>, p: Party, q: Template)
    requires IsQuestion(q)
    ensures var s := Exec(c, Initial(dispute, now), moves);
            && Rows(s.log, (p, q)) <= 1 + s.ledger.resent[(p, q)]
            && s.ledger.sent[(p, q)] <= 1 + s.ledger.resent[(p, q)] + s.ledger.lost[(p, q)]
  {
    hide Exec, Rows, Coming, ProtocolOk, OnTheWay;
    var s := Exec(c, Initial(dispute, now), moves);
    RunsAskOnce(c, dispute, now, moves, (p, q));
    RunsAreOk(c, dispute, now, moves);
    SentIsStoredOrLost(c, dispute, now, moves);
    QuestionsOnTheWay(s, (p, q));
  }

  // ----- the bound is met -----

  const DETAILS: Letter := (Buyer, AskBuyerDetails)

  function QuestionTaken(s: Sys): Sys {
    Taken(AskingDetails(s), Buyer, AskBuyerDetails).(turn := [StoreRow(Buyer, AskBuyerDetails, Abort)] + DETAILS_OPS[1..])
  }

  function QuestionMoves(): seq<Move> {
    JudgedTurn(PAID) + [Goes(TheTurn, 0), Goes(TheTurn, 0)]
  }

  lemma RelayTakesQuestion(c: Config, s: Sys)
    requires AwaitsDetails(c, s)
    ensures Exec(c, s, QuestionMoves()) == QuestionTaken(s)
  {
    hide Exec, Step, AwaitsDetails, JudgedTurn;
    var go := Goes(TheTurn, 0);
    var asking := AskingDetails(s);
    var rest := DETAILS_OPS[1..];
    AwaitingIsActive(c, s);
    DetailsAreAsked(c, s);
    assert asking.turn == [DETAILS_OPS[0]] + rest;
    TwoSteps(c, asking, go, go);
    SendPasses(c, asking, TheTurn, Buyer, AskBuyerDetails, WhileMediating, Abort, rest, go.oracle);
    RelayTakes(c, asking.(turn := [InFlight(Buyer, AskBuyerDetails, Abort)] + rest), TheTurn, Buyer, AskBuyerDetails,
               Abort, rest, go.oracle);
    ExecAppend(c, s, JudgedTurn(PAID), [go, go]);
  }

  lemma AwaitingIsActive(c: Config, s: Sys)
    requires AwaitsDetails(c, s)
    ensures s.row.state.Active?
  {
  }

  lemma RestartLosesQuestion(c: Config, s: Sys)
    requires AwaitsDetails(c, s) && s.opening == [] && s.tick == []
    ensures var again := Step(c, QuestionTaken(s), Restart);
            && AwaitsDetails(c, again)
            && again.log == s.log
            && again.ledger.sent == s.ledger.sent + multiset{DETAILS}
            && again.ledger.lost == s.ledger.lost + multiset{DETAILS}
            && again.ledger.resent == s.ledger.resent
  {
    hide HasRemedy;
    assert s.log[|s.log| - 1] == Replies()[1];
  }

  /** A restart between a relay taking a question and its row being stored:
      the next turn decides the same and asks the buyer again, in the same
      language. */
  lemma AQuestionIsSentTwice(c: Config, dispute: string) returns (moves: seq<Move>)
    requires c.maxRounds >= 1 && c.maxMessagesPerTurn >= 1
    ensures var s := Exec(c, Initial(dispute, 100), moves);
            s.ledger.sent[DETAILS] == 2 && s.ledger.lost[DETAILS] == 1 && s.ledger.resent[DETAILS] == 0
            && Rows(s.log, DETAILS) == 0
  {
    hide Exec, Step, AwaitsDetails, QuestionMoves;
    var opens := Opens(c, dispute);
    var replies := [Receive(Buyer, 101, 0), Receive(Seller, 102, 0)];
    var s := BothReplied(Opened(dispute), 101, 102);
    moves := opens + replies + QuestionMoves() + [Restart] + QuestionMoves();
    BothReply(c, Opened(dispute), 101, 102);
    RepliesAwait(c, s);
    RelayTakesQuestion(c, s);
    OneStep(c, QuestionTaken(s), Restart);
    RestartLosesQuestion(c, s);
    var again := Step(c, QuestionTaken(s), Restart);
    RelayTakesQuestion(c, again);
    ExecAppend(c, Initial(dispute, 100), opens, replies);
    ExecAppend(c, Initial(dispute, 100), opens + replies, QuestionMoves());
    ExecAppend(c, Initial(dispute, 100), opens + replies + QuestionMoves(), [Restart]);
    ExecAppend(c, Initial(dispute, 100), opens + replies + QuestionMoves() + [Restart], QuestionMoves());
    NoRows(s.log, DETAILS);
    assert OPENERS[DETAILS] == 0;
  }
}

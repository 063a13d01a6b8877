/** How many rounds a party can cost: the questions counted as rounds are
    distinct questions stored for the party, and never its opener. */
module Rounds {
  import opened Domain
  import opened Next
  import opened Policy
  import opened MessageLog
  import opened Views
  import opened EventLog
  import opened Sessions
  import opened Mediation
  import opened Effects
  import opened Protocol
  import opened Turns
  import Timers

  type Question = (Party, Template)

  /** The questions stored as sent to the parties so far. */
  function Questions(log: seq<Message>): set<Question> {
    set m | m in log && m.direction.Out? && m.template.Some? && IsQuestion(m.template.value)
      :: (m.party, m.template.value)
  }

  function Of(questions: set<Question>, p: Party): set<Question> {
    set x | x in questions && x.0 == p
  }

  /** Each round a turn still has to count is a question it will have sent by
      then, counted by no earlier round, and not the party's opener. */
  ghost predicate Planned(sent: set<Question>, counted: set<Question>, ops: seq<Op>)
    decreases |ops|
  {
    ops != [] ==>
      match ops[0]
      case Send(p, t, _, _) => Planned(if IsQuestion(t) then sent + {(p, t)} else sent, counted, ops[1..])
      case InFlight(p, t, _) => Planned(if IsQuestion(t) then sent + {(p, t)} else sent, counted, ops[1..])
      case StoreRow(p, t, _) => Planned(if IsQuestion(t) then sent + {(p, t)} else sent, counted, ops[1..])
      case CountRound(p, q, _) =>
        && (p, q) in sent && (p, q) !in counted
        && q != Opener(p) && (p, Opener(p)) in sent
        && Planned(sent, counted + {(p, q)}, ops[1..])
      case _ => Planned(sent, counted, ops[1..])
  }

  ghost predicate RoundsOk(s: Sys) {
    && Planned(Questions(s.log), s.ledger.counted, s.turn)
    && s.ledger.counted <= Questions(s.log)
    && (forall p :: (p, Opener(p)) !in s.ledger.counted)
    && (forall x :: x in s.ledger.counted ==> (x.0, Opener(x.0)) in Questions(s.log))
    && (forall p :: s.row.RoundsOf(p) == |Of(s.ledger.counted, p)|)
  }

  predicate CountsNothing(ops: seq<Op>) {
    forall op :: op in ops ==> !op.CountRound?
  }

  // ----- planning -----

  lemma MoreSentKeepsPlan(sent: set<Question>, more: set<Question>, counted: set<Question>, ops: seq<Op>)
    requires Planned(sent, counted, ops) && sent <= more
    ensures Planned(more, counted, ops)
    decreases |ops|
  {
    if ops != [] {
      match ops[0]
      case Send(p, t, _, _) =>
        MoreSentKeepsPlan(if IsQuestion(t) then sent + {(p, t)} else sent,
                          if IsQuestion(t) then more + {(p, t)} else more, counted, ops[1..]);
      case InFlight(p, t, _) =>
        MoreSentKeepsPlan(if IsQuestion(t) then sent + {(p, t)} else sent,
                          if IsQuestion(t) then more + {(p, t)} else more, counted, ops[1..]);
      case StoreRow(p, t, _) =>
        MoreSentKeepsPlan(if IsQuestion(t) then sent + {(p, t)} else sent,
                          if IsQuestion(t) then more + {(p, t)} else more, counted, ops[1..]);
      case CountRound(p, q, _) => MoreSentKeepsPlan(sent, more, counted + {(p, q)}, ops[1..]);
      case _ => MoreSentKeepsPlan(sent, more, counted, ops[1..]);
    }
  }

  lemma CountingNothingKeepsPlan(sent: set<Question>, counted: set<Question>, pre: seq<Op>, ops: seq<Op>)
    requires Planned(sent, counted, ops) && CountsNothing(pre)
    ensures Planned(sent, counted, pre + ops)
    decreases |pre|
  {
    if pre == [] {
      assert pre + ops == ops;
    } else {
      assert (pre + ops)[1..] == pre[1..] + ops;
      assert forall op :: op in pre[1..] ==> op in pre;
      var op := pre[0];
      assert op in pre;
      CountingNothingKeepsPlan(sent, counted, pre[1..], ops);
      if op.Send? || op.InFlight? || op.StoreRow? {
        MoreSentKeepsPlan(sent, if IsQuestion(op.template) then sent + {(op.party, op.template)} else sent, counted,
                          pre[1..] + ops);
      }
    }
  }

  lemma CountingNothingIsPlanned(sent: set<Question>, counted: set<Question>, ops: seq<Op>)
    requires CountsNothing(ops)
    ensures Planned(sent, counted, ops)
  {
    CountingNothingKeepsPlan(sent, counted, ops, []);
    assert ops + [] == ops;
  }

  function AskedBy(p: Party, ts: seq<Template>): set<Question> {
    set t | t in ts && IsQuestion(t) :: (p, t)
  }

  lemma AskedByRest(sent: set<Question>, p: Party, ts: seq<Template>)
    requires ts != []
    ensures sent + AskedBy(p, ts)
         == (if IsQuestion(ts[0]) then sent + {(p, ts[0])} else sent) + AskedBy(p, ts[1..])
  {
    assert ts == [ts[0]] + ts[1..];
  }

  /** A turn's sends, and what follows them. */
  lemma SendsPlan(sent: set<Question>, counted: set<Question>, p: Party, ts: seq<Template>, ops: seq<Op>)
    requires Planned(sent + AskedBy(p, ts), counted, ops)
    ensures Planned(sent, counted, Sends(p, ts) + ops)
    decreases |ts|
  {
    if ts == [] {
      assert AskedBy(p, ts) == {} && sent + {} == sent;
      assert Sends(p, ts) + ops == ops;
    } else {
      var t := ts[0];
      var more := if IsQuestion(t) then sent + {(p, t)} else sent;
      AskedByRest(sent, p, ts);
      SendsPlan(more, counted, p, ts[1..], ops);
      assert (Sends(p, ts) + ops)[1..] == Sends(p, ts[1..]) + ops;
    }
  }

  /** What is counted once a party was asked. */
  function CountedAfter(counted: set<Question>, next: NextQuestions, p: Party): set<Question> {
    var ts := next.To(p);
    if next.Asks(p) && ts != [] then counted + {(p, ts[|ts| - 1])} else counted
  }

  lemma CountPlan(sent: set<Question>, counted: set<Question>, p: Party, q: Template, first: bool, ops: seq<Op>)
    requires (p, q) in sent && (p, q) !in counted && q != Opener(p) && (p, Opener(p)) in sent
    requires Planned(sent, counted + {(p, q)}, ops)
    ensures Planned(sent, counted, [CountRound(p, q, first)] + ops)
  {
    assert ([CountRound(p, q, first)] + ops)[1..] == ops;
  }

  lemma AskPlan(sent: set<Question>, counted: set<Question>, next: NextQuestions, p: Party, first: bool, ops: seq<Op>)
    requires NextShape(next)
    requires (p, Opener(p)) in sent
    requires !next.Resend(p) ==> forall t :: t in next.To(p) ==> (p, t) !in counted && t != Opener(p)
    requires Planned(sent, CountedAfter(counted, next, p), ops)
    ensures Planned(sent, counted, AskOps(p, next.To(p), next.Asks(p), first) + ops)
  {
    hide Planned, Sends;
    var ts := next.To(p);
    var more := sent + AskedBy(p, ts);
    if next.Asks(p) {
      AskedQuestionIsLast(next, p);
      var q := ts[|ts| - 1];
      var count := [CountRound(p, q, first)];
      assert q in ts && (p, q) in more;
      MoreSentKeepsPlan(sent, more, counted + {(p, q)}, ops);
      CountPlan(more, counted, p, q, first, ops);
      SendsPlan(sent, counted, p, ts, count + ops);
      assert Sends(p, ts) + (count + ops) == AskOps(p, ts, next.Asks(p), first) + ops;
    } else {
      MoreSentKeepsPlan(sent, more, counted, ops);
      SendsPlan(sent, counted, p, ts, ops);
      assert Sends(p, ts) + ops == AskOps(p, ts, next.Asks(p), first) + ops;
    }
  }

  /** The decision to ask counts only questions that are new to the party. */
  lemma ActionPlan(sent: set<Question>, counted: set<Question>, next: NextQuestions, action: Action)
    requires NextShape(next)
    requires action.Ask? ==> action == Ask(next.buyer, next.seller)
    requires forall p :: (p, Opener(p)) in sent
    requires forall p, t :: !next.Resend(p) && t in next.To(p) ==> (p, t) !in counted && t != Opener(p)
    ensures Planned(sent, counted, ActionOps(next, action))
  {
    if action.Ask? {
      var both := CountedAfter(CountedAfter(counted, next, Buyer), next, Seller);
      var seller := AskOps(Seller, next.seller, next.Asks(Seller), !next.Asks(Buyer));
      assert Planned(sent, both, []);
      AskPlan(sent, CountedAfter(counted, next, Buyer), next, Seller, !next.Asks(Buyer), []);
      assert seller + [] == seller;
      AskPlan(sent, counted, next, Buyer, true, seller);
    }
  }

  lemma QuestionsGrow(log: seq<Message>, m: Message)
    ensures Questions(log + [m]) ==
            Questions(log) + if m.direction.Out? && m.template.Some? && IsQuestion(m.template.value)
                             then {(m.party, m.template.value)} else {}
  {
    assert forall x :: x in log + [m] <==> x in log || x == m;
  }

  lemma AskedAreQuestions(log: seq<Message>, n: nat, p: Party, t: Template)
    requires QuietSince(log, n)
    requires (p, t) in Questions(log)
    ensures AskedOf(Listed(log[..n])).Sent(p, t)
  {
    var i :| 0 <= i < |log| && IsOutTemplate(log[i], p, t) && IsQuestion(t);
    assert IsOutTemplate(log[i], p, t);
    assert IsOutQuestion(log[i], p);
    assert log[i] == log[..n][i];
    ListedElements(log[..n]);
    assert log[i] in Listed(log[..n]);
  }

  /** No row is stored of a template a turn is about to ask a party, although
      other actors stepped in since the turn read the log. */
  lemma {:induction false} AskedIsNew(c: Config, s: Sys, n: nat, turn: Turn, history: History, p: Party, t: Template)
    requires Decided(c, s, n, turn, history)
    requires !turn.next.Resend(p) && t in turn.next.To(p)
    ensures (p, t) !in Questions(s.log)
    ensures t != Opener(p)
  {
    var log := s.log[..n];
    PickedAreNew(p, turn.facts, history);
    if (p, t) in Questions(s.log) {
      AskedAreQuestions(s.log, n, p, t);
    }
    var m :| m in log && IsOutTemplate(m, p, Opener(p));
    ListedElements(log);
    assert history.asked.Sent(p, Opener(p));
  }

  lemma OpenersAreQuestions(log: seq<Message>, n: nat, p: Party)
    requires n <= |log| && OpenerSent(log[..n], p)
    ensures (p, Opener(p)) in Questions(log)
  {
    var m :| m in log[..n] && IsOutTemplate(m, p, Opener(p));
    assert m in log;
  }

  // ----- one step of a turn -----

  /** What is left either counts nothing, or is `rest` with something before
      it that counts nothing. */
  ghost predicate Continues(left: seq<Op>, rest: seq<Op>) {
    || CountsNothing(left)
    || (|rest| <= |left| && left[|left| - |rest|..] == rest && CountsNothing(left[..|left| - |rest|]))
  }

  lemma ContinuingKeepsPlan(sent: set<Question>, counted: set<Question>, left: seq<Op>, rest: seq<Op>)
    requires Continues(left, rest) && Planned(sent, counted, rest)
    ensures Planned(sent, counted, left)
  {
    if CountsNothing(left) {
      CountingNothingIsPlanned(sent, counted, left);
    } else {
      CountingNothingKeepsPlan(sent, counted, left[..|left| - |rest|], rest);
      assert left[..|left| - |rest|] + rest == left;
    }
  }

  lemma PrependContinues(pre: seq<Op>, rest: seq<Op>)
    requires CountsNothing(pre)
    ensures Continues(pre + rest, rest)
  {
    assert (pre + rest)[|pre|..] == rest && (pre + rest)[..|pre|] == pre;
  }

  lemma SharedContinues(s: Sys, op: Op, rest: seq<Op>, o: Oracle)
    requires !op.Send? && !op.InFlight? && !op.StoreRow? && IsShared(op)
    ensures Continues(RunSharedOp(s, TheTurn, op, rest, o).1, rest)
  {
    hide Continues;
    var left := RunSharedOp(s, TheTurn, op, rest, o).1;
    var pre := left[..|left| - |rest|];
    PrependContinues([], rest);
    assert [] + rest == rest;
    assert left == pre + rest;
    PrependContinues(pre, rest);
  }

  lemma OwnContinues(c: Config, s: Sys, op: Op, rest: seq<Op>, o: Oracle)
    requires !op.Record?
    ensures Continues(RunTurnOp(c, s, op, rest, o).1, rest)
  {
    hide Continues, Judged, Decide, OnlyCourtesy, Strikes, Floods, Listed, Changes, WithLanguage, Unseen;
    var left := RunTurnOp(c, s, op, rest, o).1;
    PrependContinues([], rest);
    assert [] + rest == rest;
    if op.StartHold? || op.StartGuide? {
      var pre := left[..|left| - |rest|];
      assert left == pre + rest;
      PrependContinues(pre, rest);
    } else if left != rest {
      assert CountsNothing(left);
      NothingContinues(left, rest);
    }
  }

  lemma NothingContinues(left: seq<Op>, rest: seq<Op>)
    requires CountsNothing(left)
    ensures Continues(left, rest)
  {
  }

  lemma SentQuestionsAfter(s: Sys, e: Effect, o: Oracle)
    ensures Questions(Apply(s, e, o).log) ==
            Questions(s.log) + if e.StoreOut? && IsQuestion(e.template) then {(e.party, e.template)} else {}
  {
    hide Apply, Questions;
    ApplyIs(s, e, o);
    if e.StoreOut? {
      QuestionsGrow(s.log, Apply(s, e, o).log[|s.log|]);
    }
  }

  lemma SendingKeepsPlan(s: Sys, op: Op, rest: seq<Op>, o: Oracle)
    requires op.Send? || op.InFlight? || op.StoreRow?
    requires TurnMay(op) && Planned(Questions(s.log), s.ledger.counted, [op] + rest)
    ensures var (e, left) := RunSharedOp(s, TheTurn, op, rest, o);
            Planned(Questions(Apply(s, e, o).log), s.ledger.counted, left)
  {
    hide Apply, Questions;
    var (e, left) := RunSharedOp(s, TheTurn, op, rest, o);
    SentQuestionsAfter(s, e, o);
    var p, t := op.party, op.template;
    var sent := if IsQuestion(t) then Questions(s.log) + {(p, t)} else Questions(s.log);
    assert ([op] + rest)[1..] == rest && Planned(sent, s.ledger.counted, rest);
    if op.StoreRow? && o.ok {
      assert Questions(Apply(s, e, o).log) == sent;
    } else {
      assert Questions(Apply(s, e, o).log) == Questions(s.log);
      assert left == [] || left == rest || left[1..] == rest;
    }
  }

  lemma CountingAddsOne(counted: set<Question>, p: Party, q: Template)
    requires (p, q) !in counted
    ensures |Of(counted + {(p, q)}, p)| == |Of(counted, p)| + 1
    ensures Of(counted + {(p, q)}, p.Other()) == Of(counted, p.Other())
  {
    assert Of(counted + {(p, q)}, p) == Of(counted, p) + {(p, q)};
  }

  lemma CountKeepsRounds(c: Config, s: Sys, op: Op, rest: seq<Op>, o: Oracle)
    requires RoundsOk(s) && s.turn == [op] + rest && op.CountRound?
    ensures RoundsOk(Step(c, s, Run(TheTurn, o)))
  {
    hide Step, Questions;
    assert s.turn[1..] == rest && s.turn[0] == op;
    CountIs(c, s, op, rest, o);
    CountingAddsOne(s.ledger.counted, op.party, op.question);
  }

  lemma CountIs(c: Config, s: Sys, op: Op, rest: seq<Op>, o: Oracle)
    requires s.turn == [op] + rest && op.CountRound?
    ensures Step(c, s, Run(TheTurn, o)) ==
            s.(row := CountRoundRow(s.row, op.party, op.firstInTurn, s.now),
               ledger := s.ledger.(counted := s.ledger.counted + {(op.party, op.question)}), turn := rest)
  {
    assert s.turn[1..] == rest && s.turn[0] == op;
  }

  /** A step that counts nothing keeps the rounds, once what is left is
      planned. */
  lemma OthersKeepRounds(s: Sys, e: Effect, o: Oracle, left: seq<Op>)
    requires RoundsOk(s) && !e.CountQuestion? && SameRounds(s.row, RowAfter(s, e))
    requires Planned(Questions(Apply(s, e, o).log), s.ledger.counted, left)
    ensures RoundsOk(Apply(s, e, o).(turn := left))
  {
    hide Apply, Questions, Planned;
    ApplyIs(s, e, o);
    SentQuestionsAfter(s, e, o);
  }

  lemma RecordKeepsRounds(c: Config, s: Sys, op: Op, o: Oracle)
    requires ProtocolOk(s) && TurnReads(c, s) && RoundsOk(s) && s.turn == [op] && op.Record?
    ensures RoundsOk(Step(c, s, Run(TheTurn, o)))
  {
    hide Step, ActionOps, Decide, OnlyCourtesy, Resent, Decided, Questions, Planned, ProtocolOk;
    assert op in s.turn;
    RecordIs(c, s, op, o);
    MayRun(s, op);
    RecordPlans(c, s, op);
  }

  lemma RecordPlans(c: Config, s: Sys, op: Op)
    requires op.Record? && TurnMay(op) && Decided(c, s, op.n, op.turn, op.history)
    requires s.ledger.counted <= Questions(s.log)
    requires forall p :: (p, Opener(p)) !in s.ledger.counted
    ensures Planned(Questions(s.log), s.ledger.counted, ActionOps(op.turn.next, Decide(op.turn)))
  {
    hide ActionOps, Decide, Decided, Questions, Planned, NextShape;
    var turn, action := op.turn, Decide(op.turn);
    if action.Ask? {
      AskCarriesThePick(turn);
    }
    forall p, t | !turn.next.Resend(p) && t in turn.next.To(p)
      ensures (p, t) !in s.ledger.counted && t != Opener(p)
    {
      AskedIsNew(c, s, op.n, turn, op.history, p, t);
    }
    forall p ensures (p, Opener(p)) in Questions(s.log) {
      DecidedOpeners(c, s, op.n, turn, op.history, p);
    }
    ActionPlan(Questions(s.log), s.ledger.counted, turn.next, action);
  }

  lemma DecidedOpeners(c: Config, s: Sys, n: nat, turn: Turn, history: History, p: Party)
    requires Decided(c, s, n, turn, history)
    ensures (p, Opener(p)) in Questions(s.log)
  {
    OpenersAreQuestions(s.log, n, p);
  }

  lemma TurnKeepsRounds(c: Config, s: Sys, o: Oracle)
    requires ProtocolOk(s) && TurnReads(c, s) && RoundsOk(s) && s.turn != []
    ensures RoundsOk(Step(c, s, Run(TheTurn, o)))
  {
    hide RunSharedOp, RunTurnOp, RunTickOp, RunOpeningOp, Apply, ProtocolOk, OpReads, Planned, Questions, TurnMay;
    var op, rest := s.turn[0], s.turn[1..];
    assert op in s.turn && s.turn == [op] + rest;
    MayRun(s, op);
    if op.CountRound? {
      CountKeepsRounds(c, s, op, rest, o);
    } else if op.Record? {
      assert s.turn == [op];
      RecordKeepsRounds(c, s, op, o);
    } else {
      var (e, left) := RunOp(c, s, TheTurn, op, rest, o);
      if op.Send? || op.InFlight? || op.StoreRow? {
        SendingKeepsPlan(s, op, rest, o);
      } else {
        PlanOfRest(Questions(s.log), s.ledger.counted, op, rest);
        if IsShared(op) {
          SharedContinues(s, op, rest, o);
        } else {
          OwnContinues(c, s, op, rest, o);
        }
        ContinuingKeepsPlan(Questions(s.log), s.ledger.counted, left, rest);
        SentQuestionsAfter(s, e, o);
        MoreSentKeepsPlan(Questions(s.log), Questions(Apply(s, e, o).log), s.ledger.counted, left);
      }
      RowIsOk(s);
      RunEffects(c, s, TheTurn, op, rest, o);
      TurnsDoNotActivate(op);
      EffectMovesRow(s, TheTurn, op, o, e);
      OthersKeepRounds(s, e, o, left);
    }
  }

  lemma PlanOfRest(sent: set<Question>, counted: set<Question>, op: Op, rest: seq<Op>)
    requires !op.Send? && !op.InFlight? && !op.StoreRow? && !op.CountRound? && Planned(sent, counted, [op] + rest)
    ensures Planned(sent, counted, rest)
  {
    assert ([op] + rest)[1..] == rest;
  }

  // ----- every step and every run -----

  lemma ActorKeepsRounds(c: Config, s: Sys, a: Actor, o: Oracle)
    requires ProtocolOk(s) && RoundsOk(s) && !a.TheTurn? && OpsOf(s, a) != []
    ensures RoundsOk(Step(c, s, Run(a, o)))
  {
    hide Step, RunOp, Apply, Planned, Questions, ProtocolOk, EffectAllowed;
    var op, rest := OpsOf(s, a)[0], OpsOf(s, a)[1..];
    assert op in OpsOf(s, a);
    var e := RunOp(c, s, a, op, rest, o).0;
    RunIs(c, s, a, o);
    RunEffects(c, s, a, op, rest, o);
    OthersCountNothing(s, a, op, o, e);
    SentQuestionsAfter(s, e, o);
    MoreSentKeepsPlan(Questions(s.log), Questions(Apply(s, e, o).log), s.ledger.counted, s.turn);
    ApplyIs(s, e, o);
    OthersKeepRounds(s, e, o, s.turn);
  }

  lemma OthersCountNothing(s: Sys, a: Actor, op: Op, o: Oracle, e: Effect)
    requires ProtocolOk(s) && EffectAllowed(s, a, op, o, e) && op in OpsOf(s, a) && !a.TheTurn?
    ensures !e.CountQuestion? && SameRounds(s.row, RowAfter(s, e))
  {
    hide TurnMay, TickMay, SentOwn, Logs, StillOpening, OpenerSent;
    if a.TheTick? {
      NotActivating(s, a, op);
    }
    EffectMovesRow(s, a, op, o, e);
  }

  lemma EnvironmentKeepsRounds(c: Config, s: Sys, m: Move)
    requires RoundsOk(s) && !m.Run?
    ensures RoundsOk(Step(c, s, m))
  {
    hide Questions, RunOp;
    match m
    case Receive(p, createdAt, gap) =>
      QuestionsGrow(s.log, Message(LastId(s.log) + 1 + gap, In, p, None, createdAt));
      assert Questions(Step(c, s, m).log) == Questions(s.log);
    case _ =>
  }

  lemma StepKeepsRounds(c: Config, s: Sys, m: Move)
    requires ProtocolOk(s) && TurnReads(c, s) && RoundsOk(s)
    ensures RoundsOk(Step(c, s, m))
  {
    hide Step, ProtocolOk, TurnReads, RoundsOk;
    if !m.Run? {
      EnvironmentKeepsRounds(c, s, m);
    } else if OpsOf(s, m.actor) == [] {
      NothingToRun(c, s, m);
    } else if m.actor.TheTurn? {
      TurnKeepsRounds(c, s, m.oracle);
    } else {
      ActorKeepsRounds(c, s, m.actor, m.oracle);
    }
  }

  lemma {:induction false} RunsKeepRounds(c: Config, dispute: string, now: int, moves: seq<Move>)
    ensures RoundsOk(Exec(c, Initial(dispute, now), moves))
  {
    hide Step;
    if moves != [] {
      var before := moves[..|moves| - 1];
      RunsKeepRounds(c, dispute, now, before);
      RunsAreOk(c, dispute, now, before);
      RunsRead(c, dispute, now, before);
      StepKeepsRounds(c, Exec(c, Initial(dispute, now), before), moves[|moves| - 1]);
    }
  }

  // ----- the bound -----

  lemma OwnQuestionsAreThree(log: seq<Message>, p: Party)
    requires SentOwn(log)
    ensures |Of(Questions(log), p)| <= 3
  {
    var own := set t | t in QuestionsFor(p) :: (p, t);
    forall x | x in Of(Questions(log), p)
      ensures x in own
    {
      var m :| m in log && IsOutTemplate(m, x.0, x.1) && IsQuestion(x.1);
      assert IsOutTemplate(m, x.0, x.1);
      assert IsOutQuestion(m, p) && x == (p, m.template.value);
    }
    assert own == match p
                  case Buyer => {(p, AskBuyerSent), (p, AskBuyerSentSimple), (p, AskBuyerDetails)}
                  case Seller => {(p, AskSellerReceived), (p, AskSellerReceivedSimple), (p, AskSellerCheckAccount)};
    Smaller(Of(Questions(log), p), own);
  }

  lemma Smaller(a: set<Question>, b: set<Question>)
    requires a <= b
    ensures |a| <= |b|
  {
    if a != {} {
      var x :| x in a;
      Smaller(a - {x}, b - {x});
    }
  }

  lemma RoundsBound(s: Sys, p: Party)
    requires RoundsOk(s) && SentOwn(s.log)
    ensures s.row.RoundsOf(p) <= 2
    ensures s.row.RoundsOf(p) > 0 ==> s.row.RoundsOf(p) < |Of(Questions(s.log), p)|
  {
    hide Questions;
    OwnQuestionsAreThree(s.log, p);
    var rounds, questions := Of(s.ledger.counted, p), Of(Questions(s.log), p);
    if rounds != {} {
      var x :| x in rounds;
      assert (p, Opener(p)) in questions && (p, Opener(p)) !in rounds;
      Smaller(rounds, questions - {(p, Opener(p))});
    }
  }

  /** In every run, under any judge, a party's counted rounds are fewer than
      the distinct questions stored for it, hence at most two. */
  lemma {:induction false} RoundsAreBounded(c: Config, dispute: string, now: int, moves: seq<Move>, p: Party)
    ensures var s := Exec(c, Initial(dispute, now), moves);
            && s.row.RoundsOf(p) <= 2
            && (s.row.RoundsOf(p) > 0 ==> s.row.RoundsOf(p) < |Of(Questions(s.log), p)|)
  {
    hide Exec, Questions;
    var s := Exec(c, Initial(dispute, now), moves);
    RunsKeepRounds(c, dispute, now, moves);
    RunsAreOk(c, dispute, now, moves);
    RoundsBound(s, p);
  }

  // ----- the round limit -----

  /** No handoff for this reason is planned. */
  predicate Without(ops: seq<Op>, reason: Reason) {
    forall op :: op in ops ==> op != HandOff(reason)
  }

  ghost predicate LimitUnused(s: Sys) {
    Without(s.turn, RoundLimit) && Without(s.tick, RoundLimit) && s.row.handoffReason != Some(RoundLimit)
  }

  lemma SharedWithout(s: Sys, a: Actor, op: Op, rest: seq<Op>, o: Oracle, reason: Reason)
    requires Without(rest, reason)
    ensures Without(RunSharedOp(s, a, op, rest, o).1, reason)
  {
    ToRetryKeeps(rest);
  }

  lemma ActionWithout(next: NextQuestions, action: Action, reason: Reason)
    requires action != Handoff(reason)
    ensures Without(ActionOps(next, action), reason)
  {
    if action.Ask? {
      SendsDoNotJudge(Buyer, action.buyer);
      SendsAre(Buyer, action.buyer);
      SendsAre(Seller, action.seller);
    }
  }

  lemma TurnWithout(c: Config, s: Sys, op: Op, rest: seq<Op>, o: Oracle, reason: Reason)
    requires Without(rest, reason)
    requires op.CheckFlood? ==> !reason.Flood?
    requires op.AskJudge? ==> !reason.JudgeUnavailable?
    requires op.Record? ==> Decide(op.turn) != Handoff(reason)
    ensures Without(RunTurnOp(c, s, op, rest, o).1, reason)
  {
    hide Judged, Decide, OnlyCourtesy, Strikes, Floods, Listed, Changes, WithLanguage, Unseen, ActionOps;
    if op.Record? {
      ActionWithout(op.turn.next, Decide(op.turn), reason);
    }
  }

  lemma TickWithout(c: Config, s: Sys, op: Op, rest: seq<Op>, o: Oracle, reason: Reason)
    requires Without(rest, reason)
    requires reason !in {SelfResolutionStalled, FactsGathered, Unresponsive, OpeningFailed}
    ensures Without(RunTickOp(c, s, op, rest, o).1, reason)
  {
    hide RetryOps, ClocksRead, Timers.Check;
    if op.ReadClocks? {
      var timer := Timers.Check(ClocksRead(op.session, Listed(s.log), s.events, s.now), c.timeouts);
      TimerReasons(ClocksRead(op.session, Listed(s.log), s.events, s.now), c.timeouts);
      if timer.Remind? {
        RemindersAre(timer.parties);
      }
    } else if op.Retry? {
      RetriesHandNothingOff(c, s, op.session);
    }
  }

  lemma TimerReasons(clocks: Timers.Clocks, timeouts: Timers.Timeouts)
    ensures var timer := Timers.Check(clocks, timeouts);
            timer.Handoff? ==> timer.reason in {SelfResolutionStalled, FactsGathered, Unresponsive}
  {
  }

  lemma RetriesHandNothingOff(c: Config, s: Sys, session: Row)
    ensures forall op :: op in RetryOps(c, s, session) ==> !op.HandOff?
  {
    PendingBriefsAre(s.events, s.events);
  }

  /** With at least three rounds allowed, no turn decides to give up. */
  lemma RoundsRemain(c: Config, s: Sys, n: nat, turn: Turn, history: History)
    requires Decided(c, s, n, turn, history) && RoundsOk(s) && SentOwn(s.log) && c.maxRounds >= 3
    ensures Decide(turn) != Handoff(RoundLimit)
  {
    hide Decide, Decided, RoundsOk, SentOwn;
    RoundsBound(s, Buyer);
    RoundsBound(s, Seller);
    DecidedRounds(c, s, n, turn, history);
    if Decide(turn) == Handoff(RoundLimit) {
      LimitNeedsRounds(turn);
      assert false;
    }
  }

  lemma DecidedRounds(c: Config, s: Sys, n: nat, turn: Turn, history: History)
    requires Decided(c, s, n, turn, history)
    ensures turn.buyerRounds == s.row.buyerRounds && turn.sellerRounds == s.row.sellerRounds
    ensures turn.maxRounds == c.maxRounds
  {
    hide Pick, Listed, Heard, HistoryRead, QuietSince;
  }

  lemma LimitNeedsRounds(turn: Turn)
    requires Decide(turn) == Handoff(RoundLimit)
    ensures Max(turn.buyerRounds, turn.sellerRounds) >= turn.maxRounds
  {
  }

  lemma RunUnlimited(c: Config, s: Sys, a: Actor, o: Oracle)
    requires ProtocolOk(s) && TurnReads(c, s) && RoundsOk(s) && LimitUnused(s) && c.maxRounds >= 3
    requires !a.TheOpening? && OpsOf(s, a) != []
    ensures LimitUnused(Step(c, s, Run(a, o)))
  {
    hide Step, RunOp, Apply, ProtocolOk, TurnReads, RoundsOk, EffectAllowed;
    var op, rest := OpsOf(s, a)[0], OpsOf(s, a)[1..];
    assert op in OpsOf(s, a);
    var e := RunOp(c, s, a, op, rest, o).0;
    RunIs(c, s, a, o);
    RunEffects(c, s, a, op, rest, o);
    ReasonUnlimited(s, a, op, o, e);
    LeftUnlimited(c, s, a, op, rest, o);
    ApplyIs(s, e, o);
  }

  lemma ReasonUnlimited(s: Sys, a: Actor, op: Op, o: Oracle, e: Effect)
    requires ProtocolOk(s) && EffectAllowed(s, a, op, o, e) && op in OpsOf(s, a) && !a.TheOpening?
    requires LimitUnused(s)
    ensures RowAfter(s, e).handoffReason != Some(RoundLimit)
  {
    hide Logs, SentOwn, OpeningOk, StillOpening, TurnMay, TickMay;
    NotActivating(s, a, op);
  }

  lemma LeftUnlimited(c: Config, s: Sys, a: Actor, op: Op, rest: seq<Op>, o: Oracle)
    requires ProtocolOk(s) && TurnReads(c, s) && RoundsOk(s) && LimitUnused(s) && c.maxRounds >= 3
    requires !a.TheOpening? && OpsOf(s, a) == [op] + rest
    ensures Without(RunOp(c, s, a, op, rest, o).1, RoundLimit)
  {
    hide RunSharedOp, RunTurnOp, RunTickOp, Decided, ProtocolOk, RoundsOk;
    assert op in OpsOf(s, a) && forall x :: x in rest ==> x in OpsOf(s, a);
    SharedWithout(s, a, op, rest, o, RoundLimit);
    if a.TheTurn? {
      if op.Record? {
        SentOwnHolds(s);
        RoundsRemain(c, s, op.n, op.turn, op.history);
      }
      TurnWithout(c, s, op, rest, o, RoundLimit);
    } else {
      TickWithout(c, s, op, rest, o, RoundLimit);
    }
  }

  lemma SentOwnHolds(s: Sys)
    requires ProtocolOk(s)
    ensures SentOwn(s.log)
  {
  }

  lemma OpeningUnlimited(c: Config, s: Sys, o: Oracle)
    requires ProtocolOk(s) && LimitUnused(s) && s.opening != []
    ensures LimitUnused(Step(c, s, Run(TheOpening, o)))
  {
    hide RunSharedOp, RunTurnOp, RunTickOp, RunOpeningOp, Apply;
    var op, rest := s.opening[0], s.opening[1..];
    OpeningNext(s, op, rest, o);
    ApplyIs(s, RunOp(c, s, TheOpening, op, rest, o).0, o);
  }

  /** The `round_limit` handoff cannot happen when `max_rounds` is three or
      more, as it is by default, under any judge. */
  lemma {:induction false} RoundLimitIsUnreachable(c: Config, dispute: string, now: int, moves: seq<Move>)
    requires c.maxRounds >= 3
    ensures LimitUnused(Exec(c, Initial(dispute, now), moves))
  {
    hide ProtocolOk, TurnReads, RoundsOk;
    if moves != [] {
      var before := moves[..|moves| - 1];
      var m := moves[|moves| - 1];
      var s := Exec(c, Initial(dispute, now), before);
      RoundLimitIsUnreachable(c, dispute, now, before);
      RunsAreOk(c, dispute, now, before);
      RunsRead(c, dispute, now, before);
      RunsKeepRounds(c, dispute, now, before);
      if !m.Run? {
        EnvironmentUnlimited(c, s, m);
      } else if OpsOf(s, m.actor) == [] {
        NothingToRun(c, s, m);
      } else if m.actor.TheOpening? {
        OpeningUnlimited(c, s, m.oracle);
      } else {
        RunUnlimited(c, s, m.actor, m.oracle);
      }
    }
  }

  lemma EnvironmentUnlimited(c: Config, s: Sys, m: Move)
    requires LimitUnused(s) && !m.Run?
    ensures LimitUnused(Step(c, s, m))
  {
    hide RunOp;
  }
}

/** The steps of concrete runs, for the expectations that fail: each lemma
    says exactly where one or a few moves lead. */
module Runs {
  import opened Domain
  import opened Next
  import opened Policy
  import opened MessageLog
  import opened Views
  import opened EventLog
  import opened Sessions
  import opened JudgeState
  import opened Mediation
  import opened Protocol
  import opened Turns
  import Timers

  // ----- runs one after the other -----

  lemma {:induction false} ExecStep(c: Config, s: Sys, moves: seq<Move>, m: Move)
    ensures Exec(c, s, moves + [m]) == Step(c, Exec(c, s, moves), m)
  {
    assert (moves + [m])[..|moves|] == moves;
  }

  lemma {:induction false} ExecAppend(c: Config, s: Sys, first: seq<Move>, more: seq<Move>)
    ensures Exec(c, s, first + more) == Exec(c, Exec(c, s, first), more)
  {
    hide Step;
    if more == [] {
      assert first + more == first;
    } else {
      var n := |more| - 1;
      ExecAppend(c, s, first, more[..n]);
      assert first + more == (first + more[..n]) + [more[n]];
      ExecStep(c, s, first + more[..n], more[n]);
    }
  }

  lemma OneStep(c: Config, s: Sys, a: Move)
    ensures Exec(c, s, [a]) == Step(c, s, a)
  {
    hide Step;
    ExecStep(c, s, [], a);
    assert [] + [a] == [a];
  }

  lemma TwoSteps(c: Config, s: Sys, a: Move, b: Move)
    ensures Exec(c, s, [a, b]) == Step(c, Step(c, s, a), b)
  {
    hide Step;
    OneStep(c, s, a);
    ExecStep(c, s, [a], b);
    assert [a] + [b] == [a, b];
  }

  lemma ThreeSteps(c: Config, s: Sys, a: Move, b: Move, d: Move)
    ensures Exec(c, s, [a, b, d]) == Step(c, Step(c, Step(c, s, a), b), d)
  {
    hide Step;
    TwoSteps(c, s, a, b);
    ExecStep(c, s, [a, b], d);
    assert [a, b] + [d] == [a, b, d];
  }

  /** A step that goes well, with a judge who says nothing. */
  function Goes(a: Actor, at: int): Move {
    Run(a, Oracle(true, None, 0, at))
  }

  /** A step that fails. */
  function Fails(a: Actor): Move {
    Run(a, Oracle(false, None, 0, 0))
  }

  // ----- one send -----

  lemma SendPasses(c: Config, s: Sys, a: Actor, p: Party, t: Template, guard: Guard, f: OnFailure, rest: seq<Op>, o: Oracle)
    requires OpsOf(s, a) == [Send(p, t, guard, f)] + rest && guard.Allows(s.row.state)
    ensures Step(c, s, Run(a, o)) == WithOps(s, a, [InFlight(p, t, f)] + rest)
  {
    var ops := OpsOf(s, a);
    assert ops[1..] == rest && ops[0] == Send(p, t, guard, f);
  }

  function Taken(s: Sys, p: Party, t: Template): Sys {
    s.(ledger := s.ledger.(sent := s.ledger.sent + multiset{(p, t)}))
  }

  lemma RelayTakes(c: Config, s: Sys, a: Actor, p: Party, t: Template, f: OnFailure, rest: seq<Op>, o: Oracle)
    requires OpsOf(s, a) == [InFlight(p, t, f)] + rest && o.ok
    ensures Step(c, s, Run(a, o)) == WithOps(Taken(s, p, t), a, [StoreRow(p, t, f)] + rest)
  {
    var ops := OpsOf(s, a);
    assert ops[1..] == rest && ops[0] == InFlight(p, t, f);
  }

  lemma RowIsStored(c: Config, s: Sys, a: Actor, p: Party, t: Template, f: OnFailure, rest: seq<Op>)
    requires OpsOf(s, a) == [StoreRow(p, t, f)] + rest && !s.ledger.holds
    ensures Step(c, s, Goes(a, s.now)) ==
            WithOps(s.(log := s.log + [Message(LastId(s.log) + 1, Out, p, Some(t), s.now)]), a, rest)
  {
    var ops := OpsOf(s, a);
    assert ops[1..] == rest && ops[0] == StoreRow(p, t, f);
  }

  function SentAndStored(s: Sys, p: Party, t: Template): Sys {
    var taken := Taken(s, p, t);
    taken.(log := taken.log + [Message(LastId(s.log) + 1, Out, p, Some(t), s.now)])
  }

  lemma SendGoes(c: Config, s: Sys, a: Actor, p: Party, t: Template, guard: Guard, f: OnFailure, rest: seq<Op>)
    requires OpsOf(s, a) == [Send(p, t, guard, f)] + rest && guard.Allows(s.row.state) && !s.ledger.holds
    ensures Exec(c, s, [Goes(a, s.now), Goes(a, s.now), Goes(a, s.now)]) == WithOps(SentAndStored(s, p, t), a, rest)
  {
    hide Step;
    var go := Goes(a, s.now);
    ThreeSteps(c, s, go, go, go);
    SendPasses(c, s, a, p, t, guard, f, rest, go.oracle);
    var checked := WithOps(s, a, [InFlight(p, t, f)] + rest);
    RelayTakes(c, checked, a, p, t, f, rest, go.oracle);
    RowIsStored(c, WithOps(Taken(checked, p, t), a, [StoreRow(p, t, f)] + rest), a, p, t, f, rest);
  }

  // ----- the opening -----

  function Openers(): seq<Message> {
    [Message(1, Out, Buyer, Some(AskBuyerSent), 100), Message(2, Out, Seller, Some(AskSellerReceived), 100)]
  }

  const OPENERS: multiset<Letter> := multiset{(Buyer, AskBuyerSent), (Seller, AskSellerReceived)}

  /** Both openers are stored, and the session is about to be active. */
  function BothGreeted(dispute: string): Sys {
    var s := Initial(dispute, 100);
    s.(log := Openers(), opening := [Activate], ledger := s.ledger.(sent := OPENERS))
  }

  lemma Greets(c: Config, dispute: string) returns (moves: seq<Move>)
    ensures Exec(c, Initial(dispute, 100), moves) == BothGreeted(dispute)
  {
    hide Step, Exec;
    var s := Initial(dispute, 100);
    var go := Goes(TheOpening, 100);
    var seller := Send(Seller, Opener(Seller), WhileLive, Abort);
    assert s.opening == [Send(Buyer, Opener(Buyer), WhileLive, Abort)] + [seller, Activate];
    SendGoes(c, s, TheOpening, Buyer, Opener(Buyer), WhileLive, Abort, [seller, Activate]);
    var one := WithOps(SentAndStored(s, Buyer, Opener(Buyer)), TheOpening, [seller, Activate]);
    assert one.opening == [seller] + [Activate];
    SendGoes(c, one, TheOpening, Seller, Opener(Seller), WhileLive, Abort, [Activate]);
    ExecAppend(c, s, [go, go, go], [go, go, go]);
    moves := [go, go, go] + [go, go, go];
    assert SentAndStored(one, Seller, Opener(Seller)).log == Openers();
  }

  lemma TurnWhileOpening(c: Config, s: Sys, o: Oracle)
    requires s.row.state.Opening? && s.turn == [] && s.wake && o.ok
    ensures Step(c, Step(c, s, StartTurn), Run(TheTurn, o)) ==
            s.(wake := false, ledger := s.ledger.(forgotten := false, skipped := true, unsent := false))
  {
    assert Step(c, s, StartTurn).turn[1..] == [];
  }

  lemma Activates(c: Config, s: Sys, o: Oracle)
    requires s.opening == [Activate]
    ensures Step(c, s, Run(TheOpening, o)) == s.(row := SetStateRow(s.row, Active, s.now), opening := [])
  {
    assert s.opening[1..] == [];
  }

  /** The session is active, and both parties owe an answer. */
  function Opened(dispute: string): Sys {
    var s := BothGreeted(dispute);
    s.(row := SetStateRow(s.row, Active, 100), opening := [])
  }

  lemma Opens(c: Config, dispute: string) returns (moves: seq<Move>)
    ensures Exec(c, Initial(dispute, 100), moves) == Opened(dispute)
  {
    hide Step, Exec;
    var greets := Greets(c, dispute);
    moves := greets + [Goes(TheOpening, 100)];
    ExecStep(c, Initial(dispute, 100), greets, Goes(TheOpening, 100));
    Activates(c, BothGreeted(dispute), Goes(TheOpening, 100).oracle);
  }

  lemma Receives(c: Config, s: Sys, p: Party, at: int)
    ensures Step(c, s, Receive(p, at, 0)) ==
            s.(log := s.log + [Message(LastId(s.log) + 1, In, p, None, at)], wake := true)
  {
  }

  /** Both parties reply, the buyer first. */
  function BothReplied(s: Sys, buyerAt: int, sellerAt: int): Sys {
    s.(log := Openers() + [Message(3, In, Buyer, None, buyerAt), Message(4, In, Seller, None, sellerAt)], wake := true)
  }

  lemma BothReply(c: Config, s: Sys, buyerAt: int, sellerAt: int)
    requires s.log == Openers()
    ensures Exec(c, s, [Receive(Buyer, buyerAt, 0), Receive(Seller, sellerAt, 0)]) == BothReplied(s, buyerAt, sellerAt)
  {
    hide Step, Exec;
    TwoSteps(c, s, Receive(Buyer, buyerAt, 0), Receive(Seller, sellerAt, 0));
    Receives(c, s, Buyer, buyerAt);
    var one := s.(log := s.log + [Message(3, In, Buyer, None, buyerAt)], wake := true);
    Receives(c, one, Seller, sellerAt);
    assert one.log + [Message(4, In, Seller, None, sellerAt)]
        == Openers() + [Message(3, In, Buyer, None, buyerAt), Message(4, In, Seller, None, sellerAt)];
  }

  lemma RepliesAnswer(log: seq<Message>, buyerAt: int, sellerAt: int)
    requires log == Openers() + [Message(3, In, Buyer, None, buyerAt), Message(4, In, Seller, None, sellerAt)]
    ensures Arrival(log) && !Owes(log, Buyer) && !Owes(log, Seller)
  {
    assert log[..3] == Openers() + [Message(3, In, Buyer, None, buyerAt)];
    assert log[..3][..2] == Openers();
  }

  // ----- one judged turn -----

  /** A step of a turn whose judge, once asked, answers `facts`. */
  function Judges(facts: Facts): Move {
    Run(TheTurn, Oracle(true, Some(facts), 0, 0))
  }

  function JudgedTurn(facts: Facts): seq<Move> {
    var j := Judges(facts);
    [StartTurn, j, j] + [j, j, j] + [j, j, j] + [j]
  }

  /** The session with the languages the turn detected. */
  function Spoken(c: Config, s: Sys, facts: Facts): Sys {
    s.(row := WithLanguage(c, WithLanguage(c, s.row, s.row, facts, Buyer, s.now), s.row, facts, Seller, s.now))
  }

  function Decision(c: Config, s: Sys, facts: Facts): (op: Op)
    ensures op.Record?
  {
    var changed := set p: Party | Changes(c, s.row, facts, p);
    Judged(c, s, s.row, |s.log|, facts, changed, Spoken(c, s, facts).row)
  }

  /** The decision is recorded, and the turn is about to act. */
  function Deciding(c: Config, s: Sys, facts: Facts): Sys {
    var op := Decision(c, s, facts);
    var action := Decide(op.turn);
    Spoken(c, s, facts).(
      evaluations := s.evaluations + [Evaluation(LastId(s.log), action)],
      turn := ActionOps(op.turn.next, action), wake := false,
      ledger := s.ledger.(courtesy := OnlyCourtesy(op.turn, op.history), aborted := false,
                          forgotten := false, skipped := false, unsent := false,
                          resent := s.ledger.resent + Resent(op.turn.next, action)))
  }

  /** A turn that is due goes through, if some party wrote and neither wrote
      too much. */
  ghost predicate CanJudge(c: Config, s: Sys) {
    && s.row.state.Active? && s.turn == [] && s.wake && Arrival(s.log)
    && (Wrote(Listed(s.log), Buyer) || Wrote(Listed(s.log), Seller))
    && (forall p :: Strike(c, p, s.log, Counted(s)) == [])
  }

  lemma TurnReadsAll(c: Config, s: Sys, facts: Facts)
    requires CanJudge(c, s)
    ensures Exec(c, s, [StartTurn, Judges(facts), Judges(facts)]) ==
            Started(s).(turn := [AskJudge(s.row, |s.log|)])
  {
    hide Listed, Wrote, Strike, Counted, Exec, Arrival;
    var j := Judges(facts);
    ThreeSteps(c, s, StartTurn, j, j);
    var s1 := Started(s);
    assert s1.turn[1..] == [] && s.log[..|s.log|] == s.log;
    var s2 := s1.(turn := [CheckFlood(s.row, |s.log|)]);
    assert Step(c, s1, j) == s2;
    assert s2.turn[1..] == [];
    SameCounted(s, s2);
    assert Strikes(c, s2, s.log) == [];
    assert NotedAll(s2.(row := s2.row), [], 0, 0) == s2;
    assert Step(c, s2, j) == s2.(turn := [AskJudge(s.row, |s.log|)]);
  }

  lemma AskStep(c: Config, s: Sys, session: Row, n: nat, facts: Facts)
    requires s.turn == [AskJudge(session, n)]
    ensures Step(c, s, Judges(facts)) == s.(turn := [CheckNewer(session, n, facts)])
  {
  }

  lemma NewerStep(c: Config, s: Sys, session: Row, facts: Facts, o: Oracle)
    requires Arrival(s.log) && s.turn == [CheckNewer(session, |s.log|, facts)]
    ensures Step(c, s, Run(TheTurn, o)) == s.(turn := [CheckMoved(session, |s.log|, facts)])
  {
    assert s.log[..|s.log|] == s.log;
    forall m | m in s.log
      ensures m.id <= LastId(s.log)
    {
      ArrivalBelowLast(s.log, m);
    }
  }

  lemma MovedStep(c: Config, s: Sys, n: nat, facts: Facts, o: Oracle)
    requires s.turn == [CheckMoved(s.row, n, facts)]
    ensures Step(c, s, Run(TheTurn, o)) == s.(turn := [UpdateLanguages(s.row, n, facts)])
  {
  }

  lemma TurnAsks(c: Config, s: Sys, facts: Facts)
    requires Arrival(s.log) && s.turn == [AskJudge(s.row, |s.log|)]
    ensures Exec(c, s, [Judges(facts), Judges(facts), Judges(facts)]) ==
            s.(turn := [UpdateLanguages(s.row, |s.log|, facts)])
  {
    hide Exec, Step, Arrival;
    var j := Judges(facts);
    ThreeSteps(c, s, j, j, j);
    AskStep(c, s, s.row, |s.log|, facts);
    NewerStep(c, s.(turn := [CheckNewer(s.row, |s.log|, facts)]), s.row, facts, j.oracle);
    MovedStep(c, s.(turn := [CheckMoved(s.row, |s.log|, facts)]), |s.log|, facts, j.oracle);
  }

  lemma LanguagesStep(c: Config, s: Sys, facts: Facts)
    requires s.turn == [UpdateLanguages(s.row, |s.log|, facts)]
    ensures Step(c, s, Judges(facts)) ==
            Spoken(c, s, facts).(turn := [Reload(s.row, |s.log|, facts, set p: Party | Changes(c, s.row, facts, p))])
  {
    hide WithLanguage, Changes;
  }

  lemma ReloadStep(c: Config, s: Sys, session: Row, n: nat, facts: Facts, changed: set<Party>, o: Oracle)
    requires s.turn == [Reload(session, n, facts, changed)]
    ensures Step(c, s, Run(TheTurn, o)) == s.(turn := [ReadHold(session, n, facts, changed, s.row)])
  {
  }

  lemma ReadHoldStep(c: Config, s: Sys, session: Row, n: nat, facts: Facts, changed: set<Party>, row: Row, o: Oracle)
    requires s.turn == [ReadHold(session, n, facts, changed, row)]
    ensures Step(c, s, Run(TheTurn, o)) == s.(turn := [Judged(c, s, session, n, facts, changed, row)])
  {
    hide Judged;
  }

  lemma TurnDecides(c: Config, s: Sys, facts: Facts)
    requires s.turn == [UpdateLanguages(s.row, |s.log|, facts)]
    ensures Exec(c, s, [Judges(facts), Judges(facts), Judges(facts)]) ==
            Spoken(c, s, facts).(turn := [Decision(c, s, facts)])
  {
    hide Exec, Step, WithLanguage, Changes, Judged;
    var j := Judges(facts);
    var changed := set p: Party | Changes(c, s.row, facts, p);
    var spoken := Spoken(c, s, facts);
    ThreeSteps(c, s, j, j, j);
    LanguagesStep(c, s, facts);
    ReloadStep(c, spoken.(turn := [Reload(s.row, |s.log|, facts, changed)]), s.row, |s.log|, facts, changed, j.oracle);
    var reading := spoken.(turn := [ReadHold(s.row, |s.log|, facts, changed, spoken.row)]);
    ReadHoldStep(c, reading, s.row, |s.log|, facts, changed, spoken.row, j.oracle);
    SameJudged(c, s, reading, s.row, |s.log|, facts, changed, spoken.row);
  }

  lemma SameJudged(c: Config, s: Sys, after: Sys, session: Row, n: nat, facts: Facts, changed: set<Party>, row: Row)
    requires after.log == s.log && after.events == s.events
    ensures Judged(c, s, session, n, facts, changed, row) == Judged(c, after, session, n, facts, changed, row)
  {
    hide Listed, HistoryRead, TurnRead, CurrentHold;
  }

  lemma TurnIsJudged(c: Config, s: Sys, facts: Facts)
    requires CanJudge(c, s)
    ensures Exec(c, s, JudgedTurn(facts)) == Deciding(c, s, facts)
  {
    hide Exec, Step, Listed, Wrote, Strike, Counted, WithLanguage, Changes, Arrival, Decide, ActionOps, OnlyCourtesy;
    hide Judged, Resent;
    var j := Judges(facts);
    TurnReadsAll(c, s, facts);
    var asked := Started(s).(turn := [AskJudge(s.row, |s.log|)]);
    TurnAsks(c, asked, facts);
    var judged := asked.(turn := [UpdateLanguages(s.row, |s.log|, facts)]);
    TurnDecides(c, judged, facts);
    SameDecision(c, s, judged, facts);
    var deciding := Spoken(c, judged, facts).(turn := [Decision(c, s, facts)]);
    RecordIs(c, deciding, deciding.turn[0], j.oracle);
    OneStep(c, deciding, j);
    ExecAppend(c, s, [StartTurn, j, j], [j, j, j]);
    ExecAppend(c, s, [StartTurn, j, j] + [j, j, j], [j, j, j]);
    ExecAppend(c, s, [StartTurn, j, j] + [j, j, j] + [j, j, j], [j]);
    JudgedFacts(c, s, facts);
  }

  lemma JudgedFacts(c: Config, s: Sys, facts: Facts)
    ensures Decision(c, s, facts).turn.facts == facts
    ensures Prefix(s.log, |s.log|) == s.log
  {
    hide Listed, WithLanguage, Changes, HistoryRead, CurrentHold;
  }

  lemma SameDecision(c: Config, s: Sys, after: Sys, facts: Facts)
    requires after.row == s.row && after.log == s.log && after.events == s.events && after.now == s.now
    ensures Decision(c, s, facts) == Decision(c, after, facts)
  {
    hide Listed, WithLanguage, Changes, HistoryRead, TurnRead, CurrentHold;
    assert (set p: Party | Changes(c, s.row, facts, p)) == (set p: Party | Changes(c, after.row, facts, p));
  }

  // ----- a turn that asks the buyer for details -----

  /** Both parties answer: the buyer paid but gives no details, the seller
      was paid. */
  const PAID := Facts(true, false, false, false, true, false, false, false, false, false, false,
                      Some(PartyFacts(false, false, None, Answers)), Some(PartyFacts(false, false, None, Answers)))

  const ASK_DETAILS := Ask([AskBuyerDetails], [ThanksWaiting])

  const DETAILS_OPS: seq<Op> := [Send(Buyer, AskBuyerDetails, WhileMediating, Abort),
                                 CountRound(Buyer, AskBuyerDetails, true),
                                 Send(Seller, ThanksWaiting, WhileMediating, Abort)]

  function Replies(): seq<Message> {
    [Message(3, In, Buyer, None, 101), Message(4, In, Seller, None, 102)]
  }

  lemma SentAreOpeners(log: seq<Message>)
    requires log == Openers() + Replies()
    ensures AskedOf(Listed(log)) == Asked({AskBuyerSent}, {AskSellerReceived})
  {
    hide Listed;
    ListedElements(log);
    assert forall m :: m in log <==> m == log[0] || m == log[1] || m == log[2] || m == log[3];
    assert log[0] in Listed(log) && log[1] in Listed(log);
    assert SentTo(Listed(log), Buyer) == {AskBuyerSent};
    assert SentTo(Listed(log), Seller) == {AskSellerReceived};
  }

  lemma DetailsArePicked(history: History)
    requires history.asked == Asked({AskBuyerSent}, {AskSellerReceived})
    requires !history.buyer.languageChanged && !history.seller.languageChanged
    ensures Pick(PAID, history) == NextQuestions([AskBuyerDetails], [ThanksWaiting], false, false)
  {
    var buyer := QuestionRows(Buyer, PAID);
    var seller := QuestionRows(Seller, PAID);
    assert !buyer[0].0 && !buyer[1].0 && buyer[2] == (true, AskBuyerDetails);
    assert NeededQuestion(Buyer, PAID, {AskBuyerSent}) == Some(AskBuyerDetails);
    assert !seller[0].0 && !seller[1].0 && !seller[2].0;
    assert NeededQuestion(Seller, PAID, {AskSellerReceived}) == None;
    assert ForParty(Buyer, PAID, history) == ([] + [AskBuyerDetails], false);
    assert ForParty(Seller, PAID, history) == ([] + [ThanksWaiting], false);
  }

  lemma DetailsAreDecided(turn: Turn)
    requires turn.facts == PAID && turn.phase.Gathering? && turn.maxRounds >= 1
    requires turn.buyerRounds == 0 && turn.sellerRounds == 0
    requires turn.next == NextQuestions([AskBuyerDetails], [ThanksWaiting], false, false)
    ensures Decide(turn) == ASK_DETAILS && ActionOps(turn.next, ASK_DETAILS) == DETAILS_OPS
    ensures Resent(turn.next, ASK_DETAILS) == multiset{}
  {
    assert AskBuyerDetails in turn.next.buyer;
    assert !turn.next.Asks(Seller);
    assert [AskBuyerDetails][1..] == [] && [ThanksWaiting][1..] == [];
    assert Sends(Buyer, [AskBuyerDetails]) == [DETAILS_OPS[0]] + Sends(Buyer, []);
    assert Sends(Seller, [ThanksWaiting]) == [DETAILS_OPS[2]] + Sends(Seller, []);
    assert AskOps(Buyer, [AskBuyerDetails], true, true) == [DETAILS_OPS[0], DETAILS_OPS[1]];
    assert AskOps(Seller, [ThanksWaiting], false, false) == [DETAILS_OPS[2]];
  }

  /** A session where both replied and nothing was decided yet, or only lost. */
  ghost predicate AwaitsDetails(c: Config, s: Sys) {
    && s.row.state.Active? && s.turn == [] && s.wake && s.log == Openers() + Replies() && s.events == []
    && s.row.buyerRounds == 0 && s.row.sellerRounds == 0
    && c.maxRounds >= 1 && c.maxMessagesPerTurn >= 1
  }

  lemma RepliesAwait(c: Config, s: Sys)
    requires s.row.state.Active? && s.turn == [] && s.wake && s.events == []
    requires s.log == Openers() + [Message(3, In, Buyer, None, 101), Message(4, In, Seller, None, 102)]
    requires s.row.buyerRounds == 0 && s.row.sellerRounds == 0 && c.maxRounds >= 1 && c.maxMessagesPerTurn >= 1
    ensures AwaitsDetails(c, s)
  {
  }

  function AskingDetails(s: Sys): Sys {
    s.(evaluations := s.evaluations + [Evaluation(4, ASK_DETAILS)], turn := DETAILS_OPS, wake := false,
       ledger := s.ledger.(courtesy := false, aborted := false, forgotten := false, skipped := false,
                           unsent := false))
  }

  lemma RepliesCanBeJudged(c: Config, s: Sys)
    requires AwaitsDetails(c, s)
    ensures CanJudge(c, s)
  {
    hide Listed, Wrote, Counted;
    RepliesAnswer(s.log, 101, 102);
    WroteIff(s.log, Buyer);
    assert s.log[2] in s.log && IsIn(s.log[2], Buyer);
    forall p: Party
      ensures Strike(c, p, s.log, Counted(s)) == []
    {
      assert s.log[..3][..2][..1][..0] == [];
      assert s.log[..3][2] == s.log[2] && s.log[..3][..2][1] == s.log[1] && s.log[..3][..2][..1][0] == s.log[0];
      assert CountIn(s.log[..3][..2][..1], p, Counted(s)) == 0;
      assert CountIn(s.log[..3][..2], p, Counted(s)) == 0;
      assert CountIn(s.log[..3], p, Counted(s)) <= if p == Buyer then 1 else 0;
    }
  }

  lemma DetailsDecision(c: Config, s: Sys)
    requires AwaitsDetails(c, s)
    ensures Spoken(c, s, PAID) == s
    ensures var op := Decision(c, s, PAID);
            && op.turn.facts == PAID && op.turn.phase.Gathering? && op.turn.maxRounds >= 1
            && op.turn.buyerRounds == 0 && op.turn.sellerRounds == 0
            && op.turn.next == NextQuestions([AskBuyerDetails], [ThanksWaiting], false, false)
            && !CourtesyResend(Buyer, PAID, op.history) && !CourtesyResend(Seller, PAID, op.history)
  {
    hide Listed, PartyHistoryOf, AskedOf, Pick, CurrentHold, Heard;
    assert s.log[..|s.log|] == s.log;
    assert (set p: Party | Changes(c, s.row, PAID, p)) == {};
    SentAreOpeners(s.log);
    DetailsArePicked(HistoryRead(Listed(s.log), {}));
  }

  lemma DetailsAreAsked(c: Config, s: Sys)
    requires AwaitsDetails(c, s)
    ensures Exec(c, s, JudgedTurn(PAID)) == AskingDetails(s)
  {
    hide Exec, Step, CanJudge, Decision, Decide, CourtesyResend, ActionOps, Resent, Spoken;
    RepliesCanBeJudged(c, s);
    TurnIsJudged(c, s, PAID);
    DetailsDecision(c, s);
    DetailsAreDecided(Decision(c, s, PAID).turn);
    assert s.ledger.resent + multiset{} == s.ledger.resent;
  }

  // ----- a reminder on its way -----

  /** The buyer replied, and the seller's time is over. */
  function Overdue(c: Config, dispute: string): Sys {
    var s := Opened(dispute);
    s.(log := Openers() + [Message(3, In, Buyer, None, 101)], wake := true, now := 100 + c.timeouts.response)
  }

  lemma SellerIsLate(c: Config, dispute: string) returns (moves: seq<Move>)
    ensures Exec(c, Initial(dispute, 100), moves) == Overdue(c, dispute)
  {
    hide Exec, Step;
    var opens := Opens(c, dispute);
    var s := Opened(dispute);
    moves := opens + [Receive(Buyer, 101, 0), Advance(c.timeouts.response)];
    TwoSteps(c, s, Receive(Buyer, 101, 0), Advance(c.timeouts.response));
    Receives(c, s, Buyer, 101);
    Advances(c, s.(log := s.log + [Message(3, In, Buyer, None, 101)], wake := true), c.timeouts.response);
    ExecAppend(c, Initial(dispute, 100), opens, [Receive(Buyer, 101, 0), Advance(c.timeouts.response)]);
  }

  lemma Advances(c: Config, s: Sys, seconds: nat)
    ensures Step(c, s, Advance(seconds)) == s.(now := s.now + seconds)
  {
  }

  lemma OnlySellerOwes(log: seq<Message>)
    requires log == Openers() + [Message(3, In, Buyer, None, 101)]
    ensures Arrival(log) && !Owes(log, Buyer) && Owes(log, Seller)
    ensures LastIndex(SentQuestion, Seller, log) == 1
    ensures LastIndex(SentReminder, Seller, log) == -1
  {
    assert log[..2] == Openers();
    assert log[..2][..1] == [Openers()[0]];
    assert log[..2][..1][..0] == [];
  }

  /** What the timers find then. */
  lemma SellerIsReminded(c: Config, row: Row, log: seq<Message>, now: int)
    requires row.state.Active? && now == 100 + c.timeouts.response
    requires log == Openers() + [Message(3, In, Buyer, None, 101)]
    ensures Timers.Check(ClocksRead(row, Listed(log), [], now), c.timeouts) == Timers.Remind([Seller])
  {
    hide Listed, ClockOf, PartyHistoryOf;
    var listed := Listed(log);
    var clocks := ClocksRead(row, listed, [], now);
    OnlySellerOwes(log);
    ListedElements(log);
    HistoryIsArrival(log, listed, Buyer);
    HistoryIsArrival(log, listed, Seller);
    ClocksAgreeWithHistory(log, listed, Buyer);
    ClocksAgreeWithHistory(log, listed, Seller);
    MaxByIdIsLast(SentQuestion, Seller, log, listed);
    MaxByIdIsLast(SentReminder, Seller, log, listed);
    SellerClock(listed);
    assert clocks.seller.questionAt == Some(100) && clocks.seller.remindedAt == None && clocks.seller.repliedAt == None;
    assert !Timers.Unanswered(clocks.buyer);
    assert Timers.RemindDue(clocks, c.timeouts, Seller);
    assert !Timers.RemindDue(clocks, c.timeouts, Buyer);
    assert [] + [Seller] == [Seller];
  }

  lemma SellerClock(listed: seq<Message>)
    ensures ClockOf(listed, Seller).questionAt == CreatedAt(MaxById(SentQuestion, Seller, listed))
    ensures ClockOf(listed, Seller).remindedAt == CreatedAt(MaxById(SentReminder, Seller, listed))
  {
  }

  /** A tick up to the step after a relay took the reminder to the seller. */
  function TickUntilTaken(): seq<Move> {
    var go := Goes(TheTick, 0);
    [StartTick, go, go] + [go, go, go]
  }

  function Reminding(s: Sys): Sys {
    Taken(s, Seller, Reminder).(tick := [StoreRow(Seller, Reminder, Abort), Retry(s.row)])
  }

  // The steps of a tick of an active session.

  lemma ListStep(c: Config, s: Sys, o: Oracle)
    requires s.tick == [ListSession] && s.row.state.Active?
    ensures Step(c, s, Run(TheTick, o)) == s.(tick := [OpenChat(s.row), Retry(s.row)])
  {
  }

  lemma ChatStep(c: Config, s: Sys, session: Row, rest: seq<Op>, o: Oracle)
    requires s.tick == [OpenChat(session)] + rest && o.ok
    ensures Step(c, s, Run(TheTick, o)) == s.(tick := [ReadClocks(session)] + rest)
  {
    assert s.tick[1..] == rest && s.tick[0] == OpenChat(session);
  }

  lemma ClocksStep(c: Config, s: Sys, session: Row, rest: seq<Op>, o: Oracle)
    requires s.tick == [ReadClocks(session)] + rest
    ensures Step(c, s, Run(TheTick, o)) ==
            s.(tick := TimerOps(Timers.Check(ClocksRead(session, Listed(s.log), s.events, s.now), c.timeouts)) + rest)
  {
    hide Listed, ClocksRead, Timers.Check, TimerOps;
    assert s.tick[1..] == rest && s.tick[0] == ReadClocks(session);
  }

  lemma RetryStep(c: Config, s: Sys, session: Row, o: Oracle)
    requires s.tick == [Retry(session)] && session.state.Active? && CurrentHold(s.events, s.log).None?
    requires forall e :: e in s.events ==> !e.body.BriefPending?
    ensures Step(c, s, Run(TheTick, o)) == s.(tick := [])
  {
    hide CurrentHold, LatestAt;
    NothingPending(s.events, s.events);
    assert s.tick[1..] == [];
  }

  lemma NothingPending(events: seq<Event>, all: seq<Event>)
    requires forall e :: e in events ==> !e.body.BriefPending?
    ensures PendingBriefs(events, all) == []
  {
    if events != [] {
      assert events[0] in events;
      NothingPending(events[1..], all);
    }
  }

  lemma OneReminder(p: Party)
    ensures Reminders([p]) == [Send(p, Reminder, WhileMediating, Abort)]
  {
    assert [p][1..] == [];
    assert Reminders([p]) == [Send(p, Reminder, WhileMediating, Abort)] + Reminders([]);
  }

  lemma TickPlansReminder(c: Config, s: Sys)
    requires s.row.state.Active? && s.tick == [] && s.events == [] && s.now == 100 + c.timeouts.response
    requires s.log == Openers() + [Message(3, In, Buyer, None, 101)]
    ensures Exec(c, s, [StartTick, Goes(TheTick, 0), Goes(TheTick, 0)]) == s.(tick := [ReadClocks(s.row), Retry(s.row)])
    ensures Step(c, s.(tick := [ReadClocks(s.row), Retry(s.row)]), Goes(TheTick, 0)) ==
            s.(tick := [Send(Seller, Reminder, WhileMediating, Abort)] + [Retry(s.row)])
  {
    hide Exec, Step, Listed, ClocksRead, Timers.Check;
    var go := Goes(TheTick, 0);
    ThreeSteps(c, s, StartTick, go, go);
    TickStarts(c, s);
    ListStep(c, s.(tick := [ListSession]), go.oracle);
    assert [OpenChat(s.row), Retry(s.row)] == [OpenChat(s.row)] + [Retry(s.row)];
    ChatStep(c, s.(tick := [OpenChat(s.row), Retry(s.row)]), s.row, [Retry(s.row)], go.oracle);
    assert [ReadClocks(s.row), Retry(s.row)] == [ReadClocks(s.row)] + [Retry(s.row)];
    ClocksStep(c, s.(tick := [ReadClocks(s.row), Retry(s.row)]), s.row, [Retry(s.row)], go.oracle);
    SellerIsReminded(c, s.row, s.log, s.now);
    OneReminder(Seller);
  }

  lemma TickStarts(c: Config, s: Sys)
    requires s.tick == []
    ensures Step(c, s, StartTick) == s.(tick := [ListSession])
  {
  }

  lemma TickTakesReminder(c: Config, s: Sys)
    requires s.row.state.Active? && s.tick == [] && s.events == [] && s.now == 100 + c.timeouts.response
    requires s.log == Openers() + [Message(3, In, Buyer, None, 101)]
    ensures Exec(c, s, TickUntilTaken()) == Reminding(s)
  {
    hide Exec, Step;
    var go := Goes(TheTick, 0);
    TickPlansReminder(c, s);
    var reading := s.(tick := [ReadClocks(s.row), Retry(s.row)]);
    var sending := s.(tick := [Send(Seller, Reminder, WhileMediating, Abort)] + [Retry(s.row)]);
    var flying := s.(tick := [InFlight(Seller, Reminder, Abort)] + [Retry(s.row)]);
    ExecAppend(c, s, [StartTick, go, go], [go, go, go]);
    ThreeSteps(c, reading, go, go, go);
    SendPasses(c, sending, TheTick, Seller, Reminder, WhileMediating, Abort, [Retry(s.row)], go.oracle);
    RelayTakes(c, flying, TheTick, Seller, Reminder, Abort, [Retry(s.row)], go.oracle);
    assert [StoreRow(Seller, Reminder, Abort)] + [Retry(s.row)] == [StoreRow(Seller, Reminder, Abort), Retry(s.row)];
  }
}

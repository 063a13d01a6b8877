/** Which limits on the rounds can be reached: none, one and two, each in some
    run. */
module RoundLimits {
  import opened Domain
  import opened Next
  import opened Policy
  import opened MessageLog
  import opened Views
  import opened EventLog
  import opened Sessions
  import opened JudgeState
  import opened Mediation
  import opened Effects
  import opened Protocol
  import opened Flood
  import opened Runs
  import opened CourtesyStall
  import Rounds
  import Stall

  // ----- a turn that gives up -----

  /** Nothing the judge says decides before the rounds do. */
  predicate Undecided(facts: Facts) {
    && !facts.fraud && !facts.outsideScope && !facts.sellerReceivedForGuide && !facts.buyerNotSentForGuide
    && !facts.conflict
    && (facts.buyer.Some? ==> !facts.buyer.value.wantsHuman)
    && (facts.seller.Some? ==> !facts.seller.value.wantsHuman)
  }

  lemma LimitDecides(turn: Turn)
    requires Undecided(turn.facts) && turn.phase.Gathering? && Max(turn.buyerRounds, turn.sellerRounds) >= turn.maxRounds
    ensures Decide(turn) == Handoff(RoundLimit)
  {
  }

  lemma DecisionReads(c: Config, s: Sys, facts: Facts)
    requires s.row.state.Active?
    ensures var turn := Decision(c, s, facts).turn;
            && turn.facts == facts && turn.phase.Gathering? && turn.maxRounds == c.maxRounds
            && turn.buyerRounds == s.row.buyerRounds && turn.sellerRounds == s.row.sellerRounds
    ensures Spoken(c, s, facts).row.state.Active?
  {
    hide Listed, HistoryRead, CurrentHold, Pick, Heard, Changes;
  }

  lemma HandsOffForRounds(c: Config, s: Sys)
    requires s.turn == [HandOff(RoundLimit)] && s.row.state.Active?
    ensures Step(c, s, Goes(TheTurn, 100)).row.handoffReason == Some(RoundLimit)
  {
    hide Step, NotedAll, Apply, RunSharedOp;
    var bodies := [HandoffRecorded(RoundLimit, LastId(s.log)), BriefPending(AboutHandoff)];
    assert s.turn[1..] == [];
    RunIs(c, s, TheTurn, Goes(TheTurn, 100).oracle);
    HandOffIs(s, TheTurn, HandOff(RoundLimit), [], Goes(TheTurn, 100).oracle);
    ApplyIs(s, Append(HandOffRow(s.row, RoundLimit, s.now), bodies), Goes(TheTurn, 100).oracle);
  }

  function LimitMoves(facts: Facts): seq<Move> {
    JudgedTurn(facts) + [Goes(TheTurn, 100)]
  }

  lemma TurnGivesUp(c: Config, s: Sys, facts: Facts)
    requires CanJudge(c, s) && Undecided(facts) && Max(s.row.buyerRounds, s.row.sellerRounds) >= c.maxRounds
    ensures Exec(c, s, LimitMoves(facts)).row.handoffReason == Some(RoundLimit)
  {
    hide Exec, Step, Decision, Decide, JudgedTurn, Spoken, OnlyCourtesy, Resent, Undecided;
    JudgesActive(c, s);
    TurnIsJudged(c, s, facts);
    DecisionReads(c, s, facts);
    LimitDecides(Decision(c, s, facts).turn);
    var after := Deciding(c, s, facts);
    HandsOffForRounds(c, after);
    OneStep(c, after, Goes(TheTurn, 100));
    ExecAppend(c, s, JudgedTurn(facts), [Goes(TheTurn, 100)]);
  }

  lemma JudgesActive(c: Config, s: Sys)
    requires CanJudge(c, s)
    ensures s.row.state.Active?
  {
  }

  /** Whether a turn goes through does not depend on these settings. */
  lemma SameJudge(c: Config, d: Config, s: Sys)
    requires CanJudge(d, s) && d.maxMessagesPerTurn == c.maxMessagesPerTurn
    ensures CanJudge(c, s)
  {
    hide Listed, Wrote, Counted;
    forall p: Party
      ensures Strike(c, p, s.log, Counted(s)) == []
    {
      assert Strike(d, p, s.log, Counted(s)) == [];
    }
  }

  // ----- a second round -----

  /** The buyer paid, and says nothing more; the seller says nothing came. */
  const THIRD := Facts(true, false, false, true, false, false, true, false, false, false, false,
                       None, Some(PartyFacts(false, false, None, Answers)))

  const THIRD_OPS: seq<Op> := [Send(Seller, AskSellerCheckAccount, WhileMediating, Abort),
                               CountRound(Seller, AskSellerCheckAccount, true)]

  lemma ThirdPick(history: History)
    requires history.asked == Asked({AskBuyerSent, ThanksWaiting}, {AskSellerReceived, AskSellerReceivedSimple})
    requires !history.buyer.languageChanged && !history.seller.languageChanged
    ensures Pick(THIRD, history) == NextQuestions([], [AskSellerCheckAccount], false, false)
  {
    var buyer := QuestionRows(Buyer, THIRD);
    var seller := QuestionRows(Seller, THIRD);
    assert !buyer[0].0 && !buyer[1].0 && !buyer[2].0;
    assert NeededQuestion(Buyer, THIRD, history.asked.buyer) == None;
    assert !seller[0].0 && !seller[1].0 && seller[2] == (true, AskSellerCheckAccount);
    assert NeededQuestion(Seller, THIRD, history.asked.seller) == Some(AskSellerCheckAccount);
    assert ForParty(Seller, THIRD, history) == ([] + [AskSellerCheckAccount], false);
    assert ForParty(Buyer, THIRD, history) == ([], false);
  }

  lemma ThirdDecided(turn: Turn)
    requires turn.facts == THIRD && turn.phase.Gathering? && turn.maxRounds >= 2
    requires turn.buyerRounds == 0 && turn.sellerRounds == 1
    requires turn.next == NextQuestions([], [AskSellerCheckAccount], false, false)
    ensures Decide(turn) == Ask([], [AskSellerCheckAccount]) && ActionOps(turn.next, Decide(turn)) == THIRD_OPS
  {
    assert AskSellerCheckAccount in turn.next.seller && turn.next.Asks(Seller) && !turn.next.Asks(Buyer);
    assert [AskSellerCheckAccount][1..] == [];
    assert Sends(Seller, [AskSellerCheckAccount]) == [THIRD_OPS[0]] + Sends(Seller, []);
    assert AskOps(Buyer, [], false, true) == [];
    assert AskOps(Seller, [AskSellerCheckAccount], true, true) == THIRD_OPS;
  }

  /** Both wrote again after the first round. */
  ghost predicate AfterOneRound(c: Config, s: Sys) {
    && s.row.state.Active? && s.turn == [] && s.wake && s.log == BuyerGreeted() && s.events == []
    && s.evaluations == [Evaluation(4, Ask([ThanksWaiting], [AskSellerReceivedSimple]))]
    && s.row.buyerRounds == 0 && s.row.sellerRounds == 1 && s.row.buyerLanguage == None
    && c.maxMessagesPerTurn >= 1 && s.now == 100 && !s.ledger.holds
  }

  lemma OneRoundCanBeJudged(c: Config, s: Sys)
    requires AfterOneRound(c, s)
    ensures CanJudge(c, s)
  {
    hide CanJudge;
    var d := c.(maxRounds := 2, defaultLanguage := "en");
    GreetingCanBeJudged(d, s);
    SameJudge(c, d, s);
  }

  lemma ThirdDecision(c: Config, s: Sys)
    requires AfterOneRound(c, s)
    ensures Spoken(c, s, THIRD) == s
    ensures Decision(c, s, THIRD).turn.next == NextQuestions([], [AskSellerCheckAccount], false, false)
  {
    hide Listed, PartyHistoryOf, AskedOf, Pick, CurrentHold, Heard;
    assert s.log[..|s.log|] == s.log;
    assert (set p: Party | Changes(c, s.row, THIRD, p)) == {};
    SecondAsked();
    ThirdPick(HistoryRead(Listed(s.log), {}));
  }

  lemma AsksToCheck(c: Config, s: Sys)
    requires AfterOneRound(c, s) && c.maxRounds >= 2
    ensures var after := Exec(c, s, JudgedTurn(THIRD));
            && after == s.(turn := THIRD_OPS, wake := false, evaluations := after.evaluations, ledger := after.ledger)
            && after.ledger.holds == s.ledger.holds
            && LastJudged(after.evaluations) == 8
  {
    hide Exec, Step, CanJudge, Decision, Decide, OnlyCourtesy, ActionOps, Resent, Spoken;
    OneRoundCanBeJudged(c, s);
    TurnIsJudged(c, s, THIRD);
    ThirdDecision(c, s);
    DecisionReads(c, s, THIRD);
    ThirdDecided(Decision(c, s, THIRD).turn);
    FirstIsJudged(s.evaluations);
    Stall.JudgedIsBounded(s.evaluations, Evaluation(8, Decide(Decision(c, s, THIRD).turn)));
    assert LastId(s.log) == 8;
  }

  function ToldToCheck(): seq<Message> {
    BuyerGreeted() + [Message(9, Out, Seller, Some(AskSellerCheckAccount), 100)]
  }

  function SellerChecked(): seq<Message> {
    ToldToCheck() + [Message(10, In, Seller, None, 105)]
  }

  /** The second question is stored and counted, and the seller replies. */
  function CheckMoves(): seq<Move> {
    ThreeGo() + [Goes(TheTurn, 100)] + [Receive(Seller, 105, 0)]
  }

  lemma SecondRound(c: Config, s: Sys)
    requires s.turn == THIRD_OPS && s.row.state.Active? && !s.ledger.holds && s.now == 100 && s.log == BuyerGreeted()
    requires s.row.sellerRounds == 1
    ensures var after := Exec(c, s, CheckMoves());
            && after.turn == [] && after.row.state.Active? && after.wake && after.log == SellerChecked()
            && after.events == s.events && after.evaluations == s.evaluations && after.row.sellerRounds == 2
  {
    hide Exec, Step;
    var go := Goes(TheTurn, 100);
    assert s.turn == [THIRD_OPS[0]] + [THIRD_OPS[1]];
    SendGoes(c, s, TheTurn, Seller, AskSellerCheckAccount, WhileMediating, Abort, [THIRD_OPS[1]]);
    var sent := SentAndStored(s, Seller, AskSellerCheckAccount).(turn := [THIRD_OPS[1]]);
    assert sent.turn == [THIRD_OPS[1]] + [];
    Rounds.CountIs(c, sent, THIRD_OPS[1], [], go.oracle);
    var counted := Step(c, sent, go);
    OneStep(c, sent, go);
    OneStep(c, counted, Receive(Seller, 105, 0));
    Receives(c, counted, Seller, 105);
    ExecAppend(c, s, ThreeGo(), [go]);
    ExecAppend(c, s, ThreeGo() + [go], [Receive(Seller, 105, 0)]);
  }

  lemma FewSinceTheSecond(p: Party)
    ensures CountIn(SellerChecked(), p, 8) <= 1
  {
    CountOfReplies(p);
    NoneAfterEight(p);
    UpToAppend(BuyerGreeted(), Message(9, Out, Seller, Some(AskSellerCheckAccount), 100), p, 8);
    UpToAppend(ToldToCheck(), Message(10, In, Seller, None, 105), p, 8);
  }

  lemma NoneAfterEight(p: Party)
    ensures CountIn(BuyerGreeted(), p, 8) == 0
  {
    EndAnswered();
    NoneAfterTheLast(BuyerGreeted(), p, 8);
  }

  lemma CheckedArrives()
    ensures Arrival(SellerChecked())
  {
    EndAnswered();
  }

  lemma SellerWrote()
    ensures Wrote(Listed(SellerChecked()), Seller)
  {
    hide Listed, Wrote, Arrival;
    var log := SellerChecked();
    CheckedArrives();
    WroteIff(log, Seller);
    assert log[9] in log && IsIn(log[9], Seller);
  }

  lemma CheckedCanBeJudged(c: Config, s: Sys)
    requires s.row.state.Active? && s.turn == [] && s.wake && s.log == SellerChecked() && s.events == []
    requires LastJudged(s.evaluations) == 8 && c.maxMessagesPerTurn >= 1
    ensures CanJudge(c, s)
  {
    hide Listed, Wrote, CountIn, Arrival, SellerChecked;
    CheckedArrives();
    SellerWrote();
    assert LastStrike(s.events) == 0;
    forall p: Party
      ensures Strike(c, p, s.log, Counted(s)) == []
    {
      FewSinceTheSecond(p);
    }
  }

  // ----- the runs -----

  lemma AfterFirstRound(c: Config, dispute: string) returns (moves: seq<Move>)
    requires c.maxRounds >= 1 && c.maxMessagesPerTurn >= 1
    ensures AfterOneRound(c, Exec(c, Initial(dispute, 100), moves))
  {
    hide Exec, Step, AwaitsDetails, UntilSecond;
    var opens := Opens(c, dispute);
    var replies := [Receive(Buyer, 101, 0), Receive(Seller, 102, 0)];
    var s := BothReplied(Opened(dispute), 101, 102);
    moves := opens + replies + UntilSecond();
    BothReply(c, Opened(dispute), 101, 102);
    RepliesAwait(c, s);
    SecondIsDue(c, s);
    ExecAppend(c, Initial(dispute, 100), opens, replies);
    ExecAppend(c, Initial(dispute, 100), opens + replies, UntilSecond());
  }

  lemma NoRoundAllowed(c: Config, dispute: string) returns (moves: seq<Move>)
    requires c.maxRounds == 0 && c.maxMessagesPerTurn >= 1
    ensures Exec(c, Initial(dispute, 100), moves).row.handoffReason == Some(RoundLimit)
  {
    hide Exec, Step, CanJudge, LimitMoves;
    var opens := Opens(c, dispute);
    var replies := [Receive(Buyer, 101, 0), Receive(Seller, 102, 0)];
    var s := BothReplied(Opened(dispute), 101, 102);
    moves := opens + replies + LimitMoves(THIRD);
    BothReply(c, Opened(dispute), 101, 102);
    RepliesAwait(c.(maxRounds := 1), s);
    RepliesCanBeJudged(c.(maxRounds := 1), s);
    SameJudge(c, c.(maxRounds := 1), s);
    TurnGivesUp(c, s, THIRD);
    ExecAppend(c, Initial(dispute, 100), opens, replies);
    ExecAppend(c, Initial(dispute, 100), opens + replies, LimitMoves(THIRD));
  }

  lemma OneRoundAllowed(c: Config, dispute: string) returns (moves: seq<Move>)
    requires c.maxRounds == 1 && c.maxMessagesPerTurn >= 1
    ensures Exec(c, Initial(dispute, 100), moves).row.handoffReason == Some(RoundLimit)
  {
    hide Exec, Step, CanJudge, LimitMoves;
    var first := AfterFirstRound(c, dispute);
    var s := Exec(c, Initial(dispute, 100), first);
    moves := first + LimitMoves(THIRD);
    OneRoundCanBeJudged(c, s);
    TurnGivesUp(c, s, THIRD);
    ExecAppend(c, Initial(dispute, 100), first, LimitMoves(THIRD));
  }

  lemma TwoRoundsAllowed(c: Config, dispute: string) returns (moves: seq<Move>)
    requires c.maxRounds == 2 && c.maxMessagesPerTurn >= 1
    ensures Exec(c, Initial(dispute, 100), moves).row.handoffReason == Some(RoundLimit)
  {
    hide Exec, Step, CanJudge, LimitMoves, CheckMoves, JudgedTurn;
    var first := AfterFirstRound(c, dispute);
    var s := Exec(c, Initial(dispute, 100), first);
    moves := first + JudgedTurn(THIRD) + CheckMoves() + LimitMoves(THIRD);
    AsksToCheck(c, s);
    var asking := Exec(c, s, JudgedTurn(THIRD));
    SecondRound(c, asking);
    var checked := Exec(c, asking, CheckMoves());
    CheckedCanBeJudged(c, checked);
    TurnGivesUp(c, checked, THIRD);
    ExecAppend(c, Initial(dispute, 100), first, JudgedTurn(THIRD));
    ExecAppend(c, Initial(dispute, 100), first + JudgedTurn(THIRD), CheckMoves());
    ExecAppend(c, Initial(dispute, 100), first + JudgedTurn(THIRD) + CheckMoves(), LimitMoves(THIRD));
  }

  /** Some run ends in the `round_limit` handoff exactly when at most two
      rounds are allowed. */
  lemma RoundLimitIff(c: Config, dispute: string)
    requires c.maxMessagesPerTurn >= 1
    ensures (exists moves :: Exec(c, Initial(dispute, 100), moves).row.handoffReason == Some(RoundLimit))
            <==> c.maxRounds <= 2
  {
    hide Exec;
    if c.maxRounds <= 2 {
      var moves: seq<Move>;
      if c.maxRounds == 0 {
        moves := NoRoundAllowed(c, dispute);
      } else if c.maxRounds == 1 {
        moves := OneRoundAllowed(c, dispute);
      } else {
        moves := TwoRoundsAllowed(c, dispute);
      }
      assert Exec(c, Initial(dispute, 100), moves).row.handoffReason == Some(RoundLimit);
    } else {
      forall moves
        ensures Exec(c, Initial(dispute, 100), moves).row.handoffReason != Some(RoundLimit)
      {
        Rounds.RoundLimitIsUnreachable(c, dispute, 100, moves);
      }
    }
  }
}

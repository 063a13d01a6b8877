/** A run that stalls because its last judged turn only repeated a courtesy:
    the buyer, thanked in the default language, takes back what it said in
    another one, and is thanked again. */
module CourtesyStall {
  import opened Domain
  import opened Next
  import opened Policy
  import opened MessageLog
  import opened Views
  import opened EventLog
  import opened Sessions
  import opened JudgeState
  import opened Mediation
  import opened Protocol
  import opened Rounds
  import opened Flood
  import Stall
  import opened StallExceptions
  import opened Runs

  // ----- what the judge says -----

  /** The buyer paid and gave details; the seller did not understand. */
  const FIRST := Facts(true, false, false, true, false, false, false, false, false, false, false,
                       Some(PartyFacts(false, false, None, Answers)), Some(PartyFacts(false, false, None, NotUnderstood)))

  /** The buyer greets in Spanish, and nothing is known of its payment any
      more; the seller was paid. */
  const SECOND := Facts(false, false, false, false, true, false, false, false, false, false, false,
                        Some(PartyFacts(false, false, Some("es"), MessageKind.Greeting)),
                        Some(PartyFacts(false, false, None, Answers)))

  const FIRST_OPS: seq<Op> := [Send(Buyer, ThanksWaiting, WhileMediating, Abort),
                               Send(Seller, AskSellerReceivedSimple, WhileMediating, Abort),
                               CountRound(Seller, AskSellerReceivedSimple, true)]

  const SECOND_OPS: seq<Op> := [Send(Buyer, ThanksWaiting, WhileMediating, Abort),
                                Send(Seller, ThanksWaiting, WhileMediating, Abort)]

  // ----- the log -----

  function Thanked(): seq<Message> {
    Openers() + Replies() + [Message(5, Out, Buyer, Some(ThanksWaiting), 100)]
  }

  function AskedAgain(): seq<Message> {
    Thanked() + [Message(6, Out, Seller, Some(AskSellerReceivedSimple), 100)]
  }

  function SellerAnswered(): seq<Message> {
    AskedAgain() + [Message(7, In, Seller, None, 103)]
  }

  function BuyerGreeted(): seq<Message> {
    SellerAnswered() + [Message(8, In, Buyer, None, 104)]
  }

  lemma LastIndexAppend(k: RowKind, p: Party, log: seq<Message>, m: Message)
    ensures LastIndex(k, p, log + [m]) == if Matches(k, p, m) then |log| else LastIndex(k, p, log)
  {
    assert (log + [m])[..|log|] == log;
  }

  lemma IndicesOfReplies(k: RowKind, p: Party)
    requires k.SentTemplate? || k.SentQuestion?
    ensures LastIndex(k, p, Openers() + Replies()) == if p == Buyer then 0 else 1
  {
    var buyer, seller := Openers()[0], Openers()[1];
    LastIndexAppend(k, p, [], buyer);
    assert [] + [buyer] == [buyer];
    LastIndexAppend(k, p, [buyer], seller);
    assert [buyer] + [seller] == Openers();
    LastIndexAppend(k, p, Openers(), Replies()[0]);
    LastIndexAppend(k, p, Openers() + [Replies()[0]], Replies()[1]);
    assert Openers() + [Replies()[0]] + [Replies()[1]] == Openers() + Replies();
  }

  lemma IndicesAtTheEnd(k: RowKind, p: Party)
    requires k.SentTemplate? || k.SentQuestion?
    ensures LastIndex(k, p, BuyerGreeted()) == if p == Seller then 5 else if k.SentTemplate? then 4 else 0
  {
    IndicesOfReplies(k, p);
    LastIndexAppend(k, p, Openers() + Replies(), Message(5, Out, Buyer, Some(ThanksWaiting), 100));
    LastIndexAppend(k, p, Thanked(), Message(6, Out, Seller, Some(AskSellerReceivedSimple), 100));
    LastIndexAppend(k, p, AskedAgain(), Message(7, In, Seller, None, 103));
    LastIndexAppend(k, p, SellerAnswered(), Message(8, In, Buyer, None, 104));
  }

  lemma NothingOwed(log: seq<Message>, m: Message, p: Party)
    requires !Owes(log, p) && !IsOutQuestion(m, p)
    ensures !Owes(log + [m], p)
  {
    assert (log + [m])[..|log|] == log;
  }

  lemma SellerOwesNothing(log: seq<Message>, m: Message)
    requires IsIn(m, Seller)
    ensures !Owes(log + [m], Seller)
  {
    assert (log + [m])[..|log|] == log;
  }

  lemma EndAnswered()
    ensures forall p :: !Owes(BuyerGreeted(), p)
    ensures Arrival(BuyerGreeted())
  {
    RepliesAnswer(Openers() + Replies(), 101, 102);
    NothingOwed(Openers() + Replies(), Message(5, Out, Buyer, Some(ThanksWaiting), 100), Buyer);
    NothingOwed(Thanked(), Message(6, Out, Seller, Some(AskSellerReceivedSimple), 100), Buyer);
    NothingOwed(AskedAgain(), Message(7, In, Seller, None, 103), Buyer);
    NothingOwed(SellerAnswered(), Message(8, In, Buyer, None, 104), Buyer);
    SellerOwesNothing(AskedAgain(), Message(7, In, Seller, None, 103));
    NothingOwed(SellerAnswered(), Message(8, In, Buyer, None, 104), Seller);
  }

  // ----- the first turn -----

  lemma FirstHistory(changed: set<Party>)
    requires changed == {}
    ensures var history := HistoryRead(Listed(Openers() + Replies()), changed);
            && history.asked == Asked({AskBuyerSent}, {AskSellerReceived})
            && history.seller.lastQuestion == Some(AskSellerReceived)
            && !history.buyer.languageChanged && !history.seller.languageChanged
  {
    hide Listed, PartyHistoryOf, AskedOf;
    var log := Openers() + Replies();
    RepliesAnswer(log, 101, 102);
    SentAreOpeners(log);
    ListedElements(log);
    HistoryIsArrival(log, Listed(log), Buyer);
    HistoryIsArrival(log, Listed(log), Seller);
    IndicesOfReplies(SentQuestion, Seller);
  }

  lemma FirstPick(history: History)
    requires history.asked == Asked({AskBuyerSent}, {AskSellerReceived})
    requires history.seller.lastQuestion == Some(AskSellerReceived)
    requires !history.buyer.languageChanged && !history.seller.languageChanged
    ensures Pick(FIRST, history) == NextQuestions([ThanksWaiting], [AskSellerReceivedSimple], false, false)
  {
    var buyer := QuestionRows(Buyer, FIRST);
    assert !buyer[0].0 && !buyer[1].0 && !buyer[2].0;
    assert NeededQuestion(Buyer, FIRST, {AskBuyerSent}) == None;
    assert ForParty(Buyer, FIRST, history) == ([] + [ThanksWaiting], false);
    assert ForParty(Seller, FIRST, history) == ([AskSellerReceivedSimple], false);
  }

  lemma FirstDecided(turn: Turn)
    requires turn.facts == FIRST && turn.phase.Gathering? && turn.maxRounds >= 1
    requires turn.buyerRounds == 0 && turn.sellerRounds == 0
    requires turn.next == NextQuestions([ThanksWaiting], [AskSellerReceivedSimple], false, false)
    ensures Decide(turn) == Ask([ThanksWaiting], [AskSellerReceivedSimple])
    ensures ActionOps(turn.next, Decide(turn)) == FIRST_OPS && Resent(turn.next, Decide(turn)) == multiset{}
  {
    assert AskSellerReceivedSimple in turn.next.seller && turn.next.Asks(Seller) && !turn.next.Asks(Buyer);
    assert [AskSellerReceivedSimple][1..] == [] && [ThanksWaiting][1..] == [];
    assert Sends(Buyer, [ThanksWaiting]) == [FIRST_OPS[0]] + Sends(Buyer, []);
    assert Sends(Seller, [AskSellerReceivedSimple]) == [FIRST_OPS[1]] + Sends(Seller, []);
    assert AskOps(Buyer, [ThanksWaiting], false, true) == [FIRST_OPS[0]];
    assert AskOps(Seller, [AskSellerReceivedSimple], true, true) == [FIRST_OPS[1], FIRST_OPS[2]];
  }

  function AfterFirst(s: Sys): Sys {
    s.(evaluations := s.evaluations + [Evaluation(4, Ask([ThanksWaiting], [AskSellerReceivedSimple]))], turn := FIRST_OPS,
       wake := false,
       ledger := s.ledger.(courtesy := false, aborted := false, forgotten := false, skipped := false,
                           unsent := false))
  }

  lemma FirstDecision(c: Config, s: Sys)
    requires AwaitsDetails(c, s)
    ensures Spoken(c, s, FIRST) == s
    ensures var op := Decision(c, s, FIRST);
            && op.turn.facts == FIRST && op.turn.phase.Gathering? && op.turn.maxRounds >= 1
            && op.turn.buyerRounds == 0 && op.turn.sellerRounds == 0
            && op.turn.next == NextQuestions([ThanksWaiting], [AskSellerReceivedSimple], false, false)
            && !CourtesyResend(Buyer, FIRST, op.history) && !CourtesyResend(Seller, FIRST, op.history)
  {
    hide Listed, PartyHistoryOf, AskedOf, Pick, CurrentHold, Heard;
    assert s.log[..|s.log|] == s.log;
    assert (set p: Party | Changes(c, s.row, FIRST, p)) == {};
    FirstHistory({});
    FirstPick(HistoryRead(Listed(s.log), {}));
  }

  lemma FirstTurn(c: Config, s: Sys)
    requires AwaitsDetails(c, s)
    ensures Exec(c, s, JudgedTurn(FIRST)) == AfterFirst(s)
  {
    hide Exec, Step, CanJudge, Decision, Decide, CourtesyResend, ActionOps, Resent, Spoken;
    RepliesCanBeJudged(c, s);
    TurnIsJudged(c, s, FIRST);
    FirstDecision(c, s);
    FirstDecided(Decision(c, s, FIRST).turn);
    assert s.ledger.resent + multiset{} == s.ledger.resent;
  }

  function ThreeGo(): seq<Move> {
    [Goes(TheTurn, 100), Goes(TheTurn, 100), Goes(TheTurn, 100)]
  }

  function AfterSends(s: Sys): Sys {
    var sent := SentAndStored(SentAndStored(AfterFirst(s), Buyer, ThanksWaiting), Seller, AskSellerReceivedSimple);
    sent.(row := CountRoundRow(s.row, Seller, true, s.now),
          ledger := sent.ledger.(counted := s.ledger.counted + {(Seller, AskSellerReceivedSimple)}), turn := [])
  }

  lemma FirstSends(c: Config, s: Sys)
    requires AwaitsDetails(c, s) && s.now == 100 && !s.ledger.holds
    ensures Exec(c, AfterFirst(s), ThreeGo() + ThreeGo() + [Goes(TheTurn, 100)]) == AfterSends(s)
    ensures AfterSends(s).log == AskedAgain()
  {
    hide Exec, Step;
    var s0 := AfterFirst(s);
    var rest := [FIRST_OPS[1], FIRST_OPS[2]];
    assert s0.turn == [FIRST_OPS[0]] + rest;
    SendGoes(c, s0, TheTurn, Buyer, ThanksWaiting, WhileMediating, Abort, rest);
    var s1 := SentAndStored(s0, Buyer, ThanksWaiting).(turn := rest);
    assert s1.turn == [FIRST_OPS[1]] + [FIRST_OPS[2]];
    SendGoes(c, s1, TheTurn, Seller, AskSellerReceivedSimple, WhileMediating, Abort, [FIRST_OPS[2]]);
    var s2 := SentAndStored(s1, Seller, AskSellerReceivedSimple).(turn := [FIRST_OPS[2]]);
    assert s2.turn == [FIRST_OPS[2]] + [];
    CountIs(c, s2, FIRST_OPS[2], [], Goes(TheTurn, 100).oracle);
    OneStep(c, s2, Goes(TheTurn, 100));
    ExecAppend(c, s0, ThreeGo(), ThreeGo());
    ExecAppend(c, s0, ThreeGo() + ThreeGo(), [Goes(TheTurn, 100)]);
  }

  // ----- the second turn -----

  ghost predicate AwaitsCourtesy(c: Config, s: Sys) {
    && s.row.state.Active? && s.turn == [] && s.wake && s.log == BuyerGreeted() && s.events == []
    && s.evaluations == [Evaluation(4, Ask([ThanksWaiting], [AskSellerReceivedSimple]))]
    && s.row.buyerRounds == 0 && s.row.sellerRounds == 1 && s.row.buyerLanguage == None
    && c.maxRounds >= 2 && c.maxMessagesPerTurn >= 1 && c.defaultLanguage != "es"
  }

  lemma CountOfReplies(p: Party)
    ensures CountIn(BuyerGreeted(), p, 4) <= 1
  {
    hide CountIn;
    RepliesAnswer(Openers() + Replies(), 101, 102);
    NoneAfterTheLast(Openers() + Replies(), p, 4);
    UpToAppend(Openers() + Replies(), Message(5, Out, Buyer, Some(ThanksWaiting), 100), p, 4);
    UpToAppend(Thanked(), Message(6, Out, Seller, Some(AskSellerReceivedSimple), 100), p, 4);
    UpToAppend(AskedAgain(), Message(7, In, Seller, None, 103), p, 4);
    UpToAppend(SellerAnswered(), Message(8, In, Buyer, None, 104), p, 4);
  }

  lemma FirstIsJudged(evaluations: seq<Evaluation>)
    requires |evaluations| == 1 && evaluations[0].lastMessage == 4
    ensures LastJudged(evaluations) == 4
  {
    Stall.JudgedIsBounded([], evaluations[0]);
    assert [] + [evaluations[0]] == evaluations;
  }

  lemma GreetingCanBeJudged(c: Config, s: Sys)
    requires AwaitsCourtesy(c, s)
    ensures CanJudge(c, s)
  {
    hide Listed, Wrote, CountIn;
    EndAnswered();
    WroteIff(s.log, Buyer);
    assert s.log[7] in s.log && IsIn(s.log[7], Buyer);
    FirstIsJudged(s.evaluations);
    assert LastStrike(s.events) == 0;
    forall p: Party
      ensures Strike(c, p, s.log, Counted(s)) == []
    {
      CountOfReplies(p);
    }
  }

  lemma SentToAppend(log: seq<Message>, m: Message, p: Party)
    ensures SentTo(log + [m], p) == SentTo(log, p) + if IsOut(m, p) && m.template.Some? then {m.template.value} else {}
  {
    assert forall x :: x in log + [m] <==> x in log || x == m;
  }

  lemma SentToListed(log: seq<Message>, p: Party)
    ensures SentTo(Listed(log), p) == SentTo(log, p)
  {
    hide Listed;
    ListedElements(log);
  }

  lemma SecondAsked()
    ensures AskedOf(Listed(BuyerGreeted())) ==
            Asked({AskBuyerSent, ThanksWaiting}, {AskSellerReceived, AskSellerReceivedSimple})
  {
    hide Listed, SentTo;
    SentAreOpeners(Openers() + Replies());
    forall p: Party
      ensures SentTo(Listed(BuyerGreeted()), p) ==
              match p
              case Buyer => {AskBuyerSent, ThanksWaiting}
              case Seller => {AskSellerReceived, AskSellerReceivedSimple}
    {
      SentToListed(Openers() + Replies(), p);
      SentToAppend(Openers() + Replies(), Message(5, Out, Buyer, Some(ThanksWaiting), 100), p);
      SentToAppend(Thanked(), Message(6, Out, Seller, Some(AskSellerReceivedSimple), 100), p);
      SentToAppend(AskedAgain(), Message(7, In, Seller, None, 103), p);
      SentToAppend(SellerAnswered(), Message(8, In, Buyer, None, 104), p);
      SentToListed(BuyerGreeted(), p);
    }
  }

  lemma SecondHistory(changed: set<Party>)
    requires changed == {Buyer}
    ensures var history := HistoryRead(Listed(BuyerGreeted()), changed);
            && history.asked == Asked({AskBuyerSent, ThanksWaiting}, {AskSellerReceived, AskSellerReceivedSimple})
            && history.buyer == PartyHistory(Some(ThanksWaiting), Some(AskBuyerSent), false, true)
            && !history.seller.outstanding && !history.seller.languageChanged
  {
    hide Listed, PartyHistoryOf, AskedOf;
    var log := BuyerGreeted();
    EndAnswered();
    SecondAsked();
    ListedElements(log);
    HistoryIsArrival(log, Listed(log), Buyer);
    HistoryIsArrival(log, Listed(log), Seller);
    IndicesAtTheEnd(SentQuestion, Buyer);
    IndicesAtTheEnd(SentTemplate, Buyer);
  }

  lemma SecondPick(history: History)
    requires history.asked == Asked({AskBuyerSent, ThanksWaiting}, {AskSellerReceived, AskSellerReceivedSimple})
    requires history.buyer == PartyHistory(Some(ThanksWaiting), Some(AskBuyerSent), false, true)
    requires !history.seller.outstanding && !history.seller.languageChanged
    ensures Pick(SECOND, history) == NextQuestions([ThanksWaiting], [ThanksWaiting], true, false)
    ensures CourtesyResend(Buyer, SECOND, history)
  {
    var seller := QuestionRows(Seller, SECOND);
    assert !seller[0].0 && !seller[1].0 && !seller[2].0;
    assert NeededQuestion(Seller, SECOND, history.asked.seller) == None;
    assert ForParty(Seller, SECOND, history) == ([] + [ThanksWaiting], false);
    assert ForParty(Buyer, SECOND, history) == ([ThanksWaiting], true);
  }

  lemma SecondDecided(turn: Turn)
    requires turn.facts == SECOND && turn.phase.Gathering? && turn.maxRounds >= 2
    requires turn.buyerRounds == 0 && turn.sellerRounds == 1
    requires turn.asked == Asked({AskBuyerSent, ThanksWaiting}, {AskSellerReceived, AskSellerReceivedSimple})
    requires turn.next == NextQuestions([ThanksWaiting], [ThanksWaiting], true, false)
    ensures Decide(turn) == Ask([ThanksWaiting], [ThanksWaiting])
    ensures ActionOps(turn.next, Decide(turn)) == SECOND_OPS && Quiet(Decide(turn))
  {
    assert !HasQuestion(turn.next.buyer) && !HasQuestion(turn.next.seller);
    assert [ThanksWaiting][1..] == [];
    assert Sends(Buyer, [ThanksWaiting]) == [SECOND_OPS[0]] + Sends(Buyer, []);
    assert Sends(Seller, [ThanksWaiting]) == [SECOND_OPS[1]] + Sends(Seller, []);
    assert AskOps(Buyer, [ThanksWaiting], false, true) == [SECOND_OPS[0]];
    assert AskOps(Seller, [ThanksWaiting], false, true) == [SECOND_OPS[1]];
  }

  lemma SecondDecision(c: Config, s: Sys)
    requires AwaitsCourtesy(c, s)
    ensures Spoken(c, s, SECOND) == s.(row := SetLanguageRow(s.row, Buyer, "es", s.now))
    ensures var op := Decision(c, s, SECOND);
            && op.turn.facts == SECOND && op.turn.phase.Gathering? && op.turn.maxRounds >= 2
            && op.turn.buyerRounds == 0 && op.turn.sellerRounds == 1
            && op.turn.asked == Asked({AskBuyerSent, ThanksWaiting}, {AskSellerReceived, AskSellerReceivedSimple})
            && op.turn.next == NextQuestions([ThanksWaiting], [ThanksWaiting], true, false)
            && CourtesyResend(Buyer, SECOND, op.history)
  {
    hide Listed, PartyHistoryOf, AskedOf, Pick, CurrentHold, Heard, CourtesyResend;
    assert s.log[..|s.log|] == s.log;
    assert (set p: Party | Changes(c, s.row, SECOND, p)) == {Buyer};
    SecondHistory({Buyer});
    SecondPick(HistoryRead(Listed(s.log), {Buyer}));
  }

  lemma SecondTurn(c: Config, s: Sys)
    requires AwaitsCourtesy(c, s)
    ensures var after := Exec(c, s, JudgedTurn(SECOND));
            && after.turn == SECOND_OPS && after.ledger.courtesy && !after.ledger.aborted && !after.wake
            && after.row == SetLanguageRow(s.row, Buyer, "es", s.now)
            && LastJudged(after.evaluations) == 8
            && after.log == s.log && after.events == s.events && after.now == s.now
            && after.ledger.holds == s.ledger.holds
            && after.opening == s.opening && after.tick == s.tick
  {
    hide Exec, Step, CanJudge, Decision, Decide, CourtesyResend, ActionOps, Resent, Spoken, Quiet;
    GreetingCanBeJudged(c, s);
    TurnIsJudged(c, s, SECOND);
    SecondDecision(c, s);
    SecondDecided(Decision(c, s, SECOND).turn);
    var e := Evaluation(8, Decide(Decision(c, s, SECOND).turn));
    FirstIsJudged(s.evaluations);
    Stall.JudgedIsBounded(s.evaluations, e);
    assert LastId(s.log) == 8;
  }

  lemma ThankedAgainAnswered(log: seq<Message>)
    requires log == BuyerGreeted() + [Message(9, Out, Buyer, Some(ThanksWaiting), 100)]
                    + [Message(10, Out, Seller, Some(ThanksWaiting), 100)]
    ensures Arrival(log) && !Owes(log, Buyer) && !Owes(log, Seller)
  {
    hide Owes;
    EndAnswered();
    forall p: Party
      ensures !Owes(log, p)
    {
      var first := Message(9, Out, Buyer, Some(ThanksWaiting), 100);
      NothingOwed(BuyerGreeted(), first, p);
      NothingOwed(BuyerGreeted() + [first], Message(10, Out, Seller, Some(ThanksWaiting), 100), p);
    }
  }

  lemma GreetedLast()
    ensures LastId(BuyerGreeted()) == 8
  {
  }

  lemma AllJudged(s: Sys)
    requires s.log == BuyerGreeted() + [Message(9, Out, Buyer, Some(ThanksWaiting), 100)]
                      + [Message(10, Out, Seller, Some(ThanksWaiting), 100)]
    requires LastJudged(s.evaluations) == 8
    ensures !Stall.Unjudged(s)
  {
    hide LastJudged;
  }

  lemma SecondSends(c: Config, s: Sys)
    requires s.turn == SECOND_OPS && s.row.state.Active? && !s.ledger.holds && s.now == 100 && s.log == BuyerGreeted()
    requires !s.wake && s.events == [] && LastJudged(s.evaluations) == 8
    ensures var end := Exec(c, s, ThreeGo() + ThreeGo());
            && Asleep(c, end) && end.ledger == s.ledger.(sent := end.ledger.sent) && !Stall.Unjudged(end)
            && end.opening == s.opening && end.tick == s.tick && end.events == []
  {
    hide Exec, Step, Asleep, Owes, Arrival, BuyerGreeted, Stall.Unjudged;
    assert s.turn == [SECOND_OPS[0]] + [SECOND_OPS[1]];
    SendGoes(c, s, TheTurn, Buyer, ThanksWaiting, WhileMediating, Abort, [SECOND_OPS[1]]);
    var s1 := SentAndStored(s, Buyer, ThanksWaiting).(turn := [SECOND_OPS[1]]);
    assert s1.turn == [SECOND_OPS[1]] + [];
    SendGoes(c, s1, TheTurn, Seller, ThanksWaiting, WhileMediating, Abort, []);
    var end := SentAndStored(s1, Seller, ThanksWaiting).(turn := []);
    ExecAppend(c, s, ThreeGo(), ThreeGo());
    GreetedLast();
    ThankedAgainAnswered(end.log);
    AllJudged(end);
    FallsAsleep(c, end);
  }

  // ----- the run -----

  lemma SecondAwaits(c: Config, s: Sys)
    requires AwaitsDetails(c, s) && s.evaluations == [] && s.now == 100 && s.row.buyerLanguage == None
    requires c.maxRounds >= 2 && c.defaultLanguage != "es"
    ensures var done := AfterSends(s);
            AwaitsCourtesy(c, done.(log := BuyerGreeted(), wake := true))
  {
  }

  lemma RepliesComeAgain(c: Config, s: Sys)
    requires s.log == AskedAgain()
    ensures Exec(c, s, [Receive(Seller, 103, 0), Receive(Buyer, 104, 0)]) == s.(log := BuyerGreeted(), wake := true)
  {
    hide Exec, Step;
    TwoSteps(c, s, Receive(Seller, 103, 0), Receive(Buyer, 104, 0));
    Receives(c, s, Seller, 103);
    Receives(c, s.(log := SellerAnswered(), wake := true), Buyer, 104);
  }

  function UntilSecond(): seq<Move> {
    JudgedTurn(FIRST) + (ThreeGo() + ThreeGo() + [Goes(TheTurn, 100)]) + [Receive(Seller, 103, 0), Receive(Buyer, 104, 0)]
  }

  lemma SecondIsDue(c: Config, s: Sys)
    requires AwaitsDetails(c, s) && s.now == 100 && !s.ledger.holds
    ensures Exec(c, s, UntilSecond()) == AfterSends(s).(log := BuyerGreeted(), wake := true)
  {
    hide Exec, Step, AwaitsDetails, JudgedTurn;
    FirstTurn(c, s);
    FirstSends(c, s);
    RepliesComeAgain(c, AfterSends(s));
    ExecAppend(c, s, JudgedTurn(FIRST), ThreeGo() + ThreeGo() + [Goes(TheTurn, 100)]);
    ExecAppend(c, s, JudgedTurn(FIRST) + (ThreeGo() + ThreeGo() + [Goes(TheTurn, 100)]),
               [Receive(Seller, 103, 0), Receive(Buyer, 104, 0)]);
  }

  /** The buyer is thanked, the seller answers a second question, and the
      buyer takes back what it said with a greeting in another language: the
      last judged turn only thanks it again, and the session is asleep with
      the buyer's payment unknown and every message judged. */
  lemma ACourtesyStalls(c: Config, dispute: string) returns (moves: seq<Move>)
    requires c.maxRounds >= 2 && c.maxMessagesPerTurn >= 1 && c.defaultLanguage != "es"
    ensures var s := Exec(c, Initial(dispute, 100), moves);
            && Asleep(c, s) && s.ledger.courtesy && !Stall.Unjudged(s) && !s.ledger.aborted
            && s.opening == [] && s.tick == [] && s.events == []
  {
    hide Exec, Step, Asleep, AwaitsDetails, AwaitsCourtesy, JudgedTurn, UntilSecond, ThreeGo, BuyerGreeted;
    var opens := Opens(c, dispute);
    var replies := [Receive(Buyer, 101, 0), Receive(Seller, 102, 0)];
    var s := BothReplied(Opened(dispute), 101, 102);
    BothReply(c, Opened(dispute), 101, 102);
    RepliesAwait(c, s);
    SecondIsDue(c, s);
    SecondAwaits(c, s);
    var due := AfterSends(s).(log := BuyerGreeted(), wake := true);
    SecondTurn(c, due);
    SecondRow(c, due);
    SecondSends(c, Exec(c, due, JudgedTurn(SECOND)));
    moves := opens + replies + UntilSecond() + JudgedTurn(SECOND) + (ThreeGo() + ThreeGo());
    ExecAppend(c, Initial(dispute, 100), opens, replies);
    ExecAppend(c, Initial(dispute, 100), opens + replies, UntilSecond());
    ExecAppend(c, Initial(dispute, 100), opens + replies + UntilSecond(), JudgedTurn(SECOND));
    ExecAppend(c, Initial(dispute, 100), opens + replies + UntilSecond() + JudgedTurn(SECOND), ThreeGo() + ThreeGo());
  }

  lemma SecondRow(c: Config, s: Sys)
    requires AwaitsCourtesy(c, s)
    ensures SetLanguageRow(s.row, Buyer, "es", s.now).state.Active?
  {
  }
}

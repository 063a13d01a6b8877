/** The decision table (src/policy/mod.rs): from the facts of a turn and the
    session's history to one action, and why a turn that sends nothing
    useful still leaves a timer running. */
module Policy {
  import opened Domain
  import opened Next

  datatype Action =
    | Ask(buyer: seq<Template>, seller: seq<Template>)
    | Guide(path: Path)
    | Handoff(reason: Reason)
    | Hold
    | Wait

  /** Everything one decision reads. */
  datatype Turn = Turn(
    phase: Phase,
    facts: Facts,
    buyerLanguage: Language,
    sellerLanguage: Language,
    validatedLanguages: set<Language>,
    buyerRounds: nat,
    sellerRounds: nat,
    maxRounds: nat,
    asked: Asked,
    next: NextQuestions,
    buyerHeard: bool,
    sellerHeard: bool,
    held: bool,
    handoffGrace: nat)
  {
    predicate AnyParty(check: PartyFacts -> bool) {
      || (facts.buyer.Some? && check(facts.buyer.value))
      || (facts.seller.Some? && check(facts.seller.value))
    }

    predicate WantsHuman() {
      AnyParty((f: PartyFacts) => f.wantsHuman)
    }

    predicate RejectsPath() {
      AnyParty((f: PartyFacts) => f.rejectsPath)
    }

    predicate LanguagesValidated() {
      buyerLanguage in validatedLanguages && sellerLanguage in validatedLanguages
    }

    predicate BothHeard() {
      buyerHeard && sellerHeard
    }

    /** The question templates picked this turn ask something. */
    predicate AsksSomething() {
      HasQuestion(next.buyer) || HasQuestion(next.seller)
    }

    /** The buyer says they paid, the seller says nothing arrived, the
        claims conflict, and each side was asked its follow-up. */
    predicate ConflictWithBothSidesAnswered() {
      && facts.buyerSent && facts.sellerNotReceived && facts.conflict
      && (facts.buyerHasDetails || asked.Sent(Buyer, AskBuyerDetails))
      && (facts.sellerHasChecked || asked.Sent(Seller, AskSellerCheckAccount))
    }

    predicate UnknownAfterBothVariants() {
      || (facts.BuyerPaymentUnknown() && asked.Sent(Buyer, AskBuyerSent) && asked.Sent(Buyer, AskBuyerSentSimple))
      || (facts.SellerReceiptUnknown() && asked.Sent(Seller, AskSellerReceived)
          && asked.Sent(Seller, AskSellerReceivedSimple))
    }

    /** The `facts_gathered` handoff, once both parties were heard: a hold
        first, unless the session already holds or no grace is configured. */
    function FactsGatheredAction(): Option<Action> {
      if !BothHeard() then None
      else if held then Some(Wait)
      else if handoffGrace == 0 then Some(Handoff(FactsGathered))
      else Some(Hold)
    }

    function GuideOrHold(path: Path): Option<Action> {
      if LanguagesValidated() then Some(Guide(path)) else FactsGatheredAction()
    }

    function AskNext(): Action {
      Ask(next.buyer, next.seller)
    }
  }

  function Decide(turn: Turn): Action {
    var facts := turn.facts;
    if turn.WantsHuman() then Handoff(HumanRequested)
    else if facts.fraud then Handoff(FraudSignal)
    else if facts.outsideScope then Handoff(OutsideScope)
    else if turn.phase.GuidingPhase? then
      if turn.RejectsPath() then Handoff(SelfResolutionStalled) else Wait
    else if facts.sellerReceivedForGuide && turn.GuideOrHold(PaymentArrived).Some? then
      turn.GuideOrHold(PaymentArrived).value
    else if facts.buyerNotSentForGuide && turn.GuideOrHold(PaymentNotSent).Some? then
      turn.GuideOrHold(PaymentNotSent).value
    else if turn.ConflictWithBothSidesAnswered() then Handoff(ConflictingClaims)
    else if Max(turn.buyerRounds, turn.sellerRounds) >= turn.maxRounds then Handoff(RoundLimit)
    else if turn.AsksSomething() then turn.AskNext()
    else if turn.UnknownAfterBothVariants() then Handoff(Uncertain)
    else if !facts.BuyerPaymentUnknown() && !facts.SellerReceiptUnknown() && turn.FactsGatheredAction().Some? then
      turn.FactsGatheredAction().value
    else if turn.next.buyer == [] && turn.next.seller == [] then Wait
    else turn.AskNext()
  }

  /** An action after which no question, hold, guidance or handoff follows:
      `Wait`, or courtesy templates only. */
  predicate Quiet(a: Action) {
    a.Wait? || (a.Ask? && !HasQuestion(a.buyer) && !HasQuestion(a.seller))
  }

  /** A path toward a human comes before any guidance, and guidance needs
      both languages validated: exactly when each path is explained. */
  lemma GuideIff(turn: Turn)
    ensures var open := turn.phase.Gathering? && !turn.WantsHuman() && !turn.facts.fraud
                        && !turn.facts.outsideScope && turn.LanguagesValidated();
            && (Decide(turn) == Guide(PaymentArrived) <==> open && turn.facts.sellerReceivedForGuide)
            && (Decide(turn) == Guide(PaymentNotSent) <==>
                open && turn.facts.buyerNotSentForGuide && !turn.facts.sellerReceivedForGuide)
  {
  }

  /** A question is asked only when no row above it fires, and then with
      everything picked for both parties. */
  lemma AskCarriesThePick(turn: Turn)
    requires Decide(turn).Ask?
    ensures Decide(turn) == Ask(turn.next.buyer, turn.next.seller)
    ensures turn.phase.Gathering?
    ensures Max(turn.buyerRounds, turn.sellerRounds) < turn.maxRounds
  {
  }

  /** What a turn does once the facts are gathered and both parties heard. */
  function Gathered(turn: Turn): Action {
    if turn.held then Wait else if turn.handoffGrace == 0 then Handoff(FactsGathered) else Hold
  }

  /** The decision table as it is documented: each row's condition, on its
      own, and its action. Rows 6 and 7 without validated languages are about
      gathered facts, and the text below the table has a party who has not
      written yet awaited (row 13), so they match only once both were heard. */
  function Table(turn: Turn): seq<(bool, Action)> {
    var facts := turn.facts;
    var guiding := turn.phase.GuidingPhase?;
    var validated := turn.buyerLanguage in turn.validatedLanguages && turn.sellerLanguage in turn.validatedLanguages;
    var heard := turn.buyerHeard && turn.sellerHeard;
    var human :=
      (facts.buyer.Some? && facts.buyer.value.wantsHuman) || (facts.seller.Some? && facts.seller.value.wantsHuman);
    var rejected :=
      (facts.buyer.Some? && facts.buyer.value.rejectsPath) || (facts.seller.Some? && facts.seller.value.rejectsPath);
    var conflict :=
      && facts.buyerSent && facts.sellerNotReceived && facts.conflict
      && (facts.buyerHasDetails || AskBuyerDetails in turn.asked.buyer)
      && (facts.sellerHasChecked || AskSellerCheckAccount in turn.asked.seller);
    var buyerUnknown := !facts.buyerSent && !facts.buyerNotSent;
    var sellerUnknown := !facts.sellerReceived && !facts.sellerNotReceived && !facts.outsideScope;
    var bothVariants :=
      || (buyerUnknown && {AskBuyerSent, AskBuyerSentSimple} <= turn.asked.buyer)
      || (sellerUnknown && {AskSellerReceived, AskSellerReceivedSimple} <= turn.asked.seller);
    [ (human, Handoff(HumanRequested)),
      (facts.fraud, Handoff(FraudSignal)),
      (facts.outsideScope, Handoff(OutsideScope)),
      (guiding && rejected, Handoff(SelfResolutionStalled)),
      (guiding, Wait),
      (facts.sellerReceivedForGuide && (validated || heard), if validated then Guide(PaymentArrived) else Gathered(turn)),
      (facts.buyerNotSentForGuide && (validated || heard), if validated then Guide(PaymentNotSent) else Gathered(turn)),
      (conflict, Handoff(ConflictingClaims)),
      (turn.buyerRounds >= turn.maxRounds || turn.sellerRounds >= turn.maxRounds, Handoff(RoundLimit)),
      (HasQuestion(turn.next.buyer) || HasQuestion(turn.next.seller), Ask(turn.next.buyer, turn.next.seller)),
      (bothVariants, Handoff(Uncertain)),
      (!buyerUnknown && !sellerUnknown && heard, Gathered(turn)),
      (true, if turn.next.buyer == [] && turn.next.seller == [] then Wait else Ask(turn.next.buyer, turn.next.seller))
    ]
  }

  /** Rows are checked in order and the first match wins. */
  lemma DecideFollowsTheTable(turn: Turn, row: nat)
    requires row < |Table(turn)| && Table(turn)[row].0
    requires forall earlier :: 0 <= earlier < row ==> !Table(turn)[earlier].0
    ensures Decide(turn) == Table(turn)[row].1
  {
    var table := Table(turn);
    assert table[0].0 ==> row == 0;
    assert table[1].0 ==> row <= 1;
    assert table[2].0 ==> row <= 2;
    assert table[3].0 ==> row <= 3;
    assert table[4].0 ==> row <= 4;
    assert table[5].0 ==> row <= 5;
    assert table[6].0 ==> row <= 6;
    assert table[7].0 ==> row <= 7;
    assert table[8].0 ==> row <= 8;
    assert table[9].0 ==> row <= 9;
    assert table[10].0 ==> row <= 10;
    assert table[11].0 ==> row <= 11;
  }

  // ----- no turn leaves a session without a timer -----

  /** The turn read by this history: the questions it picked, and what every
      session that reached `active` has: both openers were sent, and a party
      never heard still owes the answer to its last question. */
  ghost predicate TurnOf(turn: Turn, history: History) {
    && turn.phase.Gathering?
    && turn.next == Pick(turn.facts, history)
    && turn.asked == history.asked
    && (forall p :: history.asked.Sent(p, Opener(p)))
    && (!turn.buyerHeard ==> history.buyer.outstanding)
    && (!turn.sellerHeard ==> history.seller.outstanding)
  }

  /** The one exception: the party wrote without answering, this turn changed
      its language, and what the resend repeats asks nothing although the
      party's fact is still unknown. */
  predicate CourtesyResend(p: Party, facts: Facts, history: History) {
    && facts.Unknown(p)
    && facts.Of(p).Some?
    && history.Of(p).languageChanged
    && !Answered(facts.Of(p).value)
    && LanguageResend(history.Of(p)).Some?
    && !IsQuestion(LanguageResend(history.Of(p)).value)
  }

  /** A party who owes no answer and whose fact is unknown gets a question,
      unless both of its variants were used or it is the courtesy resend. */
  lemma UnknownFactIsAskedFor(p: Party, facts: Facts, history: History)
    requires history.asked.Sent(p, Opener(p))
    requires facts.Unknown(p) && !history.Of(p).outstanding && !CourtesyResend(p, facts, history)
    requires SimpleVariant(Opener(p)).value !in history.asked.To(p)
    ensures HasQuestion(Pick(facts, history).To(p))
  {
    var sent := history.asked.To(p);
    var rows := QuestionRows(p, facts);
    assert rows[1] == (true, SimpleVariant(Opener(p)).value);
    var q := NeededQuestion(p, facts, sent);
    assert q.Some?;
    NeededIsOwn(p, facts, sent);
    var ts := ForParty(p, facts, history).0;
    assert ts != [] && IsQuestion(ts[|ts| - 1]);
    assert Pick(facts, history).To(p)[|ts| - 1] in Pick(facts, history).To(p);
  }

  /** A turn that decides `Wait`, or sends courtesy templates only, leaves
      the session held, or a party with an unanswered question, or is the
      courtesy resend. */
  lemma QuietTurnKeepsATimer(turn: Turn, history: History)
    requires TurnOf(turn, history)
    requires Quiet(Decide(turn))
    ensures || turn.held
            || history.buyer.outstanding
            || history.seller.outstanding
            || CourtesyResend(Buyer, turn.facts, history)
            || CourtesyResend(Seller, turn.facts, history)
  {
    if !turn.held && !history.buyer.outstanding && !history.seller.outstanding {
      assert turn.BothHeard();
      assert !turn.AsksSomething();
      forall p | turn.facts.Unknown(p)
        ensures CourtesyResend(p, turn.facts, history)
      {
        if !CourtesyResend(p, turn.facts, history) {
          UnknownFactIsAskedFor(p, turn.facts, history);
          assert false;
        }
      }
      assert turn.facts.Unknown(Buyer) || turn.facts.Unknown(Seller);
    }
  }

  /** The rows above row 10, none of which leaves the session gathering. */
  predicate EarlierRowFires(turn: Turn) {
    || turn.WantsHuman() || turn.facts.fraud || turn.facts.outsideScope
    || (turn.facts.sellerReceivedForGuide && turn.GuideOrHold(PaymentArrived).Some?)
    || (turn.facts.buyerNotSentForGuide && turn.GuideOrHold(PaymentNotSent).Some?)
    || turn.ConflictWithBothSidesAnswered()
    || Max(turn.buyerRounds, turn.sellerRounds) >= turn.maxRounds
  }

  /** Exactly when a turn leaves a session that neither holds nor awaits an
      answer without a timer: it is the courtesy resend, nothing above row 10
      fires, the other party is asked nothing, and no fact is given up. */
  lemma TimerIsLostIff(turn: Turn, history: History)
    requires TurnOf(turn, history)
    requires !turn.held && !history.buyer.outstanding && !history.seller.outstanding
    ensures Quiet(Decide(turn)) <==>
            && (CourtesyResend(Buyer, turn.facts, history) || CourtesyResend(Seller, turn.facts, history))
            && !EarlierRowFires(turn)
            && !turn.AsksSomething()
            && !turn.UnknownAfterBothVariants()
  {
    if Quiet(Decide(turn)) {
      QuietTurnKeepsATimer(turn, history);
      assert !EarlierRowFires(turn);
    }
  }

  /** The exception is reachable: a buyer thanked in the default language
      writes "hola" in another one and retracts what it said, so it is only
      thanked again while its payment is unknown. */
  lemma {:induction false} CourtesyResendLosesTheTimer() returns (turn: Turn, history: History)
    ensures TurnOf(turn, history)
    ensures Quiet(Decide(turn))
    ensures !turn.held && !history.buyer.outstanding && !history.seller.outstanding
  {
    var facts := Facts(false, false, false, false, true, false, false, false, false, false, false,
                       Some(PartyFacts(false, false, Some("es"), Greeting)), None);
    history := History(Asked({AskBuyerSent, ThanksWaiting}, {AskSellerReceived}),
                       PartyHistory(Some(ThanksWaiting), Some(AskBuyerSent), false, true),
                       PartyHistory(Some(AskSellerReceived), Some(AskSellerReceived), false, false));
    turn := Turn(Gathering, facts, "es", "en", {"en", "es"}, 0, 0, 4, history.asked,
                 Pick(facts, history), true, true, false, 1800);
  }
}

/** Picking the next question for each party (src/policy/next.rs). */
module Next {
  import opened Domain

  datatype MessageKind = Answers | Greeting | AsksLanguage | NotUnderstood | AsksNextStep | OtherKind

  /** Facts about one party's latest messages; present only for a party who
      wrote in this turn. */
  datatype PartyFacts = PartyFacts(wantsHuman: bool, rejectsPath: bool,
                                   language: Option<Language>, kind: MessageKind)

  datatype Facts = Facts(
    buyerSent: bool,
    buyerNotSent: bool,
    buyerNotSentForGuide: bool,
    buyerHasDetails: bool,
    sellerReceived: bool,
    sellerReceivedForGuide: bool,
    sellerNotReceived: bool,
    sellerHasChecked: bool,
    conflict: bool,
    fraud: bool,
    outsideScope: bool,
    buyer: Option<PartyFacts>,
    seller: Option<PartyFacts>)
  {
    predicate BuyerPaymentUnknown() {
      !buyerSent && !buyerNotSent
    }

    predicate SellerReceiptUnknown() {
      !sellerReceived && !sellerNotReceived && !outsideScope
    }

    function Of(p: Party): Option<PartyFacts> {
      if p == Buyer then buyer else seller
    }

    /** The party's own payment fact is still unknown. */
    predicate Unknown(p: Party) {
      if p == Buyer then BuyerPaymentUnknown() else SellerReceiptUnknown()
    }
  }

  /** The templates already sent to each party, in any language. */
  datatype Asked = Asked(buyer: set<Template>, seller: set<Template>)
  {
    function To(p: Party): set<Template> {
      if p == Buyer then buyer else seller
    }

    predicate Sent(p: Party, t: Template) {
      t in To(p)
    }
  }

  datatype PartyHistory = PartyHistory(lastTemplate: Option<Template>, lastQuestion: Option<Template>,
                                       outstanding: bool, languageChanged: bool)

  datatype History = History(asked: Asked, buyer: PartyHistory, seller: PartyHistory)
  {
    function Of(p: Party): PartyHistory {
      if p == Buyer then buyer else seller
    }
  }

  datatype NextQuestions = NextQuestions(buyer: seq<Template>, seller: seq<Template>,
                                         buyerResend: bool, sellerResend: bool)
  {
    function To(p: Party): seq<Template> {
      if p == Buyer then buyer else seller
    }

    predicate Resend(p: Party) {
      if p == Buyer then buyerResend else sellerResend
    }

    /** The turn asks the party a question that is not a language resend:
        one of the party's rounds. */
    predicate Asks(p: Party) {
      !Resend(p) && HasQuestion(To(p))
    }
  }

  predicate HasQuestion(ts: seq<Template>) {
    exists t :: t in ts && IsQuestion(t)
  }

  /** The question rows of each party: whether the fact is needed, and the
      template that asks for it. */
  function QuestionRows(p: Party, facts: Facts): seq<(bool, Template)> {
    match p
    case Buyer =>
      [(facts.BuyerPaymentUnknown(), AskBuyerSent),
       (facts.BuyerPaymentUnknown(), AskBuyerSentSimple),
       (facts.buyerSent && !facts.buyerHasDetails, AskBuyerDetails)]
    case Seller =>
      [(facts.SellerReceiptUnknown(), AskSellerReceived),
       (facts.SellerReceiptUnknown(), AskSellerReceivedSimple),
       (facts.sellerNotReceived && !facts.sellerHasChecked, AskSellerCheckAccount)]
  }

  function FirstNeeded(rows: seq<(bool, Template)>, sent: set<Template>): (r: Option<Template>)
    ensures r.None? <==> forall i :: 0 <= i < |rows| && rows[i].0 ==> rows[i].1 in sent
    ensures r.Some? ==>
              exists i :: 0 <= i < |rows| && rows[i] == (true, r.value) && r.value !in sent
  {
    if rows == [] then None
    else if rows[0].0 && rows[0].1 !in sent then Some(rows[0].1)
    else
      var r := FirstNeeded(rows[1..], sent);
      assert forall i :: 1 <= i < |rows| ==> rows[i] == rows[1..][i-1];
      r
  }

  function NeededQuestion(p: Party, facts: Facts, sent: set<Template>): Option<Template> {
    FirstNeeded(QuestionRows(p, facts), sent)
  }

  predicate NothingNeeded(p: Party, facts: Facts) {
    match p
    case Buyer => !facts.BuyerPaymentUnknown() && !(facts.buyerSent && !facts.buyerHasDetails)
    case Seller => !facts.SellerReceiptUnknown() && !(facts.sellerNotReceived && !facts.sellerHasChecked)
  }

  /** The template a language resend repeats: the last one sent, except a
      reminder, which is replaced by the question it points at. */
  function LanguageResend(own: PartyHistory): Option<Template> {
    var last := if own.lastTemplate == Some(Reminder) then own.lastQuestion else own.lastTemplate;
    if last.None? then None else Resendable(last.value)
  }

  predicate Answered(f: PartyFacts) {
    f.kind.Answers? || f.kind.AsksNextStep?
  }

  /** Steps 1 and 2: the templates for one party, and whether they are a
      language resend. */
  function ForParty(p: Party, facts: Facts, history: History): (seq<Template>, bool) {
    var own := history.Of(p);
    var sent := history.asked.To(p);
    if facts.Of(p).None? then
      if own.outstanding then ([], false)
      else
        var q := NeededQuestion(p, facts, sent);
        (if q.Some? then [q.value] else [], false)
    else
      var f := facts.Of(p).value;
      var resend := if own.languageChanged && !Answered(f) then LanguageResend(own) else None;
      if resend.Some? then ([resend.value], true)
      else
        var simple := if own.lastQuestion.Some? then SimpleVariant(own.lastQuestion.value) else None;
        if f.kind.NotUnderstood? && simple.Some? && simple.value !in sent then ([simple.value], false)
        else
          var next := if f.kind.AsksNextStep? && WhatHappensNext !in sent then [WhatHappensNext] else [];
          var q := NeededQuestion(p, facts, sent);
          if q.Some? then (next + [q.value], false)
          else if NothingNeeded(p, facts) && ThanksWaiting !in sent then (next + [ThanksWaiting], false)
          else (next, false)
  }

  /** Step 3: the party wrote, nothing fits, and the other party still owes
      an answer. */
  predicate WaitsForOther(p: Party, facts: Facts, history: History, own: seq<Template>, others: seq<Template>) {
    && facts.Of(p).Some?
    && own == []
    && !facts.Unknown(p)
    && (history.Of(p.Other()).outstanding || HasQuestion(others))
    && !history.asked.Sent(p, WaitingOtherParty)
  }

  function Pick(facts: Facts, history: History): NextQuestions {
    var (buyer, buyerResend) := ForParty(Buyer, facts, history);
    var (seller, sellerResend) := ForParty(Seller, facts, history);
    var buyerWaits := WaitsForOther(Buyer, facts, history, buyer, seller);
    var sellerWaits := WaitsForOther(Seller, facts, history, seller, buyer);
    NextQuestions(if buyerWaits then buyer + [WaitingOtherParty] else buyer,
                  if sellerWaits then seller + [WaitingOtherParty] else seller,
                  buyerResend, sellerResend)
  }

  /** `ForParty` as the code builds it, pushing onto a local list. */
  method PushForParty(p: Party, facts: Facts, history: History) returns (templates: seq<Template>, resend: bool)
    ensures templates == ForParty(p, facts, history).0
    ensures resend == ForParty(p, facts, history).1
  {
    var own := history.Of(p);
    var sent := history.asked.To(p);
    templates, resend := [], false;
    if facts.Of(p).None? {
      if own.outstanding {
        return;
      }
      var question := NeededQuestion(p, facts, sent);
      if question.Some? {
        templates := [question.value];
      }
      return;
    }
    var f := facts.Of(p).value;
    if own.languageChanged && !Answered(f) {
      var last := LanguageResend(own);
      if last.Some? {
        return [last.value], true;
      }
    }
    if f.kind.NotUnderstood? && own.lastQuestion.Some? {
      var simple := SimpleVariant(own.lastQuestion.value);
      if simple.Some? && simple.value !in sent {
        return [simple.value], false;
      }
    }
    if f.kind.AsksNextStep? && WhatHappensNext !in sent {
      templates := templates + [WhatHappensNext];
    }
    var question := NeededQuestion(p, facts, sent);
    if question.Some? {
      templates := templates + [question.value];
    } else if NothingNeeded(p, facts) && ThanksWaiting !in sent {
      templates := templates + [ThanksWaiting];
    }
  }

  /** `Pick` as the code builds it: step 3 pushes onto both lists once both
      parties' templates are known. */
  method PickQuestions(facts: Facts, history: History) returns (next: NextQuestions)
    ensures next == Pick(facts, history)
  {
    var buyer, buyerResend := PushForParty(Buyer, facts, history);
    var seller, sellerResend := PushForParty(Seller, facts, history);
    var buyerWaits := WaitsForOther(Buyer, facts, history, buyer, seller);
    var sellerWaits := WaitsForOther(Seller, facts, history, seller, buyer);
    if buyerWaits {
      buyer := buyer + [WaitingOtherParty];
    }
    if sellerWaits {
      seller := seller + [WaitingOtherParty];
    }
    next := NextQuestions(buyer, seller, buyerResend, sellerResend);
  }

  // ----- what the picked templates are -----

  /** What is known of a party's history in every session: the questions it
      was sent are its own, and its last question is one of them. */
  predicate OwnHistory(p: Party, history: History) {
    var own := history.Of(p);
    && (own.lastQuestion.Some? ==> own.lastQuestion.value in QuestionsFor(p))
    && (own.lastTemplate.Some? && IsQuestion(own.lastTemplate.value) ==> own.lastTemplate.value in QuestionsFor(p))
  }

  lemma PartyTemplatesAreNew(p: Party, facts: Facts, history: History)
    requires !ForParty(p, facts, history).1
    ensures forall t :: t in ForParty(p, facts, history).0 ==> !history.asked.Sent(p, t)
  {
    var q := NeededQuestion(p, facts, history.asked.To(p));
    assert q.Some? ==> q.value !in history.asked.To(p);
  }

  /** A template already sent to a party is never picked for it again,
      except by a language resend. */
  lemma PickedAreNew(p: Party, facts: Facts, history: History)
    requires !Pick(facts, history).Resend(p)
    ensures forall t :: t in Pick(facts, history).To(p) ==> !history.asked.Sent(p, t)
  {
    hide ForParty;
    PartyTemplatesAreNew(p, facts, history);
  }

  predicate OwnOrCourtesy(p: Party, t: Template) {
    t in QuestionsFor(p) || t in {WhatHappensNext, ThanksWaiting, WaitingOtherParty}
  }

  lemma NeededIsOwn(p: Party, facts: Facts, sent: set<Template>)
    ensures var q := NeededQuestion(p, facts, sent);
            q.Some? ==> q.value in QuestionsFor(p) && q.value !in sent
  {
  }

  lemma ForPartyShape(p: Party, facts: Facts, history: History)
    requires OwnHistory(p, history)
    ensures var ts := ForParty(p, facts, history).0;
            && |ts| <= 2
            && (forall i :: 0 <= i < |ts| ==> OwnOrCourtesy(p, ts[i]))
            && (|ts| == 2 ==> ts[0] == WhatHappensNext)
  {
    NeededIsOwn(p, facts, history.asked.To(p));
  }

  /** At most one question is picked for a party, and every picked question
      is one of its own. A reminder is never picked. */
  lemma PickedShape(p: Party, facts: Facts, history: History)
    requires OwnHistory(p, history)
    ensures var ts := Pick(facts, history).To(p);
            && |ts| <= 2
            && (forall i :: 0 <= i < |ts| ==> OwnOrCourtesy(p, ts[i]))
            && (|ts| == 2 ==> ts[0] == WhatHappensNext)
  {
    ForPartyShape(p, facts, history);
  }

  /** A party who did not write gets at most one question, a new one, and
      only when it owes no answer; it is never only thanked. */
  lemma SilentPartyIsOnlyAsked(p: Party, facts: Facts, history: History)
    requires facts.Of(p).None? && Pick(facts, history).To(p) != []
    ensures !history.Of(p).outstanding
    ensures |Pick(facts, history).To(p)| == 1
    ensures IsQuestion(Pick(facts, history).To(p)[0])
    ensures Pick(facts, history).Asks(p)
  {
    assert Pick(facts, history).To(p)[0] in Pick(facts, history).To(p);
  }

  /** A language resend repeats what the party was last sent, or the question
      a reminder pointed at; never a reminder, guidance or a notice. */
  lemma ResendRepeatsTheLast(p: Party, facts: Facts, history: History)
    requires Pick(facts, history).Resend(p)
    requires history.Of(p).lastQuestion.Some? ==> IsQuestion(history.Of(p).lastQuestion.value)
    ensures var own := history.Of(p);
            && |Pick(facts, history).To(p)| == 1
            && var t := Pick(facts, history).To(p)[0];
               && t != Reminder && IsResendable(t)
               && (own.lastTemplate == Some(t) || (own.lastTemplate == Some(Reminder) && own.lastQuestion == Some(t)))
    ensures facts.Of(p).Some? && history.Of(p).languageChanged && !Answered(facts.Of(p).value)
  {
    assert Pick(facts, history).To(p) == ForParty(p, facts, history).0;
  }

  lemma HasQuestionOf(p: Party, facts: Facts, history: History)
    ensures HasQuestion(Pick(facts, history).To(p)) == HasQuestion(ForParty(p, facts, history).0)
  {
    var own := ForParty(p, facts, history).0;
    assert Pick(facts, history).To(p) == own || Pick(facts, history).To(p) == own + [WaitingOtherParty];
    if HasQuestion(own) {
      var t :| t in own && IsQuestion(t);
      assert t in Pick(facts, history).To(p);
    }
  }

  /** Nobody writes into silence: a party who wrote and whose own fact is
      known gets some template while the other one owes an answer, or is
      asked in this turn, unless it was already told that it waits. */
  lemma NobodyWritesIntoSilence(p: Party, facts: Facts, history: History)
    requires facts.Of(p).Some? && !facts.Unknown(p) && !history.asked.Sent(p, WaitingOtherParty)
    requires history.Of(p.Other()).outstanding || HasQuestion(Pick(facts, history).To(p.Other()))
    ensures Pick(facts, history).To(p) != []
  {
    hide ForParty;
    HasQuestionOf(p.Other(), facts, history);
  }

  /** A party is told that it waits only when it wrote, nothing else fits, its
      own fact is known, the other owes an answer, and it was not told yet. */
  lemma WaitingIsOnlySaidOnce(p: Party, facts: Facts, history: History)
    requires WaitingOtherParty in Pick(facts, history).To(p) && !Pick(facts, history).Resend(p)
    ensures Pick(facts, history).To(p) == [WaitingOtherParty]
    ensures facts.Of(p).Some? && !facts.Unknown(p) && !history.asked.Sent(p, WaitingOtherParty)
    ensures history.Of(p.Other()).outstanding || HasQuestion(Pick(facts, history).To(p.Other()))
  {
    hide ForParty;
    HasQuestionOf(p.Other(), facts, history);
    OwnTemplates(p, facts, history);
  }

  /** What the rules for one party pick, outside a resend: questions, what
      happens next, or thanks once nothing is needed. */
  lemma OwnTemplates(p: Party, facts: Facts, history: History)
    requires !ForParty(p, facts, history).1
    ensures var ts := ForParty(p, facts, history).0;
            && WaitingOtherParty !in ts
            && (ThanksWaiting in ts ==>
                  && facts.Of(p).Some? && NothingNeeded(p, facts) && !history.asked.Sent(p, ThanksWaiting)
                  && forall t :: t in ts ==> !IsQuestion(t))
  {
    hide NothingNeeded, NeededQuestion;
    NeededIsOwn(p, facts, history.asked.To(p));
  }

  /** A party is thanked only once nothing is needed from it. */
  lemma ThanksMeanNothingIsNeeded(p: Party, facts: Facts, history: History)
    requires ThanksWaiting in Pick(facts, history).To(p) && !Pick(facts, history).Resend(p)
    ensures facts.Of(p).Some? && NothingNeeded(p, facts) && !history.asked.Sent(p, ThanksWaiting)
    ensures !HasQuestion(Pick(facts, history).To(p))
  {
    hide ForParty, NothingNeeded;
    OwnTemplates(p, facts, history);
    HasQuestionOf(p, facts, history);
  }

  // ----- exactly when each template is picked -----

  /** The wording a party that was not understood gets instead. */
  predicate Simpler(q: Template, t: Template) {
    (q, t) in {(AskBuyerSent, AskBuyerSentSimple), (AskSellerReceived, AskSellerReceivedSimple)}
  }

  /** The party's answer was not understood, and its question has a simpler
      wording that it was not sent yet. */
  ghost predicate AskedAgain(p: Party, facts: Facts, history: History) {
    && facts.Of(p).Some? && facts.Of(p).value.kind == NotUnderstood
    && exists q, t :: history.Of(p).lastQuestion == Some(q) && Simpler(q, t) && !history.asked.Sent(p, t)
  }

  /** The first rule of a party that wrote: a resend in its new language. */
  lemma ResendIff(p: Party, facts: Facts, history: History)
    ensures Pick(facts, history).Resend(p) <==>
            && facts.Of(p).Some? && history.Of(p).languageChanged
            && facts.Of(p).value.kind !in {Answers, AsksNextStep}
            && var last := history.Of(p).lastTemplate;
               var meant := if last == Some(Reminder) then history.Of(p).lastQuestion else last;
               meant.Some? && meant.value in {AskBuyerSent, AskBuyerSentSimple, AskBuyerDetails, AskSellerReceived,
                                              AskSellerReceivedSimple, AskSellerCheckAccount, WhatHappensNext,
                                              ThanksWaiting, WaitingOtherParty, Reminder}
  {
    hide NeededQuestion, NothingNeeded;
  }

  /** The second rule: a party that was not understood gets the simpler
      wording of its question, and nothing else. */
  lemma NotUnderstoodIsAskedAgain(p: Party, facts: Facts, history: History, q: Template, t: Template)
    requires !Pick(facts, history).Resend(p)
    requires facts.Of(p).Some? && facts.Of(p).value.kind == NotUnderstood
    requires history.Of(p).lastQuestion == Some(q) && Simpler(q, t) && !history.asked.Sent(p, t)
    ensures Pick(facts, history).To(p) == [t]
  {
    hide NeededQuestion, NothingNeeded;
  }

  /** Outside a resend, a party is told what happens next exactly when it
      asks and was not told yet; and a party that asks is never only resent
      its last message. */
  lemma NextStepIff(p: Party, facts: Facts, history: History)
    ensures var asks := facts.Of(p).Some? && facts.Of(p).value.kind == AsksNextStep;
            && (asks ==> !Pick(facts, history).Resend(p))
            && (!Pick(facts, history).Resend(p) ==>
                  (WhatHappensNext in Pick(facts, history).To(p)
                   <==> asks && !history.asked.Sent(p, WhatHappensNext)))
  {
    hide NothingNeeded, NeededQuestion;
    NeededIsOwn(p, facts, history.asked.To(p));
  }

  /** The questions as the documentation orders them: a party is asked for a
      fact that is unknown, in simpler words the second time, and then for
      what its own answer left open. */
  predicate AsksFor(p: Party, facts: Facts, asked: Asked, t: Template) {
    match t
    case AskBuyerSent =>
      p == Buyer && !facts.buyerSent && !facts.buyerNotSent && AskBuyerSent !in asked.buyer
    case AskBuyerSentSimple =>
      && p == Buyer && !facts.buyerSent && !facts.buyerNotSent
      && AskBuyerSent in asked.buyer && AskBuyerSentSimple !in asked.buyer
    case AskBuyerDetails =>
      p == Buyer && facts.buyerSent && !facts.buyerHasDetails && AskBuyerDetails !in asked.buyer
    case AskSellerReceived =>
      && p == Seller && !facts.sellerReceived && !facts.sellerNotReceived && !facts.outsideScope
      && AskSellerReceived !in asked.seller
    case AskSellerReceivedSimple =>
      && p == Seller && !facts.sellerReceived && !facts.sellerNotReceived && !facts.outsideScope
      && AskSellerReceived in asked.seller && AskSellerReceivedSimple !in asked.seller
    case AskSellerCheckAccount =>
      p == Seller && facts.sellerNotReceived && !facts.sellerHasChecked && AskSellerCheckAccount !in asked.seller
    case _ => false
  }

  lemma FirstOfThree(a: (bool, Template), b: (bool, Template), d: (bool, Template), sent: set<Template>)
    ensures FirstNeeded([a, b, d], sent)
            == if a.0 && a.1 !in sent then Some(a.1)
               else if b.0 && b.1 !in sent then Some(b.1)
               else if d.0 && d.1 !in sent then Some(d.1) else None
  {
    assert [a, b, d][1..] == [b, d] && [b, d][1..] == [d] && [d][1..] == [];
    assert FirstNeeded([d], sent) == if d.0 && d.1 !in sent then Some(d.1) else None;
    assert FirstNeeded([b, d], sent) == if b.0 && b.1 !in sent then Some(b.1) else FirstNeeded([d], sent);
  }

  /** The question the rows give is the documented one. */
  lemma NeededIff(p: Party, facts: Facts, asked: Asked, t: Template)
    ensures NeededQuestion(p, facts, asked.To(p)) == Some(t) <==> AsksFor(p, facts, asked, t)
  {
    hide FirstNeeded;
    var rows := QuestionRows(p, facts);
    FirstOfThree(rows[0], rows[1], rows[2], asked.To(p));
    assert rows == [rows[0], rows[1], rows[2]];
  }

  /** The third step only adds that the party waits for the other. */
  lemma PickHas(p: Party, facts: Facts, history: History, t: Template)
    requires t != WaitingOtherParty
    ensures t in Pick(facts, history).To(p) <==> t in ForParty(p, facts, history).0
    ensures Pick(facts, history).Resend(p) == ForParty(p, facts, history).1
  {
    hide ForParty, WaitsForOther;
  }

  lemma PartyQuestionIff(p: Party, facts: Facts, history: History, t: Template)
    requires !ForParty(p, facts, history).1 && !AskedAgain(p, facts, history) && IsQuestion(t)
    ensures t in ForParty(p, facts, history).0 <==>
            NeededQuestion(p, facts, history.asked.To(p)) == Some(t) && (facts.Of(p).Some? || !history.Of(p).outstanding)
  {
    hide NothingNeeded, NeededQuestion, AskedAgain;
    AskedAgainIff(p, facts, history);
  }

  /** Outside a resend, a question is picked exactly when it is the documented
      one: of a party that wrote, unless it is asked again in simpler words,
      and of a silent one that owes no answer. */
  lemma QuestionIff(p: Party, facts: Facts, history: History, t: Template)
    requires !Pick(facts, history).Resend(p) && !AskedAgain(p, facts, history) && IsQuestion(t)
    ensures t in Pick(facts, history).To(p) <==>
            AsksFor(p, facts, history.asked, t) && (facts.Of(p).Some? || !history.Of(p).outstanding)
  {
    hide ForParty, NeededQuestion, AskedAgain, AsksFor, Pick;
    PickHas(p, facts, history, t);
    PartyQuestionIff(p, facts, history, t);
    NeededIff(p, facts, history.asked, t);
  }

  lemma AskedAgainIff(p: Party, facts: Facts, history: History)
    ensures AskedAgain(p, facts, history) <==>
            && facts.Of(p).Some? && facts.Of(p).value.kind.NotUnderstood?
            && history.Of(p).lastQuestion.Some?
            && var t := SimpleVariant(history.Of(p).lastQuestion.value);
               t.Some? && t.value !in history.asked.To(p)
  {
    if history.Of(p).lastQuestion.Some? && SimpleVariant(history.Of(p).lastQuestion.value).Some? {
      var q := history.Of(p).lastQuestion.value;
      assert Simpler(q, SimpleVariant(q).value);
    }
  }

  /** Nothing more is needed of a party: its fact is known, and so is what
      its answer leaves open. */
  predicate Settled(p: Party, facts: Facts) {
    match p
    case Buyer => (facts.buyerSent || facts.buyerNotSent) && (facts.buyerSent ==> facts.buyerHasDetails)
    case Seller =>
      && (facts.sellerReceived || facts.sellerNotReceived || facts.outsideScope)
      && (facts.sellerNotReceived ==> facts.sellerHasChecked)
  }

  lemma SettledIff(p: Party, facts: Facts, sent: set<Template>)
    ensures NothingNeeded(p, facts) <==> Settled(p, facts)
    ensures Settled(p, facts) ==> NeededQuestion(p, facts, sent).None?
  {
  }

  /** Outside a resend, a party is thanked exactly when it wrote, nothing is
      needed from it, it was not thanked yet, and it is not asked again. */
  lemma ThanksIff(p: Party, facts: Facts, history: History)
    requires !Pick(facts, history).Resend(p)
    ensures ThanksWaiting in Pick(facts, history).To(p) <==>
            && facts.Of(p).Some? && Settled(p, facts)
            && !history.asked.Sent(p, ThanksWaiting) && !AskedAgain(p, facts, history)
  {
    hide AskedAgain, NeededQuestion, NothingNeeded, Settled;
    AskedAgainIff(p, facts, history);
    SettledIff(p, facts, history.asked.To(p));
    NeededIsOwn(p, facts, history.asked.To(p));
  }
}

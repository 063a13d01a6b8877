/** The vocabulary shared by every part of the mediation model: parties,
    party templates, and the rows of the message and event logs. */
module Domain {

  datatype Option<+T> = None | Some(value: T)

  datatype Party = Buyer | Seller
  {
    function Other(): Party {
      if Buyer? then Seller else Buyer
    }
  }

  datatype Direction = In | Out

  /** The party templates a catalog defines. */
  datatype Template =
    | Intro
    | AskBuyerSent
    | AskBuyerSentSimple
    | AskBuyerDetails
    | AskSellerReceived
    | AskSellerReceivedSimple
    | AskSellerCheckAccount
    | WhatHappensNext
    | ThanksWaiting
    | WaitingOtherParty
    | Reminder
    | GuideArrivedSeller
    | GuideArrivedBuyer
    | GuideNotSentBuyer
    | GuideNotSentSeller
    | ResolvedThanks
    | HoldNotice
    | HandoffNotice

  /** Templates that ask a party for a fact. */
  predicate IsQuestion(t: Template) {
    t in {AskBuyerSent, AskBuyerSentSimple, AskBuyerDetails,
          AskSellerReceived, AskSellerReceivedSimple, AskSellerCheckAccount}
  }

  /** Templates that may go out again when a party's language changes. */
  predicate IsResendable(t: Template) {
    IsQuestion(t) || t in {WhatHappensNext, ThanksWaiting, WaitingOtherParty, Reminder}
  }

  function Resendable(t: Template): Option<Template> {
    if IsResendable(t) then Some(t) else None
  }

  function SimpleVariant(t: Template): Option<Template> {
    match t
    case AskBuyerSent => Some(AskBuyerSentSimple)
    case AskSellerReceived => Some(AskSellerReceivedSimple)
    case _ => None
  }

  /** The questions meant for each party. */
  function QuestionsFor(p: Party): set<Template> {
    match p
    case Buyer => {AskBuyerSent, AskBuyerSentSimple, AskBuyerDetails}
    case Seller => {AskSellerReceived, AskSellerReceivedSimple, AskSellerCheckAccount}
  }

  /** Each party's first question, sent when the session opens. */
  function Opener(p: Party): Template {
    match p
    case Buyer => AskBuyerSent
    case Seller => AskSellerReceived
  }

  type Language = string

  /** A stored message. Ids are row ids: unique and increasing in arrival
      order. An inbound `createdAt` comes from the party's own clock. */
  datatype Message = Message(id: nat, direction: Direction, party: Party,
                             template: Option<Template>, createdAt: int)

  predicate IsOut(m: Message, p: Party) {
    m.direction == Out && m.party == p
  }

  predicate IsIn(m: Message, p: Party) {
    m.direction == In && m.party == p
  }

  predicate IsOutTemplate(m: Message, p: Party, t: Template) {
    IsOut(m, p) && m.template == Some(t)
  }

  predicate IsOutQuestion(m: Message, p: Party) {
    IsOut(m, p) && m.template.Some? && IsQuestion(m.template.value)
  }

  /** A self-resolution path. */
  datatype Path = PaymentArrived | PaymentNotSent

  datatype Reason =
    | SelfResolutionStalled
    | FactsGathered
    | ConflictingClaims
    | FraudSignal
    | HumanRequested
    | OutsideScope
    | Unresponsive
    | RoundLimit
    | Uncertain
    | JudgeUnavailable
    | Flood
    | OpeningFailed

  datatype Phase = Gathering | GuidingPhase

  /** An ASCII digit or letter, by its code. */
  predicate IsAlphanumeric(c: char) {
    48 <= c as int <= 57 || 65 <= c as int <= 90 || 97 <= c as int <= 122
  }

  function Max(a: int, b: int): int {
    if a < b then b else a
  }

  function Min(a: int, b: int): int {
    if a < b then a else b
  }
}

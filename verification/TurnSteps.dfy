/** What the steps of a turn decide on the way (src/mediation/turn.rs): when
    it starts over or gives up, whose language changes, and what asking
    sends. */
module TurnSteps {
  import opened Domain
  import opened Next
  import opened Policy
  import opened MessageLog
  import opened EventLog
  import opened Sessions
  import opened Mediation
  import opened Effects
  import Views

  /** A turn begins with what its session needs: updates after a handoff,
      missing guidance first while guiding, and nothing while it opens or once
      it ended. */
  lemma TurnBegins(c: Config, s: Sys, o: Oracle)
    requires s.turn == [Load]
    ensures var after := Step(c, s, Run(TheTurn, o));
            && after == s.(turn := after.turn, wake := after.wake, ledger := after.ledger)
            && after.turn == (match s.row.state
                              case HandedOff => [Forward]
                              case Guiding => [ResendGuides, CheckFlood(s.row, |s.log|)]
                              case Active => [CheckFlood(s.row, |s.log|)]
                              case _ => [])
            && after.wake == (s.wake || (s.row.state == Opening && !o.ok))
  {
  }

  lemma JudgeAnswers(c: Config, s: Sys, session: Row, n: nat, o: Oracle)
    requires s.turn == [AskJudge(session, n)]
    ensures Step(c, s, Run(TheTurn, o)) ==
            s.(turn := if o.verdict == None then [HandOff(JudgeUnavailable)]
                       else [CheckNewer(session, n, o.verdict.value)])
  {
  }

  lemma NewerIs(log: seq<Message>, n: nat)
    requires Arrival(log) && n <= |log|
    ensures (exists m :: m in log && m.direction.In? && m.id > LastId(log[..n]))
            <==> exists i :: n <= i < |log| && log[i].direction == In
  {
    if m :| m in log && m.direction.In? && m.id > LastId(log[..n]) {
      var i :| 0 <= i < |log| && log[i] == m;
      assert n <= i && log[i].direction == In;
    }
    if i :| n <= i < |log| && log[i].direction == In {
      if n > 0 {
        assert log[n - 1].id < log[i].id;
      }
      assert log[i] in log && log[i].direction.In? && log[i].id > LastId(log[..n]);
    }
  }

  /** A message that arrived after the turn read sends it back: the judge's
      answer is dropped, and another turn is due. */
  lemma NewerIsJudgedLater(c: Config, s: Sys, session: Row, n: nat, facts: Facts, o: Oracle)
    requires s.turn == [CheckNewer(session, n, facts)] && Arrival(s.log) && n <= |s.log|
    ensures Step(c, s, Run(TheTurn, o)) ==
            if exists i :: n <= i < |s.log| && s.log[i].direction == In then s.(turn := [], wake := true)
            else s.(turn := [CheckMoved(session, n, facts)])
  {
    NewerIs(s.log, n);
  }

  /** A turn acts only in the state it read the session in. */
  lemma MovedOnIsDropped(c: Config, s: Sys, session: Row, n: nat, facts: Facts, o: Oracle)
    requires s.turn == [CheckMoved(session, n, facts)]
    ensures Step(c, s, Run(TheTurn, o)) ==
            s.(turn := if s.row.state == session.state then [UpdateLanguages(session, n, facts)] else [])
  {
  }

  /** The language detected for the party in this turn differs from the one it
      was addressed in. */
  predicate Switches(c: Config, session: Row, facts: Facts, p: Party) {
    match p
    case Buyer =>
      && facts.buyer.Some? && facts.buyer.value.language.Some?
      && facts.buyer.value.language
         != Some(if session.buyerLanguage.Some? then session.buyerLanguage.value else c.defaultLanguage)
    case Seller =>
      && facts.seller.Some? && facts.seller.value.language.Some?
      && facts.seller.value.language
         != Some(if session.sellerLanguage.Some? then session.sellerLanguage.value else c.defaultLanguage)
  }

  /** Each party that switches gets its own new language, and no other. */
  lemma LanguagesAre(c: Config, s: Sys, session: Row, n: nat, facts: Facts, o: Oracle)
    requires s.turn == [UpdateLanguages(session, n, facts)]
    ensures var after := Step(c, s, Run(TheTurn, o));
            && after == s.(row := after.row, turn := after.turn)
            && after.row == s.row.(updatedAt := after.row.updatedAt,
                                   buyerLanguage :=
                                     if Switches(c, session, facts, Buyer) then facts.buyer.value.language
                                     else s.row.buyerLanguage,
                                   sellerLanguage :=
                                     if Switches(c, session, facts, Seller) then facts.seller.value.language
                                     else s.row.sellerLanguage)
            && exists changed :: after.turn == [Reload(session, n, facts, changed)]
                                 && forall p :: p in changed <==> Switches(c, session, facts, p)
  {
    hide Step, Switches, Changes, WithLanguage;
    LanguagesStep(c, s, session, n, facts, o);
    RowSwitches(c, s.row, session, facts, s.now);
    var changed := set p: Party | Changes(c, session, facts, p);
    forall p: Party
      ensures p in changed <==> Switches(c, session, facts, p)
    {
      SwitchesIff(c, session, facts, p);
    }
  }

  lemma LanguagesStep(c: Config, s: Sys, session: Row, n: nat, facts: Facts, o: Oracle)
    requires s.turn == [UpdateLanguages(session, n, facts)]
    ensures Step(c, s, Run(TheTurn, o)) ==
            s.(row := WithLanguage(c, WithLanguage(c, s.row, session, facts, Buyer, s.now),
                                   session, facts, Seller, s.now),
               turn := [Reload(session, n, facts, set p: Party | Changes(c, session, facts, p))])
  {
    hide WithLanguage, Changes;
  }

  lemma RowSwitches(c: Config, row: Row, session: Row, facts: Facts, now: int)
    ensures var after := WithLanguage(c, WithLanguage(c, row, session, facts, Buyer, now), session, facts, Seller, now);
            after == row.(updatedAt := after.updatedAt,
                          buyerLanguage := if Switches(c, session, facts, Buyer) then facts.buyer.value.language
                                           else row.buyerLanguage,
                          sellerLanguage := if Switches(c, session, facts, Seller) then facts.seller.value.language
                                            else row.sellerLanguage)
  {
    hide Changes;
    SwitchesIff(c, session, facts, Buyer);
    SwitchesIff(c, session, facts, Seller);
  }

  lemma SwitchesIff(c: Config, session: Row, facts: Facts, p: Party)
    ensures Changes(c, session, facts, p) <==> Switches(c, session, facts, p)
    ensures Switches(c, session, facts, p) ==>
              && Detected(facts, p).Some?
              && Detected(facts, p) == (if p == Buyer then facts.buyer else facts.seller).value.language
  {
  }

  /** Only a party whose language switched in this turn is resent anything. */
  lemma ResendsNeedASwitch(facts: Facts, messages: seq<Message>, changed: set<Party>, p: Party)
    requires Pick(facts, HistoryRead(messages, changed)).Resend(p)
    ensures p in changed
  {
    hide Pick, Views.PartyHistoryOf;
    ResendIff(p, facts, HistoryRead(messages, changed));
  }

  // ----- what a decision is made from -----

  function Spoken(stored: Option<Language>, default: Language): Language {
    if stored.Some? then stored.value else default
  }

  /** The decision reads the facts, the phase the session was loaded in, its
      row as reloaded, the settings, and the messages the turn read: which
      templates each party was sent, whether it wrote, what it owes, and
      whether the session holds. */
  ghost predicate ReadFrom(c: Config, s: Sys, session: Row, messages: seq<Message>, facts: Facts, changed: set<Party>,
                           row: Row, turn: Turn, history: History) {
    && turn.facts == facts && (turn.phase == GuidingPhase <==> session.state == Guiding)
    && turn.buyerLanguage == Spoken(row.buyerLanguage, c.defaultLanguage)
    && turn.sellerLanguage == Spoken(row.sellerLanguage, c.defaultLanguage)
    && turn.validatedLanguages == c.validatedLanguages
    && turn.buyerRounds == row.buyerRounds && turn.sellerRounds == row.sellerRounds && turn.maxRounds == c.maxRounds
    && turn.next == Pick(facts, history) && turn.asked == history.asked
    && (forall p, t :: t in history.asked.To(p) <==> exists m :: m in messages && IsOutTemplate(m, p, t))
    && (forall p :: history.Of(p).languageChanged <==> p in changed)
    && (forall p :: history.Of(p).outstanding <==> Views.Owes(messages, p))
    && (turn.buyerHeard <==> exists m :: m in messages && IsIn(m, Buyer))
    && (turn.sellerHeard <==> exists m :: m in messages && IsIn(m, Seller))
    && (turn.held <==> CurrentHold(s.events, messages).Some?)
    && turn.handoffGrace == c.timeouts.handoffGrace
  }

  lemma SentToIs(messages: seq<Message>, p: Party, t: Template)
    ensures t in Views.SentTo(messages, p) <==> exists m :: m in messages && IsOutTemplate(m, p, t)
  {
    if m :| m in messages && IsOutTemplate(m, p, t) {
      assert m.template.value in Views.SentTo(messages, p);
    }
    if t in Views.SentTo(messages, p) {
      var m :| m in messages && IsOut(m, p) && m.template.Some? && m.template.value == t;
      assert IsOutTemplate(m, p, t);
    }
  }

  lemma SameHold(events: seq<Event>, a: seq<Message>, b: seq<Message>)
    requires forall m :: m in a <==> m in b
    ensures CurrentHold(events, a) == CurrentHold(events, b)
  {
    hide LatestHeld;
    assert forall cutoff :: AskedSince(a, cutoff) == AskedSince(b, cutoff);
  }

  lemma SameHeard(a: seq<Message>, b: seq<Message>, p: Party)
    requires forall m :: m in a <==> m in b
    ensures Views.Heard(a, p) <==> exists m :: m in b && IsIn(m, p)
  {
  }

  lemma JudgedReads(c: Config, s: Sys, session: Row, n: nat, facts: Facts, changed: set<Party>, row: Row)
    requires Arrival(s.log) && n <= |s.log|
    ensures var op := Judged(c, s, session, n, facts, changed, row);
            ReadFrom(c, s, session, s.log[..n], facts, changed, row, op.turn, op.history)
  {
    hide Listed, Pick, CurrentHold, IsOutTemplate, Arrival;
    hide Views.PartyHistoryOf, Views.AskedOf, Views.Heard, Views.Owes, Views.LastIndex;
    ArrivalPrefix(s.log, n);
    var messages := s.log[..n];
    var listed := Listed(messages);
    ListedElements(messages);
    SameHold(s.events, listed, messages);
    SameHeard(listed, messages, Buyer);
    SameHeard(listed, messages, Seller);
    Views.HistoryIsArrival(messages, listed, Buyer);
    Views.HistoryIsArrival(messages, listed, Seller);
    AskedReads(listed, messages);
  }

  lemma AskedReads(listed: seq<Message>, messages: seq<Message>)
    requires forall m :: m in listed <==> m in messages
    ensures forall p, t :: t in Views.AskedOf(listed).To(p) <==> exists m :: m in messages && IsOutTemplate(m, p, t)
  {
    hide Views.SentTo, IsOutTemplate;
    forall p: Party, t: Template
      ensures t in Views.AskedOf(listed).To(p) <==> exists m :: m in messages && IsOutTemplate(m, p, t)
    {
      SentToIs(listed, p, t);
      assert Views.AskedOf(listed).To(p) == Views.SentTo(listed, p);
    }
  }

  /** What a turn is about to record was read from this. */
  lemma DecisionReads(c: Config, s: Sys, session: Row, n: nat, facts: Facts, changed: set<Party>, row: Row, o: Oracle)
    requires s.turn == [ReadHold(session, n, facts, changed, row)] && Arrival(s.log) && n <= |s.log|
    ensures exists turn, history ::
              && Step(c, s, Run(TheTurn, o)) == s.(turn := [Record(n, turn, history)])
              && ReadFrom(c, s, session, s.log[..n], facts, changed, row, turn, history)
  {
    hide Judged, ReadFrom;
    JudgedReads(c, s, session, n, facts, changed, row);
    var op := Judged(c, s, session, n, facts, changed, row);
    assert Step(c, s, Run(TheTurn, o)) == s.(turn := [Record(n, op.turn, op.history)]);
  }

  // ----- asking -----

  lemma {:induction false} SendsInOrder(p: Party, ts: seq<Template>)
    ensures |Sends(p, ts)| == |ts|
    ensures forall i :: 0 <= i < |ts| ==> Sends(p, ts)[i] == Send(p, ts[i], WhileMediating, Abort)
  {
    if ts != [] {
      SendsInOrder(p, ts[1..]);
    }
  }

  /** The operations send the party its templates in their order, and then, if
      a question is among them, count its round. */
  predicate AsksInOrder(ops: seq<Op>, p: Party, ts: seq<Template>, asks: bool, firstInTurn: bool) {
    && |ops| == |ts| + (if asks && ts != [] then 1 else 0)
    && (forall i :: 0 <= i < |ts| ==> ops[i] == Send(p, ts[i], WhileMediating, Abort))
    && (asks && ts != [] ==> ops[|ts|] == CountRound(p, ts[|ts| - 1], firstInTurn))
  }

  lemma AskOpsInOrder(p: Party, ts: seq<Template>, asks: bool, firstInTurn: bool)
    ensures AsksInOrder(AskOps(p, ts, asks, firstInTurn), p, ts, asks, firstInTurn)
  {
    SendsInOrder(p, ts);
  }

  /** A decision to ask sends the buyer and then the seller everything picked,
      counting each round once its question was sent, and the turn's first
      round once. */
  lemma AskingIs(turn: Turn)
    requires Decide(turn).Ask?
    ensures exists buyer, seller ::
              && ActionOps(turn.next, Decide(turn)) == buyer + seller
              && AsksInOrder(buyer, Buyer, turn.next.buyer, turn.next.Asks(Buyer), true)
              && AsksInOrder(seller, Seller, turn.next.seller, turn.next.Asks(Seller), !turn.next.Asks(Buyer))
  {
    hide Decide, AsksInOrder, AskOps;
    AskCarriesThePick(turn);
    AskOpsInOrder(Buyer, turn.next.buyer, turn.next.Asks(Buyer), true);
    AskOpsInOrder(Seller, turn.next.seller, turn.next.Asks(Seller), !turn.next.Asks(Buyer));
    var buyer := AskOps(Buyer, turn.next.buyer, turn.next.Asks(Buyer), true);
    var seller := AskOps(Seller, turn.next.seller, turn.next.Asks(Seller), !turn.next.Asks(Buyer));
    assert ActionOps(turn.next, Decide(turn)) == buyer + seller;
  }
}

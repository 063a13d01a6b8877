/** Who is sent which guidance (src/mediation/guide.rs): in every run, each
    party gets the text of its own side of the path that the recorded decision
    explains, and nothing of the other path. */
module Guides {
  import opened Domain
  import opened Next
  import opened Policy
  import opened MessageLog
  import opened EventLog
  import opened Sessions
  import opened Mediation
  import opened Effects
  import opened Protocol
  import Timers
  import Turns
  import Runs

  /** The guidance the catalogs hold: which text goes to which party on which
      path. */
  predicate Explains(path: Path, p: Party, t: Template) {
    (path, p, t) in {
      (PaymentArrived, Seller, GuideArrivedSeller),
      (PaymentArrived, Buyer, GuideArrivedBuyer),
      (PaymentNotSent, Buyer, GuideNotSentBuyer),
      (PaymentNotSent, Seller, GuideNotSentSeller)}
  }

  /** A `guided` event recorded the path this text explains to this party. */
  ghost predicate Explained(events: seq<Event>, p: Party, t: Template) {
    exists e :: e in events && e.body.Guided? && Explains(e.body.path, p, t)
  }

  lemma ExplainedStays(events: seq<Event>, after: seq<Event>, p: Party, t: Template)
    requires events <= after && Explained(events, p, t)
    ensures Explained(after, p, t)
  {
    var e :| e in events && e.body.Guided? && Explains(e.body.path, p, t);
    assert e in after;
  }

  /** What an operation is about to send, and to whom. */
  function LetterOf(op: Op): Option<Letter> {
    match op
    case Send(p, t, _, _) => Some((p, t))
    case InFlight(p, t, _) => Some((p, t))
    case StoreRow(p, t, _) => Some((p, t))
    case TellGuide(p, t) => Some((p, t))
    case _ => None
  }

  predicate CarriesGuide(op: Op) {
    LetterOf(op).Some? && IsGuide(LetterOf(op).value.1)
  }

  ghost predicate Right(events: seq<Event>, op: Op) {
    CarriesGuide(op) ==> Explained(events, LetterOf(op).value.0, LetterOf(op).value.1)
  }

  ghost predicate AllRight(events: seq<Event>, ops: seq<Op>) {
    forall op :: op in ops ==> Right(events, op)
  }

  ghost predicate DecidedLast(evaluations: seq<Evaluation>, path: Path) {
    evaluations != [] && evaluations[|evaluations| - 1].action == Guide(path)
  }

  /** At most one path is ever explained, once the session guides. */
  ghost predicate OneGuidance(s: Sys) {
    && (forall i, j :: (0 <= i < |s.events| && 0 <= j < |s.events|
                        && s.events[i].body.Guided? && s.events[j].body.Guided?) ==> i == j)
    && (forall e :: e in s.events && e.body.Guided? ==> s.row.state.Rank() >= Guiding.Rank())
  }

  ghost predicate StoredRight(s: Sys) {
    forall m :: m in s.log && m.direction.Out? && m.template.Some? && IsGuide(m.template.value) ==>
                  Explained(s.events, m.party, m.template.value)
  }

  ghost predicate SentRight(s: Sys) {
    forall l :: l in s.ledger.sent && IsGuide(l.1) ==> Explained(s.events, l.0, l.1)
  }

  ghost predicate StartsRight(s: Sys) {
    forall path :: StartGuide(path) in s.turn ==> DecidedLast(s.evaluations, path)
  }

  ghost predicate GuidesOk(s: Sys) {
    && AllRight(s.events, s.opening) && AllRight(s.events, s.turn) && AllRight(s.events, s.tick)
    && StoredRight(s) && SentRight(s) && StartsRight(s) && OneGuidance(s)
  }

  // ----- what an operation leaves to do -----

  /** The guidance is the one of the recorded path. */
  lemma GuideOpsExplain(path: Path)
    ensures forall op :: op in GuideOps(path) ==> op.TellGuide? && Explains(path, op.party, op.template)
  {
  }

  /** `resend_guides` reads the path of the last `guided` event. */
  lemma LastGuidedIs(events: seq<Event>)
    ensures LastGuided(events).Some? ==> exists e :: e in events && e.body == Guided(LastGuided(events).value)
    ensures LastGuided(events).None? ==> forall e :: e in events ==> !e.body.Guided?
  {
    if events != [] {
      var n := |events| - 1;
      LastGuidedIs(events[..n]);
      assert events == events[..n] + [events[n]];
      assert events[n] in events;
    }
  }

  predicate NoGuides(ops: seq<Op>) {
    forall op :: op in ops ==> !CarriesGuide(op)
  }

  /** Sending and handing off carry on what was carried, and only a resend
      adds guidance: that of the recorded path. */
  lemma SharedLeaves(s: Sys, a: Actor, op: Op, rest: seq<Op>, o: Oracle, x: Op)
    requires x in RunSharedOp(s, a, op, rest, o).1 && CarriesGuide(x)
    ensures || x in rest
            || (CarriesGuide(op) && LetterOf(x) == LetterOf(op))
            || (op.ResendGuides? && LastGuided(s.events).Some? && x in GuideOps(LastGuided(s.events).value))
  {
    hide GuideOps, LastGuided;
    ToRetryKeeps(rest);
  }

  lemma AskingSendsNoGuides(next: NextQuestions, p: Party, asks: bool, first: bool)
    requires NextShape(next)
    ensures NoGuides(AskOps(p, next.To(p), asks, first))
  {
    var ts := next.To(p);
    SendsAre(p, ts);
    forall op | op in Sends(p, ts)
      ensures !CarriesGuide(op)
    {
      var i :| 0 <= i < |ts| && ts[i] == op.template;
      assert OwnOrCourtesy(p, ts[i]);
    }
  }

  lemma ActingSendsNoGuides(turn: Turn)
    requires NextShape(turn.next)
    ensures NoGuides(ActionOps(turn.next, Decide(turn)))
    ensures forall path :: StartGuide(path) in ActionOps(turn.next, Decide(turn)) ==> Decide(turn) == Guide(path)
  {
    hide Decide, NextShape;
    if Decide(turn).Ask? {
      AskCarriesThePick(turn);
      AskingSendsNoGuides(turn.next, Buyer, turn.next.Asks(Buyer), true);
      AskingSendsNoGuides(turn.next, Seller, turn.next.Asks(Seller), !turn.next.Asks(Buyer));
      SendsAre(Buyer, turn.next.To(Buyer));
      SendsAre(Seller, turn.next.To(Seller));
    }
  }

  /** A turn adds guidance only where it records the path. */
  lemma TurnLeaves(c: Config, s: Sys, op: Op, rest: seq<Op>, o: Oracle, x: Op)
    requires op.Record? ==> NextShape(op.turn.next)
    requires x in RunTurnOp(c, s, op, rest, o).1
    ensures CarriesGuide(x) ==> x in rest || (op.StartGuide? && s.row.state.Active? && x in GuideOps(op.path))
    ensures x.StartGuide? ==> x in rest || (op.Record? && Decide(op.turn) == Guide(x.path))
  {
    hide Judged, Listed, Unseen, Strikes, Floods, NextShape, ActionOps, OnlyCourtesy, Decide, InboundIds;
    GuideOpsAreTold();
    if op.Record? {
      ActingSendsNoGuides(op.turn);
    }
  }

  lemma GuideOpsAreTold()
    ensures forall path, op :: op in GuideOps(path) ==> op.TellGuide?
  {
  }

  lemma RetryingSendsNoGuides(c: Config, s: Sys, session: Row)
    ensures NoGuides(RetryOps(c, s, session))
  {
    PendingBriefsAre(s.events, s.events);
  }

  lemma TimersSendNoGuides(timer: Timers.Timer)
    ensures NoGuides(TimerOps(timer))
  {
    if timer.Remind? {
      RemindersAre(timer.parties);
    }
  }

  lemma TickLeaves(c: Config, s: Sys, op: Op, rest: seq<Op>, o: Oracle, x: Op)
    requires x in RunTickOp(c, s, op, rest, o).1 && CarriesGuide(x)
    ensures x in rest
  {
    hide RetryOps, TimerOps, ClocksRead, Timers.Check;
    match op
    case ReadClocks(session) =>
      TimersSendNoGuides(Timers.Check(ClocksRead(session, Listed(s.log), s.events, s.now), c.timeouts));
    case Retry(session) => RetryingSendsNoGuides(c, s, session);
    case _ =>
  }

  // ----- every step -----

  lemma NoOtherStarts(s: Sys, a: Actor, op: Op, rest: seq<Op>, o: Oracle, x: Op)
    requires x in RunSharedOp(s, a, op, rest, o).1 && x.StartGuide?
    ensures x in rest
  {
    hide LastGuided;
    ToRetryKeeps(rest);
  }

  /** Only the start of guidance records a path, its own, as its first event. */
  lemma GuidedByStart(s: Sys, a: Actor, op: Op, o: Oracle, e: Effect)
    requires EffectAllowed(s, a, op, o, e) && e.Append?
    ensures forall i :: 0 <= i < |e.bodies| && e.bodies[i].Guided? ==>
              i == 0 && op == StartGuide(e.bodies[i].path) && s.row.state.Active? && e.row.state.Guiding?
  {
  }

  /** The `guided` event of a step is the decided path's, and the first. */
  lemma NewGuidance(s: Sys, a: Actor, op: Op, o: Oracle, e: Effect)
    requires EffectAllowed(s, a, op, o, e)
    ensures var events := Apply(s, e, o).events;
            && s.events <= events
            && (forall i :: |s.events| <= i < |events| && events[i].body.Guided? ==>
                  && i == |s.events| && op == StartGuide(events[i].body.path) && s.row.state.Active?
                  && Apply(s, e, o).row.state.Guiding?)
  {
    hide Apply, NotedAll, Noted, EffectAllowed, LedgerAfter;
    ApplyIs(s, e, o);
    var events := Apply(s, e, o).events;
    if e.Append? {
      AppendIs(s, e, o);
      NotedAllBodies(s.(row := e.row), e.bodies, o.at, o.gap);
      GuidedByStart(s, a, op, o, e);
      forall i | |s.events| <= i < |events| && events[i].body.Guided?
        ensures i == |s.events| && op == StartGuide(events[i].body.path)
      {
        assert events[|s.events| + (i - |s.events|)].body == e.bodies[i - |s.events|];
      }
      if |events| > |s.events| && events[|s.events|].body.Guided? {
        assert events[|s.events| + 0].body == e.bodies[0];
      }
    } else if e.BeginHold? {
      BeginHoldIsNotedAll(s, o);
      NotedAllBodies(s, [Held(LastId(s.log))], s.now, o.gap);
      assert events[|s.events| + 0].body == [Held(LastId(s.log))][0];
    }
  }

  lemma AllStaysRight(events: seq<Event>, after: seq<Event>, ops: seq<Op>)
    requires events <= after && AllRight(events, ops)
    ensures AllRight(after, ops)
  {
    forall op | op in ops && CarriesGuide(op)
      ensures Right(after, op)
    {
      ExplainedStays(events, after, LetterOf(op).value.0, LetterOf(op).value.1);
    }
  }

  /** A recorded path explains what the code then tells. */
  lemma RecordedIsRight(events: seq<Event>, path: Path, x: Op)
    requires x in GuideOps(path) && exists e :: e in events && e.body == Guided(path)
    ensures Right(events, x)
  {
    hide GuideOps;
    GuideOpsExplain(path);
    var e :| e in events && e.body == Guided(path);
    assert Explains(e.body.path, x.party, x.template);
  }

  lemma StartedIsRecorded(c: Config, s: Sys, op: Op, rest: seq<Op>, o: Oracle)
    requires op.StartGuide? && s.row.state.Active?
    ensures exists e :: e in Apply(s, RunOp(c, s, TheTurn, op, rest, o).0, o).events && e.body == Guided(op.path)
    ensures RunOp(c, s, TheTurn, op, rest, o).1 == [Brief(PendingId(s, o))] + GuideOps(op.path) + rest
  {
    hide Apply, NotedAll, GuideOps;
    var e := RunOp(c, s, TheTurn, op, rest, o).0;
    AppendIs(s, e, o);
    NotedAllBodies(s.(row := e.row), e.bodies, o.at, o.gap);
    var events := Apply(s, e, o).events;
    assert events[|s.events| + 0].body == e.bodies[0];
    assert events[|s.events|] in events;
  }

  lemma LeftIsRight(c: Config, s: Sys, a: Actor, op: Op, rest: seq<Op>, o: Oracle)
    requires Shapes(s) && op in OpsOf(s, a) && AllRight(s.events, [op] + rest)
    requires s.events <= Apply(s, RunOp(c, s, a, op, rest, o).0, o).events
    ensures AllRight(Apply(s, RunOp(c, s, a, op, rest, o).0, o).events, RunOp(c, s, a, op, rest, o).1)
  {
    hide RunSharedOp, RunTurnOp, RunTickOp, Apply, GuideOps, LastGuided, Explained, TurnMay, TickMay, NextShape;
    var after := Apply(s, RunOp(c, s, a, op, rest, o).0, o).events;
    forall x | x in RunOp(c, s, a, op, rest, o).1 && CarriesGuide(x)
      ensures Right(after, x)
    {
      AllStaysRight(s.events, after, [op] + rest);
      assert op in [op] + rest && forall y :: y in rest ==> y in [op] + rest;
      if IsShared(op) {
        SharedLeaves(s, a, op, rest, o, x);
        if op.ResendGuides? && LastGuided(s.events).Some? && x in GuideOps(LastGuided(s.events).value) {
          LastGuidedIs(s.events);
          RecordedIsRight(s.events, LastGuided(s.events).value, x);
          AllStaysRight(s.events, after, [x]);
          assert x in [x];
        }
      } else if a.TheTurn? {
        RecordedShape(s, op);
        TurnLeaves(c, s, op, rest, o, x);
        if op.StartGuide? && s.row.state.Active? && x in GuideOps(op.path) {
          StartedIsRecorded(c, s, op, rest, o);
          RecordedIsRight(after, op.path, x);
        }
      } else if a.TheTick? {
        TickLeaves(c, s, op, rest, o, x);
      } else {
        OpeningLeaves(s, op, rest, x);
      }
    }
  }

  lemma RecordedShape(s: Sys, op: Op)
    requires Shapes(s) && op in s.turn
    ensures op.Record? ==> NextShape(op.turn.next)
  {
  }

  lemma OpeningLeaves(s: Sys, op: Op, rest: seq<Op>, x: Op)
    requires x in RunOpeningOp(s, op, rest).1
    ensures x in rest
  {
  }

  /** Only what an operation carried is stored, or taken by a relay. */
  lemma CarriedOnly(s: Sys, a: Actor, op: Op, o: Oracle, e: Effect)
    requires EffectAllowed(s, a, op, o, e)
    ensures e.StoreOut? || e.RelayTook? ==> LetterOf(op) == Some((e.party, e.template))
  {
  }

  lemma StoresStayRight(s: Sys, a: Actor, op: Op, o: Oracle, e: Effect)
    requires StoredRight(s) && Right(s.events, op) && EffectAllowed(s, a, op, o, e)
    requires s.events <= Apply(s, e, o).events
    ensures StoredRight(Apply(s, e, o))
  {
    hide Apply, Explained, EffectAllowed, RowAfter, LedgerAfter;
    var after := Apply(s, e, o);
    ApplyIs(s, e, o);
    CarriedOnly(s, a, op, o, e);
    forall m | m in after.log && m.direction.Out? && m.template.Some? && IsGuide(m.template.value)
      ensures Explained(after.events, m.party, m.template.value)
    {
      assert m in s.log || m == after.log[|s.log|];
      ExplainedStays(s.events, after.events, m.party, m.template.value);
    }
  }

  lemma SendsStayRight(s: Sys, a: Actor, op: Op, o: Oracle, e: Effect)
    requires SentRight(s) && Right(s.events, op) && EffectAllowed(s, a, op, o, e)
    requires s.events <= Apply(s, e, o).events
    ensures SentRight(Apply(s, e, o))
  {
    hide Apply, Explained, EffectAllowed, RowAfter;
    var after := Apply(s, e, o);
    ApplyIs(s, e, o);
    CarriedOnly(s, a, op, o, e);
    forall l | l in after.ledger.sent && IsGuide(l.1)
      ensures Explained(after.events, l.0, l.1)
    {
      assert l in s.ledger.sent || (e.RelayTook? && l == (e.party, e.template));
      ExplainedStays(s.events, after.events, l.0, l.1);
    }
  }

  lemma StartsStayRight(c: Config, s: Sys, a: Actor, op: Op, rest: seq<Op>, o: Oracle)
    requires Shapes(s) && StartsRight(s) && OpsOf(s, a) == [op] + rest
    ensures StartsRight(Step(c, s, Run(a, o)))
  {
    hide RunOp, Apply, Decide, TurnMay, TickMay, NextShape;
    var (e, left) := RunOp(c, s, a, op, rest, o);
    var after := Step(c, s, Run(a, o));
    assert OpsOf(s, a)[0] == op && OpsOf(s, a)[1..] == rest && op in OpsOf(s, a);
    RunIs(c, s, a, o);
    RunEffects(c, s, a, op, rest, o);
    ApplyIs(s, e, o);
    forall path | StartGuide(path) in after.turn
      ensures DecidedLast(after.evaluations, path)
    {
      if a.TheTurn? {
        LeftStarts(c, s, op, rest, o, StartGuide(path));
      }
    }
  }

  lemma LeftStarts(c: Config, s: Sys, op: Op, rest: seq<Op>, o: Oracle, x: Op)
    requires Shapes(s) && op in s.turn && x.StartGuide? && x in RunOp(c, s, TheTurn, op, rest, o).1
    ensures var after := Apply(s, RunOp(c, s, TheTurn, op, rest, o).0, o);
            || (x in rest && after.evaluations == s.evaluations)
            || DecidedLast(after.evaluations, x.path)
  {
    hide RunSharedOp, Decide, TurnMay, Judged, ActionOps, GuideOps, LastGuided, Listed, Unseen, Strikes, Floods, NotedAll;
    hide Noted, OnlyCourtesy, InboundIds, NextShape, RowAfter, LedgerAfter, Stored, Apply;
    RecordedShape(s, op);
    RunEffects(c, s, TheTurn, op, rest, o);
    ApplyIs(s, RunOp(c, s, TheTurn, op, rest, o).0, o);
    if IsShared(op) {
      NoOtherStarts(s, TheTurn, op, rest, o, x);
    } else if op.Record? {
      RecordsDecision(c, s, op, rest, o);
      ActingSendsNoGuides(op.turn);
    } else {
      TurnLeaves(c, s, op, rest, o, x);
    }
  }

  lemma RecordsDecision(c: Config, s: Sys, op: Op, rest: seq<Op>, o: Oracle)
    requires op.Record?
    ensures DecisionRecorded(s, op, Apply(s, RunOp(c, s, TheTurn, op, rest, o).0, o))
    ensures RunOp(c, s, TheTurn, op, rest, o).1 == ActionOps(op.turn.next, Decide(op.turn))
  {
    hide Decide, ActionOps, OnlyCourtesy;
  }

  predicate DecisionRecorded(s: Sys, op: Op, after: Sys)
    requires op.Record?
  {
    after.evaluations == s.evaluations + [Evaluation(LastId(Prefix(s.log, op.n)), Decide(op.turn))]
  }

  lemma GuidedOnce(s: Sys, a: Actor, op: Op, o: Oracle, e: Effect)
    requires OneGuidance(s) && RowOk(s.row) && (op.Activate? ==> s.row.state.Opening? || s.row.state.Terminal())
    requires EffectAllowed(s, a, op, o, e)
    ensures OneGuidance(Apply(s, e, o))
  {
    hide Apply, EffectAllowed, RowAfter, LedgerAfter;
    var after := Apply(s, e, o);
    NewGuidance(s, a, op, o, e);
    EffectMovesRow(s, a, op, o, e);
    ApplyIs(s, e, o);
    forall i | 0 <= i < |after.events| && after.events[i].body.Guided?
      ensures i < |s.events| ==> after.events[i] == s.events[i] && s.events[i] in s.events
    {
    }
  }

  lemma ActorKeepsGuides(c: Config, s: Sys, a: Actor, o: Oracle)
    requires ProtocolOk(s) && GuidesOk(s) && OpsOf(s, a) != []
    ensures GuidesOk(Step(c, s, Run(a, o)))
  {
    hide RunOp, Apply, Step, StoredRight, SentRight, StartsRight, OneGuidance, AllRight, Right, EffectAllowed, Shapes;
    hide StillOpening, SentOwn, Logs, OpenerSent;
    var op, rest := OpsOf(s, a)[0], OpsOf(s, a)[1..];
    var e := RunOp(c, s, a, op, rest, o).0;
    assert OpsOf(s, a) == [op] + rest && op in OpsOf(s, a);
    RunIs(c, s, a, o);
    RunEffects(c, s, a, op, rest, o);
    LogsGrow(s, e, o);
    ApplyIs(s, e, o);
    if !a.TheOpening? {
      NotActivating(s, a, op);
    }
    FirstIsRight(s.events, op, rest);
    LeftIsRight(c, s, a, op, rest, o);
    StoresStayRight(s, a, op, o, e);
    SendsStayRight(s, a, op, o, e);
    StartsStayRight(c, s, a, op, rest, o);
    GuidedOnce(s, a, op, o, e);
    var after := Step(c, s, Run(a, o));
    AllStaysRight(s.events, after.events, s.opening);
    AllStaysRight(s.events, after.events, s.turn);
    AllStaysRight(s.events, after.events, s.tick);
    SameGuidance(Apply(s, e, o), after);
  }

  lemma LogsGrow(s: Sys, e: Effect, o: Oracle)
    requires ProtocolOk(s)
    ensures s.events <= Apply(s, e, o).events
  {
    hide Apply;
    ApplyKeepsLogs(s, e, o);
  }

  lemma FirstIsRight(events: seq<Event>, op: Op, rest: seq<Op>)
    requires AllRight(events, [op] + rest)
    ensures Right(events, op)
  {
    assert op in [op] + rest;
  }

  lemma SameGuidance(s: Sys, after: Sys)
    requires after.events == s.events && after.log == s.log && after.row == s.row && after.ledger.sent == s.ledger.sent
    ensures OneGuidance(s) ==> OneGuidance(after)
    ensures StoredRight(s) ==> StoredRight(after)
    ensures SentRight(s) ==> SentRight(after)
  {
  }

  lemma OthersKeepGuides(c: Config, s: Sys, m: Move)
    requires GuidesOk(s) && !m.Run?
    ensures GuidesOk(Step(c, s, m))
  {
    hide GuidesOk;
    match m
    case Receive(p, createdAt, gap) =>
      StoredIs(s, p, createdAt, gap);
      ReceivingKeepsGuides(s, Message(LastId(s.log) + 1 + gap, In, p, None, createdAt), Step(c, s, m));
    case Supersede(at, gap) => EndingKeepsGuides(s, Superseded, at, gap);
    case Close(at, gap) => EndingKeepsGuides(s, Closed, at, gap);
    case _ => SameKeepsGuides(s, Step(c, s, m));
  }

  /** Nothing new is planned, recorded, stored or sent. */
  lemma SameKeepsGuides(s: Sys, after: Sys)
    requires GuidesOk(s) && after.events == s.events && after.log == s.log && after.row == s.row
    requires after.ledger.sent == s.ledger.sent && after.evaluations == s.evaluations
    requires after.opening == s.opening || after.opening == []
    requires after.turn in {s.turn, [], [Load]} && after.tick in {s.tick, [], [ListSession]}
    ensures GuidesOk(after)
  {
    hide Explained;
    SameGuidance(s, after);
  }

  lemma ReceivingKeepsGuides(s: Sys, m: Message, after: Sys)
    requires GuidesOk(s) && m.direction.In? && after == s.(log := s.log + [m], wake := true)
    ensures GuidesOk(after)
  {
    hide Explained;
  }

  lemma EndingKeepsGuides(s: Sys, state: State, at: int, gap: nat)
    requires GuidesOk(s) && state.Terminal()
    ensures GuidesOk(Ended(s, state, at, gap))
  {
    hide Explained, AllRight;
    if !s.row.state.Terminal() {
      var after := Ended(s, state, at, gap);
      AllStaysRight(s.events, after.events, s.opening);
      AllStaysRight(s.events, after.events, s.turn);
      AllStaysRight(s.events, after.events, s.tick);
      forall p: Party, t: Template | Explained(s.events, p, t)
        ensures Explained(after.events, p, t)
      {
        ExplainedStays(s.events, after.events, p, t);
      }
    }
  }

  lemma StepKeepsGuides(c: Config, s: Sys, m: Move)
    requires ProtocolOk(s) && GuidesOk(s)
    ensures GuidesOk(Step(c, s, m))
  {
    hide Step, GuidesOk, ProtocolOk;
    if !m.Run? {
      OthersKeepGuides(c, s, m);
    } else if OpsOf(s, m.actor) == [] {
      NothingToRun(c, s, m);
    } else {
      ActorKeepsGuides(c, s, m.actor, m.oracle);
    }
  }

  lemma {:induction false} RunsGuideRight(c: Config, dispute: string, now: int, moves: seq<Move>)
    ensures GuidesOk(Exec(c, Initial(dispute, now), moves))
  {
    hide Step, ProtocolOk;
    if moves != [] {
      var before := moves[..|moves| - 1];
      RunsGuideRight(c, dispute, now, before);
      RunsAreOk(c, dispute, now, before);
      hide GuidesOk;
      StepKeepsGuides(c, Exec(c, Initial(dispute, now), before), moves[|moves| - 1]);
    }
  }

  // ----- what the parties are told -----

  /** In every run, at most one path is ever explained; and each guidance a
      relay took for a party, or that is stored as sent to it, is the party's
      own text of that path. */
  lemma {:induction false} GuidanceFitsThePath(c: Config, dispute: string, now: int, moves: seq<Move>)
    ensures var s := Exec(c, Initial(dispute, now), moves);
            && (forall i, j :: (0 <= i < |s.events| && 0 <= j < |s.events|
                                && s.events[i].body.Guided? && s.events[j].body.Guided?) ==> i == j)
            && (forall m :: m in s.log && m.direction.Out? && m.template.Some? && IsGuide(m.template.value) ==>
                  exists e :: e in s.events && e.body.Guided? && Explains(e.body.path, m.party, m.template.value))
            && (forall l :: l in s.ledger.sent && IsGuide(l.1) ==>
                  exists e :: e in s.events && e.body.Guided? && Explains(e.body.path, l.0, l.1))
  {
    hide Exec;
    RunsGuideRight(c, dispute, now, moves);
    var s := Exec(c, Initial(dispute, now), moves);
    forall m | m in s.log && m.direction.Out? && m.template.Some? && IsGuide(m.template.value)
      ensures exists e :: e in s.events && e.body.Guided? && Explains(e.body.path, m.party, m.template.value)
    {
      assert Explained(s.events, m.party, m.template.value);
    }
    forall l | l in s.ledger.sent && IsGuide(l.1)
      ensures exists e :: e in s.events && e.body.Guided? && Explains(e.body.path, l.0, l.1)
    {
      assert Explained(s.events, l.0, l.1);
    }
  }

  lemma OthersGuideNothing(c: Config, s: Sys, m: Move, i: nat)
    requires !m.Run? && |s.events| <= i < |Step(c, s, m).events|
    ensures !Step(c, s, m).events[i].body.Guided?
  {
  }

  /** The path a run records is the one the last judged turn decided, while
      the session was still gathering. */
  lemma {:induction false} GuidanceIsDecided(c: Config, dispute: string, now: int, moves: seq<Move>, m: Move, i: nat)
    requires var s := Exec(c, Initial(dispute, now), moves);
             |s.events| <= i < |Step(c, s, m).events| && Step(c, s, m).events[i].body.Guided?
    ensures var s := Exec(c, Initial(dispute, now), moves);
            && s.row.state.Active? && s.evaluations != []
            && s.evaluations[|s.evaluations| - 1].action == Guide(Step(c, s, m).events[i].body.path)
  {
    hide Exec, RunOp, Apply, ProtocolOk, RowAfter, LedgerAfter, EffectAllowed, Ended, Stored;
    var s := Exec(c, Initial(dispute, now), moves);
    RunsGuideRight(c, dispute, now, moves);
    RunsAreOk(c, dispute, now, moves);
    if !m.Run? {
      OthersGuideNothing(c, s, m, i);
    } else {
      var op, rest := OpsOf(s, m.actor)[0], OpsOf(s, m.actor)[1..];
      RunEffects(c, s, m.actor, op, rest, m.oracle);
      NewGuidance(s, m.actor, op, m.oracle, RunOp(c, s, m.actor, op, rest, m.oracle).0);
      assert op in OpsOf(s, m.actor);
      OnlyTurnsGuide(s, m.actor, op);
    }
  }

  lemma OnlyTurnsGuide(s: Sys, a: Actor, op: Op)
    requires ProtocolOk(s) && op in OpsOf(s, a) && op.StartGuide?
    ensures a.TheTurn?
  {
  }

  /** Both texts of the path are next, the acting party's first. */
  predicate TellsBoth(ops: seq<Op>, path: Path) {
    && |ops| >= 2
    && match path
       case PaymentArrived =>
         ops[0] == TellGuide(Seller, GuideArrivedSeller) && ops[1] == TellGuide(Buyer, GuideArrivedBuyer)
       case PaymentNotSent =>
         ops[0] == TellGuide(Buyer, GuideNotSentBuyer) && ops[1] == TellGuide(Seller, GuideNotSentSeller)
  }

  /** Once guidance is decided, the turn starts it. */
  lemma DecidedGuidanceStarts(c: Config, s: Sys, op: Op, o: Oracle)
    requires s.turn == [op] && op.Record? && Decide(op.turn).Guide?
    ensures Step(c, s, Run(TheTurn, o)).turn == [StartGuide(Decide(op.turn).path)]
  {
    hide Decide, OnlyCourtesy;
  }

  /** An active session that starts guidance records the path, and has both
      texts ahead, after the solvers' brief. */
  lemma GuidanceIsAhead(c: Config, s: Sys, path: Path, o: Oracle)
    requires s.turn == [StartGuide(path)] && s.row.state.Active?
    ensures var after := Step(c, s, Run(TheTurn, o));
            && after.row.state.Guiding? && after.log == s.log && after.now == s.now
            && |after.turn| == 3 && after.turn[0].Brief? && TellsBoth(after.turn[1..], path)
            && |after.events| == |s.events| + 2 && after.events[|s.events|].body == Guided(path)
  {
    hide Step, RunOp, Apply, NotedAll, GuideOps;
    assert s.turn[1..] == [] && s.turn[0] == StartGuide(path);
    var e := RunOp(c, s, TheTurn, StartGuide(path), [], o).0;
    RunIs(c, s, TheTurn, o);
    StartingIs(c, s, path, o);
    AppendIs(s, e, o);
    ApplyIs(s, e, o);
    NotedAllBodies(s.(row := e.row), e.bodies, o.at, o.gap);
    assert Apply(s, e, o).events[|s.events| + 0].body == e.bodies[0];
  }

  lemma StartingIs(c: Config, s: Sys, path: Path, o: Oracle)
    requires s.row.state.Active?
    ensures var (e, left) := RunOp(c, s, TheTurn, StartGuide(path), [], o);
            && e == Append(StartGuidingRow(s.row, s.now), [Guided(path), BriefPending(AboutGuide)])
            && |left| == 3 && left[0].Brief? && TellsBoth(left[1..], path)
  {
  }

  /** What was not sent then is sent again for the recorded path. */
  lemma {:induction false} ResendsTheRecordedPath(c: Config, dispute: string, now: int, moves: seq<Move>, a: Actor,
                                                  o: Oracle, e: Event)
    requires var s := Exec(c, Initial(dispute, now), moves);
             OpsOf(s, a) != [] && OpsOf(s, a)[0].ResendGuides? && e in s.events && e.body.Guided?
    ensures TellsBoth(OpsOf(Step(c, Exec(c, Initial(dispute, now), moves), Run(a, o)), a), e.body.path)
  {
    hide Exec, Explained, AllRight, Apply, LastGuided;
    var s := Exec(c, Initial(dispute, now), moves);
    RunsGuideRight(c, dispute, now, moves);
    LastGuidedIs(s.events);
    SamePath(s, e);
  }

  lemma SamePath(s: Sys, e: Event)
    requires OneGuidance(s) && e in s.events && e.body.Guided? && LastGuided(s.events).Some?
    ensures LastGuided(s.events) == Some(e.body.path)
  {
    LastGuidedIs(s.events);
    var x :| x in s.events && x.body == Guided(LastGuided(s.events).value);
    var i :| 0 <= i < |s.events| && s.events[i] == e;
    var j :| 0 <= j < |s.events| && s.events[j] == x;
  }

  // ----- both parties receive it -----

  lemma GuideIsStored(c: Config, s: Sys, p: Party, t: Template, rest: seq<Op>, o: Oracle)
    requires s.turn == [StoreRow(p, t, Skip)] + rest && o.ok && IsGuide(t)
    ensures Step(c, s, Run(TheTurn, o)) ==
            s.(log := s.log + [Message(LastId(s.log) + 1 + o.gap, Out, p, Some(t), Min(o.at, s.now))], turn := rest)
  {
    assert s.turn[1..] == rest && s.turn[0] == StoreRow(p, t, Skip);
  }

  lemma TellStep(c: Config, s: Sys, p: Party, t: Template, rest: seq<Op>, o: Oracle)
    requires s.turn == [TellGuide(p, t)] + rest && !ReceivedEver(s.log, p, t)
    ensures Step(c, s, Run(TheTurn, o)) == s.(turn := [Send(p, t, WhileMediating, Skip)] + rest)
  {
    hide ReceivedEver;
    assert s.turn[1..] == rest && s.turn[0] == TellGuide(p, t);
  }

  /** A party that was not told yet is told. */
  lemma {:induction false} PartyIsTold(c: Config, s: Sys, p: Party, t: Template, rest: seq<Op>)
    requires s.turn == [TellGuide(p, t)] + rest && !ReceivedEver(s.log, p, t) && s.row.state.Guiding? && IsGuide(t)
    ensures var go := Runs.Goes(TheTurn, s.now);
            Exec(c, s, [go, go] + [go, go]) ==
            Runs.SentAndStored(s, p, t).(turn := rest)
  {
    hide Step, ReceivedEver, Exec;
    var go := Runs.Goes(TheTurn, s.now);
    Runs.TwoSteps(c, s, go, go);
    TellStep(c, s, p, t, rest, go.oracle);
    var sending := s.(turn := [Send(p, t, WhileMediating, Skip)] + rest);
    Runs.SendPasses(c, sending, TheTurn, p, t, WhileMediating, Skip, rest, go.oracle);
    var flying := s.(turn := [InFlight(p, t, Skip)] + rest);
    Runs.ExecAppend(c, s, [go, go], [go, go]);
    Runs.TwoSteps(c, flying, go, go);
    Runs.RelayTakes(c, flying, TheTurn, p, t, Skip, rest, go.oracle);
    var taken := Runs.Taken(flying, p, t).(turn := [StoreRow(p, t, Skip)] + rest);
    GuideIsStored(c, taken, p, t, rest, go.oracle);
  }

  /** The session just guided, with the brief to deliver. */
  lemma Starts(c: Config, s: Sys, path: Path)
    requires s.turn == [StartGuide(path)] && s.row.state.Active?
    ensures var go := Runs.Goes(TheTurn, s.now);
            var after := Exec(c, s, [go, go, Runs.Fails(TheTurn)]);
            && after.row.state.Guiding? && after.log == s.log && after.now == s.now
            && |after.turn| == 2 && TellsBoth(after.turn, path)
  {
    hide Exec, Step, Apply;
    var go := Runs.Goes(TheTurn, s.now);
    Runs.ThreeSteps(c, s, go, go, Runs.Fails(TheTurn));
    GuidanceIsAhead(c, s, path, go.oracle);
    var guided := Step(c, s, go);
    BriefFails(c, guided);
  }

  /** No solver receives the brief: it stays pending. */
  lemma BriefFails(c: Config, s: Sys)
    requires s.turn != [] && s.turn[0].Brief?
    ensures Step(c, Step(c, s, Runs.Goes(TheTurn, s.now)), Runs.Fails(TheTurn)) == s.(turn := s.turn[1..])
  {
    hide Step;
    var rest := s.turn[1..];
    assert s.turn == [s.turn[0]] + rest;
    BriefStarts(c, s, s.turn[0], rest, Runs.Goes(TheTurn, s.now).oracle);
    BriefEnds(c, s.(turn := [Briefed(s.turn[0].pending, |s.log|)] + rest), rest, Runs.Fails(TheTurn).oracle);
  }

  lemma BriefStarts(c: Config, s: Sys, op: Op, rest: seq<Op>, o: Oracle)
    requires s.turn == [op] + rest && op.Brief?
    ensures Step(c, s, Run(TheTurn, o)) == s.(turn := [Briefed(op.pending, |s.log|)] + rest)
  {
    assert s.turn[1..] == rest && s.turn[0] == op;
  }

  lemma BriefEnds(c: Config, s: Sys, rest: seq<Op>, o: Oracle)
    requires s.turn != [] && s.turn[0].Briefed? && s.turn[1..] == rest && !o.ok
    ensures Step(c, s, Run(TheTurn, o)) == s.(turn := rest)
  {
  }

  /** In every run, a turn that decided to guide an active session can tell
      both parties, the acting party first, even when no solver receives the
      brief: nothing that happened before keeps a text back. */
  lemma {:induction false} GuidanceReachesBoth(c: Config, dispute: string, now: int, moves: seq<Move>, path: Path)
    returns (more: seq<Move>)
    requires var s := Exec(c, Initial(dispute, now), moves);
             s.turn == [StartGuide(path)] && s.row.state.Active?
    ensures var s := Exec(c, Initial(dispute, now), moves);
            var after := Exec(c, Initial(dispute, now), moves + more);
            var n := |s.log|;
            && after.row.state.Guiding? && after.turn == []
            && |after.log| == n + 2 && s.log <= after.log
            && (path.PaymentArrived? ==> IsOutTemplate(after.log[n], Seller, GuideArrivedSeller)
                                         && IsOutTemplate(after.log[n + 1], Buyer, GuideArrivedBuyer))
            && (path.PaymentNotSent? ==> IsOutTemplate(after.log[n], Buyer, GuideNotSentBuyer)
                                         && IsOutTemplate(after.log[n + 1], Seller, GuideNotSentSeller))
  {
    hide Exec, Step, ReceivedEver, GuidesOk;
    var s := Exec(c, Initial(dispute, now), moves);
    RunsGuideRight(c, dispute, now, moves);
    var go := Runs.Goes(TheTurn, s.now);
    Starts(c, s, path);
    var guided := Exec(c, s, [go, go, Runs.Fails(TheTurn)]);
    var first, second := guided.turn[0], guided.turn[1];
    assert guided.turn == [first] + [second];
    NothingGuidedYet(s, first.party, first.template);
    NothingGuidedYet(s, second.party, second.template);
    PartyIsTold(c, guided, first.party, first.template, [second]);
    var once := Runs.SentAndStored(guided, first.party, first.template).(turn := [second]);
    OtherIsNotTold(guided.log, once.log, second.party, second.template);
    assert once.turn == [second] + [];
    PartyIsTold(c, once, second.party, second.template, []);
    Runs.ExecAppend(c, guided, [go, go] + [go, go], [go, go] + [go, go]);
    Runs.ExecAppend(c, s, [go, go, Runs.Fails(TheTurn)], [go, go] + [go, go] + ([go, go] + [go, go]));
    more := [go, go, Runs.Fails(TheTurn)] + ([go, go] + [go, go] + ([go, go] + [go, go]));
    Runs.ExecAppend(c, Initial(dispute, now), moves, more);
  }

  lemma NothingGuidedYet(s: Sys, p: Party, t: Template)
    requires GuidesOk(s) && s.row.state.Active? && IsGuide(t)
    ensures !ReceivedEver(s.log, p, t)
  {
  }

  lemma OtherIsNotTold(log: seq<Message>, after: seq<Message>, p: Party, t: Template)
    requires |after| == |log| + 1 && log <= after && !ReceivedEver(log, p, t) && after[|log|].party != p
    ensures !ReceivedEver(after, p, t)
  {
  }
}

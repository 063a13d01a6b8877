/** Flood conservation: no party message is counted for two strikes, so a
    `flood` handoff means the party really sent that many messages. */
module Flood {
  import opened Domain
  import opened Next
  import opened Policy
  import opened MessageLog
  import opened Views
  import opened EventLog
  import opened Sessions
  import opened JudgeState
  import opened Mediation
  import opened Effects
  import opened Protocol
  import opened Turns
  import opened Rounds
  import Timers

  /** The party's messages with an id up to `last`. */
  function UpTo(log: seq<Message>, p: Party, last: nat): nat {
    if log == [] then 0
    else
      var n := |log| - 1;
      UpTo(log[..n], p, last) + if IsIn(log[n], p) && log[n].id <= last then 1 else 0
  }

  /** Every message the party sent. */
  function Sent(log: seq<Message>, p: Party): nat {
    CountIn(log, p, 0)
  }

  /** What one strike takes. */
  function Window(c: Config): nat {
    c.maxMessagesPerTurn + 1
  }

  ghost predicate Flooded(c: Config, log: seq<Message>) {
    exists p :: Sent(log, p) >= FLOOD_STRIKES * Window(c)
  }

  /** Each strike so far took its own messages among those already counted,
      and a flood handoff was or is being decided only after such a flood. */
  ghost predicate FloodOk(c: Config, s: Sys) {
    && (forall p :: StrikesOf(s.events, p) * Window(c) <= UpTo(s.log, p, Counted(s)))
    && (!Without(s.turn, Reason.Flood) || s.row.handoffReason == Some(Reason.Flood) ==> Flooded(c, s.log))
    && Without(s.tick, Reason.Flood)
  }

  // ----- counting messages -----

  lemma UpToAppend(log: seq<Message>, m: Message, p: Party, last: nat)
    ensures UpTo(log + [m], p, last) == UpTo(log, p, last) + if IsIn(m, p) && m.id <= last then 1 else 0
    ensures CountIn(log + [m], p, last) == CountIn(log, p, last) + if IsIn(m, p) && m.id > last then 1 else 0
  {
    assert (log + [m])[..|log|] == log;
  }

  lemma UpToGrows(log: seq<Message>, p: Party, last: nat, more: nat)
    requires last <= more
    ensures UpTo(log, p, last) <= UpTo(log, p, more)
  {
  }

  /** What arrives later has a greater id. */
  lemma UpToPrefix(log: seq<Message>, n: nat, p: Party, last: nat)
    requires Arrival(log) && n <= |log| && last <= LastId(log[..n])
    ensures UpTo(log, p, last) == UpTo(log[..n], p, last)
    decreases |log| - n
  {
    if n == |log| {
      assert log[..n] == log;
    } else {
      assert log[..n + 1] == log[..n] + [log[n]];
      UpToAppend(log[..n], log[n], p, last);
      if n > 0 {
        assert log[n - 1].id < log[n].id;
      }
      assert LastId(log[..n]) <= LastId(log[..n + 1]);
      UpToPrefix(log, n + 1, p, last);
    }
  }

  /** Every message is counted before or after the mark. */
  lemma UpToSplits(log: seq<Message>, p: Party, mark: nat, last: nat)
    requires Arrival(log) && LastId(log) <= last && mark <= last
    ensures UpTo(log, p, last) == UpTo(log, p, mark) + CountIn(log, p, mark)
  {
    if log != [] {
      var n := |log| - 1;
      ArrivalPrefix(log, n);
      if n > 0 {
        assert log[n - 1].id < log[n].id;
      }
      UpToSplits(log[..n], p, mark, last);
    }
  }

  lemma SentIsMore(log: seq<Message>, p: Party, last: nat)
    requires Arrival(log)
    ensures UpTo(log, p, last) <= Sent(log, p)
  {
    if log != [] {
      ArrivalPrefix(log, |log| - 1);
      SentIsMore(log[..|log| - 1], p, last);
    }
  }

  lemma FloodStays(c: Config, log: seq<Message>, m: Message)
    requires Flooded(c, log)
    ensures Flooded(c, log + [m])
  {
    var p :| Sent(log, p) >= FLOOD_STRIKES * Window(c);
    UpToAppend(log, m, p, 0);
    assert Sent(log + [m], p) >= FLOOD_STRIKES * Window(c);
  }

  // ----- counting strikes -----

  function StrikeBodies(bodies: seq<EventBody>, p: Party): nat {
    if bodies == [] then 0
    else (if bodies[0].FloodStrike? && bodies[0].party == p then 1 else 0) + StrikeBodies(bodies[1..], p)
  }

  lemma NotedAllStrikes(s: Sys, bodies: seq<EventBody>, at: int, gap: nat, p: Party)
    ensures StrikesOf(NotedAll(s, bodies, at, gap).events, p) == StrikesOf(s.events, p) + StrikeBodies(bodies, p)
    decreases |bodies|
  {
    if bodies != [] {
      var next := Noted(s, bodies[0], at, gap);
      assert next.events[..|s.events|] == s.events;
      NotedAllStrikes(next, bodies[1..], at, 0, p);
    }
  }

  lemma NotedAllLastStrike(s: Sys, bodies: seq<EventBody>, at: int, gap: nat, last: nat)
    requires forall i :: 0 <= i < |bodies| && bodies[i].FloodStrike? ==> bodies[i].lastMessage == last
    ensures var after := LastStrike(NotedAll(s, bodies, at, gap).events);
            after == if StrikeBodies(bodies, Buyer) + StrikeBodies(bodies, Seller) > 0
                     then Max(LastStrike(s.events), last) else LastStrike(s.events)
    decreases |bodies|
  {
    if bodies != [] {
      var next := Noted(s, bodies[0], at, gap);
      assert next.events[..|s.events|] == s.events;
      NotedAllLastStrike(next, bodies[1..], at, 0, last);
    }
  }

  lemma StrikeBodiesOf(bodies: seq<EventBody>, p: Party)
    requires |bodies| <= 1
    ensures StrikeBodies(bodies, p) == if bodies != [] && bodies[0].FloodStrike? && bodies[0].party == p then 1 else 0
  {
    if bodies != [] {
      assert bodies[1..] == [];
    }
  }

  /** The strikes one check records. */
  lemma StrikesAre(c: Config, s: Sys, messages: seq<Message>, p: Party)
    ensures StrikeBodies(Strikes(c, s, messages), p)
            == if CountIn(messages, p, Counted(s)) > c.maxMessagesPerTurn then 1 else 0
    ensures forall i :: 0 <= i < |Strikes(c, s, messages)| ==>
              Strikes(c, s, messages)[i].FloodStrike? && Strikes(c, s, messages)[i].lastMessage == LastId(messages)
  {
    var buyer, seller := Strike(c, Buyer, messages, Counted(s)), Strike(c, Seller, messages, Counted(s));
    StrikeBodiesOf(buyer, p);
    StrikeBodiesOf(seller, p);
    assert buyer == [] ==> buyer + seller == seller;
    assert buyer != [] ==> (buyer + seller)[1..] == seller;
  }

  lemma CountNeedsMessages(log: seq<Message>, p: Party, mark: nat)
    requires Arrival(log) && CountIn(log, p, mark) > 0
    ensures LastId(log) > mark
  {
    var n := |log| - 1;
    ArrivalPrefix(log, n);
    if !(IsIn(log[n], p) && log[n].id > mark) {
      CountNeedsMessages(log[..n], p, mark);
      assert log[n - 1].id < log[n].id;
    }
  }

  lemma NoneAfterTheLast(log: seq<Message>, p: Party, last: nat)
    requires Arrival(log) && LastId(log) <= last
    ensures CountIn(log, p, last) == 0
  {
    if CountIn(log, p, last) > 0 {
      CountNeedsMessages(log, p, last);
    }
  }

  /** The messages a check counts are new: none was counted before. */
  lemma CountedAreNew(c: Config, log: seq<Message>, n: nat, p: Party, mark: nat, last: nat)
    requires Arrival(log) && n <= |log| && mark <= last && LastId(log[..n]) <= last
    requires CountIn(log[..n], p, mark) > c.maxMessagesPerTurn
    ensures UpTo(log, p, last) >= UpTo(log, p, mark) + Window(c)
  {
    var read := log[..n];
    ArrivalPrefix(log, n);
    CountNeedsMessages(read, p, mark);
    UpToSplits(read, p, mark, LastId(read));
    UpToPrefix(log, n, p, LastId(read));
    UpToPrefix(log, n, p, mark);
    UpToGrows(log, p, LastId(read), last);
  }

  // ----- every step -----

  lemma CountedAfterStrikes(c: Config, s: Sys, messages: seq<Message>, o: Oracle)
    requires Arrival(messages)
    ensures var bodies := Strikes(c, s, messages);
            var after := NotedAll(s, bodies, o.at, o.gap);
            && Counted(after) >= Counted(s)
            && (StrikeBodies(bodies, Buyer) + StrikeBodies(bodies, Seller) > 0 ==> Counted(after) >= LastId(messages))
  {
    hide Strikes, CountIn;
    var bodies := Strikes(c, s, messages);
    StrikesAre(c, s, messages, Buyer);
    NotedAllLastStrike(s, bodies, o.at, o.gap, LastId(messages));
    NotedAllBodies(s, bodies, o.at, o.gap);
  }

  /** A flood check keeps the count, and what it calls a flood is one. */
  lemma CheckingKeepsCount(c: Config, s: Sys, n: nat, o: Oracle, p: Party)
    requires FloodOk(c, s) && Arrival(s.log) && n <= |s.log|
    ensures var after := NotedAll(s, Strikes(c, s, s.log[..n]), o.at, o.gap);
            StrikesOf(after.events, p) * Window(c) <= UpTo(s.log, p, Counted(after))
    ensures Floods(c, s, p, s.log[..n]) ==> Flooded(c, s.log)
  {
    hide Strikes, CountIn, UpTo, StrikesOf, Counted, Window;
    var messages := s.log[..n];
    var bodies := Strikes(c, s, messages);
    var after := NotedAll(s, bodies, o.at, o.gap);
    ArrivalPrefix(s.log, n);
    StrikesAre(c, s, messages, p);
    NotedAllStrikes(s, bodies, o.at, o.gap, p);
    CountedAfterStrikes(c, s, messages, o);
    UpToGrows(s.log, p, Counted(s), Counted(after));
    if CountIn(messages, p, Counted(s)) > c.maxMessagesPerTurn {
      CountedAreNew(c, s.log, n, p, Counted(s), Counted(after));
      SentIsMore(s.log, p, Counted(after));
      TwoStrikes(StrikesOf(s.events, p), Window(c), UpTo(s.log, p, Counted(s)));
      assert Floods(c, s, p, messages) ==> Sent(s.log, p) >= FLOOD_STRIKES * Window(c);
    }
  }

  lemma TwoStrikes(strikes: nat, window: nat, counted: nat)
    requires strikes * window <= counted
    ensures (strikes + 1) * window <= counted + window
    ensures strikes >= 1 ==> window <= counted
  {
    if strikes >= 1 {
      assert strikes * window == window + (strikes - 1) * window;
    }
  }

  /** What a flood check does: nothing, or its strikes and the verdict. */
  lemma CheckFloodIs(c: Config, s: Sys, op: Op, rest: seq<Op>, o: Oracle)
    requires s.turn == [op] + rest && op.CheckFlood? && op.n <= |s.log|
    ensures var after := Step(c, s, Run(TheTurn, o));
            var messages := s.log[..op.n];
            || after == s.(turn := [], wake := after.wake)
            || (after == NotedAll(s, Strikes(c, s, messages), o.at, o.gap).(turn := after.turn)
                && after.turn == if Floods(c, s, Buyer, messages) || Floods(c, s, Seller, messages)
                                 then [HandOff(Reason.Flood)] else [AskJudge(op.session, op.n)])
  {
    hide Step, RunOp, Apply, Strikes, Floods, NotedAll;
    assert s.turn[1..] == rest && s.turn[0] == op;
    assert s.(row := s.row) == s;
    RunIs(c, s, TheTurn, o);
    FloodRuns(c, s, op, rest, o);
    var e := RunOp(c, s, TheTurn, op, rest, o).0;
    if e.Append? {
      AppendIs(s, e, o);
    } else {
      QuietIs(s, e, o);
    }
  }

  lemma FloodRuns(c: Config, s: Sys, op: Op, rest: seq<Op>, o: Oracle)
    requires op.CheckFlood? && op.n <= |s.log|
    ensures var (e, left) := RunOp(c, s, TheTurn, op, rest, o);
            var messages := s.log[..op.n];
            || ((e.NoEffect? || e.Defer?) && left == [])
            || (e == Append(s.row, Strikes(c, s, messages))
                && left == if Floods(c, s, Buyer, messages) || Floods(c, s, Seller, messages)
                           then [HandOff(Reason.Flood)] else [AskJudge(op.session, op.n)])
  {
    hide Strikes, Floods, Listed, Wrote;
  }

  lemma QuietIs(s: Sys, e: Effect, o: Oracle)
    requires e.NoEffect? || e.Defer?
    ensures Apply(s, e, o) == s.(wake := Apply(s, e, o).wake)
  {
  }

  lemma CheckFloodStep(c: Config, s: Sys, op: Op, rest: seq<Op>, o: Oracle)
    requires ProtocolOk(s) && FloodOk(c, s) && s.turn == [op] + rest && op.CheckFlood? && op.n <= |s.log|
    ensures FloodOk(c, Step(c, s, Run(TheTurn, o)))
  {
    hide Step, Strikes, Floods, CountIn, UpTo, StrikesOf, Counted, Window, NotedAll, Flooded, ProtocolOk, Logs;
    LogsOk(s);
    CheckFloodIs(c, s, op, rest, o);
    var after := Step(c, s, Run(TheTurn, o));
    if after == s.(turn := [], wake := after.wake) {
      SameCounted(s, after);
    } else {
      var noted := NotedAll(s, Strikes(c, s, s.log[..op.n]), o.at, o.gap);
      NotedAllBodies(s, Strikes(c, s, s.log[..op.n]), o.at, o.gap);
      SameCounted(noted, after);
      forall p: Party
        ensures StrikesOf(after.events, p) * Window(c) <= UpTo(after.log, p, Counted(after))
        ensures Floods(c, s, p, s.log[..op.n]) ==> Flooded(c, s.log)
      {
        CheckingKeepsCount(c, s, op.n, o, p);
      }
    }
  }

  /** What a step other than a flood check does to the counts. */
  lemma EffectKeepsCounts(c: Config, s: Sys, a: Actor, op: Op, o: Oracle, e: Effect, p: Party)
    requires EffectAllowed(s, a, op, o, e) && !op.CheckFlood?
    requires StrikesOf(s.events, p) * Window(c) <= UpTo(s.log, p, Counted(s))
    ensures var after := Apply(s, e, o);
            StrikesOf(after.events, p) * Window(c) <= UpTo(after.log, p, Counted(after))
  {
    hide NotedAll, AppendAllowed, Apply, StrikesOf, UpTo, Counted, Window;
    var after := Apply(s, e, o);
    ApplyIs(s, e, o);
    match e
    case Append(row, bodies) =>
      NothingStrikes(s, op, row, bodies);
      AppendIs(s, e, o);
      AppendKeepsCounts(c, s, row, bodies, o, p);
    case StoreOut(to, t) =>
      UpToAppend(s.log, after.log[|s.log|], p, Counted(s));
      SameCounted(s, after);
    case BeginHold => HoldingStrikesNothing(s, o, p);
    case StoreEvaluation(_, _, _) => JudgingCountsMore(s, e, o, p);
    case _ => SameCounted(s, after);
  }

  lemma HoldingStrikesNothing(s: Sys, o: Oracle, p: Party)
    ensures var after := Apply(s, BeginHold, o);
            StrikesOf(after.events, p) == StrikesOf(s.events, p) && Counted(after) == Counted(s) && after.log == s.log
  {
    assert Apply(s, BeginHold, o).events[..|s.events|] == s.events;
  }

  /** A judgment counts what it judged. */
  lemma JudgingCountsMore(s: Sys, e: Effect, o: Oracle, p: Party)
    requires e.StoreEvaluation?
    ensures var after := Apply(s, e, o);
            after.log == s.log && after.events == s.events && UpTo(s.log, p, Counted(s)) <= UpTo(s.log, p, Counted(after))
  {
    hide UpTo;
    assert (s.evaluations + [e.evaluation])[..|s.evaluations|] == s.evaluations;
    UpToGrows(s.log, p, Counted(s), Counted(Apply(s, e, o)));
  }

  lemma NothingStrikes(s: Sys, op: Op, row: Row, bodies: seq<EventBody>)
    requires AppendAllowed(s, op, row, bodies) && !op.CheckFlood?
    ensures forall i :: 0 <= i < |bodies| ==> !bodies[i].FloodStrike?
  {
  }

  lemma AppendKeepsCounts(c: Config, s: Sys, row: Row, bodies: seq<EventBody>, o: Oracle, p: Party)
    requires forall i :: 0 <= i < |bodies| ==> !bodies[i].FloodStrike?
    ensures var after := NotedAll(s.(row := row), bodies, o.at, o.gap);
            && StrikesOf(after.events, p) == StrikesOf(s.events, p)
            && UpTo(after.log, p, Counted(after)) == UpTo(s.log, p, Counted(s))
  {
    hide NotedAll;
    NoStrikeBodies(bodies, p);
    NotedAllStrikes(s.(row := row), bodies, o.at, o.gap, p);
    NotedAllLastStrike(s.(row := row), bodies, o.at, o.gap, 0);
    NotedAllBodies(s.(row := row), bodies, o.at, o.gap);
  }

  lemma NoStrikeBodies(bodies: seq<EventBody>, p: Party)
    requires forall i :: 0 <= i < |bodies| ==> !bodies[i].FloodStrike?
    ensures StrikeBodies(bodies, p) == 0 && StrikeBodies(bodies, Buyer) + StrikeBodies(bodies, Seller) == 0
  {
    if bodies != [] {
      NoStrikeBodies(bodies[1..], p);
    }
  }

  lemma LogKeepsFlood(c: Config, s: Sys, e: Effect, o: Oracle)
    requires Flooded(c, s.log)
    ensures Flooded(c, Apply(s, e, o).log)
  {
    hide Apply, Flooded;
    ApplyIs(s, e, o);
    if e.StoreOut? {
      FloodStays(c, s.log, Apply(s, e, o).log[|s.log|]);
    }
  }

  lemma NoTurnDecidesFlood(turn: Turn)
    ensures Decide(turn) != Handoff(Reason.Flood)
  {
  }

  lemma ActorKeepsFlood(c: Config, s: Sys, a: Actor, o: Oracle)
    requires ProtocolOk(s) && FloodOk(c, s) && OpsOf(s, a) != [] && !OpsOf(s, a)[0].CheckFlood?
    ensures FloodOk(c, Step(c, s, Run(a, o)))
  {
    hide RunOp, Apply, ProtocolOk, EffectAllowed, RowAfter, UpTo, StrikesOf, Counted, Window, Flooded;
    var op, rest := OpsOf(s, a)[0], OpsOf(s, a)[1..];
    assert op in OpsOf(s, a) && forall x :: x in rest ==> x in OpsOf(s, a);
    var e := RunOp(c, s, a, op, rest, o).0;
    RunEffects(c, s, a, op, rest, o);
    ApplyIs(s, e, o);
    forall p: Party
      ensures var after := Step(c, s, Run(a, o));
              StrikesOf(after.events, p) * Window(c) <= UpTo(after.log, p, Counted(after))
    {
      EffectKeepsCounts(c, s, a, op, o, e, p);
      SameCounted(Apply(s, e, o), Step(c, s, Run(a, o)));
    }
    if Flooded(c, s.log) {
      LogKeepsFlood(c, s, e, o);
    }
    LeftWithoutFlood(c, s, a, op, rest, o);
    if op != HandOff(Reason.Flood) {
      ReasonStays(s, a, op, o, e);
    }
  }

  lemma ReasonStays(s: Sys, a: Actor, op: Op, o: Oracle, e: Effect)
    requires EffectAllowed(s, a, op, o, e) && op != HandOff(Reason.Flood)
    ensures RowAfter(s, e).handoffReason == Some(Reason.Flood) ==> s.row.handoffReason == Some(Reason.Flood)
  {
  }

  /** Only a flood check plans a handoff for a flood. */
  lemma LeftWithoutFlood(c: Config, s: Sys, a: Actor, op: Op, rest: seq<Op>, o: Oracle)
    requires ProtocolOk(s) && op in OpsOf(s, a) && !op.CheckFlood?
    ensures Without(rest, Reason.Flood) && !a.TheOpening? ==> Without(RunOp(c, s, a, op, rest, o).1, Reason.Flood)
    ensures a.TheOpening? ==> !op.HandOff?
  {
    hide RunSharedOp, RunTurnOp, RunTickOp, Decide, SentOwn, StillOpening, Logs, Shapes, OpenerSent;
    if !a.TheOpening? && Without(rest, Reason.Flood) {
      SharedWithout(s, a, op, rest, o, Reason.Flood);
      if op.Record? {
        NoTurnDecidesFlood(op.turn);
      }
      TurnWithout(c, s, op, rest, o, Reason.Flood);
      TickWithout(c, s, op, rest, o, Reason.Flood);
    }
  }

  lemma SameKeepsFlood(c: Config, s: Sys, after: Sys)
    requires FloodOk(c, s) && s.events == after.events && s.evaluations == after.evaluations && s.log == after.log
    requires after.row.handoffReason == s.row.handoffReason
    requires Without(s.turn, Reason.Flood) ==> Without(after.turn, Reason.Flood)
    requires Without(after.tick, Reason.Flood)
    ensures FloodOk(c, after)
  {
    SameCounted(s, after);
  }

  lemma EndingKeepsFlood(c: Config, s: Sys, state: State, at: int, gap: nat)
    requires FloodOk(c, s)
    ensures FloodOk(c, Ended(s, state, at, gap))
  {
    if !s.row.state.Terminal() {
      assert Ended(s, state, at, gap).events[..|s.events|] == s.events;
    }
  }

  lemma ReceivingKeepsFlood(c: Config, s: Sys, m: Message)
    requires FloodOk(c, s)
    ensures FloodOk(c, s.(log := s.log + [m]))
  {
    hide UpTo, CountIn, Flooded;
    var after := s.(log := s.log + [m]);
    SameCounted(s, after);
    forall p: Party
      ensures StrikesOf(after.events, p) * Window(c) <= UpTo(after.log, p, Counted(after))
    {
      UpToAppend(s.log, m, p, Counted(s));
    }
    if Flooded(c, s.log) {
      FloodStays(c, s.log, m);
    }
  }

  lemma StepKeepsFlood(c: Config, s: Sys, m: Move)
    requires ProtocolOk(s) && TurnReads(c, s) && FloodOk(c, s)
    ensures FloodOk(c, Step(c, s, m))
  {
    hide RunOp, FloodOk, ProtocolOk, Decided;
    match m
    case Run(a, o) =>
      if OpsOf(s, a) == [] {
        NothingToRun(c, s, m);
      } else if OpsOf(s, a)[0].CheckFlood? {
        FloodCheckStep(c, s, a, o);
      } else {
        ActorKeepsFlood(c, s, a, o);
      }
    case Receive(p, createdAt, gap) =>
      var m := Message(LastId(s.log) + 1 + gap, In, p, None, createdAt);
      ReceivingKeepsFlood(c, s, m);
      FloodShape(c, s.(log := s.log + [m]));
      SameKeepsFlood(c, s.(log := s.log + [m]), Step(c, s, Receive(p, createdAt, gap)));
    case Supersede(at, gap) => EndingKeepsFlood(c, s, Superseded, at, gap);
    case Close(at, gap) => EndingKeepsFlood(c, s, Closed, at, gap);
    case _ =>
      FloodShape(c, s);
      SameKeepsFlood(c, s, Step(c, s, m));
  }

  lemma FloodShape(c: Config, s: Sys)
    requires FloodOk(c, s)
    ensures Without(s.tick, Reason.Flood)
  {
  }

  lemma FloodCheckStep(c: Config, s: Sys, a: Actor, o: Oracle)
    requires ProtocolOk(s) && TurnReads(c, s) && FloodOk(c, s)
    requires OpsOf(s, a) != [] && OpsOf(s, a)[0].CheckFlood?
    ensures FloodOk(c, Step(c, s, Run(a, o)))
  {
    hide Step, FloodOk;
    var op := OpsOf(s, a)[0];
    assert op in OpsOf(s, a);
    assert a.TheTurn?;
    assert s.turn == [op] + s.turn[1..];
    CheckFloodStep(c, s, op, s.turn[1..], o);
  }

  /** In every run, a session handed off for a flood has a party who really
      sent two windows of messages, however turns were deferred and whatever
      Serbero sent in between. */
  lemma {:induction false} FloodIsReal(c: Config, dispute: string, now: int, moves: seq<Move>)
    ensures FloodOk(c, Exec(c, Initial(dispute, now), moves))
    ensures var s := Exec(c, Initial(dispute, now), moves);
            s.row.handoffReason == Some(Reason.Flood) ==>
              exists p :: Sent(s.log, p) >= 2 * (c.maxMessagesPerTurn + 1)
  {
    hide Step;
    if moves != [] {
      var before := moves[..|moves| - 1];
      FloodIsReal(c, dispute, now, before);
      RunsAreOk(c, dispute, now, before);
      RunsRead(c, dispute, now, before);
      StepKeepsFlood(c, Exec(c, Initial(dispute, now), before), moves[|moves| - 1]);
    }
  }
}

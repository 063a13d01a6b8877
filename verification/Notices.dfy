/** The notices a handoff and a hold owe both parties
    (src/mediation/handoff.rs, src/mediation/hold.rs): each party is told,
    once, and one that cannot be reached does not keep the other waiting. */
module Notices {
  import opened Domain
  import opened Next
  import opened Policy
  import opened MessageLog
  import opened EventLog
  import opened Sessions
  import opened Mediation
  import opened Effects
  import opened Protocol
  import Runs

  /** The template an operation tells a party, under which check, and after
      which message it counts as told. */
  datatype Telling = Telling(party: Party, template: Template, guard: Guard, cutoff: nat)

  function TellingOf(op: Op): Option<Telling> {
    match op
    case TellHandoff(p) => Some(Telling(p, HandoffNotice, WhileLive, 0))
    case TellHold(p, cutoff) => Some(Telling(p, HoldNotice, WhileMediating, cutoff))
    case _ => None
  }

  /** The party got the template after the cutoff. */
  ghost predicate Told(log: seq<Message>, t: Telling) {
    exists m :: && m in log && m.direction == Out && m.party == t.party && m.template == Some(t.template)
                && m.id > t.cutoff
  }

  /** A party that was told is left alone; any other is sent the notice, and a
      failure is skipped. */
  lemma TellStep(c: Config, s: Sys, a: Actor, op: Op, rest: seq<Op>, o: Oracle)
    requires OpsOf(s, a) == [op] + rest && TellingOf(op).Some? && Arrival(s.log)
    ensures var t := TellingOf(op).value;
            Step(c, s, Run(a, o)) ==
            WithOps(s, a, (if Told(s.log, t) then [] else [Send(t.party, t.template, t.guard, Skip)]) + rest)
  {
    hide Received, ReceivedEver, Told, WithOps;
    assert OpsOf(s, a)[1..] == rest && OpsOf(s, a)[0] == op;
    ToldIff(s.log, TellingOf(op).value);
  }

  lemma ToldIff(log: seq<Message>, t: Telling)
    requires Arrival(log)
    ensures Told(log, t) <==> Received(log, t.party, t.template, t.cutoff)
    ensures t.cutoff == 0 ==> (Told(log, t) <==> ReceivedEver(log, t.party, t.template))
  {
    if Received(log, t.party, t.template, t.cutoff) {
      var m :| m in log && IsOutTemplate(m, t.party, t.template) && m.id > t.cutoff;
      assert m.direction == Out;
    }
    if Told(log, t) {
      var m :| && m in log && m.direction == Out && m.party == t.party && m.template == Some(t.template)
               && m.id > t.cutoff;
      assert IsOutTemplate(m, t.party, t.template);
    }
    if t.cutoff == 0 && ReceivedEver(log, t.party, t.template) {
      var m :| m in log && IsOutTemplate(m, t.party, t.template);
      var i :| 0 <= i < |log| && log[i] == m;
      assert m.id > 0;
    }
  }

  /** A notice that fails is skipped, whoever sends it: what comes next, such
      as telling the other party, is not affected. */
  lemma AFailedNoticeIsSkipped(c: Config, s: Sys, a: Actor, op: Op, rest: seq<Op>, o: Oracle)
    requires OpsOf(s, a) == [op] + rest && FailsNow(s, op, Skip, o)
    ensures var after := Step(c, s, Run(a, o));
            OpsOf(after, a) == rest && after.log == s.log && after.row == s.row
  {
    hide Apply;
    assert OpsOf(s, a)[1..] == rest && OpsOf(s, a)[0] == op;
    ApplyIs(s, RunOp(c, s, a, op, rest, o).0, o);
  }

  lemma NoticeIsStored(c: Config, s: Sys, a: Actor, p: Party, t: Template, rest: seq<Op>, o: Oracle)
    requires OpsOf(s, a) == [StoreRow(p, t, Skip)] + rest && o.ok && !IsQuestion(t)
    ensures Step(c, s, Run(a, o)) ==
            WithOps(s.(log := s.log + [Message(LastId(s.log) + 1 + o.gap, Out, p, Some(t), Min(o.at, s.now))]), a, rest)
  {
    hide WithOps;
    assert OpsOf(s, a)[1..] == rest && OpsOf(s, a)[0] == StoreRow(p, t, Skip);
  }

  /** Only more was stored and sent: the row, the events and the other actors
      are as they were. */
  ghost predicate OnlyTold(s: Sys, after: Sys, a: Actor, rest: seq<Op>) {
    && s.log <= after.log && Arrival(after.log) && OpsOf(after, a) == rest
    && after == WithOps(s, a, rest).(log := after.log, ledger := after.ledger)
  }

  lemma NoticeGoes(c: Config, s: Sys, a: Actor, t: Telling, rest: seq<Op>)
    requires OpsOf(s, a) == [Send(t.party, t.template, t.guard, Skip)] + rest && t.guard.Allows(s.row.state)
    requires !IsQuestion(t.template)
    ensures var go := Runs.Goes(a, s.now);
            Exec(c, s, [go, go, go]) == WithOps(Runs.SentAndStored(s, t.party, t.template), a, rest)
  {
    hide Exec, Step;
    var go := Runs.Goes(a, s.now);
    Runs.ThreeSteps(c, s, go, go, go);
    Runs.SendPasses(c, s, a, t.party, t.template, t.guard, Skip, rest, go.oracle);
    var flying := WithOps(s, a, [InFlight(t.party, t.template, Skip)] + rest);
    Runs.RelayTakes(c, flying, a, t.party, t.template, Skip, rest, go.oracle);
    var taken := WithOps(Runs.Taken(flying, t.party, t.template), a, [StoreRow(t.party, t.template, Skip)] + rest);
    NoticeIsStored(c, taken, a, t.party, t.template, rest, go.oracle);
  }

  /** One telling that goes well leaves the party told. */
  lemma {:induction false} Tells(c: Config, s: Sys, a: Actor, op: Op, rest: seq<Op>) returns (moves: seq<Move>)
    requires OpsOf(s, a) == [op] + rest && TellingOf(op).Some? && Arrival(s.log)
    requires TellingOf(op).value.guard.Allows(s.row.state) && TellingOf(op).value.cutoff <= LastId(s.log)
    ensures var after := Exec(c, s, moves);
            OnlyTold(s, after, a, rest) && Told(after.log, TellingOf(op).value)
  {
    hide Exec, Step, Told, Arrival, OnlyTold;
    var t := TellingOf(op).value;
    var go := Runs.Goes(a, s.now);
    TellStep(c, s, a, op, rest, go.oracle);
    Runs.OneStep(c, s, go);
    if Told(s.log, t) {
      moves := [go];
      assert [] + rest == rest;
      RunsOn(s, a, rest);
    } else {
      moves := [go] + [go, go, go];
      var sending := WithOps(s, a, [Send(t.party, t.template, t.guard, Skip)] + rest);
      Runs.ExecAppend(c, s, [go], [go, go, go]);
      NoticeGoes(c, sending, a, t, rest);
      NowTold(s, a, rest, t, Exec(c, s, moves));
    }
  }

  lemma NowTold(s: Sys, a: Actor, rest: seq<Op>, t: Telling, after: Sys)
    requires Arrival(s.log) && t.cutoff <= LastId(s.log)
    requires after == WithOps(Runs.SentAndStored(s, t.party, t.template), a, rest)
    ensures OnlyTold(s, after, a, rest) && Told(after.log, t)
  {
    hide Told, Arrival;
    OneMoreTold(s.log, Message(LastId(s.log) + 1, Out, t.party, Some(t.template), s.now), t);
  }

  lemma RunsOn(s: Sys, a: Actor, rest: seq<Op>)
    requires Arrival(s.log)
    ensures OnlyTold(s, WithOps(s, a, rest), a, rest)
  {
  }

  lemma OneMoreTold(log: seq<Message>, m: Message, t: Telling)
    requires Arrival(log) && m.id > LastId(log) >= t.cutoff
    requires m.direction == Out && m.party == t.party && m.template == Some(t.template)
    ensures Arrival(log + [m]) && Told(log + [m], t)
  {
    assert m in log + [m];
  }

  lemma ToldStays(log: seq<Message>, after: seq<Message>, t: Telling)
    requires log <= after && Told(log, t)
    ensures Told(after, t)
  {
    var m :| && m in log && m.direction == Out && m.party == t.party && m.template == Some(t.template)
             && m.id > t.cutoff;
    assert m in after;
  }

  /** Both tellings, one after the other. */
  lemma {:induction false} TellsBoth(c: Config, s: Sys, a: Actor, first: Op, second: Op, rest: seq<Op>)
    returns (moves: seq<Move>)
    requires OpsOf(s, a) == [first] + ([second] + rest) && Arrival(s.log)
    requires TellingOf(first).Some? && TellingOf(second).Some?
    requires TellingOf(first).value.guard.Allows(s.row.state) && TellingOf(first).value.cutoff <= LastId(s.log)
    requires TellingOf(second).value.guard.Allows(s.row.state) && TellingOf(second).value.cutoff <= LastId(s.log)
    ensures var after := Exec(c, s, moves);
            && OnlyTold(s, after, a, rest)
            && Told(after.log, TellingOf(first).value) && Told(after.log, TellingOf(second).value)
  {
    hide Exec, Told, Arrival;
    var one := Tells(c, s, a, first, [second] + rest);
    var middle := Exec(c, s, one);
    LastIdGrows(s.log, middle.log);
    var two := Tells(c, middle, a, second, rest);
    moves := one + two;
    Runs.ExecAppend(c, s, one, two);
    ToldStays(middle.log, Exec(c, s, moves).log, TellingOf(first).value);
  }

  lemma LastIdGrows(log: seq<Message>, after: seq<Message>)
    requires Arrival(after) && log <= after
    ensures LastId(log) <= LastId(after)
  {
    if log != [] && |log| < |after| {
      assert after[|log| - 1].id < after[|after| - 1].id;
    }
  }

  // ----- a handoff -----

  lemma WithOpsIs(s: Sys, a: Actor, ops: seq<Op>)
    ensures var after := WithOps(s, a, ops);
            && OpsOf(after, a) == ops && after.row == s.row && after.log == s.log && after.now == s.now
            && after.events == s.events
  {
  }

  /** A handoff claims the session, and has the solvers' brief and both
      parties ahead, whoever hands off and whatever else it had to do. */
  lemma HandoffIsAhead(c: Config, s: Sys, a: Actor, reason: Reason, rest: seq<Op>, o: Oracle)
    requires OpsOf(s, a) == [HandOff(reason)] + rest && s.row.state.Mediating()
    ensures var after := Step(c, s, Run(a, o));
            && after.row.state == HandedOff && after.row.handoffReason == Some(reason)
            && after.log == s.log && after.now == s.now
            && |after.events| == |s.events| + 2
            && after.events[|s.events|].body == HandoffRecorded(reason, LastId(s.log))
            && after.events[|s.events| + 1].body == BriefPending(AboutHandoff)
            && OpsOf(after, a) == [Brief(after.events[|s.events| + 1].id)]
                                  + ([TellHandoff(Buyer)] + ([TellHandoff(Seller)] + rest))
  {
    hide *;
    HandoffStep(c, s, a, reason, rest, o);
    Claims(s, reason, o);
    WithOpsIs(Claimed(s, reason, o), a, NoticesAhead(PendingId(s, o), rest));
    NoticesAre(PendingId(s, o), rest);
  }

  function Claimed(s: Sys, reason: Reason, o: Oracle): Sys {
    NotedAll(s.(row := HandOffRow(s.row, reason, s.now)),
             [HandoffRecorded(reason, LastId(s.log)), BriefPending(AboutHandoff)], o.at, o.gap)
  }

  function NoticesAhead(pending: nat, rest: seq<Op>): seq<Op> {
    [Brief(pending)] + ([TellHandoff(Buyer)] + ([TellHandoff(Seller)] + rest))
  }

  lemma NoticesAre(pending: nat, rest: seq<Op>)
    ensures NoticesAhead(pending, rest) == [Brief(pending)] + ([TellHandoff(Buyer)] + ([TellHandoff(Seller)] + rest))
  {
  }

  lemma HandoffStep(c: Config, s: Sys, a: Actor, reason: Reason, rest: seq<Op>, o: Oracle)
    requires OpsOf(s, a) == [HandOff(reason)] + rest && s.row.state.Mediating()
    ensures Step(c, s, Run(a, o)) == WithOps(Claimed(s, reason, o), a, NoticesAhead(PendingId(s, o), rest))
  {
    hide Apply, Step, NotedAll, WithOps, RunSharedOp, PendingId;
    assert OpsOf(s, a)[1..] == rest && OpsOf(s, a)[0] == HandOff(reason);
    RunIs(c, s, a, o);
    HandOffIs(s, a, HandOff(reason), rest, o);
    AppendIs(s, RunSharedOp(s, a, HandOff(reason), rest, o).0, o);
    assert [Brief(PendingId(s, o)), TellHandoff(Buyer), TellHandoff(Seller)] + rest
        == NoticesAhead(PendingId(s, o), rest);
  }

  lemma Claims(s: Sys, reason: Reason, o: Oracle)
    requires s.row.state.Mediating()
    ensures var after := Claimed(s, reason, o);
            && after.row.state == HandedOff && after.row.handoffReason == Some(reason)
            && after.log == s.log && after.now == s.now
            && |after.events| == |s.events| + 2
            && after.events[|s.events|].body == HandoffRecorded(reason, LastId(s.log))
            && after.events[|s.events| + 1].body == BriefPending(AboutHandoff)
            && after.events[|s.events| + 1].id == PendingId(s, o)
  {
    hide NotedAll, Noted;
    var row := s.(row := HandOffRow(s.row, reason, s.now));
    var first, second := HandoffRecorded(reason, LastId(s.log)), BriefPending(AboutHandoff);
    NotedTwo(row, first, second, o.at, o.gap);
    TwoNoted(row, first, second, o.at, o.gap);
    NotedAllBodies(row, [first, second], o.at, o.gap);
  }

  lemma TwoNoted(s: Sys, first: EventBody, second: EventBody, at: int, gap: nat)
    ensures var events := Noted(Noted(s, first, at, gap), second, at, 0).events;
            && |events| == |s.events| + 2
            && events[|s.events|].body == first && events[|s.events| + 1].body == second
            && events[|s.events| + 1].id == LastEventId(s.events) + 2 + gap
  {
  }

  lemma BriefStarts(c: Config, s: Sys, a: Actor, pending: nat, rest: seq<Op>, o: Oracle)
    requires OpsOf(s, a) == [Brief(pending)] + rest
    ensures Step(c, s, Run(a, o)) == WithOps(s, a, [Briefed(pending, |s.log|)] + rest)
  {
    hide WithOps;
    assert OpsOf(s, a)[1..] == rest && OpsOf(s, a)[0] == Brief(pending);
  }

  lemma BriefFails(c: Config, s: Sys, a: Actor, pending: nat, n: nat, rest: seq<Op>, o: Oracle)
    requires OpsOf(s, a) == [Briefed(pending, n)] + rest && !o.ok
    ensures Step(c, s, Run(a, o)) == WithOps(s, a, rest)
  {
    hide WithOps;
    assert OpsOf(s, a)[1..] == rest && OpsOf(s, a)[0] == Briefed(pending, n);
  }

  /** No solver receives the brief: it stays pending. */
  lemma BriefStaysPending(c: Config, s: Sys, a: Actor, pending: nat, rest: seq<Op>, go: Move)
    requires OpsOf(s, a) == [Brief(pending)] + rest && go.Run? && go.actor == a
    ensures Step(c, Step(c, s, go), Runs.Fails(a)) == WithOps(WithOps(s, a, [Briefed(pending, |s.log|)] + rest), a, rest)
  {
    hide Step, WithOps;
    BriefStarts(c, s, a, pending, rest, go.oracle);
    WithOpsIs(s, a, [Briefed(pending, |s.log|)] + rest);
    BriefFails(c, WithOps(s, a, [Briefed(pending, |s.log|)] + rest), a, pending, |s.log|, rest, Runs.Fails(a).oracle);
  }

  lemma OnlyToldIs(s: Sys, after: Sys, a: Actor, rest: seq<Op>)
    requires OnlyTold(s, after, a, rest)
    ensures after.row == s.row && OpsOf(after, a) == rest && after.events == s.events && s.log <= after.log
  {
  }

  /** The session is handed off and the brief failed. */
  lemma HandsOffUnbriefed(c: Config, s: Sys, a: Actor, reason: Reason, rest: seq<Op>)
    requires OpsOf(s, a) == [HandOff(reason)] + rest && s.row.state.Mediating()
    ensures var go := Runs.Goes(a, s.now);
            var after := Exec(c, s, [go, go, Runs.Fails(a)]);
            && after.row.state == HandedOff && after.row.handoffReason == Some(reason) && after.log == s.log
            && OpsOf(after, a) == [TellHandoff(Buyer)] + ([TellHandoff(Seller)] + rest)
  {
    hide Exec, Step, WithOps, OpsOf;
    var go := Runs.Goes(a, s.now);
    HandoffIsAhead(c, s, a, reason, rest, go.oracle);
    var claimed := Step(c, s, go);
    var both := [TellHandoff(Buyer)] + ([TellHandoff(Seller)] + rest);
    var pending := claimed.events[|s.events| + 1].id;
    Runs.ThreeSteps(c, s, go, go, Runs.Fails(a));
    BriefStaysPending(c, claimed, a, pending, both, go);
    WithOpsIs(claimed, a, [Briefed(pending, |claimed.log|)] + both);
    WithOpsIs(WithOps(claimed, a, [Briefed(pending, |claimed.log|)] + both), a, both);
  }

  /** A handoff can tell both parties, even when no solver receives its brief:
      nothing that happened before keeps a party from being told. */
  lemma {:induction false} HandoffReachesBoth(c: Config, s: Sys, a: Actor, reason: Reason, rest: seq<Op>)
    returns (moves: seq<Move>)
    requires OpsOf(s, a) == [HandOff(reason)] + rest && s.row.state.Mediating() && Arrival(s.log)
    ensures var after := Exec(c, s, moves);
            && after.row.state == HandedOff && after.row.handoffReason == Some(reason) && OpsOf(after, a) == rest
            && forall p :: Told(after.log, Telling(p, HandoffNotice, WhileLive, 0))
  {
    hide Exec, Told, Arrival, OnlyTold, OpsOf;
    var go := Runs.Goes(a, s.now);
    var first := [go, go, Runs.Fails(a)];
    HandsOffUnbriefed(c, s, a, reason, rest);
    var handed := Exec(c, s, first);
    var more := TellsBoth(c, handed, a, TellHandoff(Buyer), TellHandoff(Seller), rest);
    moves := first + more;
    Runs.ExecAppend(c, s, first, more);
    OnlyToldIs(handed, Exec(c, s, moves), a, rest);
    forall p: Party
      ensures Told(Exec(c, s, moves).log, Telling(p, HandoffNotice, WhileLive, 0))
    {
      assert p == Buyer || p == Seller;
    }
  }

  // ----- a hold -----

  function Holding(s: Sys, o: Oracle): Sys {
    var noted := Noted(s, Held(LastId(s.log)), s.now, o.gap);
    noted.(ledger := noted.ledger.(holds := true))
  }

  /** A hold records the last message as its cutoff, and tells both parties
      after it. */
  lemma HoldIsAhead(c: Config, s: Sys, rest: seq<Op>, o: Oracle)
    requires s.turn == [StartHold] + rest
    ensures var cutoff := LastId(s.log);
            Step(c, s, Run(TheTurn, o)) ==
            WithOps(Holding(s, o), TheTurn, [TellHold(Buyer, cutoff)] + ([TellHold(Seller, cutoff)] + rest))
  {
    hide Apply, Step, Noted, WithOps;
    assert s.turn[1..] == rest && s.turn[0] == StartHold;
    RunIs(c, s, TheTurn, o);
    BeginHoldIs(s, o);
    var cutoff := LastId(s.log);
    assert [TellHold(Buyer, cutoff), TellHold(Seller, cutoff)] + rest
        == [TellHold(Buyer, cutoff)] + ([TellHold(Seller, cutoff)] + rest);
  }

  lemma HoldingIs(s: Sys, o: Oracle)
    ensures var after := Holding(s, o);
            && after.log == s.log && after.row == s.row && after.now == s.now
            && |after.events| == |s.events| + 1 && after.events[|s.events|].body == Held(LastId(s.log))
  {
    hide Noted;
    OneNoted(s, Held(LastId(s.log)), s.now, o.gap);
    NotedIs(s, Held(LastId(s.log)), s.now, o.gap);
  }

  lemma OneNoted(s: Sys, body: EventBody, at: int, gap: nat)
    ensures var events := Noted(s, body, at, gap).events;
            |events| == |s.events| + 1 && events[|s.events|].body == body
  {
  }

  /** A hold can tell both parties. */
  lemma {:induction false} HoldReachesBoth(c: Config, s: Sys, rest: seq<Op>) returns (moves: seq<Move>)
    requires s.turn == [StartHold] + rest && s.row.state.Mediating() && Arrival(s.log)
    ensures var after := Exec(c, s, moves);
            && after.turn == rest && after.row == s.row
            && |after.events| == |s.events| + 1 && after.events[|s.events|].body == Held(LastId(s.log))
            && forall p :: Told(after.log, Telling(p, HoldNotice, WhileMediating, LastId(s.log)))
  {
    hide Exec, Step, Told, Arrival, WithOps, OnlyTold, Holding;
    var go := Runs.Goes(TheTurn, s.now);
    HoldIsAhead(c, s, rest, go.oracle);
    HoldingIs(s, go.oracle);
    Runs.OneStep(c, s, go);
    var cutoff := LastId(s.log);
    WithOpsIs(Holding(s, go.oracle), TheTurn, [TellHold(Buyer, cutoff)] + ([TellHold(Seller, cutoff)] + rest));
    var holding := Step(c, s, go);
    var more := TellsBoth(c, holding, TheTurn, TellHold(Buyer, cutoff), TellHold(Seller, cutoff), rest);
    moves := [go] + more;
    Runs.ExecAppend(c, s, [go], more);
    OnlyToldIs(holding, Exec(c, s, moves), TheTurn, rest);
    forall p: Party
      ensures Told(Exec(c, s, moves).log, Telling(p, HoldNotice, WhileMediating, cutoff))
    {
      assert p == Buyer || p == Seller;
    }
  }
}

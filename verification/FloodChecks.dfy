/** When a flood is found (src/mediation/turn.rs): who gets a strike, and that
    the second one hands the session off. */
module FloodChecks {
  import opened Domain
  import opened Next
  import opened Policy
  import opened MessageLog
  import opened Views
  import opened EventLog
  import opened Sessions
  import opened JudgeState
  import opened Mediation
  import opened Effects
  import opened Protocol
  import opened Turns
  import opened Flood
  import Runs

  /** Past every message that a strike or a judged turn already counted. */
  ghost predicate Uncounted(s: Sys, id: nat) {
    && (forall e :: e in s.events && e.body.FloodStrike? ==> e.body.lastMessage < id)
    && (forall v :: v in s.evaluations ==> v.lastMessage < id)
  }

  /** The party's messages among those the turn read that count in this turn. */
  ghost function NewMessages(s: Sys, n: nat, p: Party): set<Message>
    requires n <= |s.log|
  {
    set m | m in s.log[..n] && m.direction.In? && m.party == p && Uncounted(s, m.id)
  }

  ghost function StrikesFor(events: seq<Event>, p: Party): set<Event> {
    set e | e in events && e.body.FloodStrike? && e.body.party == p
  }

  /** The step recorded a strike of the party. */
  ghost predicate StruckNow(before: seq<Event>, after: seq<Event>, p: Party) {
    exists i :: |before| <= i < |after| && after[i].body.FloodStrike? && after[i].body.party == p
  }

  /** The party was struck, and not for the first time. */
  ghost predicate FloodsNow(before: seq<Event>, after: seq<Event>, p: Party) {
    StruckNow(before, after, p) && |StrikesFor(after, p)| >= 2
  }

  // ----- the counts are sizes -----

  function MessagesAfter(log: seq<Message>, p: Party, cutoff: nat): set<Message> {
    set m | m in log && IsIn(m, p) && m.id > cutoff
  }

  lemma OneMoreMessage(log: seq<Message>, m: Message, p: Party, cutoff: nat)
    requires m !in log
    ensures m !in MessagesAfter(log, p, cutoff)
    ensures IsIn(m, p) && m.id > cutoff ==>
              MessagesAfter(log + [m], p, cutoff) == MessagesAfter(log, p, cutoff) + {m}
    ensures !(IsIn(m, p) && m.id > cutoff) ==> MessagesAfter(log + [m], p, cutoff) == MessagesAfter(log, p, cutoff)
  {
    hide IsIn;
  }

  lemma {:induction false} CountInIs(log: seq<Message>, p: Party, cutoff: nat)
    requires Arrival(log)
    ensures CountIn(log, p, cutoff) == |MessagesAfter(log, p, cutoff)|
  {
    hide MessagesAfter, IsIn;
    if log == [] {
      NoMessages(p, cutoff);
    } else {
      var n := |log| - 1;
      ArrivalPrefix(log, n);
      CountInIs(log[..n], p, cutoff);
      assert log == log[..n] + [log[n]];
      OneMoreMessage(log[..n], log[n], p, cutoff);
    }
  }

  lemma NoMessages(p: Party, cutoff: nat)
    ensures MessagesAfter([], p, cutoff) == {}
  {
  }

  lemma AppendedPrefix(events: seq<Event>, n: nat)
    requires Appended(events) && n <= |events|
    ensures Appended(events[..n])
  {
  }

  lemma OneMoreEvent(events: seq<Event>, e: Event, p: Party)
    requires e !in events
    ensures e !in StrikesFor(events, p)
    ensures e.body.FloodStrike? && e.body.party == p ==> StrikesFor(events + [e], p) == StrikesFor(events, p) + {e}
    ensures !(e.body.FloodStrike? && e.body.party == p) ==> StrikesFor(events + [e], p) == StrikesFor(events, p)
  {
  }

  lemma {:induction false} StrikesOfIs(events: seq<Event>, p: Party)
    requires Appended(events)
    ensures StrikesOf(events, p) == |StrikesFor(events, p)|
  {
    hide StrikesFor;
    if events == [] {
      NoEvents(p);
    } else {
      var n := |events| - 1;
      AppendedPrefix(events, n);
      StrikesOfIs(events[..n], p);
      assert events == events[..n] + [events[n]];
      OneMoreEvent(events[..n], events[n], p);
    }
  }

  lemma NoEvents(p: Party)
    ensures StrikesFor([], p) == {}
  {
  }

  lemma {:induction false} LastStrikeBelow(events: seq<Event>, id: nat)
    requires id > 0
    ensures LastStrike(events) < id <==> forall e :: e in events && e.body.FloodStrike? ==> e.body.lastMessage < id
  {
    if events != [] {
      var n := |events| - 1;
      LastStrikeBelow(events[..n], id);
      assert events == events[..n] + [events[n]];
      assert events[n] in events;
    }
  }

  lemma {:induction false} LastJudgedBelow(evaluations: seq<Evaluation>, id: nat)
    requires id > 0
    ensures LastJudged(evaluations) < id <==> forall v :: v in evaluations ==> v.lastMessage < id
  {
    if evaluations != [] {
      var n := |evaluations| - 1;
      LastJudgedBelow(evaluations[..n], id);
      assert evaluations == evaluations[..n] + [evaluations[n]];
      assert evaluations[n] in evaluations;
    }
  }

  lemma UncountedIs(s: Sys, id: nat)
    requires id > 0
    ensures Uncounted(s, id) <==> Counted(s) < id
  {
    hide LastStrike, LastJudged;
    LastStrikeBelow(s.events, id);
    LastJudgedBelow(s.evaluations, id);
  }

  lemma NewMessagesAre(s: Sys, n: nat, p: Party)
    requires Arrival(s.log) && n <= |s.log|
    ensures |NewMessages(s, n, p)| == CountIn(s.log[..n], p, Counted(s))
  {
    hide Uncounted, Counted, CountIn;
    ArrivalPrefix(s.log, n);
    CountInIs(s.log[..n], p, Counted(s));
    forall m | m in s.log[..n]
      ensures Uncounted(s, m.id) <==> m.id > Counted(s)
    {
      var i :| 0 <= i < n && s.log[i] == m;
      UncountedIs(s, m.id);
    }
    assert NewMessages(s, n, p) == MessagesAfter(s.log[..n], p, Counted(s));
  }

  // ----- one check -----

  /** What the check decides: a strike for each party that wrote too much, and
      a handoff once one of them has two. */
  ghost predicate Checked(c: Config, s: Sys, after: Sys, session: Row, n: nat)
    requires n <= |s.log|
  {
    && s.events <= after.events
    && (forall i :: |s.events| <= i < |after.events| ==>
          var body := after.events[i].body;
          body.FloodStrike? && body == FloodStrike(body.party, |NewMessages(s, n, body.party)|, LastId(s.log[..n])))
    && (forall p :: StruckNow(s.events, after.events, p) <==> |NewMessages(s, n, p)| > c.maxMessagesPerTurn)
    && (after.turn == [HandOff(Reason.Flood)] <==>
          exists p :: FloodsNow(s.events, after.events, p))
    && (after.turn == [HandOff(Reason.Flood)] || after.turn == [AskJudge(session, n)])
  }

  lemma ChecksIf(c: Config, s: Sys, op: Op, rest: seq<Op>, o: Oracle)
    requires op.CheckFlood? && op.n <= |s.log|
    ensures var (e, left) := RunOp(c, s, TheTurn, op, rest, o);
            var messages := s.log[..op.n];
            if o.ok && (Wrote(Listed(messages), Buyer) || Wrote(Listed(messages), Seller))
            then e == Append(s.row, Strikes(c, s, messages))
                 && left == (if Floods(c, s, Buyer, messages) || Floods(c, s, Seller, messages)
                             then [HandOff(Reason.Flood)] else [AskJudge(op.session, op.n)])
            else left == [] && e == if o.ok then NoEffect else Defer
  {
    hide Strikes, Floods, Listed, Wrote;
  }

  /** The strikes of a check, party by party. */
  lemma StrikeBodiesAre(c: Config, s: Sys, messages: seq<Message>, i: nat)
    requires i < |Strikes(c, s, messages)|
    ensures var body := Strikes(c, s, messages)[i];
            && body.FloodStrike? && Strike(c, body.party, messages, Counted(s)) == [body]
            && body == FloodStrike(body.party, CountIn(messages, body.party, Counted(s)), LastId(messages))
  {
    hide CountIn, Counted;
  }

  lemma StrikeIsThere(c: Config, s: Sys, messages: seq<Message>, p: Party)
    ensures (exists i :: 0 <= i < |Strikes(c, s, messages)| && Strikes(c, s, messages)[i].FloodStrike?
                         && Strikes(c, s, messages)[i].party == p)
            <==> CountIn(messages, p, Counted(s)) > c.maxMessagesPerTurn
  {
    hide CountIn, Counted;
    var buyer, seller := Strike(c, Buyer, messages, Counted(s)), Strike(c, Seller, messages, Counted(s));
    var all := Strikes(c, s, messages);
    assert all == buyer + seller;
    if CountIn(messages, p, Counted(s)) > c.maxMessagesPerTurn {
      var i := if p == Buyer then 0 else |buyer|;
      assert all[i].FloodStrike? && all[i].party == p;
    }
  }

  lemma RecordedStrikes(c: Config, s: Sys, n: nat, o: Oracle, after: seq<Event>)
    requires Logs(s) && n <= |s.log| && after == NotedAll(s, Strikes(c, s, s.log[..n]), o.at, o.gap).events
    ensures s.events <= after
    ensures forall i :: |s.events| <= i < |after| ==>
              var body := after[i].body;
              body.FloodStrike? && body == FloodStrike(body.party, |NewMessages(s, n, body.party)|, LastId(s.log[..n]))
    ensures forall p :: StruckNow(s.events, after, p) <==> |NewMessages(s, n, p)| > c.maxMessagesPerTurn
  {
    hide NotedAll, Strikes, Strike, NewMessages, CountIn, Counted, StruckNow, Appended;
    var messages := s.log[..n];
    var bodies := Strikes(c, s, messages);
    NotedAllBodies(s, bodies, o.at, o.gap);
    assert forall i :: |s.events| <= i < |after| ==> after[i].body == bodies[i - |s.events|];
    forall i | 0 <= i < |bodies|
      ensures bodies[i].FloodStrike?
      ensures bodies[i] == FloodStrike(bodies[i].party, |NewMessages(s, n, bodies[i].party)|, LastId(messages))
    {
      StrikeBodiesAre(c, s, messages, i);
      NewMessagesAre(s, n, bodies[i].party);
    }
    forall p: Party
      ensures StruckNow(s.events, after, p) <==> |NewMessages(s, n, p)| > c.maxMessagesPerTurn
    {
      NewMessagesAre(s, n, p);
      StrikeIsThere(c, s, messages, p);
      StruckByBody(s.events, after, bodies, p);
    }
  }

  lemma StruckByBody(before: seq<Event>, after: seq<Event>, bodies: seq<EventBody>, p: Party)
    requires |after| == |before| + |bodies|
    requires forall i :: 0 <= i < |bodies| ==> after[|before| + i].body == bodies[i]
    ensures StruckNow(before, after, p)
            <==> exists i :: 0 <= i < |bodies| && bodies[i].FloodStrike? && bodies[i].party == p
  {
    if StruckNow(before, after, p) {
      var i :| |before| <= i < |after| && after[i].body.FloodStrike? && after[i].body.party == p;
      assert bodies[i - |before|] == after[|before| + (i - |before|)].body;
    }
  }

  /** The second strike is a flood, and nothing else is. */
  lemma SecondStrike(c: Config, s: Sys, n: nat, o: Oracle, p: Party)
    requires Logs(s) && n <= |s.log|
    ensures var after := NotedAll(s, Strikes(c, s, s.log[..n]), o.at, o.gap).events;
            Floods(c, s, p, s.log[..n])
            <==> StruckNow(s.events, after, p) && |StrikesFor(after, p)| >= 2
  {
    hide NotedAll, Strikes, NewMessages, CountIn, Counted, StrikesFor, StrikesOf, StruckNow;
    var messages := s.log[..n];
    var bodies := Strikes(c, s, messages);
    var after := NotedAll(s, bodies, o.at, o.gap).events;
    NotedAllKeepsLogs(s, bodies, o.at, o.gap);
    RecordedStrikes(c, s, n, o, after);
    NewMessagesAre(s, n, p);
    NotedAllStrikes(s, bodies, o.at, o.gap, p);
    StrikesAre(c, s, messages, p);
    StrikesOfIs(after, p);
  }

  /** What one flood check does. */
  lemma CheckIsRight(c: Config, s: Sys, op: Op, rest: seq<Op>, o: Oracle)
    requires Logs(s) && s.turn == [op] + rest && op.CheckFlood? && op.n <= |s.log|
    ensures var after := Step(c, s, Run(TheTurn, o));
            var messages := s.log[..op.n];
            if o.ok && (Wrote(Listed(messages), Buyer) || Wrote(Listed(messages), Seller))
            then Checked(c, s, after, op.session, op.n)
            else after.turn == [] && after.events == s.events && after.wake == (s.wake || !o.ok)
  {
    hide Step, RunOp, Apply, Strikes, Floods, NotedAll, Listed, Wrote, NewMessages, StrikesFor, StruckNow, Logs;
    assert s.turn[1..] == rest && s.turn[0] == op;
    RunIs(c, s, TheTurn, o);
    ChecksIf(c, s, op, rest, o);
    var e := RunOp(c, s, TheTurn, op, rest, o).0;
    if e.Append? {
      AppendIs(s, e, o);
      assert s.(row := s.row) == s;
      RecordedStrikes(c, s, op.n, o, Step(c, s, Run(TheTurn, o)).events);
      SecondStrike(c, s, op.n, o, Buyer);
      SecondStrike(c, s, op.n, o, Seller);
      EitherParty(s.events, Step(c, s, Run(TheTurn, o)).events);
    } else {
      ApplyIs(s, e, o);
    }
  }

  lemma EitherParty(before: seq<Event>, after: seq<Event>)
    ensures (exists p :: FloodsNow(before, after, p))
            <==> FloodsNow(before, after, Buyer) || FloodsNow(before, after, Seller)
  {
    if p :| FloodsNow(before, after, p) {
      assert p == Buyer || p == Seller;
    }
  }

  /** In every run, a flood check whose judge is ready and that finds
      something to judge gives a strike to each party that wrote more than
      `max_messages_per_turn` messages since every strike and judged turn, and
      to no other; it hands the session off for a flood exactly when a party
      it struck now has two strikes. */
  lemma {:induction false} FloodIsFound(c: Config, dispute: string, now: int, moves: seq<Move>, o: Oracle)
    requires var s := Exec(c, Initial(dispute, now), moves);
             s.turn != [] && s.turn[0].CheckFlood? && o.ok
    ensures var s := Exec(c, Initial(dispute, now), moves);
            var (session, n) := (s.turn[0].session, s.turn[0].n);
            && n <= |s.log|
            && (Wrote(Listed(s.log[..n]), Buyer) || Wrote(Listed(s.log[..n]), Seller) ==>
                  Checked(c, s, Step(c, s, Run(TheTurn, o)), session, n))
  {
    hide Exec, Step, Checked, Listed, Wrote, ProtocolOk;
    var s := Exec(c, Initial(dispute, now), moves);
    RunsAreOk(c, dispute, now, moves);
    RunsRead(c, dispute, now, moves);
    LogsOk(s);
    var op := s.turn[0];
    assert op in s.turn && s.turn == [op] + s.turn[1..];
    CheckIsRight(c, s, op, s.turn[1..], o);
  }

  // ----- a run that ends handed off for a flood -----

  /** The buyer writes `n` messages in a row. */
  function Burst(last: nat, n: nat): seq<Message> {
    if n == 0 then [] else Burst(last, n - 1) + [Message(last + n, In, Buyer, None, 200)]
  }

  lemma {:induction false} BurstIs(log: seq<Message>, n: nat)
    ensures |Burst(LastId(log), n)| == n && LastId(log + Burst(LastId(log), n)) == LastId(log) + n
    ensures forall m :: m in Burst(LastId(log), n) ==> IsIn(m, Buyer)
  {
    if n > 0 {
      BurstIs(log, n - 1);
    }
  }

  lemma NoSteps(c: Config, s: Sys)
    ensures Exec(c, s, []) == s
  {
  }

  lemma OneMoreInBurst(c: Config, s: Sys, n: nat)
    ensures var log := s.log + Burst(LastId(s.log), n);
            Step(c, s.(log := log, wake := s.wake || n > 0), Receive(Buyer, 200, 0))
            == s.(log := s.log + Burst(LastId(s.log), n + 1), wake := true)
  {
    hide Step;
    BurstIs(s.log, n);
    var log := s.log + Burst(LastId(s.log), n);
    Runs.Receives(c, s.(log := log, wake := s.wake || n > 0), Buyer, 200);
    assert log + [Message(LastId(s.log) + n + 1, In, Buyer, None, 200)] == s.log + Burst(LastId(s.log), n + 1);
  }

  lemma {:induction false} BurstArrives(c: Config, s: Sys, n: nat) returns (moves: seq<Move>)
    ensures Exec(c, s, moves) == s.(log := s.log + Burst(LastId(s.log), n), wake := s.wake || n > 0)
  {
    hide Step, Exec;
    if n == 0 {
      moves := [];
      NoSteps(c, s);
      assert s.log + [] == s.log;
    } else {
      var before := BurstArrives(c, s, n - 1);
      moves := before + [Receive(Buyer, 200, 0)];
      Runs.ExecStep(c, s, before, Receive(Buyer, 200, 0));
      OneMoreInBurst(c, s, n - 1);
    }
  }

  lemma {:induction false} BurstCounts(log: seq<Message>, n: nat, cutoff: nat)
    requires cutoff <= LastId(log)
    ensures CountIn(log + Burst(LastId(log), n), Buyer, cutoff) >= n
  {
    if n > 0 {
      BurstCounts(log, n - 1, cutoff);
      var m := Message(LastId(log) + n, In, Buyer, None, 200);
      UpToAppend(log + Burst(LastId(log), n - 1), m, Buyer, cutoff);
      assert log + Burst(LastId(log), n) == log + Burst(LastId(log), n - 1) + [m];
    }
  }

  /** The turn loads the session and checks it. */
  lemma TurnChecks(c: Config, s: Sys, facts: Facts)
    requires s.row.state.Active? && s.turn == [] && s.wake && Wrote(Listed(s.log), Buyer)
    ensures var j := Runs.Judges(facts);
            Exec(c, s, [StartTurn, j, j]) ==
            NotedAll(Started(s), Strikes(c, s, s.log), 0, 0).(
              turn := if Floods(c, s, Buyer, s.log) || Floods(c, s, Seller, s.log)
                      then [HandOff(Reason.Flood)] else [AskJudge(s.row, |s.log|)])
  {
    hide Listed, Wrote, Strike, Counted, Exec, Step, RunOp, Apply, NotedAll, Floods, StrikesOf;
    var j := Runs.Judges(facts);
    Runs.ThreeSteps(c, s, StartTurn, j, j);
    LoadsActive(c, s, j.oracle);
    var loaded := Started(s).(turn := [CheckFlood(s.row, |s.log|)]);
    assert s.log[..|s.log|] == s.log && loaded.turn[1..] == [];
    SameStrikes(c, s, loaded);
    ChecksIf(c, loaded, loaded.turn[0], [], j.oracle);
    RunIs(c, loaded, TheTurn, j.oracle);
    var e := RunOp(c, loaded, TheTurn, loaded.turn[0], [], j.oracle).0;
    AppendIs(loaded, e, j.oracle);
    assert loaded.(row := loaded.row) == loaded;
    NotedWithTurn(Started(s), e.bodies, loaded.turn);
  }

  lemma LoadsActive(c: Config, s: Sys, o: Oracle)
    requires s.row.state.Active? && s.turn == [] && s.wake
    ensures Step(c, Step(c, s, StartTurn), Run(TheTurn, o)) == Started(s).(turn := [CheckFlood(s.row, |s.log|)])
  {
    assert Started(s).turn[1..] == [];
  }

  lemma SameStrikes(c: Config, s: Sys, after: Sys)
    requires s.events == after.events && s.evaluations == after.evaluations
    ensures Strikes(c, s, s.log) == Strikes(c, after, s.log)
    ensures forall p :: Floods(c, s, p, s.log) == Floods(c, after, p, s.log)
  {
    hide Strike, StrikesOf, LastStrike, LastJudged;
  }

  lemma {:induction false} NotedWithTurn(s: Sys, bodies: seq<EventBody>, turn: seq<Op>)
    ensures NotedAll(s.(turn := turn), bodies, 0, 0).(turn := s.turn) == NotedAll(s, bodies, 0, 0)
    decreases |bodies|
  {
    if bodies != [] {
      NotedWithTurn(Noted(s, bodies[0], 0, 0), bodies[1..], turn);
    }
  }

  /** The buyer wrote after both openers, and the seller did not. */
  lemma BurstIsRead(log: seq<Message>, more: seq<Message>)
    requires log == Runs.Openers() + more && more != [] && Arrival(log)
    requires forall m :: m in more ==> IsIn(m, Buyer) && m.createdAt == 200
    ensures Wrote(Listed(log), Buyer)
    ensures CountIn(log, Seller, 0) == 0
  {
    hide Listed, Wrote;
    WroteIff(log, Buyer);
    var m := more[0];
    assert m in log && IsIn(m, Buyer);
    assert forall x :: x in log && IsOut(x, Buyer) ==> x in Runs.Openers();
    NoneIn(log, Seller, 0);
  }

  lemma {:induction false} NoneIn(log: seq<Message>, p: Party, cutoff: nat)
    requires forall m :: m in log ==> !IsIn(m, p)
    ensures CountIn(log, p, cutoff) == 0
  {
    if log != [] {
      NoneIn(log[..|log| - 1], p, cutoff);
    }
  }

  lemma {:induction false} BurstTimes(last: nat, n: nat)
    ensures forall m :: m in Burst(last, n) ==> IsIn(m, Buyer) && m.createdAt == 200
  {
    if n > 0 {
      BurstTimes(last, n - 1);
    }
  }

  lemma {:induction false} BurstArrival(log: seq<Message>, n: nat)
    requires Arrival(log)
    ensures Arrival(log + Burst(LastId(log), n))
  {
    hide Arrival;
    if n == 0 {
      assert log + [] == log;
    } else {
      BurstArrival(log, n - 1);
      BurstIs(log, n - 1);
      var before := log + Burst(LastId(log), n - 1);
      var m := Message(LastId(log) + n, In, Buyer, None, 200);
      assert log + Burst(LastId(log), n) == before + [m];
      OneMoreArrives(before, m);
    }
  }

  lemma OneMoreArrives(log: seq<Message>, m: Message)
    requires Arrival(log) && m.id > LastId(log)
    ensures Arrival(log + [m])
  {
  }

  /** A first window of messages costs the buyer a strike, and the turn goes
      on to the judge. */
  lemma FirstStrike(c: Config, s: Sys, n: nat, facts: Facts)
    requires s.row.state.Active? && s.turn == [] && s.wake && s.events == [] && s.evaluations == []
    requires n > c.maxMessagesPerTurn && s.log == Runs.Openers() + Burst(2, n)
    ensures var j := Runs.Judges(facts);
            var after := Exec(c, s, [StartTurn, j, j]);
            && after.row == s.row && after.log == s.log && after.evaluations == [] && after.wake == false
            && after.turn == [AskJudge(s.row, |s.log|)]
            && StrikesOf(after.events, Buyer) == 1 && LastStrike(after.events) == LastId(s.log)
  {
    hide Listed, Wrote, CountIn, Exec, NotedAll, Strikes;
    assert LastId(Runs.Openers()) == 2;
    BurstArrival(Runs.Openers(), n);
    BurstTimes(2, n);
    BurstIs(Runs.Openers(), n);
    BurstIsRead(s.log, Burst(2, n));
    TurnChecks(c, s, facts);
    BurstCounts(Runs.Openers(), n, 0);
    var bodies := Strikes(c, s, s.log);
    var started := Started(s);
    StrikesAre(c, s, s.log, Buyer);
    StrikesAre(c, s, s.log, Seller);
    NotedAllStrikes(started, bodies, 0, 0, Buyer);
    NotedAllLastStrike(started, bodies, 0, 0, LastId(s.log));
    NotedAllBodies(started, bodies, 0, 0);
  }

  /** A second one is a flood. */
  lemma SecondWindow(c: Config, s: Sys, last: nat, n: nat, facts: Facts)
    requires s.row.state.Active? && s.turn == [] && s.wake && s.evaluations == []
    requires StrikesOf(s.events, Buyer) == 1 && LastStrike(s.events) == last
    requires n > c.maxMessagesPerTurn && Arrival(s.log) && Wrote(Listed(s.log), Buyer) && CountIn(s.log, Buyer, last) >= n
    ensures var j := Runs.Judges(facts);
            Exec(c, s, [StartTurn, j, j] + [j]).row.handoffReason == Some(Reason.Flood)
  {
    hide Listed, Wrote, CountIn, Exec, NotedAll, Strikes, Step, StrikesOf, LastStrike;
    var j := Runs.Judges(facts);
    TurnChecks(c, s, facts);
    var noted := NotedAll(Started(s), Strikes(c, s, s.log), 0, 0);
    NotedAllBodies(Started(s), Strikes(c, s, s.log), 0, 0);
    IsAFlood(c, s, last, n);
    var flooded := noted.(turn := [HandOff(Reason.Flood)]);
    Runs.ExecAppend(c, s, [StartTurn, j, j], [j]);
    Runs.OneStep(c, flooded, j);
    HandsOff(c, flooded, j.oracle);
  }

  lemma IsAFlood(c: Config, s: Sys, last: nat, n: nat)
    requires s.evaluations == [] && StrikesOf(s.events, Buyer) == 1 && LastStrike(s.events) == last
    requires n > c.maxMessagesPerTurn && CountIn(s.log, Buyer, last) >= n
    ensures Floods(c, s, Buyer, s.log)
  {
    hide CountIn, StrikesOf, LastStrike;
    assert Counted(s) == last;
  }

  lemma HandsOff(c: Config, s: Sys, o: Oracle)
    requires s.turn == [HandOff(Reason.Flood)] && s.row.state.Active?
    ensures Step(c, s, Run(TheTurn, o)).row.handoffReason == Some(Reason.Flood)
  {
    hide Apply, Step;
    assert s.turn[1..] == [] && s.turn[0] == HandOff(Reason.Flood);
    RunIs(c, s, TheTurn, o);
    HandOffIs(s, TheTurn, s.turn[0], [], o);
    ApplyIs(s, RunSharedOp(s, TheTurn, s.turn[0], [], o).0, o);
  }

  /** A newer message sends the turn back before the judge's answer counts. */
  lemma NewerDefers(c: Config, s: Sys, session: Row, n: nat, m: Message, facts: Facts)
    requires s.turn == [AskJudge(session, n)] && n <= |s.log|
    requires m in s.log && m.direction.In? && m.id > LastId(s.log[..n])
    ensures var j := Runs.Judges(facts);
            Exec(c, s, [j, j]) == s.(turn := [], wake := true)
  {
    hide Step, Exec;
    var j := Runs.Judges(facts);
    Runs.TwoSteps(c, s, j, j);
    Runs.AskStep(c, s, session, n, facts);
    DeferStep(c, s.(turn := [CheckNewer(session, n, facts)]), m, j.oracle);
  }

  lemma DeferStep(c: Config, s: Sys, m: Message, o: Oracle)
    requires |s.turn| == 1 && s.turn[0].CheckNewer? && s.turn[0].n <= |s.log|
    requires m in s.log && m.direction.In? && m.id > LastId(s.log[..s.turn[0].n])
    ensures Step(c, s, Run(TheTurn, o)) == s.(turn := [], wake := true)
  {
    hide Apply;
    var e := RunOp(c, s, TheTurn, s.turn[0], s.turn[1..], o).0;
    assert e == Defer;
    DeferIs(s, o);
  }

  lemma DeferIs(s: Sys, o: Oracle)
    ensures Apply(s, Defer, o) == s.(wake := true)
  {
  }

  /** Whatever the limit, a buyer who twice writes more than it, with no
      judged turn between, has the session handed off for a flood. */
  lemma AFloodIsHandedOff(c: Config, dispute: string, facts: Facts) returns (moves: seq<Move>)
    ensures Exec(c, Initial(dispute, 100), moves).row.handoffReason == Some(Reason.Flood)
  {
    hide Exec, Step, Listed, Wrote, CountIn, StrikesOf, LastStrike, Arrival;
    var j := Runs.Judges(facts);
    var n := c.maxMessagesPerTurn + 1;
    var s := Initial(dispute, 100);
    var opens := Runs.Opens(c, dispute);
    var active := Runs.Opened(dispute);
    var first := BurstArrives(c, active, n);
    var one := Exec(c, active, first);
    FirstStrike(c, one, n, facts);
    var struck := Exec(c, one, [StartTurn, j, j]);
    var second := BurstArrives(c, struck, n);
    var two := Exec(c, struck, second);
    BothWindows(c, one.log, n);
    var m := Burst(LastId(one.log), n)[0];
    assert two.log[..|one.log|] == one.log;
    NewerDefers(c, two, one.row, |one.log|, m, facts);
    var again := two.(turn := [], wake := true);
    SecondWindow(c, again, LastId(one.log), n, facts);
    moves := opens + first + [StartTurn, j, j] + second + [j, j] + ([StartTurn, j, j] + [j]);
    Runs.ExecAppend(c, s, opens, first);
    Runs.ExecAppend(c, s, opens + first, [StartTurn, j, j]);
    Runs.ExecAppend(c, s, opens + first + [StartTurn, j, j], second);
    Runs.ExecAppend(c, s, opens + first + [StartTurn, j, j] + second, [j, j]);
    Runs.ExecAppend(c, s, opens + first + [StartTurn, j, j] + second + [j, j], [StartTurn, j, j] + [j]);
  }

  lemma BothWindows(c: Config, log: seq<Message>, n: nat)
    requires log == Runs.Openers() + Burst(2, n) && n > 0
    ensures var both := log + Burst(LastId(log), n);
            && Arrival(both) && Wrote(Listed(both), Buyer) && CountIn(both, Buyer, LastId(log)) >= n
            && |Burst(LastId(log), n)| == n
            && both[|log|].direction.In? && both[|log|].id > LastId(log)
  {
    hide Listed, Wrote, CountIn;
    BurstArrival(Runs.Openers(), n);
    BurstArrival(log, n);
    BurstIs(log, n);
    BurstTimes(2, n);
    BurstTimes(LastId(log), n);
    BurstCounts(log, n, LastId(log));
    var both := log + Burst(LastId(log), n);
    assert both == Runs.Openers() + (Burst(2, n) + Burst(LastId(log), n));
    BurstIsRead(both, Burst(2, n) + Burst(LastId(log), n));
    BurstIs(Runs.Openers(), n);
    assert both[|log| - 1] == log[|log| - 1];
  }
}

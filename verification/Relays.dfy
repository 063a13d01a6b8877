/** What relays took against what is stored: the send to the relays and the
    row of the message are two steps, and a process that stops in between, or
    a store that fails, loses the row of a message a party received. */
module Relays {
  import opened Domain
  import opened Next
  import opened Policy
  import opened MessageLog
  import opened EventLog
  import opened Sessions
  import opened JudgeState
  import opened Mediation
  import opened Effects
  import opened Protocol
  import Timers

  /** The stored rows of a message to a party. */
  function Rows(log: seq<Message>, x: Letter): nat {
    if log == [] then 0
    else
      var n := |log| - 1;
      Rows(log[..n], x) + if IsOutTemplate(log[n], x.0, x.1) then 1 else 0
  }

  /** The step sends the message, or stores its row. */
  predicate Carries(op: Op, x: Letter) {
    (op.Send? || op.InFlight? || op.StoreRow?) && op.party == x.0 && op.template == x.1
  }

  /** How often an actor is about to send the message. */
  function Coming(ops: seq<Op>, x: Letter): nat {
    if ops == [] then 0 else (if Carries(ops[0], x) then 1 else 0) + Coming(ops[1..], x)
  }

  /** An actor stores a row in its next step or not at all. */
  predicate StoresFirst(ops: seq<Op>) {
    forall i :: 1 <= i < |ops| ==> !ops[i].StoreRow?
  }

  /** Each message a relay took has a row, or lost it, or is about to be
      stored. */
  ghost predicate Balanced(s: Sys) {
    && StoresFirst(s.opening) && StoresFirst(s.turn) && StoresFirst(s.tick)
    && forall x: Letter :: s.ledger.sent[x] == Rows(s.log, x) + s.ledger.lost[x] + OnTheWay(s, x)
  }

  function OnTheWay(s: Sys, x: Letter): nat {
    Unstored(s.opening)[x] + Unstored(s.turn)[x] + Unstored(s.tick)[x]
  }

  // ----- counting -----

  lemma RowsAppend(log: seq<Message>, m: Message, x: Letter)
    ensures Rows(log + [m], x) == Rows(log, x) + if IsOutTemplate(m, x.0, x.1) then 1 else 0
  {
    assert (log + [m])[..|log|] == log;
  }

  lemma NoRows(log: seq<Message>, x: Letter)
    requires forall m :: m in log ==> !IsOutTemplate(m, x.0, x.1)
    ensures Rows(log, x) == 0
  {
    if log != [] {
      assert log[|log| - 1] in log;
      NoRows(log[..|log| - 1], x);
    }
  }

  lemma ComingAppend(a: seq<Op>, b: seq<Op>, x: Letter)
    ensures Coming(a + b, x) == Coming(a, x) + Coming(b, x)
  {
    if a == [] {
      assert a + b == b;
    } else {
      assert (a + b)[1..] == a[1..] + b;
      ComingAppend(a[1..], b, x);
    }
  }

  lemma OneComing(op: Op, x: Letter)
    ensures Coming([op], x) == if Carries(op, x) then 1 else 0
  {
    assert [op][1..] == [];
  }

  lemma NothingComing(ops: seq<Op>, x: Letter)
    requires forall op :: op in ops ==> !Carries(op, x)
    ensures Coming(ops, x) == 0
  {
    if ops != [] {
      assert ops[0] in ops;
      NothingComing(ops[1..], x);
    }
  }

  lemma ToRetryComesLess(ops: seq<Op>, x: Letter)
    ensures Coming(ToRetry(ops), x) <= Coming(ops, x)
  {
  }

  lemma RowsAfter(s: Sys, e: Effect, o: Oracle, x: Letter)
    ensures Rows(Apply(s, e, o).log, x) == Rows(s.log, x) + if e == StoreOut(x.0, x.1) then 1 else 0
  {
    hide Apply;
    ApplyIs(s, e, o);
    if e.StoreOut? {
      RowsAppend(s.log, Apply(s, e, o).log[|s.log|], x);
    }
  }

  /** Sending makes no new sends of a question or a reminder: it comes to a
      row, or to nothing. */
  lemma SharedComing(s: Sys, a: Actor, op: Op, rest: seq<Op>, o: Oracle, x: Letter)
    requires IsShared(op) && (IsQuestion(x.1) || x.1 == Reminder)
    requires op.TellGuide? ==> IsGuide(op.template)
    ensures var (e, left) := RunSharedOp(s, a, op, rest, o);
            Coming(left, x) + (if e == StoreOut(x.0, x.1) then 1 else 0) <= Coming([op] + rest, x)
  {
    hide HasRemedy, Received, ReceivedEver;
    var left := RunSharedOp(s, a, op, rest, o).1;
    ComingAppend([op], rest, x);
    OneComing(op, x);
    ToRetryComesLess(rest, x);
    OneComing(Abandon, x);
    if !op.Send? && !op.InFlight? && !op.StoreRow? {
      SharedAdds(s, a, op, rest, o, x);
    } else if left != [] && left == [left[0]] + rest {
      ComingAppend([left[0]], rest, x);
      OneComing(left[0], x);
    }
  }

  lemma SharedAdds(s: Sys, a: Actor, op: Op, rest: seq<Op>, o: Oracle, x: Letter)
    requires IsShared(op) && (IsQuestion(x.1) || x.1 == Reminder)
    requires op.TellGuide? ==> IsGuide(op.template)
    requires !op.Send? && !op.InFlight? && !op.StoreRow?
    ensures Coming(RunSharedOp(s, a, op, rest, o).1, x) == Coming(rest, x)
    ensures !RunSharedOp(s, a, op, rest, o).0.StoreOut?
  {
    hide Received, ReceivedEver;
    var left := RunSharedOp(s, a, op, rest, o).1;
    var pre := left[..|left| - |rest|];
    assert left == pre + rest;
    ComingAppend(pre, rest, x);
    NothingComing(pre, x);
  }

  lemma UnstoredComes(ops: seq<Op>, x: Letter)
    ensures Unstored(ops)[x] <= Coming(ops, x)
  {
  }

  // ----- stores come first -----

  lemma SharedStoresFirst(s: Sys, a: Actor, op: Op, rest: seq<Op>, o: Oracle)
    requires IsShared(op) && forall y :: y in rest ==> !y.StoreRow?
    ensures var left := RunSharedOp(s, a, op, rest, o).1;
            if op.InFlight? && o.ok then left == [StoreRow(op.party, op.template, op.onFailure)] + rest
            else forall y :: y in left ==> !y.StoreRow?
  {
    hide Received, ReceivedEver, HasRemedy;
    ToRetryKeeps(rest);
  }

  lemma TurnStoresNothing(c: Config, s: Sys, op: Op, rest: seq<Op>, o: Oracle)
    requires forall y :: y in rest ==> !y.StoreRow?
    ensures forall y :: y in RunTurnOp(c, s, op, rest, o).1 ==> !y.StoreRow?
  {
    hide Judged, Decide, OnlyCourtesy, Resent, Strikes, Floods, Listed, Changes, WithLanguage, Unseen, ActionOps, Wrote;
    if op.Record? {
      ActionStoresNothing(op.turn.next, Decide(op.turn));
    }
  }

  lemma ActionStoresNothing(next: NextQuestions, action: Action)
    ensures forall y :: y in ActionOps(next, action) ==> !y.StoreRow?
  {
    if action.Ask? {
      SendsAre(Buyer, action.buyer);
      SendsAre(Seller, action.seller);
    }
  }

  lemma TickStoresNothing(c: Config, s: Sys, op: Op, rest: seq<Op>, o: Oracle)
    requires forall y :: y in rest ==> !y.StoreRow?
    ensures forall y :: y in RunTickOp(c, s, op, rest, o).1 ==> !y.StoreRow?
  {
    hide ClocksRead, Timers.Check, ReceivedEver;
    match op
    case ReadClocks(session) =>
      var timer := Timers.Check(ClocksRead(session, Listed(s.log), s.events, s.now), c.timeouts);
      if timer.Remind? {
        RemindersAre(timer.parties);
      }
    case Retry(session) => PendingBriefsAre(s.events, s.events);
    case _ =>
  }

  lemma LeftStoresFirst(c: Config, s: Sys, a: Actor, op: Op, rest: seq<Op>, o: Oracle)
    requires forall y :: y in rest ==> !y.StoreRow?
    ensures var left := RunOp(c, s, a, op, rest, o).1;
            && StoresFirst(left)
            && Unstored(left) == if op.InFlight? && o.ok then multiset{(op.party, op.template)} else multiset{}
  {
    hide RunSharedOp, RunTurnOp, RunTickOp;
    if IsShared(op) {
      SharedStoresFirst(s, a, op, rest, o);
    } else {
      TurnStoresNothing(c, s, op, rest, o);
      TickStoresNothing(c, s, op, rest, o);
    }
    var left := RunOp(c, s, a, op, rest, o).1;
    forall i | 0 <= i < |left|
      ensures left[i].StoreRow? ==> i == 0 && op.InFlight? && o.ok
    {
      assert left[i] in left;
      if op.InFlight? && o.ok && i > 0 {
        assert left[i] == rest[i - 1];
      }
    }
  }

  // ----- every step -----

  /** What the effect of a step adds to the books. */
  lemma EffectBalances(s: Sys, a: Actor, op: Op, o: Oracle, e: Effect, x: Letter)
    requires EffectAllowed(s, a, op, o, e)
    requires op.StoreRow? ==> e.StoreOut? || e.LoseRow?
    requires op.InFlight? && o.ok ==> e.RelayTook?
    ensures var after := Apply(s, e, o);
            && after.ledger.sent[x] == s.ledger.sent[x] + (if op.InFlight? && o.ok && Carries(op, x) then 1 else 0)
            && Rows(after.log, x) + after.ledger.lost[x]
               == Rows(s.log, x) + s.ledger.lost[x] + if op.StoreRow? && Carries(op, x) then 1 else 0
  {
    hide Apply, Rows;
    ApplyIs(s, e, o);
    RowsAfter(s, e, o, x);
  }

  lemma OnTheWayAfter(s: Sys, applied: Sys, a: Actor, left: seq<Op>, x: Letter)
    requires applied.opening == s.opening && applied.turn == s.turn && applied.tick == s.tick
    ensures OnTheWay(WithOps(applied, a, left), x) ==
            OnTheWay(s, x) - Unstored(OpsOf(s, a))[x] + Unstored(left)[x]
  {
    hide Unstored;
  }

  lemma StoresFirstAfter(s: Sys, applied: Sys, a: Actor, left: seq<Op>)
    requires applied.opening == s.opening && applied.turn == s.turn && applied.tick == s.tick
    requires StoresFirst(s.opening) && StoresFirst(s.turn) && StoresFirst(s.tick) && StoresFirst(left)
    ensures var after := WithOps(applied, a, left);
            StoresFirst(after.opening) && StoresFirst(after.turn) && StoresFirst(after.tick)
    ensures WithOps(applied, a, left).ledger == applied.ledger && WithOps(applied, a, left).log == applied.log
  {
    hide StoresFirst;
  }

  lemma RestStoresNothing(op: Op, rest: seq<Op>)
    requires StoresFirst([op] + rest)
    ensures forall y :: y in rest ==> !y.StoreRow?
  {
    forall y | y in rest
      ensures !y.StoreRow?
    {
      var i :| 0 <= i < |rest| && rest[i] == y;
      assert ([op] + rest)[i + 1] == y;
    }
  }

  lemma HeadUnstored(op: Op, rest: seq<Op>, x: Letter)
    ensures Unstored([op] + rest)[x] == if op.StoreRow? && Carries(op, x) then 1 else 0
    ensures op.InFlight? ==> multiset{(op.party, op.template)}[x] == if Carries(op, x) then 1 else 0
  {
  }

  lemma RunKeepsBalance(c: Config, s: Sys, a: Actor, o: Oracle)
    requires Balanced(s) && OpsOf(s, a) != []
    ensures Balanced(Step(c, s, Run(a, o)))
  {
    hide Step, RunOp, Apply, Rows, EffectAllowed, StoresFirst, Unstored, OnTheWay, WithOps, Carries;
    var op, rest := OpsOf(s, a)[0], OpsOf(s, a)[1..];
    var (e, left) := RunOp(c, s, a, op, rest, o);
    var applied := Apply(s, e, o);
    var after := WithOps(applied, a, left);
    assert OpsOf(s, a) == [op] + rest;
    RestStoresNothing(op, rest);
    RunEffects(c, s, a, op, rest, o);
    RunIs(c, s, a, o);
    LeftStoresFirst(c, s, a, op, rest, o);
    ApplyIs(s, e, o);
    StoresFirstAfter(s, applied, a, left);
    forall x: Letter
      ensures after.ledger.sent[x] == Rows(after.log, x) + after.ledger.lost[x] + OnTheWay(after, x)
    {
      EffectBalances(s, a, op, o, e, x);
      OnTheWayAfter(s, applied, a, left, x);
      HeadUnstored(op, rest, x);
    }
  }

  lemma RestartKeepsBalance(s: Sys)
    requires Balanced(s)
    ensures Balanced(Restarted(s))
  {
    hide Rows, HasRemedy, PendingAtStart;
  }

  /** The rows and the messages on their way stay, or one row comes in. */
  lemma SameBalance(s: Sys, after: Sys)
    requires Balanced(s) && after.ledger.sent == s.ledger.sent && after.ledger.lost == s.ledger.lost
    requires after.opening == s.opening
    requires after.turn == s.turn || (s.turn == [] && after.turn == [Load])
    requires after.tick == s.tick || (s.tick == [] && after.tick == [ListSession])
    requires forall x :: Rows(after.log, x) == Rows(s.log, x)
    ensures Balanced(after)
  {
    hide Rows;
  }

  lemma ReceivedIsNoRow(s: Sys, p: Party, createdAt: int, gap: nat, x: Letter)
    ensures Rows(Stored(s, In, p, None, createdAt, gap).log, x) == Rows(s.log, x)
  {
    RowsAppend(s.log, Message(LastId(s.log) + 1 + gap, In, p, None, createdAt), x);
  }

  lemma EnvironmentKeepsBalance(c: Config, s: Sys, m: Move)
    requires Balanced(s) && !m.Run?
    ensures Balanced(Step(c, s, m))
  {
    hide Rows, Balanced, RunOp, Restarted, Stored, Noted;
    match m
    case Restart => RestartKeepsBalance(s);
    case Receive(p, createdAt, gap) =>
      forall x: Letter
        ensures Rows(Step(c, s, m).log, x) == Rows(s.log, x)
      {
        ReceivedIsNoRow(s, p, createdAt, gap, x);
      }
      StoredIs(s, p, createdAt, gap);
      SameBalance(s, Step(c, s, m));
    case Supersede(at, gap) =>
      NotedIs(s.(row := SetStateRow(s.row, Superseded, s.now)), SessionEnded, at, gap);
      SameBalance(s, Step(c, s, m));
    case Close(at, gap) =>
      NotedIs(s.(row := SetStateRow(s.row, Closed, s.now)), SessionEnded, at, gap);
      SameBalance(s, Step(c, s, m));
    case _ => SameBalance(s, Step(c, s, m));
  }

  /** In every run, every message a relay took is stored, or on its way to
      be, or its row was lost: by a restart between the two steps, or by a
      store that failed. */
  lemma {:induction false} SentIsStoredOrLost(c: Config, dispute: string, now: int, moves: seq<Move>)
    ensures Balanced(Exec(c, Initial(dispute, now), moves))
  {
    hide Step;
    if moves != [] {
      var before := moves[..|moves| - 1];
      var m := moves[|moves| - 1];
      var s := Exec(c, Initial(dispute, now), before);
      SentIsStoredOrLost(c, dispute, now, before);
      if !m.Run? {
        EnvironmentKeepsBalance(c, s, m);
      } else if OpsOf(s, m.actor) == [] {
        NothingToRun(c, s, m);
      } else {
        RunKeepsBalance(c, s, m.actor, m.oracle);
      }
    }
  }
}

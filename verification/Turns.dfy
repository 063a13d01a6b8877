/** What a judged turn has read stays true until it acts: no question reaches
    a party while it judges, whatever the other actors do. */
module Turns {
  import opened Domain
  import opened Next
  import opened Policy
  import opened MessageLog
  import opened Views
  import opened EventLog
  import opened Sessions
  import opened Mediation
  import opened Effects
  import opened Protocol

  predicate IsJudging(op: Op) {
    || op.CheckFlood? || op.AskJudge? || op.CheckNewer? || op.CheckMoved? || op.UpdateLanguages?
    || op.Reload? || op.ReadHold? || op.Record?
  }

  /** What a guiding session's turn does before it judges. */
  predicate Preface(op: Op) {
    || op.ResendGuides?
    || op.TellGuide?
    || (op.Send? && IsGuide(op.template) && op.onFailure.Skip?)
    || (op.InFlight? && IsGuide(op.template) && op.onFailure.Skip?)
    || (op.StoreRow? && IsGuide(op.template) && op.onFailure.Skip?)
  }

  /** A turn still judging has nothing else to do but its preface. */
  ghost predicate TurnParts(turn: seq<Op>) {
    || (forall i :: 0 <= i < |turn| ==> !IsJudging(turn[i]))
    || (turn != [] && IsJudging(turn[|turn| - 1]) && forall i :: 0 <= i < |turn| - 1 ==> Preface(turn[i]))
  }

  /** No question was sent after the first `n` rows. */
  ghost predicate QuietSince(log: seq<Message>, n: nat) {
    n <= |log| && forall i, p :: n <= i < |log| ==> !IsOutQuestion(log[i], p)
  }

  /** The messages a turn read are the first `n` rows, both openers among
      them, and no question was sent since. */
  ghost predicate Reads(s: Sys, session: Row, n: nat) {
    && QuietSince(s.log, n)
    && s.opening == []
    && (session.state.Active? || session.state.Guiding?)
    && session.state.Rank() <= s.row.state.Rank()
    && OpenerSent(s.log[..n], Buyer)
    && OpenerSent(s.log[..n], Seller)
  }

  ghost predicate SameRounds(a: Row, b: Row) {
    a.buyerRounds == b.buyerRounds && a.sellerRounds == b.sellerRounds
  }

  /** What a turn about to be recorded decided from. */
  ghost predicate Decided(c: Config, s: Sys, n: nat, turn: Turn, history: History) {
    && QuietSince(s.log, n)
    && s.opening == []
    && (s.row.state.Active? ==> turn.phase.Gathering?)
    && !s.row.state.Opening?
    && (exists changed: set<Party>, row: Row ::
          && history == HistoryRead(Listed(s.log[..n]), changed)
          && SameRounds(row, s.row)
          && turn == TurnRead(c, turn.phase, Listed(s.log[..n]), turn.facts, history, row, turn.held))
    && OpenerSent(s.log[..n], Buyer)
    && OpenerSent(s.log[..n], Seller)
  }

  ghost predicate OpReads(c: Config, s: Sys, op: Op) {
    match op
    case CheckFlood(session, n) => Reads(s, session, n)
    case AskJudge(session, n) => Reads(s, session, n)
    case CheckNewer(session, n, _) => Reads(s, session, n)
    case CheckMoved(session, n, _) => Reads(s, session, n)
    case UpdateLanguages(session, n, _) => Reads(s, session, n)
    case Reload(session, n, _, _) => Reads(s, session, n)
    case ReadHold(session, n, _, _, row) => Reads(s, session, n) && SameRounds(row, s.row)
    case Record(n, turn, history) => Decided(c, s, n, turn, history)
    case _ => true
  }

  ghost predicate TurnReads(c: Config, s: Sys) {
    TurnParts(s.turn) && forall op :: op in s.turn ==> OpReads(c, s, op)
  }

  // ----- other actors do not disturb a turn -----

  /** What any step of another actor, or of the environment, leaves as it is
      for a turn that is judging. */
  ghost predicate Undisturbed(s: Sys, after: Sys) {
    && s.log <= after.log
    && (forall i, p :: |s.log| <= i < |after.log| ==> !IsOutQuestion(after.log[i], p))
    && (s.opening == [] ==> after.opening == [])
    && RowMoves(s.row, after.row)
    && (after.row.state.Active? ==> s.row.state.Active?)
    && SameRounds(s.row, after.row)
  }

  /** What the actors still have to do is not part of it. */
  lemma UndisturbedActors(s: Sys, after: Sys, turn: seq<Op>, tick: seq<Op>)
    requires Undisturbed(s, after)
    ensures Undisturbed(s, after.(turn := turn, tick := tick))
  {
  }

  lemma UndisturbedPrefix(log: seq<Message>, after: seq<Message>, n: nat)
    requires log <= after && n <= |log|
    ensures after[..n] == log[..n]
  {
  }

  lemma UndisturbedKeepsReads(c: Config, s: Sys, after: Sys, op: Op)
    requires Undisturbed(s, after) && OpReads(c, s, op) && !s.row.state.Opening?
    ensures OpReads(c, after, op)
  {
    if IsJudging(op) {
      UndisturbedPrefix(s.log, after.log, op.n);
      assert QuietSince(after.log, op.n);
    }
  }

  // ----- a turn's own steps -----

  lemma SendsDoNotJudge(p: Party, ts: seq<Template>)
    ensures forall op :: op in Sends(p, ts) ==> !IsJudging(op)
  {
  }

  lemma ActionDoesNotJudge(next: NextQuestions, action: Action)
    ensures forall op :: op in ActionOps(next, action) ==> !IsJudging(op)
  {
    if action.Ask? {
      SendsDoNotJudge(Buyer, action.buyer);
      SendsDoNotJudge(Seller, action.seller);
    }
  }

  lemma SharedDoesNotJudge(s: Sys, op: Op, rest: seq<Op>, o: Oracle)
    requires IsShared(op)
    ensures forall x :: x in RunSharedOp(s, TheTurn, op, rest, o).1 ==> x in rest || !IsJudging(x)
  {
  }

  lemma ActingDoesNotJudge(c: Config, s: Sys, op: Op, rest: seq<Op>, o: Oracle)
    requires !IsJudging(op) && !op.Load? && forall x :: x in rest ==> !IsJudging(x)
    ensures forall x :: x in RunOp(c, s, TheTurn, op, rest, o).1 ==> !IsJudging(x)
  {
    if IsShared(op) {
      SharedDoesNotJudge(s, op, rest, o);
    }
  }

  /** The preface expands into more of itself. */
  lemma PrefaceExpands(s: Sys, op: Op, rest: seq<Op>, o: Oracle) returns (pre: seq<Op>)
    requires Preface(op) && TurnMay(op)
    ensures RunSharedOp(s, TheTurn, op, rest, o).1 == pre + rest
    ensures forall i :: 0 <= i < |pre| ==> Preface(pre[i])
  {
    match op
    case Send(p, t, guard, f) =>
      pre := if guard.Allows(s.row.state) then [InFlight(p, t, f)] else [];
    case InFlight(p, t, f) => pre := if o.ok then [StoreRow(p, t, f)] else [];
    case StoreRow(p, t, f) => pre := [];
    case TellGuide(p, t) =>
      pre := if ReceivedEver(s.log, p, t) then [] else [Send(p, t, WhileMediating, Skip)];
    case ResendGuides =>
      var path := LastGuided(s.events);
      pre := if path.Some? then GuideOps(path.value) else [];
  }

  /** A step that asks nothing, counts nothing and starts no hold. */
  predicate Harmless(op: Op) {
    && !op.CountRound? && !op.StartHold? && !op.Activate?
    && !(op.StoreRow? && IsQuestion(op.template))
  }

  lemma HarmlessUndisturbs(c: Config, s: Sys, a: Actor, op: Op, rest: seq<Op>, o: Oracle)
    requires RowOk(s.row) && Harmless(op)
    ensures Undisturbed(s, Apply(s, RunOp(c, s, a, op, rest, o).0, o))
  {
    hide RunOp, Apply;
    var e := RunOp(c, s, a, op, rest, o).0;
    RunEffects(c, s, a, op, rest, o);
    EffectMovesRow(s, a, op, o, e);
    ApplyIs(s, e, o);
  }

  lemma JudgingNext(c: Config, s: Sys, op: Op, o: Oracle)
    requires IsJudging(op) && !op.Record? && !op.ReadHold?
    ensures var ops := RunTurnOp(c, s, op, [], o).1;
            || ops == []
            || (|ops| == 1 && ops[0].HandOff?)
            || (|ops| == 1 && IsJudging(ops[0]) && !ops[0].Record? && ops[0].session == op.session && ops[0].n == op.n
                && (ops[0].ReadHold? ==> op.Reload? && ops[0].row == s.row))
  {
    hide Judged, Decide, OnlyCourtesy, Strikes, Floods, Listed, Changes, WithLanguage;
  }

  lemma JudgingStep(c: Config, s: Sys, op: Op, o: Oracle)
    requires ProtocolOk(s) && OpReads(c, s, op) && s.turn == [op] && IsJudging(op) && !op.Record? && !op.ReadHold?
    ensures TurnReads(c, Step(c, s, Run(TheTurn, o)))
  {
    hide RunTurnOp, RunSharedOp, RunTickOp, RunOpeningOp, Apply, Undisturbed, Reads, ProtocolOk;
    var after := Step(c, s, Run(TheTurn, o));
    assert s.turn[1..] == [];
    RowIsOk(s);
    HarmlessUndisturbs(c, s, TheTurn, op, [], o);
    UndisturbedActors(s, Apply(s, RunOp(c, s, TheTurn, op, [], o).0, o), after.turn, s.tick);
    ReadsStay(s, after, op);
    JudgingNext(c, s, op, o);
    if after.turn != [] && after.turn[0].ReadHold? {
      ReloadKeepsRow(c, s, op, o);
    }
  }

  lemma ReadsStay(s: Sys, after: Sys, op: Op)
    requires IsJudging(op) && !op.Record? && Reads(s, op.session, op.n) && Undisturbed(s, after)
    ensures Reads(after, op.session, op.n)
  {
    UndisturbedPrefix(s.log, after.log, op.n);
  }

  lemma ReloadKeepsRow(c: Config, s: Sys, op: Op, o: Oracle)
    requires s.turn == [op] && op.Reload?
    ensures Step(c, s, Run(TheTurn, o)).row == s.row
  {
    hide Decide, OnlyCourtesy, Strikes, Floods, Listed, Changes, WithLanguage, Judged;
  }

  lemma JudgedIsDecided(c: Config, s: Sys, session: Row, n: nat, facts: Facts, changed: set<Party>, row: Row)
    requires Reads(s, session, n) && SameRounds(row, s.row)
    ensures var op := Judged(c, s, session, n, facts, changed, row);
            op.Record? && op.n == n && Decided(c, s, n, op.turn, op.history)
  {
  }

  lemma RecordReads(c: Config, s: Sys, op: Op)
    requires op.Record? && Decided(c, s, op.n, op.turn, op.history)
    ensures TurnReads(c, s.(turn := [op]))
  {
    assert Decided(c, s.(turn := [op]), op.n, op.turn, op.history);
  }

  lemma ReadHoldDecides(c: Config, s: Sys, session: Row, n: nat, facts: Facts, changed: set<Party>, row: Row, o: Oracle)
    requires s.turn == [ReadHold(session, n, facts, changed, row)]
    requires Reads(s, session, n) && SameRounds(row, s.row)
    ensures TurnReads(c, Step(c, s, Run(TheTurn, o)))
  {
    hide Judged, Decided, TurnReads, Reads, SameRounds, Strikes, Floods, Listed, WithLanguage;
    JudgedIsDecided(c, s, session, n, facts, changed, row);
    RecordReads(c, s, Judged(c, s, session, n, facts, changed, row));
  }

  lemma LoadRuns(c: Config, s: Sys, rest: seq<Op>, o: Oracle)
    ensures var (e, left) := RunOp(c, s, TheTurn, Load, rest, o);
            && (e.NoEffect? || e.Defer? || e.SkipTurn?)
            && (|| left == [] || left == [Forward]
                || (s.row.state.Guiding? && left == [ResendGuides, CheckFlood(s.row, |s.log|)])
                || (s.row.state.Active? && left == [CheckFlood(s.row, |s.log|)]))
  {
  }

  lemma LoadStep(c: Config, s: Sys, rest: seq<Op>, o: Oracle)
    requires ProtocolOk(s) && s.turn == [Load] + rest
    ensures TurnReads(c, Step(c, s, Run(TheTurn, o)))
  {
    hide Step, RunOp, Apply, Shapes, SentOwn, StillOpening, Logs, RowOk;
    assert s.log[..|s.log|] == s.log && s.turn[1..] == rest;
    RunIs(c, s, TheTurn, o);
    LoadRuns(c, s, rest, o);
    ApplyIs(s, RunOp(c, s, TheTurn, Load, rest, o).0, o);
  }

  lemma PrefaceReads(c: Config, s: Sys, after: Sys, pre: seq<Op>, op: Op, rest: seq<Op>)
    requires TurnReads(c, s) && s.turn == [op] + rest && !IsJudging(op)
    requires rest != [] && IsJudging(rest[|rest| - 1])
    requires Undisturbed(s, after) && after.turn == pre + rest && !s.row.state.Opening?
    requires forall i :: 0 <= i < |pre| ==> Preface(pre[i])
    ensures TurnReads(c, after)
  {
    assert s.turn[|s.turn| - 1] == rest[|rest| - 1];
    forall i | 0 <= i < |after.turn| - 1
      ensures Preface(after.turn[i])
    {
      assert i >= |pre| ==> after.turn[i] == s.turn[i - |pre| + 1];
    }
    forall x | x in after.turn
      ensures OpReads(c, after, x)
    {
      if x in rest {
        assert x in s.turn;
        UndisturbedKeepsReads(c, s, after, x);
      }
    }
  }

  lemma JudgingIsAwake(s: Sys, op: Op)
    requires ProtocolOk(s) && op in s.turn && !op.Load?
    ensures !s.row.state.Opening?
  {
  }

  lemma RowIsOk(s: Sys)
    requires ProtocolOk(s)
    ensures RowOk(s.row)
  {
  }

  lemma PrefaceStep(c: Config, s: Sys, op: Op, rest: seq<Op>, o: Oracle)
    requires ProtocolOk(s) && TurnReads(c, s) && s.turn == [op] + rest && Preface(op) && TurnMay(op)
    requires rest != [] && IsJudging(rest[|rest| - 1])
    ensures TurnReads(c, Step(c, s, Run(TheTurn, o)))
  {
    hide Step, RunSharedOp, Apply, TurnReads, Undisturbed, ProtocolOk;
    var pre := PrefaceExpands(s, op, rest, o);
    RowIsOk(s);
    HarmlessUndisturbs(c, s, TheTurn, op, rest, o);
    JudgingIsAwake(s, op);
    var e := RunSharedOp(s, TheTurn, op, rest, o).0;
    assert s.turn[1..] == rest;
    RunIs(c, s, TheTurn, o);
    ApplyIs(s, e, o);
    UndisturbedActors(s, Apply(s, e, o), pre + rest, s.tick);
    PrefaceReads(c, s, Apply(s, e, o).(turn := pre + rest), pre, op, rest);
  }

  lemma ActingStep(c: Config, s: Sys, op: Op, rest: seq<Op>, o: Oracle)
    requires s.turn == [op] + rest && !op.Load?
    requires forall i :: 0 <= i < |s.turn| ==> !IsJudging(s.turn[i])
    ensures TurnReads(c, Step(c, s, Run(TheTurn, o)))
  {
    hide RunOp, Apply;
    assert s.turn[1..] == rest && s.turn[0] == op;
    assert forall i :: 0 <= i < |rest| ==> rest[i] == s.turn[i + 1];
    ActingDoesNotJudge(c, s, op, rest, o);
  }

  /** What recording a decision does. */
  lemma RecordIs(c: Config, s: Sys, op: Op, o: Oracle)
    requires s.turn == [op] && op.Record?
    ensures var action := Decide(op.turn);
            Step(c, s, Run(TheTurn, o)) ==
            s.(evaluations := s.evaluations + [Evaluation(LastId(Prefix(s.log, op.n)), action)],
               ledger := s.ledger.(courtesy := OnlyCourtesy(op.turn, op.history), aborted := false,
                                   resent := s.ledger.resent + Resent(op.turn.next, action)),
               turn := ActionOps(op.turn.next, action))
  {
    hide ActionOps, Decide, OnlyCourtesy, Resent;
  }

  lemma RecordStep(c: Config, s: Sys, op: Op, o: Oracle)
    requires s.turn == [op] && op.Record?
    ensures TurnReads(c, Step(c, s, Run(TheTurn, o)))
  {
    hide Decide, ActionOps, OnlyCourtesy;
    ActionDoesNotJudge(op.turn.next, Decide(op.turn));
  }

  lemma JudgingIsAlone(c: Config, s: Sys)
    requires TurnReads(c, s) && s.turn != [] && IsJudging(s.turn[0])
    ensures s.turn == [s.turn[0]]
  {
    hide OpReads;
    assert forall i :: 0 <= i < |s.turn| - 1 ==> Preface(s.turn[i]);
    assert 0 < |s.turn| - 1 ==> Preface(s.turn[0]);
  }

  lemma TurnKeepsReads(c: Config, s: Sys, o: Oracle)
    requires ProtocolOk(s) && TurnReads(c, s) && s.turn != []
    ensures TurnReads(c, Step(c, s, Run(TheTurn, o)))
  {
    hide Step, ProtocolOk, TurnMay, Decided, Reads;
    var op, rest := s.turn[0], s.turn[1..];
    assert op in s.turn && s.turn == [op] + rest;
    MayRun(s, op);
    if op.Load? {
      LoadStep(c, s, rest, o);
    } else if IsJudging(op) {
      assert s.turn == [op];
      match op
      case Record(_, _, _) => RecordStep(c, s, op, o);
      case ReadHold(session, n, facts, changed, row) => ReadHoldDecides(c, s, session, n, facts, changed, row, o);
      case _ => JudgingStep(c, s, op, o);
    } else if forall i :: 0 <= i < |s.turn| ==> !IsJudging(s.turn[i]) {
      ActingStep(c, s, op, rest, o);
    } else {
      assert rest[|rest| - 1] == s.turn[|s.turn| - 1];
      PrefaceStep(c, s, op, rest, o);
    }
  }

  lemma MayRun(s: Sys, op: Op)
    requires ProtocolOk(s) && op in s.turn
    ensures TurnMay(op)
  {
  }

  // ----- every step -----

  lemma TickIsHarmless(s: Sys, op: Op)
    requires ProtocolOk(s) && op in s.tick
    ensures Harmless(op)
  {
  }

  lemma OthersKeepReads(c: Config, s: Sys, after: Sys)
    requires TurnReads(c, s) && Undisturbed(s, after) && after.turn == s.turn && !s.row.state.Opening?
    ensures TurnReads(c, after)
  {
    forall op | op in s.turn
      ensures OpReads(c, after, op)
    {
      UndisturbedKeepsReads(c, s, after, op);
    }
  }

  lemma NothingReadWhileOpening(c: Config, s: Sys, turn: seq<Op>)
    requires forall op :: op in turn ==> op.Load?
    ensures TurnReads(c, s.(turn := turn))
  {
    assert forall i :: 0 <= i < |turn| ==> turn[i] in turn;
  }

  lemma EnvironmentUndisturbs(c: Config, s: Sys, m: Move)
    requires RowOk(s.row) && !m.Run?
    ensures Undisturbed(s, Step(c, s, m))
  {
    hide RunOp;
  }

  predicate TouchesTurn(m: Move) {
    m.StartTurn? || m.Restart? || (m.Run? && m.actor.TheTurn?)
  }

  lemma OthersKeepTurn(c: Config, s: Sys, m: Move)
    requires !TouchesTurn(m)
    ensures Step(c, s, m).turn == s.turn
  {
    hide RunOp, Apply;
    if m.Run? && OpsOf(s, m.actor) != [] {
      ApplyIs(s, RunOp(c, s, m.actor, OpsOf(s, m.actor)[0], OpsOf(s, m.actor)[1..], m.oracle).0, m.oracle);
    }
  }

  lemma StepKeepsReads(c: Config, s: Sys, m: Move)
    requires ProtocolOk(s) && TurnReads(c, s)
    ensures TurnReads(c, Step(c, s, m))
  {
    hide RunOp, Apply, Undisturbed, TurnMay, TickMay, OpReads;
    var after := Step(c, s, m);
    if m.Run? && m.actor.TheTurn? {
      if s.turn != [] {
        TurnKeepsReads(c, s, m.oracle);
      }
    } else if m.StartTurn? || m.Restart? {
      StartKeepsReads(c, s, m);
    } else {
      OthersKeepTurn(c, s, m);
      NoTurnKeepsReads(c, s, m);
    }
  }

  lemma NoTurnKeepsReads(c: Config, s: Sys, m: Move)
    requires ProtocolOk(s) && TurnReads(c, s) && !TouchesTurn(m) && Step(c, s, m).turn == s.turn
    ensures TurnReads(c, Step(c, s, m))
  {
    hide Step, Undisturbed, TurnMay, TickMay, OpReads, TurnReads;
    var after := Step(c, s, m);
    if s.row.state.Opening? {
      NothingReadWhileOpening(c, after, s.turn);
    } else if m.Run? && m.actor.TheOpening? {
      if s.opening != [] {
        OpeningKeepsReads(c, s, after);
      } else {
        NothingToRun(c, s, m);
      }
    } else {
      OtherMoveUndisturbs(c, s, m);
      OthersKeepReads(c, s, after);
    }
  }

  lemma StartKeepsReads(c: Config, s: Sys, m: Move)
    requires TurnReads(c, s) && (m.StartTurn? || m.Restart?)
    ensures TurnReads(c, Step(c, s, m))
  {
    hide RunOp;
  }

  lemma OtherMoveUndisturbs(c: Config, s: Sys, m: Move)
    requires ProtocolOk(s) && !s.row.state.Opening? && !(m.Run? && !m.actor.TheTick?)
    ensures Undisturbed(s, Step(c, s, m))
  {
    hide RunOp, Apply, TurnMay, TickMay, Harmless;
    if !m.Run? {
      EnvironmentUndisturbs(c, s, m);
    } else if s.tick != [] {
      assert s.tick[0] in s.tick;
      TickIsHarmless(s, s.tick[0]);
      HarmlessUndisturbs(c, s, m.actor, s.tick[0], s.tick[1..], m.oracle);
    }
  }

  /** No turn judges while the opening is under way. */
  lemma OpeningKeepsReads(c: Config, s: Sys, after: Sys)
    requires TurnReads(c, s) && s.opening != [] && after.turn == s.turn
    ensures TurnReads(c, after)
  {
  }

  // ----- every run -----

  /** In every run, at every step: whoever steps in between, a turn decides
      from the questions, the replies and the rounds as they are. */
  lemma {:induction false} RunsRead(c: Config, dispute: string, now: int, moves: seq<Move>)
    ensures TurnReads(c, Exec(c, Initial(dispute, now), moves))
  {
    hide Step;
    if moves != [] {
      var before := moves[..|moves| - 1];
      RunsRead(c, dispute, now, before);
      RunsAreOk(c, dispute, now, before);
      StepKeepsReads(c, Exec(c, Initial(dispute, now), before), moves[|moves| - 1]);
    }
  }

  lemma SameCounted(s: Sys, after: Sys)
    requires s.events == after.events && s.evaluations == after.evaluations
    ensures Counted(s) == Counted(after)
  {
  }
}

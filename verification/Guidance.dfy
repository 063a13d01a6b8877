/** A session that explains a way out always has the deadline of
    self-resolution. */
module Guidance {
  import opened Domain
  import opened Next
  import opened Policy
  import opened MessageLog
  import opened Views
  import opened EventLog
  import opened Sessions
  import opened Mediation
  import opened Effects
  import opened Protocol
  import Timers
  import Guides

  ghost predicate EverGuided(events: seq<Event>) {
    exists e :: e in events && e.body.Guided?
  }

  ghost predicate GuidedOk(s: Sys) {
    s.row.state.Guiding? ==> EverGuided(s.events)
  }

  /** Guidance started here, or a handoff when those count too. */
  predicate Starts(e: Event, handoffsToo: bool) {
    e.body.Guided? || (handoffsToo && e.body.HandoffRecorded?)
  }

  /** The time read is that of an event that started guidance or a handoff,
      and none of them is later; there is none exactly when nothing did. */
  lemma {:induction false} LatestAtIs(events: seq<Event>, handoffsToo: bool)
    ensures LatestAt(events, handoffsToo).None? <==> forall e :: e in events ==> !Starts(e, handoffsToo)
    ensures var at := LatestAt(events, handoffsToo);
            at.Some? ==>
              && (exists e :: e in events && Starts(e, handoffsToo) && e.at == at.value)
              && (forall e :: e in events && Starts(e, handoffsToo) ==> e.at <= at.value)
  {
    if events != [] {
      var n := |events| - 1;
      LatestAtIs(events[..n], handoffsToo);
      assert events == events[..n] + [events[n]];
      assert events[n] in events;
      var before := LatestAt(events[..n], handoffsToo);
      if before.Some? {
        var e :| e in events[..n] && Starts(e, handoffsToo) && e.at == before.value;
        assert e in events;
      }
    }
  }

  lemma GuidedStays(events: seq<Event>, after: seq<Event>)
    requires events <= after && EverGuided(events)
    ensures EverGuided(after)
  {
    var e :| e in events && e.body.Guided?;
    assert e in after;
  }

  /** Only the step that records the guidance makes a session guiding. */
  lemma EffectKeepsGuided(s: Sys, a: Actor, op: Op, o: Oracle, e: Effect)
    requires GuidedOk(s) && Logs(s) && RowOk(s.row) && EffectAllowed(s, a, op, o, e)
    requires op.Activate? ==> s.row.state.Opening? || s.row.state.Terminal()
    ensures GuidedOk(Apply(s, e, o))
  {
    hide Apply, NotedAll, Logs;
    var after := Apply(s, e, o);
    EffectMovesRow(s, a, op, o, e);
    ApplyIs(s, e, o);
    ApplyKeepsLogs(s, e, o);
    if after.row.state.Guiding? {
      if s.row.state.Guiding? {
        GuidedStays(s.events, after.events);
      } else {
        AppendIs(s, e, o);
        NotedAllBodies(s.(row := e.row), e.bodies, o.at, o.gap);
        assert after.events[|s.events|].body == e.bodies[0];
        assert after.events[|s.events|] in after.events;
      }
    }
  }

  lemma StepKeepsGuided(c: Config, s: Sys, m: Move)
    requires ProtocolOk(s) && GuidedOk(s)
    ensures GuidedOk(Step(c, s, m))
  {
    hide RunOp, Apply, EffectAllowed, Stored, PendingAtStart, HasRemedy, SentOwn, StillOpening, TurnMay, TickMay, Logs;
    hide OpenerSent, EverGuided;
    if m.Run? && OpsOf(s, m.actor) != [] {
      var op, rest := OpsOf(s, m.actor)[0], OpsOf(s, m.actor)[1..];
      assert op in OpsOf(s, m.actor);
      if !m.actor.TheOpening? {
        NotActivating(s, m.actor, op);
      }
      RunEffects(c, s, m.actor, op, rest, m.oracle);
      EffectKeepsGuided(s, m.actor, op, m.oracle, RunOp(c, s, m.actor, op, rest, m.oracle).0);
    } else if m.Receive? {
      StoredIs(s, m.party, m.createdAt, m.gap);
    }
  }

  lemma {:induction false} RunsKeepGuided(c: Config, dispute: string, now: int, moves: seq<Move>)
    ensures GuidedOk(Exec(c, Initial(dispute, now), moves))
  {
    hide Step, ProtocolOk;
    if moves != [] {
      var before := moves[..|moves| - 1];
      RunsKeepGuided(c, dispute, now, before);
      RunsAreOk(c, dispute, now, before);
      StepKeepsGuided(c, Exec(c, Initial(dispute, now), before), moves[|moves| - 1]);
    }
  }

  /** In every run, a guiding session has a deadline, `self_resolution` after
      the event that started its guidance (times saturate at 64 bits): from
      then on, and not before, every reading of its clocks hands it off. */
  lemma {:induction false} GuidingHasADeadline(c: Config, dispute: string, now: int, moves: seq<Move>)
    ensures var s := Exec(c, Initial(dispute, now), moves);
            s.row.state.Guiding? ==>
              exists e :: e in s.events && e.body.Guided?
                && (forall x :: x in s.events && x.body.Guided? ==> x == e)
                && forall at :: Timers.Check(ClocksRead(s.row, Listed(s.log), s.events, at), c.timeouts)
                                == if at >= Min(e.at + c.timeouts.selfResolution, 0x7FFF_FFFF_FFFF_FFFF)
                                   then Timers.Timer.Handoff(SelfResolutionStalled) else Timers.Nothing
  {
    hide Exec, Listed, CurrentHold, LatestAt, ClockOf;
    var s := Exec(c, Initial(dispute, now), moves);
    RunsKeepGuided(c, dispute, now, moves);
    Guides.GuidanceFitsThePath(c, dispute, now, moves);
    LatestAtIs(s.events, false);
    if s.row.state.Guiding? {
      var e :| e in s.events && e.body.Guided?;
      OnlyOne(s.events, e);
    }
  }

  lemma OnlyOne(events: seq<Event>, e: Event)
    requires forall i, j :: (0 <= i < |events| && 0 <= j < |events|
                             && events[i].body.Guided? && events[j].body.Guided?) ==> i == j
    requires e in events && e.body.Guided?
    ensures forall x :: x in events && x.body.Guided? ==> x == e
  {
  }
}

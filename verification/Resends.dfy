/** What a tick sends again (src/mediation/timers.rs): exactly what some
    recipient still misses, and nothing while the call that started it may
    still be sending. */
module Resends {
  import opened Domain
  import opened Next
  import opened Policy
  import opened MessageLog
  import opened EventLog
  import opened Sessions
  import opened Mediation
  import opened Effects
  import opened Protocol
  import Guidance
  import Timers

  /** A handoff or guidance started less than two minutes ago. */
  ghost predicate JustStarted(s: Sys) {
    exists e :: e in s.events && (e.body.Guided? || e.body.HandoffRecorded?) && s.now - e.at < 120
  }

  /** No solver received the brief this event announced. */
  ghost predicate Undelivered(events: seq<Event>, e: Event) {
    e in events && e.body.BriefPending? && !exists sent :: sent in events && sent.body == BriefSent(e.id)
  }

  ghost predicate NeverSent(s: Sys, p: Party, t: Template) {
    !exists m :: m in s.log && m.direction.Out? && m.party == p && m.template == Some(t)
  }

  /** The hold notices wait two minutes, or half of a shorter grace. */
  predicate HoldIsOld(c: Config, s: Sys, hold: Hold) {
    s.now - hold.at >= 120 || s.now - hold.at >= c.timeouts.handoffGrace / 2
  }

  /** A party that never got the handoff notice. */
  ghost predicate MissesNotice(s: Sys, op: Op) {
    exists p :: NeverSent(s, p, HandoffNotice) && op == Send(p, HandoffNotice, WhileLive, Skip)
  }

  ghost predicate MissesHold(c: Config, s: Sys, op: Op) {
    exists p, hold ::
      CurrentHold(s.events, s.log) == Some(hold) && HoldIsOld(c, s, hold) && op == TellHold(p, hold.cutoff)
  }

  ghost predicate MissesBrief(s: Sys, op: Op) {
    exists e :: Undelivered(s.events, e) && op == Brief(e.id)
  }

  /** What some recipient of the session, as the tick listed it, misses. An
      opening that failed never reached the parties: they get no notice. */
  ghost predicate Misses(c: Config, s: Sys, session: Row, op: Op) {
    || MissesBrief(s, op)
    || (session.state.HandedOff? && session.handoffReason != Some(OpeningFailed) && MissesNotice(s, op))
    || (session.state.Guiding? && op == ResendGuides)
    || (session.state.Active? && MissesHold(c, s, op))
  }

  lemma JustStartedIff(s: Sys)
    ensures var at := LatestAt(s.events, true);
            JustStarted(s) <==> at.Some? && s.now - at.value < 120
  {
    Guidance.LatestAtIs(s.events, true);
    var at := LatestAt(s.events, true);
    if at.Some? {
      var e :| e in s.events && Guidance.Starts(e, true) && e.at == at.value;
    }
  }

  /** A pending brief is exactly one that no solver received. */
  lemma {:induction false} PendingBriefsIff(events: seq<Event>, all: seq<Event>, op: Op)
    ensures op in PendingBriefs(events, all) <==>
            exists e :: e in events && e.body.BriefPending? && op == Brief(e.id)
                        && !exists sent :: sent in all && sent.body == BriefSent(e.id)
  {
    if events != [] {
      PendingBriefsIff(events[1..], all, op);
      assert events == [events[0]] + events[1..];
      assert Delivered(all, events[0].id) <==> exists sent :: sent in all && sent.body == BriefSent(events[0].id);
    }
  }

  lemma BriefsIff(s: Sys, op: Op)
    ensures op in PendingBriefs(s.events, s.events) <==> MissesBrief(s, op)
  {
    PendingBriefsIff(s.events, s.events, op);
  }

  lemma NoticesIff(s: Sys, op: Op)
    ensures var ops :=
              (if ReceivedEver(s.log, Buyer, HandoffNotice) then [] else [Send(Buyer, HandoffNotice, WhileLive, Skip)]) +
              (if ReceivedEver(s.log, Seller, HandoffNotice) then [] else [Send(Seller, HandoffNotice, WhileLive, Skip)]);
            op in ops <==> MissesNotice(s, op)
  {
    hide NeverSent, ReceivedEver;
    NeverSentIs(s, Buyer, HandoffNotice);
    NeverSentIs(s, Seller, HandoffNotice);
    if op.Send? {
      assert op.party == Buyer || op.party == Seller;
    }
  }

  lemma NeverSentIs(s: Sys, p: Party, t: Template)
    ensures NeverSent(s, p, t) <==> !ReceivedEver(s.log, p, t)
  {
    if ReceivedEver(s.log, p, t) {
      var m :| m in s.log && IsOutTemplate(m, p, t);
      assert m.direction.Out?;
    }
    if !NeverSent(s, p, t) {
      var m :| m in s.log && m.direction.Out? && m.party == p && m.template == Some(t);
      assert IsOutTemplate(m, p, t);
    }
  }

  lemma HoldsIff(c: Config, s: Sys, op: Op)
    ensures var hold := CurrentHold(s.events, s.log);
            var ops := if hold.Some? && s.now - hold.value.at >= RetryAfter(c.timeouts.handoffGrace)
                       then [TellHold(Buyer, hold.value.cutoff), TellHold(Seller, hold.value.cutoff)]
                       else [];
            op in ops <==> MissesHold(c, s, op)
  {
    hide CurrentHold;
    if op.TellHold? {
      assert op.party == Buyer || op.party == Seller;
    }
  }

  /** A tick sends again exactly what some recipient misses, unless a handoff
      or guidance started less than two minutes ago. */
  lemma RetriesIff(c: Config, s: Sys, session: Row, op: Op)
    ensures op in RetryOps(c, s, session) <==> !JustStarted(s) && Misses(c, s, session, op)
  {
    hide PendingBriefs, LatestAt, ReceivedEver, CurrentHold, JustStarted, RetryAfter;
    hide MissesBrief, MissesNotice, MissesHold;
    JustStartedIff(s);
    BriefsIff(s, op);
    NoticesIff(s, op);
    HoldsIff(c, s, op);
  }
}

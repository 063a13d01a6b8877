/** After a handoff: no party message the solvers count as seen was lost,
    even when timestamps disagree with the order of arrival. */
module Delivery {
  import opened Domain
  import opened Next
  import opened Policy
  import opened MessageLog
  import opened Views
  import opened EventLog
  import opened Sessions
  import opened Mediation
  import opened Effects
  import opened Protocol
  import opened Turns
  import opened Rounds
  import Timers

  // ----- what the events say -----

  /** The cutoff of the handoff: its transcript covers the messages up to
      here, the updates those after it. */
  function Cutoff(events: seq<Event>): nat {
    if events == [] then 0
    else
      var n := |events| - 1;
      if events[n].body.HandoffRecorded? then events[n].body.lastMessage else Cutoff(events[..n])
  }

  /** The pending brief is the handoff's. */
  predicate IsHandoffBrief(events: seq<Event>, pending: nat) {
    exists e :: e in events && e.id == pending && e.body == BriefPending(AboutHandoff)
  }

  /** A solver received the handoff's brief and transcript. */
  ghost predicate HandoffDelivered(events: seq<Event>) {
    exists pending: nat :: IsHandoffBrief(events, pending) && Delivered(events, pending)
  }

  /** Every party message after `low`, up to `high`, reached a solver. */
  ghost predicate Told(s: Sys, low: nat, high: nat) {
    forall m :: m in s.log && m.direction.In? && low < m.id <= high ==> m.id in s.ledger.told
  }

  /** The first `n` rows hold every party message up to `high`. */
  ghost predicate Holds(log: seq<Message>, n: nat, high: nat) {
    n <= |log| && forall i :: n <= i < |log| && log[i].direction.In? ==> log[i].id > high
  }

  predicate IsUpdating(op: Op) {
    op.Forward? || op.Forwarded? || op.MarkUpdate?
  }

  // ----- what holds in every run -----

  ghost predicate BriefOk(s: Sys, op: Op) {
    match op
    case Brief(pending) => pending <= LastEventId(s.events)
    case Briefed(pending, n) =>
      && pending <= LastEventId(s.events) && n <= |s.log|
      && (IsHandoffBrief(s.events, pending) ==> Holds(s.log, n, Cutoff(s.events)))
    case MarkBrief(pending) =>
      && pending <= LastEventId(s.events)
      && (IsHandoffBrief(s.events, pending) ==> Told(s, 0, Cutoff(s.events)))
    case _ => true
  }

  ghost predicate UpdateOk(s: Sys, op: Op) {
    match op
    case Forwarded(n, seen, last) =>
      && seen == LastSeen(s.events) && n <= |s.log| && seen < last <= LastId(s.log[..n])
    case MarkUpdate(last) => LastSeen(s.events) < last <= LastId(s.log) && Told(s, LastSeen(s.events), last)
    case _ => true
  }

  ghost predicate EventsOk(s: Sys) {
    && Cutoff(s.events) <= LastSeen(s.events) <= LastId(s.log)
    && Told(s, Cutoff(s.events), LastSeen(s.events))
    && (s.row.state.Mediating() ==> LastSeen(s.events) == 0
                                    && forall e :: e in s.events ==> !Seen(e).Some? && e.body != BriefPending(AboutHandoff))
    && (forall e :: e in s.events && e.body.BriefSent? ==>
          && e.body.pending <= LastEventId(s.events)
          && (IsHandoffBrief(s.events, e.body.pending) ==> Told(s, 0, Cutoff(s.events))))
  }

  ghost predicate DeliveryOk(s: Sys) {
    && EventsOk(s)
    && (forall op :: op in s.turn ==> BriefOk(s, op) && UpdateOk(s, op))
    && (forall op :: op in s.tick ==> BriefOk(s, op) && !IsUpdating(op))
    && (forall op :: op in s.opening ==> !IsUpdating(op) && !op.Brief? && !op.Briefed? && !op.MarkBrief?)
    && (forall op :: op in s.turn && IsUpdating(op) ==> s.turn == [op] && !s.row.state.Mediating())
  }

  // ----- the events -----

  lemma CutoffAppend(events: seq<Event>, e: Event)
    ensures Cutoff(events + [e]) == if e.body.HandoffRecorded? then e.body.lastMessage else Cutoff(events)
    ensures LastSeen(events + [e]) == if Seen(e).Some? && LastSeen(events) < Seen(e).value then Seen(e).value
                                      else LastSeen(events)
  {
    assert (events + [e])[..|events|] == events;
  }

  /** Events that are neither a handoff nor an update move neither mark. */
  lemma NotedAllMarks(s: Sys, bodies: seq<EventBody>, at: int, gap: nat)
    requires forall i :: 0 <= i < |bodies| ==> !bodies[i].HandoffRecorded? && !bodies[i].UpdateSent?
    ensures var events := NotedAll(s, bodies, at, gap).events;
            Cutoff(events) == Cutoff(s.events) && LastSeen(events) == LastSeen(s.events)
    decreases |bodies|
  {
    if bodies != [] {
      var next := Noted(s, bodies[0], at, gap);
      CutoffAppend(s.events, next.events[|s.events|]);
      assert next.events == s.events + [next.events[|s.events|]];
      NotedAllMarks(next, bodies[1..], at, 0);
    }
  }

  lemma NotedAllIds(s: Sys, bodies: seq<EventBody>, at: int, gap: nat)
    ensures LastEventId(s.events) <= LastEventId(NotedAll(s, bodies, at, gap).events)
    decreases |bodies|
  {
    if bodies != [] {
      NotedAllIds(Noted(s, bodies[0], at, gap), bodies[1..], at, 0);
    }
  }

  lemma EventBelowLast(events: seq<Event>, e: Event)
    requires Appended(events) && e in events
    ensures 0 < e.id <= LastEventId(events)
  {
    var i :| 0 <= i < |events| && events[i] == e;
    if i < |events| - 1 {
      assert events[i].id < events[|events| - 1].id;
    }
  }

  // ----- the messages -----

  lemma HoldsMore(log: seq<Message>, after: seq<Message>, n: nat, high: nat)
    requires Holds(log, n, high) && log <= after && Arrival(after) && high <= LastId(log)
    ensures Holds(after, n, high)
  {
    forall i | n <= i < |after| && after[i].direction.In?
      ensures after[i].id > high
    {
      if i < |log| {
        assert after[i] == log[i];
      } else if log != [] {
        assert after[|log| - 1] == log[|log| - 1] && after[|log| - 1].id < after[i].id;
      }
    }
  }

  /** What a solver receives of the first `n` rows. */
  lemma HeldIsTold(s: Sys, n: nat, high: nat, after: Sys)
    requires Holds(s.log, n, high) && after.log == s.log
    requires after.ledger.told == s.ledger.told + InboundIds(Prefix(s.log, n))
    ensures Told(after, 0, high)
  {
    forall m | m in s.log && m.direction.In? && m.id <= high
      ensures m.id in after.ledger.told
    {
      var i :| 0 <= i < |s.log| && s.log[i] == m;
      assert i < n;
      assert m == s.log[..n][i];
    }
  }

  lemma UnseenAre(messages: seq<Message>, seen: nat)
    ensures forall m :: m in Unseen(messages, seen) <==> m in messages && m.direction.In? && m.id > seen
  {
    if messages != [] {
      var n := |messages| - 1;
      UnseenAre(messages[..n], seen);
      assert messages == messages[..n] + [messages[n]];
    }
  }

  lemma ArrivalIds(log: seq<Message>, n: nat, i: nat)
    requires Arrival(log) && n <= |log| && i < |log|
    ensures log[i].id <= LastId(log[..n]) ==> i < n
    ensures i < n ==> log[i].id <= LastId(log[..n])
  {
    if n > 0 {
      assert log[..n][n - 1] == log[n - 1];
    }
  }

  /** An update takes every party message after `seen`, up to the id it
      records, whatever order they are listed in. */
  lemma UpdateIsTold(s: Sys, n: nat, seen: nat, last: nat, after: Sys)
    requires Arrival(s.log) && n <= |s.log| && last <= LastId(s.log[..n]) && after.log == s.log
    requires after.ledger.told == s.ledger.told + InboundIds(Unseen(Listed(Prefix(s.log, n)), seen))
    ensures Told(after, seen, last)
  {
    hide Listed, Unseen;
    var read := s.log[..n];
    ListedElements(read);
    UnseenAre(Listed(read), seen);
    forall m | m in s.log && m.direction.In? && seen < m.id <= last
      ensures m.id in after.ledger.told
    {
      var i :| 0 <= i < |s.log| && s.log[i] == m;
      ArrivalIds(s.log, n, i);
      assert m == read[i];
      assert m in Unseen(Listed(read), seen);
    }
  }

  lemma ToldStays(s: Sys, after: Sys, low: nat, high: nat)
    requires Told(s, low, high) && s.log <= after.log && Arrival(after.log) && high <= LastId(s.log)
    requires s.ledger.told <= after.ledger.told
    ensures Told(after, low, high)
  {
    forall m | m in after.log && m.direction.In? && low < m.id <= high
      ensures m.id in after.ledger.told
    {
      var i :| 0 <= i < |after.log| && after.log[i] == m;
      if i < |s.log| {
        assert m == s.log[i];
      }
    }
  }

  // ----- what a step keeps for the rest -----

  /** The logs grew, and no event that was there became a handoff's brief. */
  ghost predicate Grown(s: Sys, after: Sys) {
    && s.log <= after.log && Arrival(after.log) && s.ledger.told <= after.ledger.told
    && LastEventId(s.events) <= LastEventId(after.events)
    && Cutoff(after.events) == Cutoff(s.events)
    && forall pending: nat :: pending <= LastEventId(s.events) && IsHandoffBrief(after.events, pending) ==>
                                IsHandoffBrief(s.events, pending)
  }

  lemma MarksAreOrdered(s: Sys)
    requires EventsOk(s)
    ensures Cutoff(s.events) <= LastSeen(s.events) <= LastId(s.log)
  {
    hide Cutoff, LastSeen, Told, IsHandoffBrief;
  }

  lemma GrownBrief(s: Sys, after: Sys, pending: nat)
    requires Grown(s, after) && pending <= LastEventId(s.events)
    ensures pending <= LastEventId(after.events) && Cutoff(after.events) == Cutoff(s.events)
    ensures IsHandoffBrief(after.events, pending) ==> IsHandoffBrief(s.events, pending)
    ensures s.log <= after.log && Arrival(after.log) && s.ledger.told <= after.ledger.told
  {
    hide Cutoff, IsHandoffBrief;
  }

  lemma BriefStaysOk(s: Sys, after: Sys, op: Op)
    requires EventsOk(s) && BriefOk(s, op) && Grown(s, after)
    ensures BriefOk(after, op)
  {
    hide Cutoff, IsHandoffBrief, LastSeen, Told, Holds, EventsOk, Grown, Arrival;
    MarksAreOrdered(s);
    if op.Brief? || op.Briefed? || op.MarkBrief? {
      GrownBrief(s, after, op.pending);
    }
    if op.Briefed? {
      if IsHandoffBrief(after.events, op.pending) {
        HoldsMore(s.log, after.log, op.n, Cutoff(s.events));
      }
      HoldsBound(s.log, after.log);
    } else if op.MarkBrief? && IsHandoffBrief(after.events, op.pending) {
      ToldStays(s, after, 0, Cutoff(s.events));
    }
  }

  lemma UpdateStaysOk(s: Sys, after: Sys, op: Op)
    requires EventsOk(s) && UpdateOk(s, op) && Grown(s, after) && LastSeen(after.events) == LastSeen(s.events)
    ensures UpdateOk(after, op)
  {
    hide Cutoff, IsHandoffBrief, LastSeen, Told, EventsOk, Grown, Arrival;
    GrownBrief(s, after, 0);
    if op.Forwarded? {
      HoldsBound(s.log, after.log);
      assert after.log[..op.n] == s.log[..op.n];
    } else if op.MarkUpdate? {
      ToldStays(s, after, LastSeen(s.events), op.last);
      LastGrows(s.log, after.log);
    }
  }

  lemma HoldsBound(log: seq<Message>, after: seq<Message>)
    requires log <= after
    ensures |log| <= |after|
  {
  }

  // ----- the effects -----

  /** A step that only appends rows or tells solvers. */
  lemma EventsStayOk(s: Sys, after: Sys)
    requires EventsOk(s) && s.events == after.events
    requires s.log <= after.log && Arrival(after.log) && s.ledger.told <= after.ledger.told
    requires after.row.state.Mediating() ==> s.row.state.Mediating()
    ensures EventsOk(after)
  {
    hide Cutoff, IsHandoffBrief, LastSeen, Told;
    LastGrows(s.log, after.log);
    ToldStays(s, after, Cutoff(s.events), LastSeen(s.events));
    forall e | e in s.events && e.body.BriefSent? && IsHandoffBrief(s.events, e.body.pending)
      ensures Told(after, 0, Cutoff(s.events))
    {
      ToldStays(s, after, 0, Cutoff(s.events));
    }
  }

  /** Events about neither the handoff, its brief nor the updates. */
  predicate Plain(body: EventBody) {
    && !body.HandoffRecorded? && !body.UpdateSent? && !body.BriefSent?
    && body != BriefPending(AboutHandoff)
  }

  lemma PlainBrief(s: Sys, bodies: seq<EventBody>, at: int, gap: nat, pending: nat)
    requires forall i :: 0 <= i < |bodies| ==> bodies[i] != BriefPending(AboutHandoff)
    ensures IsHandoffBrief(NotedAll(s, bodies, at, gap).events, pending) ==> IsHandoffBrief(s.events, pending)
  {
    var after := NotedAll(s, bodies, at, gap);
    if IsHandoffBrief(after.events, pending) {
      var e :| e in after.events && e.id == pending && e.body == BriefPending(AboutHandoff);
      NotedAllNewEvents(s, bodies, at, gap, e);
    }
  }

  lemma PlainKeepsEvents(s: Sys, row: Row, bodies: seq<EventBody>, at: int, gap: nat)
    requires EventsOk(s) && (row.state.Mediating() ==> s.row.state.Mediating())
    requires forall i :: 0 <= i < |bodies| ==> Plain(bodies[i])
    ensures var after := NotedAll(s.(row := row), bodies, at, gap);
            && EventsOk(after)
            && Cutoff(after.events) == Cutoff(s.events) && LastSeen(after.events) == LastSeen(s.events)
            && LastEventId(s.events) <= LastEventId(after.events)
  {
    hide Cutoff, IsHandoffBrief, LastSeen, NotedAll, Told;
    var before := s.(row := row);
    var after := NotedAll(before, bodies, at, gap);
    NotedAllMarks(before, bodies, at, gap);
    NotedAllIds(before, bodies, at, gap);
    NotedAllBodies(before, bodies, at, gap);
    SameTold(s, after, Cutoff(s.events), LastSeen(s.events));
    SameTold(s, after, 0, Cutoff(s.events));
    forall e | e in after.events
      ensures e in s.events || Plain(e.body)
    {
      NotedAllNewEvents(before, bodies, at, gap, e);
    }
    forall e | e in after.events && e.body.BriefSent?
      ensures e.body.pending <= LastEventId(after.events)
      ensures IsHandoffBrief(after.events, e.body.pending) ==> Told(after, 0, Cutoff(after.events))
    {
      PlainBrief(before, bodies, at, gap, e.body.pending);
    }
  }

  lemma SameTold(s: Sys, after: Sys, low: nat, high: nat)
    requires s.log == after.log && s.ledger.told == after.ledger.told
    ensures Told(s, low, high) == Told(after, low, high)
  {
  }

  // ----- what each operation leaves to do -----

  predicate IsBriefing(op: Op) {
    op.Brief? || op.Briefed? || op.MarkBrief?
  }

  lemma SharedLeaves(s: Sys, a: Actor, op: Op, rest: seq<Op>, o: Oracle, x: Op)
    requires x in RunSharedOp(s, a, op, rest, o).1
    ensures || x in rest
            || (!IsBriefing(x) && !IsUpdating(x))
            || (op.HandOff? && s.row.state.Mediating() && x == Brief(PendingId(s, o)))
            || (op.Brief? && x == Briefed(op.pending, |s.log|))
            || (op.Briefed? && o.ok && x == MarkBrief(op.pending))
  {
    ToRetryKeeps(rest);
  }

  lemma TurnLeaves(c: Config, s: Sys, op: Op, rest: seq<Op>, o: Oracle, x: Op)
    requires x in RunTurnOp(c, s, op, rest, o).1
    ensures || x in rest
            || (!IsBriefing(x) && !IsUpdating(x))
            || (op.StartGuide? && s.row.state.Active? && x == Brief(PendingId(s, o)))
            || (op.Load? && s.row.state.HandedOff? && x.Forward?)
            || (op.Forward? && x.Forwarded?)
            || (op.Forwarded? && o.ok && x == MarkUpdate(op.last))
    ensures IsUpdating(x) && x !in rest ==> RunTurnOp(c, s, op, rest, o).1 == [x]
  {
    hide Judged, Decide, OnlyCourtesy, Strikes, Floods, Listed, Changes, WithLanguage, Unseen, ActionOps;
    if op.Record? {
      ActionDoesNotBrief(op.turn.next, Decide(op.turn));
    }
  }

  lemma ActionDoesNotBrief(next: NextQuestions, action: Action)
    ensures forall x :: x in ActionOps(next, action) ==> !IsBriefing(x) && !IsUpdating(x)
  {
    if action.Ask? {
      SendsAre(Buyer, action.buyer);
      SendsAre(Seller, action.seller);
    }
  }

  lemma PendingBriefIds(events: seq<Event>, all: seq<Event>)
    ensures forall x :: x in PendingBriefs(events, all) ==> x.Brief? && exists e :: e in events && e.id == x.pending
  {
    if events != [] {
      PendingBriefIds(events[1..], all);
      assert events[0] in events;
      forall x | x in PendingBriefs(events[1..], all)
        ensures exists e :: e in events && e.id == x.pending
      {
        var e :| e in events[1..] && e.id == x.pending;
        assert e in events;
      }
    }
  }

  lemma TickLeaves(c: Config, s: Sys, op: Op, rest: seq<Op>, o: Oracle, x: Op)
    requires x in RunTickOp(c, s, op, rest, o).1 && Appended(s.events)
    ensures !IsUpdating(x) || x in rest
    ensures || x in rest || !IsBriefing(x) || (x.Brief? && x.pending <= LastEventId(s.events))
  {
    hide ClocksRead, Timers.Check;
    match op
    case ReadClocks(session) =>
      var timer := Timers.Check(ClocksRead(session, Listed(s.log), s.events, s.now), c.timeouts);
      if timer.Remind? {
        RemindersAre(timer.parties);
      }
    case Retry(session) =>
      PendingBriefIds(s.events, s.events);
      if x in PendingBriefs(s.events, s.events) {
        var e :| e in s.events && e.id == x.pending;
        EventBelowLast(s.events, e);
      }
    case _ =>
  }

  // ----- the steps that brief and update -----

  /** The handoff sets the cutoff, when nothing was briefed or updated yet. */
  lemma HandingOff(s: Sys, row: Row, reason: Reason, o: Oracle)
    requires EventsOk(s) && Logs(s) && s.row.state.Mediating() && !row.state.Mediating()
    ensures var bodies := [HandoffRecorded(reason, LastId(s.log)), BriefPending(AboutHandoff)];
            var after := NotedAll(s.(row := row), bodies, o.at, o.gap);
            && EventsOk(after)
            && LastEventId(after.events) == PendingId(s, o)
            && forall pending: nat :: pending <= LastEventId(s.events) ==> !IsHandoffBrief(after.events, pending)
  {
    hide IsHandoffBrief, LastSeen, Cutoff, EventsOk, NotedAll, Noted;
    var handoff := Event(LastEventId(s.events) + 1 + o.gap, Min(o.at, s.now), HandoffRecorded(reason, LastId(s.log)));
    var brief := Event(handoff.id + 1, Min(o.at, s.now), BriefPending(AboutHandoff));
    var after := NotedAll(s.(row := row), [handoff.body, brief.body], o.at, o.gap);
    NotedTwo(s.(row := row), handoff.body, brief.body, o.at, o.gap);
    HandoffNotes(s, row, handoff, brief, o);
    NothingBriefed(s);
    forall pending: nat | pending <= LastEventId(s.events)
      ensures !IsHandoffBrief(after.events, pending)
    {
      OldIsNoHandoffBrief(s.events, handoff, brief, pending);
    }
    HandoffMarks(s, after, handoff, brief);
  }

  lemma HandoffNotes(s: Sys, row: Row, handoff: Event, brief: Event, o: Oracle)
    requires handoff.id == LastEventId(s.events) + 1 + o.gap && handoff.at == Min(o.at, s.now)
    requires brief.id == handoff.id + 1 && brief.at == handoff.at
    ensures var after := Noted(Noted(s.(row := row), handoff.body, o.at, o.gap), brief.body, o.at, 0);
            && after == s.(row := row, events := s.events + [handoff] + [brief])
            && LastEventId(after.events) == brief.id
  {
  }

  lemma NothingBriefed(s: Sys)
    requires EventsOk(s) && s.row.state.Mediating()
    ensures LastSeen(s.events) == 0 && Cutoff(s.events) == 0
    ensures forall e :: e in s.events ==> !Seen(e).Some? && e.body != BriefPending(AboutHandoff)
  {
    hide LastSeen, Cutoff, Told, IsHandoffBrief;
  }

  /** The handoff moves both marks to the newest message. */
  lemma HandoffMarks(s: Sys, after: Sys, handoff: Event, brief: Event)
    requires EventsOk(s) && Arrival(s.log) && s.row.state.Mediating() && !after.row.state.Mediating()
    requires after == s.(row := after.row, events := s.events + [handoff] + [brief])
    requires handoff.body.HandoffRecorded? && handoff.body.lastMessage == LastId(s.log)
    requires brief.body == BriefPending(AboutHandoff) && LastEventId(s.events) < handoff.id < brief.id
    requires forall pending: nat :: pending <= LastEventId(s.events) ==> !IsHandoffBrief(after.events, pending)
    ensures EventsOk(after)
  {
    hide IsHandoffBrief, LastSeen, Cutoff;
    NothingBriefed(s);
    CutoffAppend(s.events, handoff);
    CutoffAppend(s.events + [handoff], brief);
    assert forall e :: e in after.events <==> e in s.events || e == handoff || e == brief;
  }

  lemma OldIsNoHandoffBrief(events: seq<Event>, handoff: Event, brief: Event, pending: nat)
    requires forall e :: e in events ==> e.body != BriefPending(AboutHandoff)
    requires handoff.body.HandoffRecorded? && brief.id > pending
    ensures !IsHandoffBrief(events + [handoff] + [brief], pending)
  {
  }

  /** Marking the brief as delivered: its transcript was told. */
  lemma MarkingBrief(s: Sys, pending: nat, o: Oracle)
    requires EventsOk(s) && BriefOk(s, MarkBrief(pending))
    ensures var after := NotedAll(s, [BriefSent(pending)], o.at, o.gap);
            EventsOk(after) && LastSeen(after.events) == LastSeen(s.events) && Cutoff(after.events) == Cutoff(s.events)
  {
    hide IsHandoffBrief, LastSeen, Cutoff, Told;
    var e := Event(LastEventId(s.events) + 1 + o.gap, Min(o.at, s.now), BriefSent(pending));
    var after := NotedAll(s, [BriefSent(pending)], o.at, o.gap);
    NotedOne(s, BriefSent(pending), o.at, o.gap);
    assert after.events == s.events + [e];
    CutoffAppend(s.events, e);
    SameTold(s, after, Cutoff(s.events), LastSeen(s.events));
    SameTold(s, after, 0, Cutoff(s.events));
    forall x | x in after.events && x.body.BriefSent?
      ensures x.body.pending <= LastEventId(after.events)
      ensures IsHandoffBrief(after.events, x.body.pending) ==> Told(after, 0, Cutoff(after.events))
    {
      PlainBrief(s, [BriefSent(pending)], o.at, o.gap, x.body.pending);
      assert x in s.events || x == e;
    }
    assert forall x :: x in after.events <==> x in s.events || x == e;
  }

  /** Recording an update: its messages were told, and the mark moves up. */
  lemma MarkingUpdate(s: Sys, last: nat, o: Oracle)
    requires EventsOk(s) && UpdateOk(s, MarkUpdate(last)) && !s.row.state.Mediating()
    ensures var after := NotedAll(s, [UpdateSent(last)], o.at, o.gap);
            EventsOk(after) && Cutoff(after.events) == Cutoff(s.events) && LastSeen(after.events) == last
  {
    hide IsHandoffBrief, LastSeen, Cutoff;
    var e := Event(LastEventId(s.events) + 1 + o.gap, Min(o.at, s.now), UpdateSent(last));
    var after := NotedAll(s, [UpdateSent(last)], o.at, o.gap);
    NotedOne(s, UpdateSent(last), o.at, o.gap);
    assert after.events == s.events + [e];
    CutoffAppend(s.events, e);
    forall x | x in after.events && x.body.BriefSent?
      ensures x.body.pending <= LastEventId(after.events)
      ensures IsHandoffBrief(after.events, x.body.pending) ==> Told(after, 0, Cutoff(after.events))
    {
      PlainBrief(s, [UpdateSent(last)], o.at, o.gap, x.body.pending);
      assert x in s.events;
    }
  }

  // ----- one step of an actor -----

  lemma GrownByAppend(s: Sys, row: Row, bodies: seq<EventBody>, at: int, gap: nat)
    requires EventsOk(s) && Logs(s)
    requires forall i :: 0 <= i < |bodies| ==> bodies[i] != BriefPending(AboutHandoff)
    requires var after := NotedAll(s.(row := row), bodies, at, gap);
             Cutoff(after.events) == Cutoff(s.events) && LastEventId(s.events) <= LastEventId(after.events)
    ensures Grown(s, NotedAll(s.(row := row), bodies, at, gap))
  {
    hide IsHandoffBrief, Cutoff, NotedAll;
    var after := NotedAll(s.(row := row), bodies, at, gap);
    NotedAllBodies(s.(row := row), bodies, at, gap);
    forall pending: nat | IsHandoffBrief(after.events, pending)
      ensures IsHandoffBrief(s.events, pending)
    {
      PlainBrief(s.(row := row), bodies, at, gap, pending);
    }
  }

  lemma PlainIsGrown(s: Sys, row: Row, bodies: seq<EventBody>, at: int, gap: nat)
    requires EventsOk(s) && Logs(s) && (row.state.Mediating() ==> s.row.state.Mediating())
    requires forall i :: 0 <= i < |bodies| ==> Plain(bodies[i])
    ensures var after := NotedAll(s.(row := row), bodies, at, gap);
            EventsOk(after) && Grown(s, after) && LastSeen(after.events) == LastSeen(s.events)
  {
    hide EventsOk, Grown, NotedAll, LastSeen, Cutoff;
    PlainKeepsEvents(s, row, bodies, at, gap);
    GrownByAppend(s, row, bodies, at, gap);
  }

  lemma AppendIsGrown(s: Sys, op: Op, row: Row, bodies: seq<EventBody>, o: Oracle)
    requires EventsOk(s) && Logs(s) && AppendAllowed(s, op, row, bodies) && !op.HandOff?
    requires BriefOk(s, op) && UpdateOk(s, op) && (op.MarkUpdate? ==> !s.row.state.Mediating())
    requires row.state.Mediating() ==> s.row.state.Mediating()
    ensures var after := NotedAll(s.(row := row), bodies, o.at, o.gap);
            && EventsOk(after) && Grown(s, after)
            && (!op.MarkUpdate? ==> LastSeen(after.events) == LastSeen(s.events))
            && (op.MarkUpdate? ==> LastSeen(after.events) == op.last > LastSeen(s.events))
  {
    hide EventsOk, Grown, NotedAll, LastSeen, Cutoff, BriefOk;
    NotedAllIds(s.(row := row), bodies, o.at, o.gap);
    if op.MarkBrief? || op.MarkUpdate? {
      assert s.(row := row) == s;
      if op.MarkBrief? {
        MarkingBrief(s, op.pending, o);
      } else {
        MarkingUpdate(s, op.last, o);
      }
      GrownByAppend(s, row, bodies, o.at, o.gap);
    } else {
      PlainIsGrown(s, row, bodies, o.at, o.gap);
    }
  }

  /** Every step but a handoff leaves what the others still have to do
      valid. */
  lemma EffectIsGrown(s: Sys, a: Actor, op: Op, o: Oracle, e: Effect)
    requires EventsOk(s) && Logs(s) && RowOk(s.row) && EffectAllowed(s, a, op, o, e)
    requires BriefOk(s, op) && UpdateOk(s, op) && (op.MarkUpdate? ==> !s.row.state.Mediating())
    requires op.Activate? ==> s.row.state.Opening? || s.row.state.Terminal()
    requires !(e.Append? && op.HandOff?)
    ensures var after := Apply(s, e, o);
            && EventsOk(after) && Grown(s, after)
            && (after.row.state.Mediating() ==> s.row.state.Mediating())
            && (!op.MarkUpdate? ==> LastSeen(after.events) == LastSeen(s.events))
            && (e.Append? && op.MarkUpdate? ==> LastSeen(after.events) == op.last > LastSeen(s.events))
  {
    hide EventsOk, Grown, NotedAll, LastSeen, Cutoff, BriefOk, UpdateOk, AppendAllowed, RowOk, Logs;
    EffectMovesRow(s, a, op, o, e);
    ApplyIs(s, e, o);
    ApplyKeepsLogs(s, e, o);
    if e.Append? {
      AppendIsGrown(s, op, e.row, e.bodies, o);
    } else if e.BeginHold? {
      BeginHoldIsNotedAll(s, o);
      NotedAllBodies(s, [Held(LastId(s.log))], s.now, o.gap);
      PlainIsGrown(s, s.row, [Held(LastId(s.log))], s.now, o.gap);
      assert s.(row := s.row) == s;
      SameEvents(NotedAll(s, [Held(LastId(s.log))], s.now, o.gap), Apply(s, e, o));
      GrownLedger(s, NotedAll(s, [Held(LastId(s.log))], s.now, o.gap), Apply(s, e, o));
    } else {
      LogsAreArrival(Apply(s, e, o));
      EventsStayOk(s, Apply(s, e, o));
      GrownSame(s, Apply(s, e, o));
    }
  }

  lemma LogsAreArrival(s: Sys)
    requires Logs(s)
    ensures Arrival(s.log)
  {
  }

  lemma GrownSame(s: Sys, after: Sys)
    requires s.log <= after.log && Arrival(after.log) && s.ledger.told <= after.ledger.told && s.events == after.events
    ensures Grown(s, after)
  {
  }

  lemma SameEvents(s: Sys, after: Sys)
    requires EventsOk(s) && after.log == s.log && after.events == s.events && after.ledger.told == s.ledger.told
    requires after.row.state == s.row.state
    ensures EventsOk(after)
  {
  }

  lemma GrownLedger(s: Sys, noted: Sys, after: Sys)
    requires Grown(s, noted) && after.log == noted.log && after.events == noted.events
    requires after.ledger.told == noted.ledger.told
    ensures Grown(s, after)
  {
  }

  // ----- what is left to do is valid -----

  /** A briefing or updating step that appears is valid in the state it
      appears in. */
  lemma NewSharedIsOk(s: Sys, a: Actor, op: Op, rest: seq<Op>, o: Oracle, x: Op)
    requires EventsOk(s) && Logs(s) && BriefOk(s, op) && x !in rest
    requires x in RunSharedOp(s, a, op, rest, o).1 && IsShared(op) && !op.HandOff?
    ensures var after := Apply(s, RunSharedOp(s, a, op, rest, o).0, o);
            !IsUpdating(x) && (EventsOk(after) && Grown(s, after) ==> BriefOk(after, x))
  {
    hide EventsOk, Apply, Told, Holds, Cutoff, LastSeen, IsHandoffBrief;
    var e := RunSharedOp(s, a, op, rest, o).0;
    var after := Apply(s, e, o);
    SharedLeaves(s, a, op, rest, o, x);
    ApplyIs(s, e, o);
    if op.Brief? && x.Briefed? && Grown(s, after) {
      HoldsAll(s.log, Cutoff(s.events));
    }
    if op.Briefed? && x.MarkBrief? && Grown(s, after) {
      if IsHandoffBrief(after.events, op.pending) {
        HeldIsTold(s, op.n, Cutoff(s.events), after);
      }
    }
  }

  lemma HoldsAll(log: seq<Message>, high: nat)
    ensures Holds(log, |log|, high)
  {
  }

  /** What a turn's own step adds. */
  lemma NewTurnIsOk(c: Config, s: Sys, op: Op, rest: seq<Op>, o: Oracle, x: Op)
    requires EventsOk(s) && Logs(s) && BriefOk(s, op) && UpdateOk(s, op) && x !in rest && !IsShared(op)
    requires x in RunTurnOp(c, s, op, rest, o).1
    ensures var after := Apply(s, RunTurnOp(c, s, op, rest, o).0, o);
            BriefOk(after, x) && UpdateOk(after, x)
  {
    hide EventsOk, Told, Cutoff, IsHandoffBrief, NotedAll, Listed, Unseen, LastSeen;
    TurnLeaves(c, s, op, rest, o, x);
    if op.StartGuide? && x.Brief? {
      GuideBriefId(s, op.path, o);
    } else if op.Forward? && x.Forwarded? {
      ForwardReads(s);
    } else if op.Forwarded? && x.MarkUpdate? {
      var after := Apply(s, RunTurnOp(c, s, op, rest, o).0, o);
      UpdateIsTold(s, op.n, op.seen, op.last, after);
      LastGrows(s.log[..op.n], s.log);
    }
  }

  lemma GuideBriefId(s: Sys, path: Path, o: Oracle)
    ensures LastEventId(NotedAll(s.(row := StartGuidingRow(s.row, s.now)), [Guided(path), BriefPending(AboutGuide)],
                                 o.at, o.gap).events) == PendingId(s, o)
    ensures !IsHandoffBrief(s.events, PendingId(s, o)) ==>
              !IsHandoffBrief(NotedAll(s.(row := StartGuidingRow(s.row, s.now)),
                                       [Guided(path), BriefPending(AboutGuide)], o.at, o.gap).events, PendingId(s, o))
  {
    var row := StartGuidingRow(s.row, s.now);
    NotedTwo(s.(row := row), Guided(path), BriefPending(AboutGuide), o.at, o.gap);
    PlainBrief(s.(row := row), [Guided(path), BriefPending(AboutGuide)], o.at, o.gap, PendingId(s, o));
  }

  lemma ForwardReads(s: Sys)
    requires Arrival(s.log)
    ensures var seen := LastSeen(s.events);
            var unseen := Unseen(Listed(s.log), seen);
            unseen != [] ==> seen < unseen[|unseen| - 1].id <= LastId(s.log)
    ensures s.log[..|s.log|] == s.log
  {
    hide Listed, Unseen, LastSeen;
    var unseen := Unseen(Listed(s.log), LastSeen(s.events));
    UnseenAre(Listed(s.log), LastSeen(s.events));
    ListedElements(s.log);
    if unseen != [] {
      assert unseen[|unseen| - 1] in unseen;
      ArrivalBelowLast(s.log, unseen[|unseen| - 1]);
    }
  }

  // ----- every step -----

  lemma OldBriefsAreOthers(s: Sys, after: Sys, x: Op)
    requires BriefOk(s, x) && !IsUpdating(x) && after.log == s.log
    requires LastEventId(s.events) <= LastEventId(after.events)
    requires forall pending: nat :: pending <= LastEventId(s.events) ==> !IsHandoffBrief(after.events, pending)
    ensures BriefOk(after, x) && UpdateOk(after, x)
  {
  }

  /** A handoff finds nothing to update, and no older brief becomes its own. */
  lemma HandOffKeepsDelivery(c: Config, s: Sys, a: Actor, op: Op, rest: seq<Op>, o: Oracle)
    requires Logs(s) && DeliveryOk(s) && !a.TheOpening?
    requires OpsOf(s, a) == [op] + rest && op.HandOff? && s.row.state.Mediating()
    ensures DeliveryOk(Step(c, s, Run(a, o)))
  {
    hide EventsOk, NotedAll, Logs, LastSeen, Cutoff, BriefOk, UpdateOk, IsHandoffBrief;
    hide Step, RunSharedOp, RunTurnOp, RunTickOp, Apply;
    assert OpsOf(s, a)[0] == op && OpsOf(s, a)[1..] == rest;
    var (e, left) := RunSharedOp(s, a, op, rest, o);
    HandOffIs(s, a, op, rest, o);
    var noted := NotedAll(s.(row := e.row), e.bodies, o.at, o.gap);
    var after := Step(c, s, Run(a, o));
    RunIs(c, s, a, o);
    AppendIs(s, e, o);
    NotedAllBodies(s.(row := e.row), e.bodies, o.at, o.gap);
    NotedAllIds(s.(row := e.row), e.bodies, o.at, o.gap);
    HandingOff(s, e.row, op.reason, o);
    SameEvents(noted, after);
    forall x | x in s.turn || x in s.tick
      ensures BriefOk(after, x) && UpdateOk(after, x) && !IsUpdating(x)
    {
      OldBriefsAreOthers(s, after, x);
    }
    forall x | x in left
      ensures BriefOk(after, x) && UpdateOk(after, x) && !IsUpdating(x)
    {
      if x in rest {
        assert x in OpsOf(s, a);
      } else {
        SharedLeaves(s, a, op, rest, o, x);
        PendingIsOk(after, x);
      }
    }
  }

  lemma PendingIsOk(s: Sys, x: Op)
    requires (x.Brief? && x.pending == LastEventId(s.events)) || (!IsBriefing(x) && !IsUpdating(x))
    ensures BriefOk(s, x) && UpdateOk(s, x) && !IsUpdating(x)
  {
  }

  lemma TurnLeftIsOk(c: Config, s: Sys, op: Op, rest: seq<Op>, o: Oracle)
    requires ProtocolOk(s) && DeliveryOk(s) && s.turn == [op] + rest
    requires !(op.HandOff? && s.row.state.Mediating())
    ensures var after := Step(c, s, Run(TheTurn, o));
            && EventsOk(after) && Grown(s, after)
            && (after.row.state.Mediating() ==> s.row.state.Mediating())
            && (!op.MarkUpdate? ==> LastSeen(after.events) == LastSeen(s.events))
            && forall x :: x in after.turn ==> BriefOk(after, x) && UpdateOk(after, x)
  {
    hide EventsOk, RunSharedOp, RunTurnOp, RunTickOp, RunOpeningOp, Apply, SentOwn, OpeningOk, StillOpening, TurnMay, TickMay;
    hide Grown, BriefOk, UpdateOk, Cutoff, LastSeen, IsHandoffBrief, Logs, RowOk;
    assert s.turn[0] == op && s.turn[1..] == rest && op in s.turn;
    var (e, left) := RunOp(c, s, TheTurn, op, rest, o);
    var applied := Apply(s, e, o);
    var after := Step(c, s, Run(TheTurn, o));
    RunEffects(c, s, TheTurn, op, rest, o);
    NotActivating(s, TheTurn, op);
    NoHandOffAppend(s, op, o, e);
    EffectIsGrown(s, TheTurn, op, o, e);
    SameEvents(applied, after);
    GrownLedger(s, applied, after);
    forall x | x in left
      ensures BriefOk(after, x) && UpdateOk(after, x)
    {
      if x in rest {
        assert x in s.turn;
        BriefStaysOk(s, after, x);
        if !op.MarkUpdate? {
          UpdateStaysOk(s, after, x);
        }
      } else if IsShared(op) {
        if op.HandOff? {
          SharedLeaves(s, TheTurn, op, rest, o, x);
        } else {
          NewSharedIsOk(s, TheTurn, op, rest, o, x);
        }
        OkInActors(applied, after, x);
      } else {
        NewTurnIsOk(c, s, op, rest, o, x);
        OkInActors(applied, after, x);
      }
    }
  }

  lemma OkInActors(s: Sys, after: Sys, x: Op)
    requires after.log == s.log && after.events == s.events && after.ledger == s.ledger
    ensures BriefOk(s, x) ==> BriefOk(after, x)
    ensures UpdateOk(s, x) ==> UpdateOk(after, x)
    ensures !IsBriefing(x) && !IsUpdating(x) ==> BriefOk(after, x) && UpdateOk(after, x)
    ensures !IsUpdating(x) ==> UpdateOk(after, x)
  {
  }

  lemma NoHandOffAppend(s: Sys, op: Op, o: Oracle, e: Effect)
    requires EffectAllowed(s, TheTurn, op, o, e) || EffectAllowed(s, TheTick, op, o, e)
    requires !(op.HandOff? && s.row.state.Mediating())
    ensures !(e.Append? && op.HandOff?)
  {
  }

  /** Updating ops are alone in the turn, and only after mediation. */
  ghost predicate UpdatesAlone(s: Sys) {
    forall op :: op in s.turn && IsUpdating(op) ==> s.turn == [op] && !s.row.state.Mediating()
  }

  lemma UpdatesStayAlone(c: Config, s: Sys, op: Op, rest: seq<Op>, o: Oracle)
    requires UpdatesAlone(s) && s.turn == [op] + rest
    requires var after := Step(c, s, Run(TheTurn, o)); after.row.state.Mediating() ==> s.row.state.Mediating()
    ensures UpdatesAlone(Step(c, s, Run(TheTurn, o)))
  {
    hide RunSharedOp, RunTurnOp, RunTickOp, RunOpeningOp, Apply;
    assert s.turn[0] == op && s.turn[1..] == rest && op in s.turn;
    var after := Step(c, s, Run(TheTurn, o));
    forall x | x in after.turn && IsUpdating(x)
      ensures after.turn == [x] && !after.row.state.Mediating()
    {
      if x in rest {
        assert false;
      } else if IsShared(op) {
        SharedLeaves(s, TheTurn, op, rest, o, x);
      } else {
        TurnLeaves(c, s, op, rest, o, x);
        assert !s.row.state.Mediating();
      }
    }
  }

  lemma TickLeftIsOk(c: Config, s: Sys, a: Actor, op: Op, rest: seq<Op>, o: Oracle)
    requires ProtocolOk(s) && DeliveryOk(s) && !a.TheTurn? && OpsOf(s, a) == [op] + rest
    requires !(op.HandOff? && s.row.state.Mediating())
    ensures DeliveryOk(Step(c, s, Run(a, o)))
  {
    hide Step, EventsOk, RunSharedOp, RunTurnOp, RunTickOp, RunOpeningOp, Apply, SentOwn, StillOpening, TurnMay, TickMay;
    hide Grown, BriefOk, UpdateOk, Cutoff, LastSeen, IsHandoffBrief, Logs, RowOk, EffectAllowed;
    assert OpsOf(s, a)[0] == op && OpsOf(s, a)[1..] == rest && op in OpsOf(s, a);
    var (e, left) := RunOp(c, s, a, op, rest, o);
    var applied := Apply(s, e, o);
    var after := Step(c, s, Run(a, o));
    RunEffects(c, s, a, op, rest, o);
    RunIs(c, s, a, o);
    BriefingIsOk(s, a, op);
    if a.TheTick? {
      NoHandOffAppend(s, op, o, e);
    }
    ApplyIs(s, e, o);
    EffectIsGrown(s, a, op, o, e);
    SameEvents(applied, after);
    GrownLedger(s, applied, after);
    forall x | x in s.turn || x in s.tick
      ensures BriefOk(after, x) && UpdateOk(after, x)
    {
      BriefStaysOk(s, after, x);
      if x in s.turn {
        UpdateStaysOk(s, after, x);
      } else {
        NotUpdatingIsOk(after, x);
      }
    }
    if a.TheTick? {
      forall x | x in left && x !in rest
        ensures BriefOk(after, x) && !IsUpdating(x)
      {
        NewTickIsOk(c, s, op, rest, o, x);
        OkInActors(applied, after, x);
      }
    }
    OpeningDoesNotBrief(c, s, after, a, o);
  }

  lemma NotUpdatingIsOk(s: Sys, x: Op)
    requires !IsUpdating(x)
    ensures UpdateOk(s, x)
  {
  }

  lemma OpeningDoesNotBrief(c: Config, s: Sys, after: Sys, a: Actor, o: Oracle)
    requires ProtocolOk(s) && OpsOf(s, a) != [] && after == Step(c, s, Run(a, o))
    ensures forall op :: op in after.opening ==> !IsUpdating(op) && !IsBriefing(op)
  {
    hide RunOp, Apply, Shapes, Logs, SentOwn, StillOpening, RowOk, OpenerSent;
    ApplyIs(s, RunOp(c, s, a, OpsOf(s, a)[0], OpsOf(s, a)[1..], o).0, o);
    OpeningHolds(s);
    if a.TheOpening? {
      OpeningGoesOn(c, s, o);
      OpeningHoldsOk(after);
    }
  }

  lemma OpeningHolds(s: Sys)
    requires ProtocolOk(s)
    ensures forall op :: op in s.opening ==> !IsUpdating(op) && !IsBriefing(op)
  {
    hide Shapes, Logs, SentOwn, StillOpening, RowOk, OpenerSent;
    OpeningHoldsOk(s);
  }

  lemma OpeningHoldsOk(s: Sys)
    requires OpeningOk(s)
    ensures forall op :: op in s.opening ==> !IsUpdating(op) && !IsBriefing(op)
  {
    hide OpenerSent;
  }

  lemma BriefingIsOk(s: Sys, a: Actor, op: Op)
    requires ProtocolOk(s) && DeliveryOk(s) && op in OpsOf(s, a) && !a.TheTurn?
    ensures BriefOk(s, op) && UpdateOk(s, op) && !IsUpdating(op)
    ensures op.Activate? ==> s.row.state.Opening? || s.row.state.Terminal()
    ensures a.TheOpening? ==> !op.HandOff?
  {
    hide EventsOk, Logs, SentOwn, StillOpening, RowOk, OpenerSent, TurnMay;
    if a.TheTick? {
      NotActivating(s, a, op);
    }
  }

  lemma NewTickIsOk(c: Config, s: Sys, op: Op, rest: seq<Op>, o: Oracle, x: Op)
    requires EventsOk(s) && Logs(s) && BriefOk(s, op) && x !in rest && !(op.HandOff? && s.row.state.Mediating())
    requires x in RunOp(c, s, TheTick, op, rest, o).1
    ensures var after := Apply(s, RunOp(c, s, TheTick, op, rest, o).0, o);
            !IsUpdating(x) && (EventsOk(after) && Grown(s, after) ==> BriefOk(after, x))
  {
    hide EventsOk, Apply, RunSharedOp, RunTickOp;
    if IsShared(op) {
      if op.HandOff? {
        SharedLeaves(s, TheTick, op, rest, o, x);
      } else {
        NewSharedIsOk(s, TheTick, op, rest, o, x);
      }
    } else {
      TickLeaves(c, s, op, rest, o, x);
    }
  }

  lemma ActorKeepsDelivery(c: Config, s: Sys, a: Actor, o: Oracle)
    requires ProtocolOk(s) && DeliveryOk(s) && OpsOf(s, a) != []
    ensures DeliveryOk(Step(c, s, Run(a, o)))
  {
    hide EventsOk, RunOp, Apply, SentOwn, OpeningOk, StillOpening, TurnMay, TickMay;
    hide Grown, BriefOk, UpdateOk, Logs, RowOk, LastSeen;
    var op, rest := OpsOf(s, a)[0], OpsOf(s, a)[1..];
    var after := Step(c, s, Run(a, o));
    assert OpsOf(s, a) == [op] + rest && op in OpsOf(s, a);
    if !a.TheTurn? {
      BriefingIsOk(s, a, op);
    }
    if op.HandOff? && s.row.state.Mediating() {
      HandOffKeepsDelivery(c, s, a, op, rest, o);
    } else if a.TheTurn? {
      TurnLeftIsOk(c, s, op, rest, o);
      UpdatesStayAlone(c, s, op, rest, o);
      OpeningDoesNotBrief(c, s, after, a, o);
      ApplyIs(s, RunOp(c, s, a, op, rest, o).0, o);
      forall x | x in s.tick
        ensures BriefOk(after, x) && !IsUpdating(x)
      {
        BriefStaysOk(s, after, x);
      }
    } else {
      TickLeftIsOk(c, s, a, op, rest, o);
    }
  }

  lemma GrownKeepsDelivery(s: Sys, after: Sys)
    requires DeliveryOk(s) && EventsOk(after) && Grown(s, after) && LastSeen(after.events) == LastSeen(s.events)
    requires after.row.state.Mediating() ==> s.row.state.Mediating()
    requires after.turn == s.turn || after.turn == [] || after.turn == [Load]
    requires after.tick == s.tick || after.tick == [] || after.tick == [ListSession]
    requires after.opening == s.opening || after.opening == []
    ensures DeliveryOk(after)
  {
    hide EventsOk, Grown, BriefOk, UpdateOk, LastSeen;
    forall x | x in s.turn || x in s.tick
      ensures BriefOk(after, x) && UpdateOk(after, x)
    {
      BriefStaysOk(s, after, x);
      if x in s.turn {
        UpdateStaysOk(s, after, x);
      } else {
        NotUpdatingIsOk(after, x);
      }
    }
    StartIsOk(after, Load);
    StartIsOk(after, ListSession);
  }

  lemma StartIsOk(s: Sys, x: Op)
    requires x.Load? || x.ListSession?
    ensures BriefOk(s, x) && UpdateOk(s, x) && !IsUpdating(x)
  {
  }

  lemma EndingIsGrown(s: Sys, state: State, at: int, gap: nat)
    requires EventsOk(s) && Logs(s) && state.Terminal()
    ensures var after := Ended(s, state, at, gap);
            EventsOk(after) && Grown(s, after) && LastSeen(after.events) == LastSeen(s.events)
  {
    hide EventsOk, Grown, Logs, LastSeen, Noted, NotedAll;
    var row := SetStateRow(s.row, state, s.now);
    NotedOne(s.(row := row), SessionEnded, at, gap);
    PlainIsGrown(s, row, [SessionEnded], at, gap);
    LogsAreArrival(s);
    GrownSame(s, s);
  }

  lemma ReceivingIsGrown(s: Sys, m: Message)
    requires EventsOk(s) && Arrival(s.log + [m])
    ensures var after := s.(log := s.log + [m], wake := true);
            EventsOk(after) && Grown(s, after)
  {
    hide EventsOk, Grown;
    var after := s.(log := s.log + [m], wake := true);
    EventsStayOk(s, after);
    GrownSame(s, after);
  }

  lemma QuietIsGrown(s: Sys, after: Sys)
    requires EventsOk(s) && Logs(s) && after.row == s.row && after.log == s.log && after.events == s.events
    requires after.ledger.told == s.ledger.told
    ensures EventsOk(after) && Grown(s, after)
  {
    hide EventsOk, Grown, Logs;
    LogsAreArrival(s);
    EventsStayOk(s, after);
    GrownSame(s, after);
  }

  lemma StepKeepsDelivery(c: Config, s: Sys, m: Move)
    requires ProtocolOk(s) && DeliveryOk(s)
    ensures DeliveryOk(Step(c, s, m))
  {
    hide EventsOk, RunOp, Apply, SentOwn, OpeningOk, StillOpening, Shapes, Grown, BriefOk, UpdateOk, Logs, RowOk, LastSeen;
    hide Ended;
    var after := Step(c, s, m);
    match m
    case Run(a, o) =>
      if OpsOf(s, a) == [] {
        NothingToRun(c, s, m);
      } else {
        ActorKeepsDelivery(c, s, a, o);
      }
    case Receive(p, createdAt, gap) =>
      StepKeepsLogs(c, s, m);
      LogsAreArrival(after);
      ReceivingIsGrown(s, Message(LastId(s.log) + 1 + gap, In, p, None, createdAt));
      GrownKeepsDelivery(s, after);
    case Supersede(at, gap) =>
      EndingIsGrown(s, Superseded, at, gap);
      EndedActors(s, Superseded, at, gap);
      GrownKeepsDelivery(s, after);
    case Close(at, gap) =>
      EndingIsGrown(s, Closed, at, gap);
      EndedActors(s, Closed, at, gap);
      GrownKeepsDelivery(s, after);
    case _ =>
      QuietIsGrown(s, after);
      GrownKeepsDelivery(s, after);
  }

  lemma EndedActors(s: Sys, state: State, at: int, gap: nat)
    requires state.Terminal()
    ensures var after := Ended(s, state, at, gap);
            && after.turn == s.turn && after.tick == s.tick && after.opening == s.opening
            && !after.row.state.Mediating()
  {
  }

  lemma {:induction false} RunsKeepDelivery(c: Config, dispute: string, now: int, moves: seq<Move>)
    ensures DeliveryOk(Exec(c, Initial(dispute, now), moves))
  {
    hide Step;
    if moves != [] {
      var before := moves[..|moves| - 1];
      RunsKeepDelivery(c, dispute, now, before);
      RunsAreOk(c, dispute, now, before);
      StepKeepsDelivery(c, Exec(c, Initial(dispute, now), before), moves[|moves| - 1]);
    }
  }

  // ----- no message is lost -----

  /** In every run, once a solver received the brief of the handoff, every
      party message up to the newest the solvers are recorded to have seen
      reached a solver, in the transcript or in an update. Before that, this
      holds of those after the handoff. */
  lemma {:induction false} NoMessageIsLost(c: Config, dispute: string, now: int, moves: seq<Move>)
    ensures var s := Exec(c, Initial(dispute, now), moves);
            && Told(s, Cutoff(s.events), LastSeen(s.events))
            && (HandoffDelivered(s.events) ==> Told(s, 0, LastSeen(s.events)))
  {
    hide Exec, Cutoff, LastSeen, IsHandoffBrief;
    var s := Exec(c, Initial(dispute, now), moves);
    RunsKeepDelivery(c, dispute, now, moves);
    if HandoffDelivered(s.events) {
      var pending: nat :| IsHandoffBrief(s.events, pending) && Delivered(s.events, pending);
      var e :| e in s.events && e.body == BriefSent(pending);
      assert Told(s, 0, Cutoff(s.events));
    }
  }

  /** In every run, each update that was forwarded and is recorded strictly
      raises the newest message seen, so no session is forwarded for ever. */
  lemma {:induction false} EveryUpdateMovesOn(c: Config, dispute: string, now: int, moves: seq<Move>, o: Oracle)
    requires var s := Exec(c, Initial(dispute, now), moves); s.turn != [] && s.turn[0].MarkUpdate?
    ensures var s := Exec(c, Initial(dispute, now), moves);
            LastSeen(s.events) < LastSeen(Step(c, s, Run(TheTurn, o)).events) == s.turn[0].last
  {
    hide Exec, Step, LastSeen, EventsOk;
    var s := Exec(c, Initial(dispute, now), moves);
    RunsKeepDelivery(c, dispute, now, moves);
    var op := s.turn[0];
    assert op in s.turn;
    MarkIsNoted(c, s, o);
    CutoffAppend(s.events, Event(LastEventId(s.events) + 1 + o.gap, Min(o.at, s.now), UpdateSent(op.last)));
  }

  lemma MarkIsNoted(c: Config, s: Sys, o: Oracle)
    requires s.turn != [] && s.turn[0].MarkUpdate?
    ensures Step(c, s, Run(TheTurn, o)).events == Noted(s, UpdateSent(s.turn[0].last), o.at, o.gap).events
  {
    NotedOne(s, UpdateSent(s.turn[0].last), o.at, o.gap);
    assert s.(row := s.row) == s;
  }

  /** In every run, once the handoff's brief was delivered, a start that does
      not schedule a handed-off session forgets nothing: every message of both
      parties reached a solver. */
  lemma {:induction false} NothingIsForgottenAfterTheHandoff(c: Config, dispute: string, now: int, moves: seq<Move>)
    ensures var s := Exec(c, Initial(dispute, now), moves);
            s.row.state.HandedOff? && HandoffDelivered(s.events) && !PendingAtStart(s) ==>
              forall m :: m in s.log && m.direction.In? ==> m.id in s.ledger.told
  {
    hide Exec, LastSeen, HandoffDelivered;
    var s := Exec(c, Initial(dispute, now), moves);
    NoMessageIsLost(c, dispute, now, moves);
    RunsAreOk(c, dispute, now, moves);
    forall m | m in s.log
      ensures m.id > 0
    {
      ArrivalBelowLast(s.log, m);
    }
  }

  // ----- at least once, not exactly once -----

  function LastForwarded(log: seq<Message>, seen: nat): nat
    requires Unseen(Listed(log), seen) != []
  {
    var unseen := Unseen(Listed(log), seen);
    unseen[|unseen| - 1].id
  }

  /** An update leaves nothing to be forwarded again exactly when the party
      message that arrived last carries a time no earlier than any other that
      the solvers have not seen. */
  lemma NothingRepeatsIff(log: seq<Message>, seen: nat, newest: Message)
    requires Arrival(log) && Unseen(Listed(log), seen) != []
    requires newest in log && newest.direction.In? && forall m :: m in log && m.direction.In? ==> m.id <= newest.id
    ensures Unseen(Listed(log), LastForwarded(log, seen)) == [] <==>
            forall m :: m in log && m.direction.In? && m.id > seen ==> m.createdAt <= newest.createdAt
  {
    hide Listed, Unseen;
    var unseen := Unseen(Listed(log), seen);
    var last := unseen[|unseen| - 1];
    ListedElements(log);
    UnseenAre(Listed(log), seen);
    UnseenAre(Listed(log), last.id);
    LastUnseen(log, seen);
    assert unseen[0] in unseen && last in unseen;
    var left := Unseen(Listed(log), last.id);
    if left == [] {
      assert newest !in left;
      SameId(log, last, newest);
    } else {
      assert left[0] in left && newest.id > last.id;
      assert newest in unseen;
    }
  }

  lemma SameId(log: seq<Message>, a: Message, b: Message)
    requires Arrival(log) && a in log && b in log && a.id == b.id
    ensures a == b
  {
    var i, j :| 0 <= i < |log| && 0 <= j < |log| && log[i] == a && log[j] == b;
  }

  /** What is unseen is listed in conversation order. */
  lemma UnseenInOrder(messages: seq<Message>, seen: nat)
    requires Sorted(ByTime, messages)
    ensures Sorted(ByTime, Unseen(messages, seen))
  {
    if messages != [] {
      var n := |messages| - 1;
      UnseenInOrder(messages[..n], seen);
      UnseenAre(messages[..n], seen);
      var before := Unseen(messages[..n], seen);
      forall i | 0 <= i < |before|
        ensures Before(ByTime, before[i], messages[n])
      {
        assert before[i] in before;
        var k :| 0 <= k < n && messages[..n][k] == before[i];
      }
    }
  }

  /** The last message of an update carries the latest time of all. */
  lemma LastUnseen(log: seq<Message>, seen: nat)
    requires Unseen(Listed(log), seen) != []
    ensures var unseen := Unseen(Listed(log), seen);
            forall m :: m in log && m.direction.In? && m.id > seen ==> Before(ByTime, m, unseen[|unseen| - 1])
  {
    hide Listed, Unseen;
    var unseen := Unseen(Listed(log), seen);
    ListedElements(log);
    ListedIsSorted(log);
    UnseenInOrder(Listed(log), seen);
    UnseenAre(Listed(log), seen);
    forall m | m in log && m.direction.In? && m.id > seen
      ensures Before(ByTime, m, unseen[|unseen| - 1])
    {
      assert m in unseen;
      var i :| 0 <= i < |unseen| && unseen[i] == m;
      assert i < |unseen| - 1 ==> Before(ByTime, unseen[i], unseen[|unseen| - 1]);
    }
  }

  lemma UnseenShrinks(messages: seq<Message>, seen: nat, last: nat)
    requires seen < last && exists m :: m in messages && m.direction.In? && m.id == last
    ensures |Unseen(messages, last)| < |Unseen(messages, seen)|
  {
    var n := |messages| - 1;
    var m :| m in messages && m.direction.In? && m.id == last;
    assert messages == messages[..n] + [messages[n]];
    if m in messages[..n] {
      UnseenShrinks(messages[..n], seen, last);
    } else {
      UnseenSubset(messages[..n], seen, last);
    }
  }

  lemma UnseenSubset(messages: seq<Message>, seen: nat, last: nat)
    requires seen <= last
    ensures |Unseen(messages, last)| <= |Unseen(messages, seen)|
  {
  }

  /** Repeats come to an end: each update leaves fewer messages unseen. */
  lemma ForwardingMakesProgress(log: seq<Message>, seen: nat)
    requires Unseen(Listed(log), seen) != []
    ensures |Unseen(Listed(log), LastForwarded(log, seen))| < |Unseen(Listed(log), seen)|
  {
    hide Listed, Unseen;
    var unseen := Unseen(Listed(log), seen);
    var m := unseen[|unseen| - 1];
    UnseenAre(Listed(log), seen);
    assert m in unseen;
    UnseenShrinks(Listed(log), seen, m.id);
  }

  /** A message forwarded twice: the second to arrive carries an earlier
      time, so the first update records the id of the first. */
  lemma AMessageIsForwardedTwice() returns (log: seq<Message>, m: Message)
    ensures Arrival(log)
    ensures Unseen(Listed(log), 0) != [] && m in Unseen(Listed(log), 0)
    ensures m in Unseen(Listed(log), LastForwarded(log, 0))
  {
    var first := Message(1, In, Buyer, None, 50);
    m := Message(2, In, Buyer, None, 20);
    log := [first, m];
    assert log[1..] == [m] && [m][1..] == [];
    assert Sort(ByTime, []) == [];
    assert Sort(ByTime, [m]) == [m];
    assert Insert(ByTime, first, [m]) == [m] + Insert(ByTime, first, []);
    assert Listed(log) == [m, first];
    UnseenAre([m, first], 0);
    UnseenAre([m, first], 1);
    assert [m, first][..1] == [m];
    assert [m][..0] == [];
    assert Unseen([m], 0) == [m];
  }

  // ----- delivering a message of several parts -----

  datatype Solver = Solver(key: nat, write: bool)

  function Chosen(solvers: seq<Solver>, keep: Solver -> bool): seq<Solver> {
    if solvers == [] then [] else (if keep(solvers[0]) then [solvers[0]] else []) + Chosen(solvers[1..], keep)
  }

  /** The assignee solver if it is known, else every solver with the write
      permission, else every solver. */
  function Recipients(solvers: seq<Solver>, assignee: Option<nat>): seq<Solver> {
    var chosen := Chosen(solvers, (s: Solver) => assignee == Some(s.key));
    var writers := Chosen(solvers, (s: Solver) => s.write);
    if chosen != [] then chosen else if writers == [] then solvers else writers
  }

  lemma ChosenAre(solvers: seq<Solver>, keep: Solver -> bool)
    ensures forall s :: s in Chosen(solvers, keep) <==> s in solvers && keep(s)
  {
  }

  /** While any solver is configured someone is told: the assignee one
      whenever it is configured, and no one else then. */
  lemma SomeoneIsTold(solvers: seq<Solver>, assignee: Option<nat>)
    ensures Recipients(solvers, assignee) == [] <==> solvers == []
    ensures forall s :: s in Recipients(solvers, assignee) ==> s in solvers
    ensures (exists s :: s in solvers && assignee == Some(s.key)) ==>
              forall s :: s in Recipients(solvers, assignee) <==> s in solvers && assignee == Some(s.key)
    ensures (forall s :: s in solvers ==> assignee != Some(s.key)) && (exists s :: s in solvers && s.write) ==>
              forall s :: s in Recipients(solvers, assignee) <==> s in solvers && s.write
  {
    ChosenAre(solvers, (s: Solver) => assignee == Some(s.key));
    ChosenAre(solvers, (s: Solver) => s.write);
  }

  predicate GotAll(s: Solver, parts: nat, sent: (Solver, nat) -> bool) {
    forall p: nat :: p < parts ==> sent(s, p)
  }

  /** How many solvers received every part: one who missed a part does not
      count, and gets nothing after it. */
  method Deliver(to: seq<Solver>, parts: nat, sent: (Solver, nat) -> bool) returns (complete: nat)
    ensures complete == |Chosen(to, (s: Solver) => GotAll(s, parts, sent))|
    ensures complete > 0 <==> exists s :: s in to && GotAll(s, parts, sent)
  {
    ghost var got := (s: Solver) => GotAll(s, parts, sent);
    complete := 0;
    for i := 0 to |to|
      invariant complete == |Chosen(to[..i], got)|
    {
      var all := true;
      var p := 0;
      while p < parts
        invariant p <= parts && all
        invariant forall q: nat :: q < p ==> sent(to[i], q)
      {
        if !sent(to[i], p) {
          all := false;
          break;
        }
        p := p + 1;
      }
      assert all <==> got(to[i]);
      ChosenMore(to[..i], to[i], got);
      assert to[..i + 1] == to[..i] + [to[i]];
      complete := complete + if all then 1 else 0;
    }
    assert to[..|to|] == to;
    ChosenAre(to, got);
    if complete > 0 {
      assert Chosen(to, got)[0] in Chosen(to, got);
    }
  }

  lemma {:induction false} ChosenMore(solvers: seq<Solver>, s: Solver, keep: Solver -> bool)
    ensures Chosen(solvers + [s], keep) == Chosen(solvers, keep) + if keep(s) then [s] else []
  {
    var last := if keep(s) then [s] else [];
    if solvers == [] {
      assert solvers + [s] == [s] && [s][1..] == [];
      assert Chosen([s], keep) == last + Chosen([], keep);
    } else {
      var first := if keep(solvers[0]) then [solvers[0]] else [];
      assert (solvers + [s])[1..] == solvers[1..] + [s];
      ChosenMore(solvers[1..], s, keep);
      assert first + (Chosen(solvers[1..], keep) + last) == first + Chosen(solvers[1..], keep) + last;
    }
  }
}

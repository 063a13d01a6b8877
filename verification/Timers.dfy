/** The timers (src/policy/timers.rs): pure functions of a session's clocks,
    and the deadlines they stand for. */
module Timers {
  import opened Domain
  import opened Views

  /** Times are 64-bit; adding a duration saturates. */
  const LATEST: int := 0x7FFF_FFFF_FFFF_FFFF

  function After(at: int, duration: nat): int {
    Min(at + duration, LATEST)
  }

  datatype Clocks = Clocks(phase: Phase, now: int, buyer: PartyClock, seller: PartyClock,
                           guidedAt: Option<int>, heldAt: Option<int>)
  {
    function Of(p: Party): PartyClock {
      if p == Buyer then buyer else seller
    }
  }

  datatype Timeouts = Timeouts(response: nat, selfResolution: nat, handoffGrace: nat)

  datatype Timer = Handoff(reason: Reason) | Remind(parties: seq<Party>) | Nothing

  datatype Response = Waiting | RemindNow | Silent

  function ResponseOf(clock: PartyClock, now: int, timeout: nat): Response {
    if clock.questionAt.None? then Waiting
    else
      var asked := clock.questionAt.value;
      if clock.repliedAt.Some? && clock.repliedAt.value >= asked then Waiting
      else if clock.remindedAt.Some? && clock.remindedAt.value >= asked then
        if now >= After(clock.remindedAt.value, timeout) then Silent else Waiting
      else if clock.remindedAt.Some? then
        if now >= After(asked, timeout) then Silent else Waiting
      else if now >= After(asked, timeout) then RemindNow
      else Waiting
  }

  // ----- the deadlines the timers stand for -----

  /** The party's last question awaits an answer. */
  predicate Unanswered(clock: PartyClock) {
    clock.questionAt.Some? && !(clock.repliedAt.Some? && clock.repliedAt.value >= clock.questionAt.value)
  }

  /** When the party gets its reminder: `response` after the question, once
      per session. */
  function ReminderDeadline(clock: PartyClock, timeout: nat): Option<int> {
    if Unanswered(clock) && clock.remindedAt.None? then Some(After(clock.questionAt.value, timeout)) else None
  }

  /** When the silent party sends the session to a human: `response` after
      the reminder, or after the question when the reminder was for an
      earlier one. */
  function SilenceDeadline(clock: PartyClock, timeout: nat): Option<int> {
    if Unanswered(clock) && clock.remindedAt.Some?
    then Some(After(Max(clock.remindedAt.value, clock.questionAt.value), timeout))
    else None
  }

  predicate Passed(deadline: Option<int>, now: int) {
    deadline.Some? && now >= deadline.value
  }

  function GraceDeadline(clocks: Clocks, timeouts: Timeouts): Option<int> {
    if clocks.heldAt.Some? then Some(After(clocks.heldAt.value, timeouts.handoffGrace)) else None
  }

  function StallDeadline(clocks: Clocks, timeouts: Timeouts): Option<int> {
    if clocks.guidedAt.Some? then Some(After(clocks.guidedAt.value, timeouts.selfResolution)) else None
  }

  predicate RemindDue(clocks: Clocks, timeouts: Timeouts, p: Party) {
    Passed(ReminderDeadline(clocks.Of(p), timeouts.response), clocks.now)
  }

  predicate SilenceDue(clocks: Clocks, timeouts: Timeouts, p: Party) {
    Passed(SilenceDeadline(clocks.Of(p), timeouts.response), clocks.now)
  }

  /** What the deadlines require: a handoff wins over reminders, and the
      grace of a hold over the response timers. */
  function Check(clocks: Clocks, timeouts: Timeouts): Timer {
    if clocks.phase.GuidingPhase? then
      if Passed(StallDeadline(clocks, timeouts), clocks.now) then Handoff(SelfResolutionStalled) else Nothing
    else if Passed(GraceDeadline(clocks, timeouts), clocks.now) then Handoff(FactsGathered)
    else if SilenceDue(clocks, timeouts, Buyer) || SilenceDue(clocks, timeouts, Seller) then Handoff(Unresponsive)
    else
      var due := (if RemindDue(clocks, timeouts, Buyer) then [Buyer] else [])
                 + (if RemindDue(clocks, timeouts, Seller) then [Seller] else []);
      if due == [] then Nothing else Remind(due)
  }

  lemma ResponseMeetsDeadlines(clock: PartyClock, now: int, timeout: nat)
    ensures ResponseOf(clock, now, timeout).RemindNow? <==> Passed(ReminderDeadline(clock, timeout), now)
    ensures ResponseOf(clock, now, timeout).Silent? <==> Passed(SilenceDeadline(clock, timeout), now)
  {
  }

  /** `check` as the code runs it: a loop over both parties that collects
      reminders and leaves at the first silent party. */
  method CheckTimers(clocks: Clocks, timeouts: Timeouts) returns (timer: Timer)
    ensures timer == Check(clocks, timeouts)
  {
    if clocks.phase.GuidingPhase? {
      var stalled := clocks.guidedAt.Some? && clocks.now >= After(clocks.guidedAt.value, timeouts.selfResolution);
      return if stalled then Handoff(SelfResolutionStalled) else Nothing;
    }
    var graceOver := clocks.heldAt.Some? && clocks.now >= After(clocks.heldAt.value, timeouts.handoffGrace);
    if graceOver {
      return Handoff(FactsGathered);
    }
    var remind: seq<Party> := [];
    var parties := [Buyer, Seller];
    for i := 0 to 2
      invariant forall j :: 0 <= j < i ==> !SilenceDue(clocks, timeouts, parties[j])
      invariant i == 0 ==> remind == []
      invariant i >= 1 ==> remind == (if RemindDue(clocks, timeouts, Buyer) then [Buyer] else [])
                                     + if i == 2 && RemindDue(clocks, timeouts, Seller) then [Seller] else []
    {
      var p := parties[i];
      ResponseMeetsDeadlines(clocks.Of(p), clocks.now, timeouts.response);
      match ResponseOf(clocks.Of(p), clocks.now, timeouts.response)
      case Silent => return Handoff(Unresponsive);
      case RemindNow => remind := remind + [p];
      case Waiting =>
    }
    assert !SilenceDue(clocks, timeouts, parties[0]) && !SilenceDue(clocks, timeouts, parties[1]);
    timer := if remind == [] then Nothing else Remind(remind);
  }

  /** The party was asked, did not answer, and `response` passed since. */
  predicate Overdue(clock: PartyClock, response: nat, now: int) {
    && clock.questionAt.Some?
    && (clock.repliedAt.Some? ==> clock.repliedAt.value < clock.questionAt.value)
    && now >= Min(clock.questionAt.value + response, 0x7FFF_FFFF_FFFF_FFFF)
  }

  /** A reminder was sent, and `response` passed since it too. */
  predicate StillSilent(clock: PartyClock, response: nat, now: int) {
    && Overdue(clock, response, now)
    && clock.remindedAt.Some? && now >= Min(clock.remindedAt.value + response, 0x7FFF_FFFF_FFFF_FFFF)
  }

  /** Exactly when each timer fires: guidance stalls after `self_resolution`;
      a hold ends after `handoff_grace`; a party is silent `response` after
      both its question and its reminder; a party is reminded `response` after
      its question, once per session, and only when nothing hands off. */
  lemma CheckIff(clocks: Clocks, timeouts: Timeouts, p: Party)
    ensures var timer := Check(clocks, timeouts);
            var stalls := clocks.guidedAt.Some?
                          && clocks.now >= Min(clocks.guidedAt.value + timeouts.selfResolution, 0x7FFF_FFFF_FFFF_FFFF);
            var graceOver := clocks.heldAt.Some?
                             && clocks.now >= Min(clocks.heldAt.value + timeouts.handoffGrace, 0x7FFF_FFFF_FFFF_FFFF);
            var silent := StillSilent(clocks.buyer, timeouts.response, clocks.now)
                          || StillSilent(clocks.seller, timeouts.response, clocks.now);
            if clocks.phase.GuidingPhase? then timer == if stalls then Handoff(SelfResolutionStalled) else Nothing
            else
              && (timer == Handoff(FactsGathered) <==> graceOver)
              && (timer == Handoff(Unresponsive) <==> !graceOver && silent)
              && (timer.Remind? && p in timer.parties <==>
                  && !graceOver && !silent && Overdue(clocks.Of(p), timeouts.response, clocks.now)
                  && clocks.Of(p).remindedAt.None?)
              && (timer.Handoff? ==> timer.reason in {FactsGathered, Unresponsive})
  {
    SilenceIs(clocks, timeouts, Buyer);
    SilenceIs(clocks, timeouts, Seller);
    hide StillSilent, SilenceDeadline;
  }

  lemma SilenceIs(clocks: Clocks, timeouts: Timeouts, p: Party)
    ensures SilenceDue(clocks, timeouts, p) <==> StillSilent(clocks.Of(p), timeouts.response, clocks.now)
  {
  }

  /** While gathering, a hold or an unanswered question makes the timers act
      at every time from its deadline on. */
  lemma TimersActFromTheDeadlineOn(clocks: Clocks, timeouts: Timeouts, p: Party, now: int)
    requires clocks.phase.Gathering?
    requires || Passed(GraceDeadline(clocks, timeouts), now)
             || (Unanswered(clocks.Of(p)) && now >= After(clocks.Of(p).questionAt.value, timeouts.response)
                 && (clocks.Of(p).remindedAt.Some? ==>
                       now >= After(clocks.Of(p).remindedAt.value, timeouts.response)))
    ensures !Check(clocks.(now := now), timeouts).Nothing?
  {
    assert SilenceDue(clocks.(now := now), timeouts, p) || RemindDue(clocks.(now := now), timeouts, p)
           || Passed(GraceDeadline(clocks, timeouts), now);
  }

  /** `unresponsive` never comes before a full `response` since the party's
      unanswered question, nor before one since its reminder. */
  lemma UnresponsiveIsNeverEarly(clocks: Clocks, timeouts: Timeouts)
    requires Check(clocks, timeouts) == Handoff(Unresponsive)
    ensures exists p :: && Unanswered(clocks.Of(p))
                        && clocks.Of(p).remindedAt.Some?
                        && clocks.now >= After(clocks.Of(p).questionAt.value, timeouts.response)
                        && clocks.now >= After(clocks.Of(p).remindedAt.value, timeouts.response)
  {
    var p := if SilenceDue(clocks, timeouts, Buyer) then Buyer else Seller;
    assert SilenceDue(clocks, timeouts, p);
  }
}

/** What one tick of the timers does to a session (src/mediation/timers.rs):
    it reads the clocks only of a session whose chat is open, acts on what
    they say, and sends again what is missing. */
module Ticks {
  import opened Domain
  import opened Next
  import opened Policy
  import opened MessageLog
  import opened Views
  import opened EventLog
  import opened Sessions
  import opened Mediation
  import opened Effects
  import opened Protocol
  import Runs
  import Timers

  /** The reminders of the parties, in their order, each ending the timer's
      part of the tick when it fails. */
  predicate AreReminders(ops: seq<Op>, parties: seq<Party>) {
    && |ops| == |parties|
    && forall i :: 0 <= i < |ops| ==> ops[i] == Send(parties[i], Reminder, WhileMediating, Abort)
  }

  /** What the timers decided is what the tick does next. */
  predicate CarriesOut(ops: seq<Op>, timer: Timers.Timer) {
    match timer
    case Nothing => ops == []
    case Remind(parties) => AreReminders(ops, parties)
    case Handoff(reason) => ops == [HandOff(reason)]
  }

  lemma {:induction false} RemindersInOrder(parties: seq<Party>)
    ensures AreReminders(Reminders(parties), parties)
  {
    if parties != [] {
      RemindersInOrder(parties[1..]);
    }
  }

  lemma TimerOpsCarryOut(timer: Timers.Timer)
    ensures CarriesOut(TimerOps(timer), timer)
  {
    if timer.Remind? {
      RemindersInOrder(timer.parties);
    }
  }

  /** What a tick has ahead once it found the session: `ok` says whether its
      chat is open. */
  ghost predicate Ahead(c: Config, s: Sys, ok: bool, ops: seq<Op>) {
    && ops != [] && ops[|ops| - 1] == Retry(s.row)
    && var first := ops[..|ops| - 1];
       if ok then CarriesOut(first, Timers.Check(ClocksRead(s.row, Listed(s.log), s.events, s.now), c.timeouts))
       else first == [HandOff(OpeningFailed)]
  }

  lemma ListsLive(c: Config, s: Sys, o: Oracle)
    requires s.tick == [ListSession]
    ensures Step(c, s, Run(TheTick, o)) ==
            s.(tick := if s.row.state in {Active, Guiding} then [OpenChat(s.row), Retry(s.row)]
                       else if s.row.state in {Superseded, Closed} then [] else [Retry(s.row)])
  {
  }

  lemma ChatFails(c: Config, s: Sys, session: Row, rest: seq<Op>, o: Oracle)
    requires s.tick == [OpenChat(session)] + rest && !o.ok
    ensures Step(c, s, Run(TheTick, o)) == s.(tick := [HandOff(OpeningFailed)] + rest)
  {
    assert s.tick[1..] == rest && s.tick[0] == OpenChat(session);
  }

  /** A tick that begins reads the clocks of an active or guiding session and
      carries out what they say; a chat that cannot be opened hands it off;
      either way it then sends again what is missing. Any other live session
      only gets the last part, an ended one nothing. */
  lemma {:induction false} TickActs(c: Config, s: Sys, open: bool)
    requires s.tick == []
    ensures var chat := if open then Runs.Goes(TheTick, 0) else Runs.Fails(TheTick);
            var go := Runs.Goes(TheTick, 0);
            if s.row.state in {Active, Guiding}
            then var after := Exec(c, s, if open then [StartTick, go, chat] + [go] else [StartTick, go, chat]);
                 after == s.(tick := after.tick) && Ahead(c, s, open, after.tick)
            else Exec(c, s, [StartTick, go])
                 == s.(tick := if s.row.state in {Superseded, Closed} then [] else [Retry(s.row)])
  {
    hide Exec, Step, Listed, ClocksRead, Timers.Check, TimerOps, CarriesOut;
    var go := Runs.Goes(TheTick, 0);
    Runs.TickStarts(c, s);
    var listing := s.(tick := [ListSession]);
    ListsLive(c, listing, go.oracle);
    if s.row.state in {Active, Guiding} {
      var chat := if open then go else Runs.Fails(TheTick);
      Runs.ThreeSteps(c, s, StartTick, go, chat);
      var rest := [Retry(s.row)];
      var opening := s.(tick := [OpenChat(s.row)] + rest);
      assert [OpenChat(s.row), Retry(s.row)] == [OpenChat(s.row)] + rest;
      if open {
        var reading := s.(tick := [ReadClocks(s.row)] + rest);
        Runs.ChatStep(c, opening, s.row, rest, go.oracle);
        Runs.ExecStep(c, s, [StartTick, go, chat], go);
        Runs.ClocksStep(c, reading, s.row, rest, go.oracle);
        var timer := Timers.Check(ClocksRead(s.row, Listed(s.log), s.events, s.now), c.timeouts);
        TimerOpsCarryOut(timer);
        assert (TimerOps(timer) + rest)[..|TimerOps(timer)|] == TimerOps(timer);
      } else {
        ChatFails(c, opening, s.row, rest, chat.oracle);
        assert ([HandOff(OpeningFailed)] + rest)[..1] == [HandOff(OpeningFailed)];
      }
    } else {
      Runs.TwoSteps(c, s, StartTick, go);
    }
  }

  // ----- a send of the timers that fails -----

  lemma {:induction false} ToRetryDrops(first: seq<Op>, session: Row)
    requires forall op :: op in first ==> !op.Retry?
    ensures ToRetry(first + [Retry(session)]) == [Retry(session)]
  {
    if first == [] {
      assert first + [Retry(session)] == [Retry(session)];
    } else {
      assert first[0] in first && (first + [Retry(session)])[0] == first[0];
      assert (first + [Retry(session)])[1..] == first[1..] + [Retry(session)];
      ToRetryDrops(first[1..], session);
    }
  }

  /** A reminder that fails ends the timer's part of the tick, and only that:
      what is missing is still sent again. */
  lemma AFailedReminderStillRetries(c: Config, s: Sys, op: Op, first: seq<Op>, session: Row, o: Oracle)
    requires s.tick == [op] + (first + [Retry(session)]) && FailsNow(s, op, Abort, o)
    requires forall x :: x in first ==> !x.Retry?
    ensures Step(c, s, Run(TheTick, o)).tick == [Retry(session)]
  {
    hide Apply, ToRetry;
    var rest := first + [Retry(session)];
    assert s.tick[1..] == rest && s.tick[0] == op;
    ToRetryDrops(first, session);
  }
}

# Serbero, verified

Serbero mediates Mostro disputes: it tells solvers of each dispute, asks both
parties what happened with the payment, explains a way out when there is one,
and hands the case to a person otherwise. It moves no funds and decides
nothing. What can go wrong is that a dispute is forgotten: a session nobody is
waiting for, a question asked after a person took over, a party's message no
solver sees, a party asked without end. This project models the code that
decides and records all that, in Dafny, and proves what it does in every run.

## The session

`Mediation.dfy` is one session as a step system. Its state is the session's
row, the append-only logs of messages and events, the evaluations, a clock,
three actors (the opening, the judged turn and the timer tick) and whether the
turn loop will start a turn. An actor is the list of what it still has to do,
one element per store lock, transaction or exchange with the outside: a send
is a state check, then the relays, then the row. A run is any list of moves:
parties write with any timestamp, relays take a message or not, its row is
stored or not, the judge is ready or not and answers anything or nothing,
solvers receive or not, disputes end, the clock advances, the process
restarts, and the actors interleave in any order. What a turn decides
(`Next.dfy`, `Policy.dfy`), what a tick decides (`Timers.dfy`) and what they
read back from the logs (`Views.dfy`, `EventLog.dfy`, `JudgeState.dfy`) are
separate modules the steps call.

`Effects.dfy` proves once which few effects each operation can have. The rest
are invariants over every run, each with its own file:

- `Protocol.dfy`: the order of the states, one handoff with its first reason,
  and nothing asked after it.
- `Turns.dfy`: what a turn read stays true until it acts, whoever steps in.
- `Rounds.dfy`, `RoundLimits.dfy`: a party costs at most two rounds, so
  `round_limit` can happen exactly when at most two rounds are allowed.
- `Stall.dfy`, `WakeUps.dfy`: an active session with no turn under way has a
  deadline or a turn is due, except in five named ways;
  `StallExceptions.dfy` and `CourtesyStall.dfy` have a run for each and say
  exactly when a session sleeps.
- `Guidance.dfy`, `Guides.dfy`: a guiding session always has its deadline, and
  its parties get their own side of the path that was decided.
- `Flood.dfy`, `FloodChecks.dfy`: a flood handoff means the messages were really
  sent, and a second strike always hands off.
- `Relays.dfy`: what relays took is stored, on its way to be, or lost.
- `Reminders.dfy`, `Repeats.dfy`: one reminder per party, and each question
  once; but for rows that were lost, and repeats in a new language.
- `Ticks.dfy`, `Resends.dfy`, `Notices.dfy`: what a tick does and sends again,
  and that a handoff and a hold can always tell both parties.
- `TurnSteps.dfy`: when a turn starts over or gives up, and what asking sends.
- `Delivery.dfy`, `Updates.dfy`: no party message the solvers count as seen was
  lost, and every later one reaches a solver, or a turn is due for it, but for
  two named cases.

The parts around the session are modelled on their own: the turn scheduler
(`Scheduler.dfy`), claiming a dispute (`Claims.dfy`), its revisions
(`Revisions.dfy`), inbound messages (`Inbound.dfy`), the sessions table
(`Sessions.dfy`), splitting solver messages (`Parts.dfy`), observer notices
(`Observers.dfy`), closing (`Closing.dfy`), and the judge's answers
(`Judge.dfy`). Objects that change in place are classes, loops are methods
proved against a specification, and the rest are functions.

## What turned out false

The code is modelled as it is. These expectations fail, each with its exact
condition or a concrete run:

- *Every reply reaches the judge.* `docs/judgments.md` (lines 384-385) says the
  timestamp a client sets is not used. The clocks and the history indeed use
  arrival order, but the `latest` lists follow the transcript, ordered by that
  timestamp. A reply stamped before a message Serbero sent stops the timers
  and is never judged (`JudgeState.ReplyIsLatestIff`, `JudgeState.WroteIff`).
- *An active session always has a timer, or a turn due.* It sleeps, when no turn
  is under way or due, exactly when neither party owes an answer and it does
  not hold (`StallExceptions.AsleepIff`). In every run it then stays so until a
  party writes, the process restarts, its chat cannot be opened or the dispute
  ends (`StallExceptions.SleepsOn`). That happens in five ways, and in no other
  (`WakeUps.NoSilentStall`):
  - its replies are stamped before what Serbero sent
    (`StallExceptions.EarlyRepliesStall`);
  - a turn came for them while the session was still opening
    (`StallExceptions.RepliesWhileOpeningStall`);
  - a restart passed them over (`StallExceptions.AReplyIsForgottenAtStart`);
  - every message is judged, and the last judged turn only repeated a courtesy
    because a party's language changed (`Policy.TimerIsLostIff`,
    `CourtesyStall.ACourtesyStalls`);
  - or that turn was cut short before its question went out, which leaves no
    timer exactly when nobody owes an answer and the session does not hold
    (`StallExceptions.AFailedQuestionLeavesNoTimer`,
    `StallExceptions.AFailedQuestionStalls`).
- *An opening that is cut short is taken up again.* After a restart the session
  stays opening, sends and stores nothing for the parties and is never handed
  off, until the dispute ends
  (`StallExceptions.ARestartOrphansTheOpening`).
- *A restart forgets no message.* True of a handed-off session whose brief a
  solver received (`Delivery.NothingIsForgottenAfterTheHandoff`). Before a
  handoff, a start passes over an unjudged message exactly when Serbero stored
  a row after every party message (`StallExceptions.ForgottenAtStartIff`).
- *A handed-off session leaves no message behind.* Every party message since the
  handoff reached a solver, or a turn is due for it, but in two cases
  (`Updates.NoSilentUpdate`): no solver received the last update, which is only
  tried again with the next message or start (`Updates.AnUpdateIsLeftBehind`);
  or a turn came for the message while the session was opening, and then the
  opening was abandoned (`Updates.AnEarlyReplyIsLeftBehind`).
- *A party is reminded once, and asked each question once.* True of the stored
  rows, but for repeats in a new language; a restart, or a failed insert,
  between a relay taking the message and its row being stored sends it again
  (`Reminders.AtMostOneReminder`, `Reminders.AReminderIsSentTwice`,
  `Repeats.EachQuestionOnce`, `Repeats.AQuestionIsSentTwice`).
- *A claim is one step* (`src/mediation/mod.rs` lines 229-230). It is two
  locks, and a dispute can be taken a second time between them
  (`Claims.TakenAgainIff`, `Claims.ADisputeIsTakenTwice`).
- *A message that comes too fast is only delayed.* It is remembered before it
  is limited, so a later delivery is a duplicate exactly while its id is among
  the last 4096 accepted since the process started
  (`Inbound.LimitedMessageIsLost`).
- *Updates are forwarded once.* The recorded mark is the last message in time
  order, not the newest; nothing is lost, but messages repeat unless the one
  that arrived last has the latest time (`Delivery.NothingRepeatsIff`).
- *A dispute's state does not depend on the order of delivery.* Its status
  does exactly when the revisions of the largest time disagree, and its
  lifecycle, without ties, exactly when some revision takes a dispute further
  than the newest one (`Revisions.TiesMatterIff`, `Revisions.OrderMattersIff`).
- *No party is thanked twice.* True of the stored rows; a restart between a
  relay accepting the thanks and their row repeats them
  (`Closing.ThankedOnce`, `Closing.ARestartThanksTwice`).
- *Every transcript part fits a DM.* From the hundredth part on, a full one is
  a character too long (`Parts.PartFitsIff`).

## Model

| member | source | states |
|---|---|---|
| WakeUps.NoSilentStall | src/mediation/turn.rs:47-319 | in every run, an active session with no turn under way has a time from which every tick acts, or a turn is due; or its unjudged messages are stamped before what Serbero sent, or were passed over by the last start or by a turn that found it opening; or every message is judged and the last judged turn did nothing but resend a courtesy, or was cut short |
| StallExceptions.AsleepIff | src/policy/timers.rs:68-130 | in every run, an active session with no turn under way or due never has its timers act exactly when neither party owes an answer and it does not hold; and then for one of the five reasons |
| Stall.DeadlineOrUnjudged | src/mediation/turn.rs:163-319 | whatever the turn loop does: a time from which every tick acts, an unjudged message, a turn that did nothing but resend a courtesy, or a turn cut short |
| StallExceptions.SleepsOn | src/mediation/timers.rs:125-170 | whatever run a session fell asleep in, once no tick is under way it stays as it is however long the clock runs and ticks come |
| StallExceptions.RunsAreUnbriefed | src/mediation/handoff.rs:83-139 | in every run, a session that is opening or active never recorded a brief for the solvers |
| StallExceptions.EarlyRepliesStall | src/judge/state.rs:74-83 | a run from the start that ends asleep with both replies unjudged, both stamped before what Serbero sent |
| StallExceptions.RepliesWhileOpeningStall | src/mediation/turn.rs:182-186 | a run that ends asleep because the turn that came for the replies found the session still opening |
| StallExceptions.AReplyIsForgottenAtStart | src/mediation/turn.rs:107-140 | a run that ends asleep because a reminder crossed the reply and the process restarted |
| StallExceptions.ForgottenAtStartIff | src/mediation/turn.rs:107-140 | in every run, a restart with an unjudged message leaves no turn due exactly when a row of Serbero's is stored after every party message |
| CourtesyStall.ACourtesyStalls | src/policy/next.rs:107-115 | a run that ends asleep because the last turn only thanked the buyer again, in a new language |
| StallExceptions.TurnsAreSkipped | src/mediation/turn.rs:163-203 | a turn of a session without anything to judge changes nothing, and is due again only when the judge was not ready |
| StallExceptions.TimersStaySilent | src/policy/timers.rs:68-104 | the timers of an active session that owes nothing and does not hold never act |
| StallExceptions.AFailedQuestionLeavesNoTimer | src/mediation/turn.rs:284-295 | when a message of a turn with a question ahead cannot be sent or stored, the turn ends, and the timers act at some time exactly when a party owes an answer or the session holds |
| StallExceptions.AFailedQuestionStalls | src/mediation/turn.rs:284-295 | a run that ends asleep because no relay took the question a turn decided |
| StallExceptions.ARestartOrphansTheOpening | src/mediation/mod.rs:268-315 | in every run, a session a restart finds opening stays opening until its dispute ends: relays take nothing more for its parties, and only their messages are stored |
| Stall.HoldIsTheFlag | src/mediation/hold.rs:49-65 | in every run the hold read from the two logs is the flag a hold sets and any later question clears |
| Stall.OwedIsADeadline | src/mediation/timers.rs:32-66 | an owed answer gives a time from which every reading of the clocks makes the timers act |
| Stall.HoldIsADeadline | src/mediation/timers.rs:32-66 | so does a current hold |
| Turns.RunsRead | src/mediation/turn.rs:163-319 | in every run, what a turn decides from (questions, replies, openers, rounds) still holds when it records, whatever the tick, the notifier and the parties did meanwhile |
| Rounds.RoundsAreBounded | src/mediation/turn.rs:284-295 | in every run a party's counted rounds are fewer than the distinct questions stored for it, hence at most two |
| Rounds.RoundLimitIsUnreachable | src/policy/mod.rs:302-304 | with three or more rounds allowed, no run hands off for the round limit, whatever the judge answers |
| RoundLimits.RoundLimitIff | src/policy/mod.rs:302-304 | some run hands off for the round limit exactly when at most two rounds are allowed |
| Guidance.GuidingHasADeadline | src/policy/timers.rs:68-104 | in every run, a guiding session has one `guided` event, and is handed off by every reading of its clocks from the self-resolution timeout after that event on, and by none before |
| Guidance.LatestAtIs | src/mediation/timers.rs:59-63 | the time read is that of a `guided` event (or, for the resends, a handoff too) and none is later; there is none exactly when no such event is |
| Guides.GuidanceFitsThePath | src/mediation/guide.rs:24-35 | in every run at most one path is recorded, and each guidance stored for a party, or taken by a relay, is that party's own text of it |
| Guides.GuidanceIsDecided | src/mediation/turn.rs:305-313 | in every run, the path a step records is the one the last judged turn decided, while the session was active |
| Guides.DecidedGuidanceStarts | src/mediation/turn.rs:305-313 | a turn that decides to guide starts guidance of that path |
| Guides.GuidanceIsAhead | src/mediation/guide.rs:67-107 | an active session that starts guidance records the path and has both texts of it ahead after the brief, the acting party's first |
| Guides.ResendsTheRecordedPath | src/mediation/guide.rs:111-143 | in every run, a resend goes through both texts of the recorded path, in the same order |
| Guides.GuidanceReachesBoth | src/mediation/guide.rs:67-143 | in every run, a turn about to guide an active session can store both texts, the acting party's first, even when no solver gets the brief |
| Rounds.AskedIsNew | src/policy/next.rs:86-137 | no row of a template a turn asks outside a language resend is stored for the party, even by steps after the turn read the log |
| Protocol.SessionNeverGoesBack | src/store/sessions.rs:246-281 | under any interleaving the state only moves forward, an ended session stays as it ended, and the first handoff reason stays |
| Protocol.HandedOffOnce | src/mediation/handoff.rs:83-139 | in every run at most one handoff is recorded, with the session's reason |
| Protocol.NothingAskedAfterTheHandoff | src/chat/mod.rs:48-137 | after a handoff or the end, only the handoff notice passes a state check, although the openers' check is weaker |
| Flood.FloodIsReal | src/mediation/turn.rs:336-390 | in every run a `flood` handoff means a party sent at least two windows of one more than `max_messages_per_turn` messages |
| Flood.CheckingKeepsCount | src/mediation/turn.rs:336-390 | a check's strikes take only messages no earlier strike or judgment counted |
| FloodChecks.FloodIsFound | src/mediation/turn.rs:336-390 | in every run, a check with something to judge gives a strike to exactly the parties with more than `max_messages_per_turn` messages past every strike and judged turn, and hands off for a flood exactly when a party it struck has two |
| FloodChecks.AFloodIsHandedOff | src/policy/timers.rs:138-145 | for every limit, a run that ends handed off for a flood |
| Relays.SentIsStoredOrLost | src/chat/mod.rs:138-163 | in every run each message a relay took has a row, is about to get one, or lost it |
| Reminders.AtMostOneReminder | src/policy/timers.rs:107-130 | in every run at most one reminder to a party is stored, and relays took one more at most for each whose row was lost |
| Reminders.AReminderIsSentTwice | src/chat/mod.rs:138-163 | a run in which a restart loses the row and the seller is reminded twice |
| Repeats.EachQuestionOnce | src/policy/next.rs:86-148 | in every run each question is stored once for a party, and once more for each repeat in a new language; relays took one more at most for each row lost |
| Repeats.AQuestionIsSentTwice | src/chat/mod.rs:138-163 | a run in which a restart loses the row and the next turn asks again |
| Delivery.NoMessageIsLost | src/mediation/handoff.rs:357-396 | in every run, once the handoff's brief reached a solver, every party message up to the newest one seen reached a solver; before that, those after the handoff |
| Delivery.EveryUpdateMovesOn | src/mediation/handoff.rs:357-396 | in every run each recorded update strictly raises the newest message seen |
| Updates.NoSilentUpdate | src/mediation/handoff.rs:357-396 | in every run, a handed-off session with no turn under way has told some solver every party message since the handoff (every one, once the brief was received), or a turn is due, or no solver received its last update, or its opening was abandoned after a turn came too early |
| Updates.AnUpdateIsLeftBehind | src/mediation/handoff.rs:378-381 | a run after which a message is with no solver and no turn is due, because none received the update |
| Updates.AnEarlyReplyIsLeftBehind | src/mediation/turn.rs:182-186 | a run after which a reply is with no solver and no turn is due, because the turn for it found the session opening and the opening was abandoned |
| Resends.RetriesIff | src/mediation/timers.rs:204-266 | a tick sends again exactly the briefs no solver received, the notices a party never got, guidance while guiding and the notices of an old hold; nothing within 120 seconds of a handoff or guidance |
| Resends.PendingBriefsIff | src/mediation/timers.rs:74-96 | a brief is retried exactly while no `brief_sent` names it |
| Ticks.TickActs | src/mediation/timers.rs:125-152 | a tick of an active or guiding session reads its clocks if its chat is open, and then hands off or reminds exactly as they say; else it hands off; then it retries; other live sessions only get the retry |
| Ticks.AFailedReminderStillRetries | src/mediation/timers.rs:141-147 | a reminder that fails ends the timers' part of the tick, and what is missing is still sent again |
| Notices.TellStep | src/mediation/hold.rs:101-115 | a party that got the notice after its cutoff is left alone, and any other is sent it |
| Notices.AFailedNoticeIsSkipped | src/mediation/handoff.rs:129-137 | a notice that fails is skipped, and the other party's is still next |
| Notices.HandoffIsAhead | src/mediation/handoff.rs:83-139 | a handoff claims the session, records the newest message and a pending brief, and has that brief and both notices ahead |
| Notices.HandoffReachesBoth | src/mediation/handoff.rs:83-139 | whoever hands off, both parties can be told, even when no solver gets the brief |
| Notices.HoldReachesBoth | src/mediation/hold.rs:71-115 | a hold records the newest message as its cutoff, and both parties can be told after it |
| TurnSteps.TurnBegins | src/mediation/turn.rs:163-186 | what a turn does first in each state, and that only a session found opening without a ready judge is due again |
| TurnSteps.JudgeAnswers | src/mediation/turn.rs:216-229 | a failing judge hands the session off, and an answer is taken as given |
| TurnSteps.NewerIsJudgedLater | src/mediation/turn.rs:231-235 | an answer is dropped, and a turn is due, exactly when a party's message arrived after those the turn read |
| TurnSteps.MovedOnIsDropped | src/mediation/turn.rs:236-240 | a turn goes on only in the state it read the session in |
| TurnSteps.LanguagesAre | src/mediation/turn.rs:434-448 | exactly a party detected in another language than its own changes, to that language, and nothing else in the row does |
| TurnSteps.ResendsNeedASwitch | src/policy/next.rs:107-115 | only a party whose language changed in the turn is resent anything |
| TurnSteps.DecisionReads | src/mediation/turn.rs:244-283 | a decision is made from the judge's facts, the phase loaded, the row as reloaded, the settings, and what the messages read say each party was sent, wrote and owes, and whether the session holds |
| TurnSteps.AskingIs | src/mediation/turn.rs:284-295 | asking sends each party all its templates in order, the buyer first, counts a party's round after its question, and the turn's first round once |
| Delivery.NothingIsForgottenAfterTheHandoff | src/mediation/turn.rs:107-140 | in every run, once a solver received the handoff's brief, a start that does not schedule the session forgets nothing: every party message reached a solver |
| Delivery.NothingRepeatsIff | src/mediation/handoff.rs:369-371 | an update leaves nothing to repeat exactly when the party message that arrived last carries a time no earlier than any other unseen one |
| Delivery.ForwardingMakesProgress | src/mediation/handoff.rs:357-396 | each update leaves fewer messages unseen |
| Delivery.AMessageIsForwardedTwice | src/mediation/handoff.rs:369-371 | two messages whose second one is forwarded twice |
| Delivery.SomeoneIsTold | src/mediation/handoff.rs:54-75 | someone is told unless no solver is configured; the assigned one alone when it is known, else the writers |
| Delivery.Deliver | src/mediation/handoff.rs:208-245 | counts exactly the solvers who received every part |
| Next.PushForParty | src/policy/next.rs:86-137 | the pushes give the lists and the resend flag that the lemmas below determine |
| Next.PickQuestions | src/policy/next.rs:30-81 | both parties' lists, with the waiting templates pushed after both are known, as the lemmas below determine |
| Next.ResendIff | src/policy/next.rs:102-115 | a party's list is a language resend exactly when it wrote without answering, its language changed, and its last template, or the question behind a reminder, may be repeated |
| Next.NotUnderstoodIsAskedAgain | src/policy/next.rs:116-124 | a party that was not understood gets the unsent simpler wording of its last question, and nothing else |
| Next.NextStepIff | src/policy/next.rs:125-128 | outside a resend a party is told what happens next exactly when it asks and was not told before; one that asks is never resent its last message |
| Next.QuestionIff | src/policy/next.rs:152-187 | outside a resend and a simpler wording, the question picked is exactly the documented one, for a party that wrote or owes no answer |
| Next.ThanksIff | src/policy/next.rs:130-137 | outside a resend a party is thanked exactly when it wrote, nothing is needed from it, it was not thanked and is not asked again |
| Next.PickedAreNew | src/policy/next.rs:86-187 | a template already sent is never picked again, except by a language resend |
| Next.PickedShape | src/policy/next.rs:30-137 | at most one question per party, one of its own, and it comes last |
| Next.SilentPartyIsOnlyAsked | src/policy/next.rs:86-100 | a party who did not write gets one question or nothing, and nothing while it owes an answer |
| Next.ResendRepeatsTheLast | src/policy/next.rs:102-148 | a language resend repeats the last template, or the question a reminder pointed at, and nothing else |
| Next.NobodyWritesIntoSilence | src/policy/next.rs:51-81 | a party who wrote, whose fact is known, gets some template while the other one owes an answer, unless told before that it waits |
| Next.WaitingIsOnlySaidOnce | src/policy/next.rs:51-81 | the waiting template goes out alone, once, and only then |
| Next.ThanksMeanNothingIsNeeded | src/policy/next.rs:130-137 | a party is thanked only when nothing is needed from it |
| Policy.DecideFollowsTheTable | docs/judgments.md:260-287 | the code's early returns decide as the documented table, read with the text on gathered facts below it: rows in order, the first match wins |
| Policy.GuideIff | src/policy/mod.rs:265-298 | exactly when each path is explained |
| Policy.AskCarriesThePick | src/policy/mod.rs:265-337 | a question goes out only while gathering, below the round limit, with everything picked |
| Policy.UnknownFactIsAskedFor | src/policy/next.rs:86-187 | a party who owes nothing and whose fact is unknown is asked, unless both variants were used or it is the courtesy resend |
| Policy.QuietTurnKeepsATimer | src/policy/mod.rs:265-337 | a turn that waits or sends courtesies leaves a hold, an owed answer or the courtesy resend |
| Policy.TimerIsLostIff | src/policy/mod.rs:265-337 | exactly when a turn leaves a session that neither holds nor awaits an answer without a timer |
| Policy.CourtesyResendLosesTheTimer | src/policy/next.rs:107-115 | a turn and a history for which it does |
| Timers.CheckTimers | src/policy/timers.rs:68-104 | the loop gives what the deadlines require |
| Timers.CheckIff | src/policy/timers.rs:68-130 | exactly when, in seconds, each handoff and each reminder is due, and in which order they win |
| Timers.ResponseMeetsDeadlines | src/policy/timers.rs:107-130 | a reminder or silence is due exactly from its deadline on |
| Timers.TimersActFromTheDeadlineOn | src/policy/timers.rs:68-130 | an unanswered question or a hold makes the timers act at every time from its deadline |
| Timers.UnresponsiveIsNeverEarly | src/policy/timers.rs:107-130 | `unresponsive` comes a full timeout after both the question and the reminder |
| Views.FromMessages | src/mediation/history.rs:12-27 | the loop collects exactly the sent templates |
| Views.HistoryIsArrival | src/mediation/history.rs:42-70 | whatever order the rows are listed in, the history is that of arrival |
| Views.ClocksAgreeWithHistory | src/mediation/timers.rs:32-66 | the clocks say "not replied" exactly when the history says "outstanding", for any timestamps |
| Views.UnheardOwes | src/mediation/history.rs:42-70 | an asked party never heard owes an answer |
| MessageLog.SortByArrivalRestores | src/mediation/history.rs:42-44 | sorting any listing by id gives back the order of arrival |
| MessageLog.SortIsSortedPermutation | src/store/messages.rs:76-81 | the transcript is the rows, ordered by time and id |
| JudgeState.BuildLatest | src/judge/state.rs:45-98 | the two lists the loop keeps are the parties' latest messages |
| JudgeState.LatestIsSinceLastOut | eval/spike/run.py:108-111 | the loop and the evaluation's own definition name the same messages |
| JudgeState.ReplyIsLatestIff | src/judge/state.rs:74-83 | the newest reply is judged exactly when no message to its party carries a later time, although it counts as a reply |
| JudgeState.WroteIff | src/mediation/turn.rs:187-203 | a turn has something of a party's to judge exactly when one of its messages follows, by time, all sent to it |
| JudgeState.Redact | src/judge/state.rs:125-149 | one pass replaces exactly the maximal words that are identifiers |
| JudgeState.RedactedSplits | src/judge/state.rs:125-149 | any character outside the words splits the redaction; the rest stays in place |
| JudgeState.WordsStay | src/judge/state.rs:125-149 | every word stays, in order, but the identifiers |
| JudgeState.NoIdentifierIsLeft | src/judge/state.rs:120-149 | the output has no identifier word, and redacting again changes nothing |
| JudgeState.IdentifierIsTakenOut | src/judge/state.rs:125-149 | wherever it stands, an identifier of ASCII letters and digits between two other characters is replaced, and what surrounds it is redacted on its own |
| Sessions.SessionTable.Insert | src/store/sessions.rs:107-135 | inserts unless the id exists or the dispute has a live session, which stays unique |
| Sessions.SessionTable.LiveForDispute | src/store/sessions.rs:153-164 | the only live session of the dispute, if any |
| Sessions.SessionTable.HandOff | src/store/sessions.rs:246-254 | claims exactly a session Serbero mediates, once |
| Sessions.SessionTable.SetState | src/store/sessions.rs:257-269 | moves a live session; an ended one never changes |
| Sessions.SessionTable.StartGuiding | src/store/sessions.rs:273-280 | only an active session starts guiding |
| Sessions.SessionTable.CountRound | src/store/sessions.rs:198-216 | counts the party's round, and the turn's once |
| Sessions.SessionTable.AdvanceCursor | src/store/sessions.rs:284-303 | moves one party's cursor, never back |
| Sessions.CursorIsMonotone | src/chat/inbound.rs:218-229 | the clamped cursor never moves back nor past the local clock |
| Effects.RunEffects | src/mediation/turn.rs:163-319 | every step of every actor has one of a few effects, each only from its own operation |
| Effects.ApplyKeepsLogs | src/store/events.rs:31-48 | whatever a step does, the logs only grow, in order |
| Scheduler.Settle.Touch | src/mediation/settle.rs:28-31 | the session's deadline is the quiet period from now |
| Scheduler.Settle.NextDeadline | src/mediation/settle.rs:33-35 | the earliest deadline |
| Scheduler.Settle.TakeDue | src/mediation/settle.rs:39-51 | exactly the due sessions, in order, forgotten |
| Scheduler.TurnLoop.constructor | src/mediation/turn.rs:47-64 | nothing runs or waits |
| Scheduler.TurnLoop.Receive | src/mediation/turn.rs:53-71 | the session waits, with a new deadline |
| Scheduler.TurnLoop.Fire | src/mediation/turn.rs:72-85 | starts exactly the due sessions not running, none within its quiet period, one turn each, and loses no wake-up |
| Scheduler.TurnLoop.Done | src/mediation/turn.rs:86-102 | a session deferred, panicked or due again waits again; the others do not |
| Claims.TakesAreExclusive | src/mediation/mod.rs:231-258 | in every run two openers never take one dispute at once |
| Claims.TakenAgainIff | src/mediation/mod.rs:231-258 | exactly when a dispute that had a session is taken again |
| Claims.AtOnceIsSafe | src/mediation/mod.rs:231-258 | read and locked in one step, a dispute that had a session is never taken |
| Claims.ADisputeIsTakenTwice | src/mediation/mod.rs:231-258 | a run in which one is |
| Revisions.NewestRevisions | src/daemon/sync.rs:54-71 | exactly the newest revision of each dispute by NIP-01, section "Kinds", oldest first |
| Revisions.NewestIsOrderIndependent | src/daemon/sync.rs:54-71 | the result depends only on the events seen, not on their order or repetition |
| Revisions.OneNewestEach | src/daemon/sync.rs:57-71 | one revision per dispute |
| Revisions.StatusConverges | src/store/disputes.rs:93-118 | for any delivery, with replays and reminders, the row has the largest revision time and the status first delivered with it |
| Revisions.DeliveriesAgree | src/notifier/mod.rs:280-341 | two deliveries of the same revisions end with the same status, when no two share a time |
| Revisions.TiesKeepTheFirst | src/store/disputes.rs:100-104 | for any delivery, of the revisions of the largest time the one delivered first stays |
| Revisions.TiesMatterIff | src/store/disputes.rs:93-118 | a set of revisions ends with one status under every order exactly when those of the largest time agree on it |
| Revisions.ReplaysChangeNothing | src/store/disputes.rs:93-118 | a replayed or older revision changes nothing |
| Revisions.LifecycleNeverRegresses | src/notifier/mod.rs:344-408 | the lifecycle only moves forward, and late notifications do not touch a taken or resolved dispute |
| Revisions.ResolvedIff | src/notifier/mod.rs:344-408 | a dispute is resolved exactly when a final revision was newer than all delivered before it |
| Revisions.NewestFinalResolves | src/notifier/mod.rs:280-408 | if the newest revision delivered is final, the dispute is resolved, ties or not |
| Revisions.OrderMattersIff | src/notifier/mod.rs:280-408 | a set of revisions without ties ends in one lifecycle under every order exactly when none takes a dispute further than the newest |
| Revisions.OrdersDiffer | src/notifier/mod.rs:280-408 | otherwise two orders, each revision once, end differently |
| Revisions.Notifier.EndLiveSession | src/notifier/mod.rs:411-434 | ends the dispute's live session and records it; none is live after |
| Revisions.Notifier.Transition | src/notifier/mod.rs:344-408 | the new lifecycle, the session a take or a resolution ends, and the resolution's record |
| Revisions.Notifier.Record | src/notifier/mod.rs:280-341 | the row is that of the revision machine, a stale revision changes nothing, and a resolution leaves no live session |
| Revisions.Notifier.MarkNotified | src/store/disputes.rs:136-144 | only a dispute awaiting a solver becomes notified |
| Inbound.TokenBucket.TakeOne | src/chat/inbound.rs:281-291 | refills by the time passed and takes one token if there is one |
| Inbound.AcceptedInWindow | src/chat/inbound.rs:268-292 | any window of the calls accepts at most 60 plus half its seconds |
| Inbound.SlowSendersAreAccepted | src/chat/inbound.rs:281-291 | a party writing at most every two seconds is never limited |
| Inbound.SeenSet.Insert | src/chat/inbound.rs:302-314 | rejects exactly the ids among the last 4096 accepted |
| Inbound.Inbox.Handle | src/chat/inbound.rs:148-237 | each outcome says which checks passed before it and what changed; nothing is stored twice |
| Inbound.LimitedMessageIsLost | src/chat/inbound.rs:175-182 | whatever is handled in between, a rate-limited event delivered again while its session lives is a duplicate exactly when fewer than 4096 others were accepted since |
| Parts.Chunk | src/solver/mod.rs:379-409 | ends for every budget from one; bodies are slices of the joined lines within the budget, only separators are left out between them, only a line over the budget is cut, and every body but the last is filled |
| Parts.NothingIsLost | src/solver/mod.rs:377-409 | the bodies rejoin to the joined lines |
| Parts.FittingLineIsWhole | src/solver/mod.rs:379-409 | a line that fits the budget stands whole in one body |
| Parts.BodiesAreFilled | src/solver/mod.rs:387-400 | every later body begins with a line, or the rest of one, that exceeded the budget with the body before and a newline; where a line is cut the body before is full |
| Parts.NeighboursOverflow | src/solver/mod.rs:387-400 | two bodies in a row and a newline always exceed the budget |
| Parts.FewBodies | src/solver/mod.rs:379-409 | the number of bodies is at most one more than twice the text's length over the budget |
| Parts.OneBodyIfItFits | src/solver/mod.rs:379-409 | lines that fit the budget together give exactly one body |
| Parts.Transcript | src/solver/mod.rs:315-340 | one message if it fits, else parts numbered over exactly the lines |
| Parts.DecimalReads | src/solver/mod.rs:331-339 | the numbers of parts and messages read back as themselves |
| Parts.PartFitsIff | src/solver/mod.rs:331-339 | exactly when a part is within the limit |
| Parts.PartsFit | src/solver/mod.rs:331-339 | up to 99 parts, all are |
| Parts.AFullHundredthPartIsTooLong | src/solver/mod.rs:331-339 | a full part from the hundredth on is one character over |
| Parts.Update | src/solver/mod.rs:343-354 | every update part is within the limit |
| Observers.Outbox.Queue | src/notifier/observers.rs:41-76 | queues the subject once per observer, and only for a one-token dispute id |
| Observers.Outbox.DeliverDue | src/notifier/observers.rs:81-145 | tries exactly the due notices of configured observers, once, records each outcome, and counts those delivered |
| Observers.ViewsAgree | src/store/events.rs:80-145 | the queries over recent events give each notice's whole life |
| Observers.PendingAre | src/store/events.rs:110-145 | the pending notices are those waiting in their window, once each |
| Observers.OnceEach | src/notifier/observers.rs:41-145 | a notice is queued once and recorded as delivered at most once |
| Observers.AtMostTwentyNineAttempts | src/notifier/observers.rs:159-163 | at most 29 attempts of a notice are recorded |
| Observers.TwentyNineAttemptsFit | src/notifier/observers.rs:159-163 | a log the outbox can write has 29 |
| Closing.FinishedOnce | src/mediation/guide.rs:164-244 | in every run the closing is recorded once at most, only after the report reached a solver and a self-resolved dispute's parties were thanked |
| Closing.ThankedOnce | src/mediation/guide.rs:190-200 | one thanks row per party; relays got one more at most per row lost |
| Closing.ClosingPlans | src/mediation/guide.rs:184-243 | an unfinished closing plans thanks to both exactly when the parties resolved it and nobody took over, the report unless one was delivered, and the record last |
| Closing.OnlyTheirOwnResolutionIsThanked | src/mediation/guide.rs:38-52 | in every closing of an ended session, the recorded outcome is how the dispute ended, and a party is thanked only for a resolution by the parties without a handoff |
| Closing.ARestartThanksTwice | src/chat/mod.rs:138-163 | a run that thanks the buyer twice |
| Judge.FindWinner | src/judge/mod.rs:108-119 | the first option with the highest probability |
| Judge.CheckDistribution | src/judge/mod.rs:216-226 | accepts exactly probabilities in [0, 1] that sum to 1 within the tolerance |
| Judge.SharesExclude | src/judge/mod.rs:133-142 | two options of a choice never both hold more than half |
| Judge.ScoreNeedsNoClamp | src/judge/mod.rs:147-162 | a score is in [0, 1] without its clamp |
| Judge.ConfidenceNeedsNoClamp | src/judge/mod.rs:230-242 | so is a confidence |
| Judge.CertainScore | src/judge/mod.rs:147-162 | a certain score is its level's place between 0 and 1 |
| Judge.CertainIsConfident | src/judge/mod.rs:230-242 | a certain answer has confidence 1 |
| Judge.FlatIsUnsure | src/judge/mod.rs:230-242 | a flat one has confidence 0 |
| Judge.ScaleDoesNotMatter | src/judge/mod.rs:147-242 | neither changes when the distribution is scaled |
| Judge.NoContradictions | src/judge/facts.rs:88-112 | for any checked answers, contradictory claims are never both known |
| Judge.FactsIff | src/judge/facts.rs:88-105 | each fact is known exactly when its own question was asked and its own option reached its own threshold |
| Judge.OutsideScopeIff | src/judge/facts.rs:91-109 | out of scope exactly when the four topics together, or a receipt with a problem, reach the threshold |
| Judge.PartyFactsIff | src/judge/facts.rs:116-137 | a party has facts exactly when it was asked what its messages do, and they come from its own questions |
| Judge.KindIff | src/judge/facts.rs:139-151 | a kind other than an answer is read exactly from the winning option of its name with confidence one half or more |
| Judge.LanguageIff | src/judge/facts.rs:123-131 | a language is detected exactly when it is enabled and wins with a share of seven tenths or more |
| Judge.GuidanceFollowsTheWord | src/judge/facts.rs:88-112 | a turn decides to explain a path only on the acting party's own share, with its opposite unknown and no fraud, scope, problem or human answer |

## Left out

- Relays, subscriptions, encryption and `mostro-core`: a send succeeds or fails, an event unwraps to an inner id or does not.
- The judge model and its questions: in the session its verdict is any value of `Facts`, which includes whatever `Judge.FromAnswers` gives.
- What happens between a relay taking a message and the process learning of it: a message taken and reported as failed is one whose row is lost.
- SQLite and JSON: tables are maps, logs are sequences, and only the guards, the uniqueness constraints and the transaction boundaries are kept. A database error is not a step, except where a sent message is stored, and in `Closing`.
- Floating-point rounding: probabilities, tokens and seconds are reals.
- Message texts, the intro of a new language, catalogs and their checks, amount formatting, brief layout and evaluation metrics: presentation, or easy members.
- Solver feedback, the reminder loop of the notifier, health checks and capabilities.
- Session times: a turn or a tick uses the time passed down from its start; the session model reads the clock when the time is used, and an event's time is any time up to then, except a hold's.
- RoundLimits.RoundLimitIff: asks for at least one message allowed a turn, as the configuration does.
- WakeUps.NoSilentStall: says that a deadline exists or a turn is due, not that the tick or the turn loop runs; `Scheduler` proves that of the loop, apart from the session. A turn task that panics is not a step of the session; the loop makes it due again (`Scheduler.TurnLoop.Done`).
- Turns.RunsRead: about what a turn read; that a deferred turn is due again is part of `WakeUps.NoSilentStall`.
- Delivery.NoMessageIsLost: a relay accepting a part counts as a solver receiving it.
- Protocol.NothingAskedAfterTheHandoff: about the state check; a message that passed it before the handoff may still reach a relay after.
- Observers.AtMostTwentyNineAttempts: counts recorded attempts; one sent just before a restart, and never recorded, is not counted.
- Inbound.LimitedMessageIsLost: the recent ids are those of one process; a new one starts with none (`Inbound.SeenSet`).
- Observers.Outbox.DeliverDue: the queue does not grow between its sends; in the program it may, which only adds notices this delivery does not try.
- Claims.TakesAreExclusive: mediation is enabled and the judge ready; the other checks of eligibility are kept.
- Closing.OnlyTheirOwnResolutionIsThanked: about a session that ended before its closing began, as the transaction that records a resolution ends it.
- Parts.OneBodyIfItFits: about lines that are not empty, as rendered lines never are; so are `Parts.BodiesAreFilled`, `Parts.NeighboursOverflow` and `Parts.FewBodies`.
- Notices.HandoffReachesBoth: that a run exists in which both are told; in any other, `Resends.RetriesIff` says what the ticks still send.
- Closing.FinishedOnce: the dispute has one session, and `finish_pending`'s lookback is any move that begins a closing.
- Scheduler.TurnLoop.Fire: session ids are numbers, for their order; task ids are never reused.
- Inbound.Inbox.Handle: the store is read once per event; in the program the session may end between the check and the insert.

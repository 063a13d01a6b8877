/** One mediation session as a step system: its row, its logs, and the three
    actors that step it concurrently (the opening, judged turns and the timer
    tick), against parties, relays, a judge and solvers that may do anything.

    An actor is the list of what it still has to do. Each element is one
    atomic step: one store lock or transaction, or one exchange with the
    outside whose result the environment chooses. The logs are append-only,
    so an actor that read the messages earlier remembers how many there
    were. */
module Mediation {
  import opened Domain
  import opened Next
  import opened Policy
  import opened MessageLog
  import opened Views
  import opened EventLog
  import opened Sessions
  import opened JudgeState
  import Timers

  datatype Config = Config(
    maxRounds: nat,
    maxMessagesPerTurn: nat,
    defaultLanguage: Language,
    validatedLanguages: set<Language>,
    timeouts: Timers.Timeouts)

  /** The state check a send makes under the outbound gate. */
  datatype Guard = WhileLive | WhileMediating
  {
    predicate Allows(state: State) {
      if WhileLive? then !state.Terminal() else state.Mediating()
    }
  }

  /** A failed send is logged and skipped, or ends what the actor does. */
  datatype OnFailure = Skip | Abort

  datatype Op =
    // opening the session
    | Activate
    | Abandon
    // one turn
    | Load
    | CheckFlood(session: Row, n: nat)
    | AskJudge(session: Row, n: nat)
    | CheckNewer(session: Row, n: nat, facts: Facts)
    | CheckMoved(session: Row, n: nat, facts: Facts)
    | UpdateLanguages(session: Row, n: nat, facts: Facts)
    | Reload(session: Row, n: nat, facts: Facts, changed: set<Party>)
    | ReadHold(session: Row, n: nat, facts: Facts, changed: set<Party>, row: Row)
    | Record(n: nat, turn: Turn, history: History)
    | CountRound(party: Party, question: Template, firstInTurn: bool)
    | StartHold
    | StartGuide(path: Path)
    | Forward
    | Forwarded(n: nat, seen: nat, last: nat)
    | MarkUpdate(last: nat)
    // sending to a party: the state check, the relays, the row
    | Send(party: Party, template: Template, guard: Guard, onFailure: OnFailure)
    | InFlight(party: Party, template: Template, onFailure: OnFailure)
    | StoreRow(party: Party, template: Template, onFailure: OnFailure)
    | TellHold(party: Party, cutoff: nat)
    | TellGuide(party: Party, template: Template)
    | TellHandoff(party: Party)
    | ResendGuides
    // handing off
    | HandOff(reason: Reason)
    | Brief(pending: nat)
    | Briefed(pending: nat, n: nat)
    | MarkBrief(pending: nat)
    // one tick of the timers
    | ListSession
    | OpenChat(session: Row)
    | ReadClocks(session: Row)
    | Retry(session: Row)

  datatype Evaluation = Evaluation(lastMessage: nat, action: Action)

  type Letter = (Party, Template)

  /** What happened, kept for the statements only; no step reads it.
      `counted` are the questions counted as rounds, `holds` is set by a hold
      and cleared by a question, `courtesy` and `aborted` say of the last
      judged turn whether it only resent a courtesy and whether a failed send
      or a restart cut it short, `told` are the party messages some solver
      received. `sent` are the messages a relay took, `lost` those of them
      whose row was never stored, `resent` what turns decided to repeat in a
      new language. `forgotten` says that no turn started since a start that
      did not schedule the session, `skipped` that the last turn to start
      found it still opening, `unsent` that it
      had an update for the solvers that none of them received. */
  datatype Ledger = Ledger(
    counted: set<Letter>,
    holds: bool,
    courtesy: bool,
    aborted: bool,
    told: set<nat>,
    sent: multiset<Letter>,
    lost: multiset<Letter>,
    resent: multiset<Letter>,
    forgotten: bool,
    skipped: bool,
    unsent: bool)

  /** `wake` says that the turn loop will start a turn of the session once
      none is running. */

  datatype Sys = Sys(
    now: int,
    row: Row,
    log: seq<Message>,
    events: seq<Event>,
    evaluations: seq<Evaluation>,
    opening: seq<Op>,
    turn: seq<Op>,
    tick: seq<Op>,
    wake: bool,
    ledger: Ledger)

  /** What the environment answers to one step: whether it went well, what
      the judge said, and the ids and times of what it stores. */
  datatype Oracle = Oracle(ok: bool, verdict: Option<Facts>, gap: nat, at: int)

  datatype Actor = TheOpening | TheTurn | TheTick

  datatype Move =
    | StartTurn
    | StartTick
    | Run(actor: Actor, oracle: Oracle)
    | Receive(party: Party, createdAt: int, gap: nat)
    | Supersede(at: int, gap: nat)
    | Close(at: int, gap: nat)
    | Advance(seconds: nat)
    | Restart

  // ----- what one step does to the rows and the logs -----

  /** `LoseRow` is also what becomes of a message that a relay took and then
      reported as failed. */
  datatype Effect =
    | NoEffect
    | SetRow(row: Row)
    | Append(row: Row, bodies: seq<EventBody>)
    | RelayTook(party: Party, template: Template)
    | StoreOut(party: Party, template: Template)
    | LoseRow(party: Party, template: Template, aborts: bool)
    | StoreEvaluation(evaluation: Evaluation, courtesy: bool, resent: multiset<Letter>)
    | CountQuestion(party: Party, question: Template, firstInTurn: bool)
    | BeginHold
    | TellSolvers(ids: set<nat>)
    | AbortTurn
    | Defer
    | SkipTurn
    | KeepUnseen

  function Stored(s: Sys, direction: Direction, p: Party, template: Option<Template>, createdAt: int, gap: nat): Sys {
    s.(log := s.log + [Message(LastId(s.log) + 1 + gap, direction, p, template, createdAt)])
  }

  function Noted(s: Sys, body: EventBody, at: int, gap: nat): Sys {
    s.(events := s.events + [Event(LastEventId(s.events) + 1 + gap, Min(at, s.now), body)])
  }

  /** Events of one transaction get consecutive ids. */
  function NotedAll(s: Sys, bodies: seq<EventBody>, at: int, gap: nat): Sys
    decreases |bodies|
  {
    if bodies == [] then s else NotedAll(Noted(s, bodies[0], at, gap), bodies[1..], at, 0)
  }

  function Apply(s: Sys, e: Effect, o: Oracle): Sys {
    match e
    case NoEffect => s
    case SetRow(row) => s.(row := row)
    case Append(row, bodies) => NotedAll(s.(row := row), bodies, o.at, o.gap)
    case StoreOut(p, t) =>
      var stored := Stored(s, Out, p, Some(t), Min(o.at, s.now), o.gap);
      if IsQuestion(t) then stored.(ledger := stored.ledger.(holds := false)) else stored
    case RelayTook(p, t) => s.(ledger := s.ledger.(sent := s.ledger.sent + multiset{(p, t)}))
    case LoseRow(p, t, aborts) =>
      s.(ledger := s.ledger.(lost := s.ledger.lost + multiset{(p, t)}, aborted := s.ledger.aborted || aborts))
    case StoreEvaluation(evaluation, courtesy, resent) =>
      s.(evaluations := s.evaluations + [evaluation],
         ledger := s.ledger.(courtesy := courtesy, aborted := false, resent := s.ledger.resent + resent))
    case CountQuestion(p, question, firstInTurn) =>
      s.(row := CountRoundRow(s.row, p, firstInTurn, s.now),
         ledger := s.ledger.(counted := s.ledger.counted + {(p, question)}))
    case BeginHold =>
      var noted := Noted(s, Held(LastId(s.log)), s.now, o.gap);
      noted.(ledger := noted.ledger.(holds := true))
    case TellSolvers(ids) => s.(ledger := s.ledger.(told := s.ledger.told + ids))
    case AbortTurn => s.(ledger := s.ledger.(aborted := true))
    case Defer => s.(wake := true)
    case SkipTurn => s.(ledger := s.ledger.(skipped := true))
    case KeepUnseen => s.(ledger := s.ledger.(unsent := true))
  }

  predicate Received(messages: seq<Message>, p: Party, t: Template, cutoff: nat) {
    exists m :: m in messages && IsOutTemplate(m, p, t) && m.id > cutoff
  }

  predicate ReceivedEver(messages: seq<Message>, p: Party, t: Template) {
    exists m :: m in messages && IsOutTemplate(m, p, t)
  }

  function InboundIds(messages: seq<Message>): set<nat> {
    set m | m in messages && m.direction.In? :: m.id
  }

  // ----- flood strikes (src/mediation/turn.rs) -----

  const FLOOD_STRIKES: nat := 2

  function StrikesOf(events: seq<Event>, p: Party): nat {
    if events == [] then 0
    else
      var n := |events| - 1;
      var e := events[n].body;
      StrikesOf(events[..n], p) + if e.FloodStrike? && e.party == p then 1 else 0
  }

  function LastStrike(events: seq<Event>): nat {
    if events == [] then 0
    else
      var n := |events| - 1;
      var e := events[n].body;
      var before := LastStrike(events[..n]);
      if e.FloodStrike? && before < e.lastMessage then e.lastMessage else before
  }

  function LastJudged(evaluations: seq<Evaluation>): nat {
    if evaluations == [] then 0
    else
      var n := |evaluations| - 1;
      var before := LastJudged(evaluations[..n]);
      if before < evaluations[n].lastMessage then evaluations[n].lastMessage else before
  }

  /** The party's messages after `cutoff`. */
  function CountIn(messages: seq<Message>, p: Party, cutoff: nat): nat {
    if messages == [] then 0
    else
      var n := |messages| - 1;
      CountIn(messages[..n], p, cutoff) + if IsIn(messages[n], p) && messages[n].id > cutoff then 1 else 0
  }

  /** The strike of one party, if it wrote too much since `counted`. */
  function Strike(c: Config, p: Party, messages: seq<Message>, counted: nat): seq<EventBody> {
    var count := CountIn(messages, p, counted);
    if count > c.maxMessagesPerTurn then [FloodStrike(p, count, LastId(messages))] else []
  }

  /** A turn's messages are those after the last judged turn or strike. */
  function Counted(s: Sys): nat {
    Max(LastStrike(s.events), LastJudged(s.evaluations))
  }

  function Strikes(c: Config, s: Sys, messages: seq<Message>): seq<EventBody> {
    Strike(c, Buyer, messages, Counted(s)) + Strike(c, Seller, messages, Counted(s))
  }

  predicate Floods(c: Config, s: Sys, p: Party, messages: seq<Message>) {
    Strike(c, p, messages, Counted(s)) != [] && StrikesOf(s.events, p) + 1 >= FLOOD_STRIKES
  }

  // ----- one turn (src/mediation/turn.rs) -----

  function PhaseOf(state: State): Phase {
    if state.Guiding? then GuidingPhase else Gathering
  }

  function HistoryRead(messages: seq<Message>, changed: set<Party>): History {
    History(AskedOf(messages),
            PartyHistoryOf(messages, Buyer).(languageChanged := Buyer in changed),
            PartyHistoryOf(messages, Seller).(languageChanged := Seller in changed))
  }

  function TurnRead(c: Config, phase: Phase, messages: seq<Message>, facts: Facts, history: History,
                    row: Row, held: bool): Turn {
    Turn(phase, facts, row.LanguageOf(Buyer, c.defaultLanguage), row.LanguageOf(Seller, c.defaultLanguage),
         c.validatedLanguages, row.buyerRounds, row.sellerRounds, c.maxRounds, history.asked,
         Pick(facts, history), Heard(messages, Buyer), Heard(messages, Seller), held, c.timeouts.handoffGrace)
  }

  function Detected(facts: Facts, p: Party): Option<Language> {
    if facts.Of(p).None? then None else facts.Of(p).value.language
  }

  predicate Changes(c: Config, session: Row, facts: Facts, p: Party) {
    Detected(facts, p).Some? && Detected(facts, p).value != session.LanguageOf(p, c.defaultLanguage)
  }

  function WithLanguage(c: Config, row: Row, session: Row, facts: Facts, p: Party, now: int): Row {
    if Changes(c, session, facts, p) then SetLanguageRow(row, p, Detected(facts, p).value, now) else row
  }

  function Sends(p: Party, templates: seq<Template>): seq<Op> {
    if templates == [] then []
    else [Send(p, templates[0], WhileMediating, Abort)] + Sends(p, templates[1..])
  }

  /** The question among the picked templates; it is the last one. */
  function AskOps(p: Party, templates: seq<Template>, asks: bool, firstInTurn: bool): seq<Op> {
    Sends(p, templates)
    + if asks && templates != [] then [CountRound(p, templates[|templates| - 1], firstInTurn)] else []
  }

  function ActionOps(next: NextQuestions, action: Action): seq<Op> {
    match action
    case Ask(buyer, seller) =>
      AskOps(Buyer, buyer, next.Asks(Buyer), true) + AskOps(Seller, seller, next.Asks(Seller), !next.Asks(Buyer))
    case Handoff(reason) => [HandOff(reason)]
    case Guide(path) => [StartGuide(path)]
    case Hold => [StartHold]
    case Wait => []
  }

  /** What a decision to ask only repeats, because a language changed. */
  function Resent(next: NextQuestions, action: Action): multiset<Letter> {
    if !action.Ask? then multiset{}
    else ResentTo(next, Buyer, action.buyer) + ResentTo(next, Seller, action.seller)
  }

  function ResentTo(next: NextQuestions, p: Party, ts: seq<Template>): multiset<Letter> {
    if next.Resend(p) && ts != [] then multiset{(p, ts[0])} else multiset{}
  }

  /** The turn leaves nothing to wait for but repeats a courtesy. */
  predicate OnlyCourtesy(turn: Turn, history: History) {
    && Quiet(Decide(turn))
    && (CourtesyResend(Buyer, turn.facts, history) || CourtesyResend(Seller, turn.facts, history))
  }

  function GuideOps(path: Path): seq<Op> {
    match path
    case PaymentArrived => [TellGuide(Seller, GuideArrivedSeller), TellGuide(Buyer, GuideArrivedBuyer)]
    case PaymentNotSent => [TellGuide(Buyer, GuideNotSentBuyer), TellGuide(Seller, GuideNotSentSeller)]
  }

  function LastGuided(events: seq<Event>): Option<Path> {
    if events == [] then None
    else
      var n := |events| - 1;
      if events[n].body.Guided? then Some(events[n].body.path) else LastGuided(events[..n])
  }

  // ----- one tick (src/mediation/timers.rs) -----

  const RETRY_GRACE_SECS: int := 120

  function GuidedAt(events: seq<Event>): Option<int> {
    LatestAt(events, false)
  }

  /** When the session was guided last, or also when it was handed off. */
  function LatestAt(events: seq<Event>, handoffsToo: bool): Option<int> {
    if events == [] then None
    else
      var n := |events| - 1;
      var before := LatestAt(events[..n], handoffsToo);
      var e := events[n];
      if !(e.body.Guided? || (handoffsToo && e.body.HandoffRecorded?)) then before
      else Some(if before.Some? then Max(before.value, e.at) else e.at)
  }

  function ClocksRead(session: Row, messages: seq<Message>, events: seq<Event>, now: int): Timers.Clocks {
    var hold := CurrentHold(events, messages);
    Timers.Clocks(PhaseOf(session.state), now, ClockOf(messages, Buyer), ClockOf(messages, Seller),
                  GuidedAt(events), if hold.Some? then Some(hold.value.at) else None)
  }

  function Reminders(parties: seq<Party>): seq<Op> {
    if parties == [] then []
    else [Send(parties[0], Reminder, WhileMediating, Abort)] + Reminders(parties[1..])
  }

  function TimerOps(timer: Timers.Timer): seq<Op> {
    match timer
    case Nothing => []
    case Remind(parties) => Reminders(parties)
    case Handoff(reason) => [HandOff(reason)]
  }

  predicate Delivered(events: seq<Event>, pending: nat) {
    exists e :: e in events && e.body == BriefSent(pending)
  }

  /** The briefs no solver received yet. */
  function PendingBriefs(events: seq<Event>, all: seq<Event>): seq<Op> {
    if events == [] then []
    else
      var rest := PendingBriefs(events[1..], all);
      if events[0].body.BriefPending? && !Delivered(all, events[0].id) then [Brief(events[0].id)] + rest else rest
  }

  function RetryAfter(grace: nat): int {
    Min(RETRY_GRACE_SECS, grace / 2)
  }

  /** What a tick sends again: pending briefs, the handoff notice to each
      party not told yet, guidance, and the hold notices. */
  function RetryOps(c: Config, s: Sys, session: Row): seq<Op> {
    var started := LatestAt(s.events, true);
    if started.Some? && s.now - started.value < RETRY_GRACE_SECS then []
    else
      PendingBriefs(s.events, s.events) +
      (match session.state
       case HandedOff =>
         if session.handoffReason == Some(OpeningFailed) then []
         else
           (if ReceivedEver(s.log, Buyer, HandoffNotice) then [] else [Send(Buyer, HandoffNotice, WhileLive, Skip)]) +
           (if ReceivedEver(s.log, Seller, HandoffNotice) then [] else [Send(Seller, HandoffNotice, WhileLive, Skip)])
       case Guiding => [ResendGuides]
       case Active =>
         var hold := CurrentHold(s.events, s.log);
         if hold.Some? && s.now - hold.value.at >= RetryAfter(c.timeouts.handoffGrace)
         then [TellHold(Buyer, hold.value.cutoff), TellHold(Seller, hold.value.cutoff)]
         else []
       case _ => [])
  }

  // ----- one step of an actor -----

  function ToRetry(ops: seq<Op>): seq<Op> {
    if ops == [] || ops[0].Retry? then ops else ToRetry(ops[1..])
  }

  /** A step that gives the session a timer, or takes it out of gathering. */
  predicate Remedy(op: Op) {
    || (op.Send? && IsQuestion(op.template))
    || (op.InFlight? && IsQuestion(op.template))
    || (op.StoreRow? && IsQuestion(op.template))
    || op.StartHold? || op.StartGuide? || op.HandOff?
  }

  predicate HasRemedy(ops: seq<Op>) {
    exists op :: op in ops && Remedy(op)
  }

  /** A send failed: skipped, or the end of the turn, of the timer's part of
      the tick, or of the opening. */
  function Failed(a: Actor, op: Op, f: OnFailure, rest: seq<Op>): (Effect, seq<Op>) {
    if f.Skip? then (NoEffect, rest)
    else
      match a
      case TheOpening => (NoEffect, [Abandon])
      case TheTurn => (if HasRemedy([op] + rest) then AbortTurn else NoEffect, [])
      case TheTick => (NoEffect, ToRetry(rest))
  }

  function Prefix(log: seq<Message>, n: nat): seq<Message> {
    if n <= |log| then log[..n] else log
  }

  function Unseen(messages: seq<Message>, seen: nat): seq<Message> {
    if messages == [] then []
    else
      var n := |messages| - 1;
      var before := Unseen(messages[..n], seen);
      if messages[n].direction.In? && messages[n].id > seen then before + [messages[n]] else before
  }

  /** The id the pending brief of a transaction of two events gets. */
  function PendingId(s: Sys, o: Oracle): nat {
    LastEventId(s.events) + 2 + o.gap
  }

  /** The decision a turn is about to record. */
  function Judged(c: Config, s: Sys, session: Row, n: nat, facts: Facts, changed: set<Party>, row: Row): (op: Op)
    ensures op.Record? && op.n == n
  {
    var messages := Listed(Prefix(s.log, n));
    var history := HistoryRead(messages, changed);
    var held := CurrentHold(s.events, messages).Some?;
    Record(n, TurnRead(c, PhaseOf(session.state), messages, facts, history, row, held), history)
  }

  function RunTurnOp(c: Config, s: Sys, op: Op, rest: seq<Op>, o: Oracle): (Effect, seq<Op>) {
    match op
    case Load =>
      if s.row.state.HandedOff? then (NoEffect, [Forward])
      else if s.row.state.Guiding? then (NoEffect, [ResendGuides, CheckFlood(s.row, |s.log|)])
      else if s.row.state.Active? then (NoEffect, [CheckFlood(s.row, |s.log|)])
      else if s.row.state.Opening? then (if o.ok then SkipTurn else Defer, [])
      else (NoEffect, [])
    case CheckFlood(session, n) =>
      var messages := Prefix(s.log, n);
      var transcript := Listed(messages);
      if !o.ok then (Defer, [])
      else if !Wrote(transcript, Buyer) && !Wrote(transcript, Seller) then (NoEffect, [])
      else
        var flooded := Floods(c, s, Buyer, messages) || Floods(c, s, Seller, messages);
        (Append(s.row, Strikes(c, s, messages)), if flooded then [HandOff(Flood)] else [AskJudge(session, n)])
    case AskJudge(session, n) =>
      (NoEffect, if o.verdict.None? then [HandOff(JudgeUnavailable)] else [CheckNewer(session, n, o.verdict.value)])
    case CheckNewer(session, n, facts) =>
      var last := LastId(Prefix(s.log, n));
      if exists m :: m in s.log && m.direction.In? && m.id > last then (Defer, [])
      else (NoEffect, [CheckMoved(session, n, facts)])
    case CheckMoved(session, n, facts) =>
      (NoEffect, if s.row.state != session.state then [] else [UpdateLanguages(session, n, facts)])
    case UpdateLanguages(session, n, facts) =>
      var row := WithLanguage(c, WithLanguage(c, s.row, session, facts, Buyer, s.now), session, facts, Seller, s.now);
      var changed := set p: Party | Changes(c, session, facts, p);
      (SetRow(row), [Reload(session, n, facts, changed)])
    case Reload(session, n, facts, changed) =>
      (NoEffect, [ReadHold(session, n, facts, changed, s.row)])
    case ReadHold(session, n, facts, changed, row) =>
      (NoEffect, [Judged(c, s, session, n, facts, changed, row)])
    case Record(n, turn, history) =>
      var action := Decide(turn);
      (StoreEvaluation(Evaluation(LastId(Prefix(s.log, n)), action), OnlyCourtesy(turn, history),
                       Resent(turn.next, action)),
       ActionOps(turn.next, action))
    case CountRound(p, question, firstInTurn) => (CountQuestion(p, question, firstInTurn), rest)
    case StartHold =>
      var cutoff := LastId(s.log);
      (BeginHold, [TellHold(Buyer, cutoff), TellHold(Seller, cutoff)] + rest)
    case StartGuide(path) =>
      if !s.row.state.Active? then (NoEffect, rest)
      else
        (Append(StartGuidingRow(s.row, s.now), [Guided(path), BriefPending(AboutGuide)]),
         [Brief(PendingId(s, o))] + GuideOps(path) + rest)
    case Forward =>
      var seen := LastSeen(s.events);
      var unseen := Unseen(Listed(s.log), seen);
      (NoEffect, if unseen == [] then [] else [Forwarded(|s.log|, seen, unseen[|unseen| - 1].id)])
    case Forwarded(n, seen, last) =>
      if !o.ok then (KeepUnseen, [])
      else (TellSolvers(InboundIds(Unseen(Listed(Prefix(s.log, n)), seen))), [MarkUpdate(last)])
    case MarkUpdate(last) => (Append(s.row, [UpdateSent(last)]), rest)
    case _ => (NoEffect, rest)
  }

  function RunTickOp(c: Config, s: Sys, op: Op, rest: seq<Op>, o: Oracle): (Effect, seq<Op>) {
    match op
    case ListSession =>
      if s.row.state.Terminal() then (NoEffect, [])
      else if s.row.state.Active? || s.row.state.Guiding? then (NoEffect, [OpenChat(s.row), Retry(s.row)])
      else (NoEffect, [Retry(s.row)])
    case OpenChat(session) => (NoEffect, [if o.ok then ReadClocks(session) else HandOff(OpeningFailed)] + rest)
    case ReadClocks(session) =>
      var clocks := ClocksRead(session, Listed(s.log), s.events, s.now);
      (NoEffect, TimerOps(Timers.Check(clocks, c.timeouts)) + rest)
    case Retry(session) => (NoEffect, RetryOps(c, s, session))
    case _ => (NoEffect, rest)
  }

  function RunOpeningOp(s: Sys, op: Op, rest: seq<Op>): (Effect, seq<Op>) {
    match op
    case Activate => (SetRow(SetStateRow(s.row, Active, s.now)), rest)
    case Abandon => (Append(HandOffRow(s.row, OpeningFailed, s.now), [MediationFailed]), rest)
    case _ => (NoEffect, rest)
  }

  /** The steps that sending and handing off take, whoever runs them. */
  function RunSharedOp(s: Sys, a: Actor, op: Op, rest: seq<Op>, o: Oracle): (Effect, seq<Op>) {
    match op
    case Send(p, t, guard, f) =>
      if guard.Allows(s.row.state) then (NoEffect, [InFlight(p, t, f)] + rest) else Failed(a, op, f, rest)
    case InFlight(p, t, f) =>
      if o.ok then (RelayTook(p, t), [StoreRow(p, t, f)] + rest) else Failed(a, op, f, rest)
    case StoreRow(p, t, f) =>
      var (e, left) := Failed(a, op, f, rest);
      if o.ok then (StoreOut(p, t), rest) else (LoseRow(p, t, e.AbortTurn?), left)
    case TellHold(p, cutoff) =>
      (NoEffect, (if Received(s.log, p, HoldNotice, cutoff) then [] else [Send(p, HoldNotice, WhileMediating, Skip)])
                 + rest)
    case TellGuide(p, t) =>
      (NoEffect, (if ReceivedEver(s.log, p, t) then [] else [Send(p, t, WhileMediating, Skip)]) + rest)
    case TellHandoff(p) =>
      (NoEffect, (if ReceivedEver(s.log, p, HandoffNotice) then [] else [Send(p, HandoffNotice, WhileLive, Skip)])
                 + rest)
    case ResendGuides =>
      var path := LastGuided(s.events);
      (NoEffect, (if path.Some? then GuideOps(path.value) else []) + rest)
    case HandOff(reason) =>
      if !s.row.state.Mediating() then (NoEffect, rest)
      else
        (Append(HandOffRow(s.row, reason, s.now), [HandoffRecorded(reason, LastId(s.log)), BriefPending(AboutHandoff)]),
         [Brief(PendingId(s, o)), TellHandoff(Buyer), TellHandoff(Seller)] + rest)
    case Brief(pending) => (NoEffect, [Briefed(pending, |s.log|)] + rest)
    case Briefed(pending, n) =>
      if o.ok then (TellSolvers(InboundIds(Prefix(s.log, n))), [MarkBrief(pending)] + rest) else (NoEffect, rest)
    case MarkBrief(pending) => (Append(s.row, [BriefSent(pending)]), rest)
    case _ => (NoEffect, rest)
  }

  predicate IsShared(op: Op) {
    || op.Send? || op.InFlight? || op.StoreRow? || op.TellHold? || op.TellGuide? || op.TellHandoff? || op.ResendGuides?
    || op.HandOff? || op.Brief? || op.Briefed? || op.MarkBrief?
  }

  function RunOp(c: Config, s: Sys, a: Actor, op: Op, rest: seq<Op>, o: Oracle): (Effect, seq<Op>) {
    if IsShared(op) then RunSharedOp(s, a, op, rest, o)
    else
      match a
      case TheOpening => RunOpeningOp(s, op, rest)
      case TheTurn => RunTurnOp(c, s, op, rest, o)
      case TheTick => RunTickOp(c, s, op, rest, o)
  }

  // ----- one step of the system -----

  function OpsOf(s: Sys, a: Actor): seq<Op> {
    match a
    case TheOpening => s.opening
    case TheTurn => s.turn
    case TheTick => s.tick
  }

  function WithOps(s: Sys, a: Actor, ops: seq<Op>): Sys {
    match a
    case TheOpening => s.(opening := ops)
    case TheTurn => s.(turn := ops)
    case TheTick => s.(tick := ops)
  }

  /** A dispute revision ends the live session (src/notifier/mod.rs). */
  function Ended(s: Sys, state: State, at: int, gap: nat): Sys {
    if s.row.state.Terminal() then s
    else Noted(s.(row := SetStateRow(s.row, state, s.now)), SessionEnded, at, gap)
  }

  /** Whether a start schedules the session: after a handoff, when a party
      message was not seen; before, when the newest row is a party's. */
  predicate PendingAtStart(s: Sys) {
    if s.row.state.HandedOff? then exists m :: m in s.log && m.direction.In? && m.id > LastSeen(s.events)
    else !s.row.state.Terminal() && s.log != [] && s.log[|s.log| - 1].direction.In?
  }

  /** The message an actor handed to a relay and did not store yet. */
  function Unstored(ops: seq<Op>): multiset<Letter> {
    if ops != [] && ops[0].StoreRow? then multiset{(ops[0].party, ops[0].template)} else multiset{}
  }

  function Started(s: Sys): Sys {
    s.(turn := [Load], wake := false, ledger := s.ledger.(forgotten := false, skipped := false, unsent := false))
  }

  /** The process stops wherever its actors are, and starts again. */
  function Restarted(s: Sys): Sys {
    s.(opening := [], turn := [], tick := [], wake := PendingAtStart(s),
       ledger := s.ledger.(aborted := s.ledger.aborted || HasRemedy(s.turn),
                           lost := s.ledger.lost + Unstored(s.opening) + Unstored(s.turn) + Unstored(s.tick),
                           forgotten := !PendingAtStart(s)))
  }

  function Step(c: Config, s: Sys, m: Move): Sys {
    match m
    case StartTurn => if s.turn == [] && s.wake then Started(s) else s
    case StartTick => if s.tick == [] then s.(tick := [ListSession]) else s
    case Run(a, o) =>
      var ops := OpsOf(s, a);
      if ops == [] then s
      else
        var (effect, left) := RunOp(c, s, a, ops[0], ops[1..], o);
        WithOps(Apply(s, effect, o), a, left)
    case Receive(p, createdAt, gap) => Stored(s, In, p, None, createdAt, gap).(wake := true)
    case Supersede(at, gap) => Ended(s, Superseded, at, gap)
    case Close(at, gap) => Ended(s, Closed, at, gap)
    case Advance(seconds) => s.(now := s.now + seconds)
    case Restart => Restarted(s)
  }

  /** The session as the opening just stored it: both openers still to send. */
  function Initial(dispute: string, now: int): Sys {
    Sys(now, NewRow(dispute, now), [], [], [],
        [Send(Buyer, Opener(Buyer), WhileLive, Abort), Send(Seller, Opener(Seller), WhileLive, Abort), Activate],
        [], [], false,
        Ledger({}, false, false, false, {}, multiset{}, multiset{}, multiset{}, false, false, false))
  }

  /** A run is any list of moves: parties, relays, judge, solvers, clock and
      scheduler choose freely. */
  function Exec(c: Config, s: Sys, moves: seq<Move>): Sys {
    if moves == [] then s else Step(c, Exec(c, s, moves[..|moves| - 1]), moves[|moves| - 1])
  }
}

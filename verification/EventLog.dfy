/** The append-only `events` table as one session's readers see it
    (src/store/events.rs), and the views they derive from it. */
module EventLog {
  import opened Domain

  /** What a brief is about: a handoff or the start of guidance. */
  datatype Subject = AboutHandoff | AboutGuide

  datatype EventBody =
    | HandoffRecorded(reason: Reason, lastMessage: nat)
    | UpdateSent(lastMessage: nat)
    | BriefPending(about: Subject)
    | BriefSent(pending: nat)
    | Held(cutoff: nat)
    | Guided(path: Path)
    | FloodStrike(party: Party, count: nat, lastMessage: nat)
    | MediationFailed
    | SessionEnded

  datatype Event = Event(id: nat, at: int, body: EventBody)

  function LastEventId(events: seq<Event>): nat {
    if events == [] then 0 else events[|events| - 1].id
  }

  /** Event ids are positive and increase in append order. */
  ghost predicate Appended(events: seq<Event>) {
    && (forall i :: 0 <= i < |events| ==> 0 < events[i].id)
    && (forall i, j :: 0 <= i < j < |events| ==> events[i].id < events[j].id)
  }

  // ----- the hold (src/mediation/hold.rs) -----

  datatype Hold = Hold(at: int, cutoff: nat)

  /** The `held` event with the greatest `(created_at, id)`. */
  function LatestHeld(events: seq<Event>): (r: Option<Event>)
    ensures r.None? ==> forall e :: e in events ==> !e.body.Held?
    ensures r.Some? ==> r.value in events && r.value.body.Held?
    ensures r.Some? ==> forall e :: e in events && e.body.Held? ==>
                                      e.at < r.value.at || (e.at == r.value.at && e.id <= r.value.id)
  {
    if events == [] then None
    else
      var n := |events| - 1;
      var r := LatestHeld(events[..n]);
      var e := events[n];
      assert events == events[..n] + [e];
      if e.body.Held? && (r.None? || r.value.at < e.at || (r.value.at == e.at && r.value.id <= e.id))
      then Some(e) else r
  }

  predicate AskedSince(messages: seq<Message>, cutoff: nat) {
    exists m :: m in messages && m.id > cutoff && (IsOutQuestion(m, Buyer) || IsOutQuestion(m, Seller))
  }

  /** The session's hold, if it holds now: the latest `held` event, unless a
      question was sent to a party since. */
  function CurrentHold(events: seq<Event>, messages: seq<Message>): Option<Hold> {
    var held := LatestHeld(events);
    if held.None? || AskedSince(messages, held.value.body.cutoff) then None
    else Some(Hold(held.value.at, held.value.body.cutoff))
  }

  lemma LatestHeldAppend(events: seq<Event>, e: Event)
    requires Appended(events + [e])
    requires forall x :: x in events ==> x.at <= e.at
    ensures LatestHeld(events + [e]) == if e.body.Held? then Some(e) else LatestHeld(events)
  {
    assert (events + [e])[..|events|] == events;
    var r := LatestHeld(events);
    if r.Some? {
      var i :| 0 <= i < |events| && events[i] == r.value;
      assert (events + [e])[i].id < (events + [e])[|events|].id;
    }
  }

  // ----- what the solvers have seen (src/mediation/handoff.rs) -----

  function Seen(e: Event): Option<nat> {
    match e.body
    case HandoffRecorded(_, last) => Some(last)
    case UpdateSent(last) => Some(last)
    case _ => None
  }

  /** The newest message id the solvers have seen for the session. */
  function LastSeen(events: seq<Event>): (seen: nat)
    ensures forall e :: e in events && Seen(e).Some? ==> Seen(e).value <= seen
    ensures seen == 0 || exists e :: e in events && Seen(e) == Some(seen)
  {
    if events == [] then 0
    else
      var n := |events| - 1;
      assert events == events[..n] + [events[n]];
      var before := LastSeen(events[..n]);
      var s := Seen(events[n]);
      if s.Some? && before < s.value then s.value else before
  }
}

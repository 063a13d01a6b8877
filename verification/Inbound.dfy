/** Inbound party messages (src/chat/inbound.rs): the rate limit, the memory
    of recent events, and the order of the checks. */
module Inbound {
  import opened Domain
  import opened Sessions

  // ----- the rate limit -----

  const RATE_PER_MINUTE: real := 30.0
  const RATE_BURST: real := 60.0

  datatype Bucket = Bucket(tokens: real, refilled: real)

  predicate Level(b: Bucket) {
    0.0 <= b.tokens <= RATE_BURST
  }

  function Least(a: real, b: real): real {
    if a < b then a else b
  }

  /** A call that goes back in time refills nothing. */
  function Refilled(b: Bucket, now: real): Bucket {
    var elapsed := if b.refilled <= now then now - b.refilled else 0.0;
    Bucket(Least(b.tokens + elapsed * RATE_PER_MINUTE / 60.0, RATE_BURST), now)
  }

  function Take(b: Bucket, now: real): (Bucket, bool) {
    var full := Refilled(b, now);
    if full.tokens >= 1.0 then (full.(tokens := full.tokens - 1.0), true) else (full, false)
  }

  /** The bucket after a list of calls, and how many were accepted. */
  function Takes(b: Bucket, times: seq<real>): (Bucket, nat) {
    if times == [] then (b, 0)
    else
      var n := |times| - 1;
      var (before, accepted) := Takes(b, times[..n]);
      var (after, ok) := Take(before, times[n]);
      (after, accepted + if ok then 1 else 0)
  }

  ghost predicate NonDecreasing(times: seq<real>) {
    forall i, j :: 0 <= i <= j < |times| ==> times[i] <= times[j]
  }

  class TokenBucket {
    var bucket: Bucket

    constructor (now: real)
      ensures bucket == Bucket(RATE_BURST, now)
    {
      bucket := Bucket(RATE_BURST, now);
    }

    method TakeOne(now: real) returns (ok: bool)
      requires Level(bucket)
      modifies this
      ensures Level(bucket)
      ensures (bucket, ok) == Take(old(bucket), now)
    {
      var elapsed := if bucket.refilled <= now then now - bucket.refilled else 0.0;
      var tokens := bucket.tokens + elapsed * RATE_PER_MINUTE / 60.0;
      bucket := Bucket(if tokens < RATE_BURST then tokens else RATE_BURST, now);
      if bucket.tokens >= 1.0 {
        bucket := bucket.(tokens := bucket.tokens - 1.0);
        ok := true;
      } else {
        ok := false;
      }
    }
  }

  lemma TakesKeepLevel(b: Bucket, times: seq<real>)
    requires Level(b)
    ensures Level(Takes(b, times).0)
    ensures Takes(b, times).0.refilled == if times == [] then b.refilled else times[|times| - 1]
  {
    if times != [] {
      TakesKeepLevel(b, times[..|times| - 1]);
    }
  }

  /** What was accepted and what is left never exceed the burst and what was
      refilled since the first call. */
  lemma {:induction false} TokensAreConserved(b: Bucket, times: seq<real>)
    requires Level(b) && times != [] && NonDecreasing(times)
    ensures var (after, accepted) := Takes(b, times);
            accepted as real + after.tokens <= RATE_BURST + (times[|times| - 1] - times[0]) / 2.0
  {
    var n := |times| - 1;
    var before := times[..n];
    TakesKeepLevel(b, before);
    assert Takes(b, times).0 == Take(Takes(b, before).0, times[n]).0;
    if n > 0 {
      TokensAreConserved(b, before);
      assert before[n - 1] == times[n - 1] && before[0] == times[0];
      assert times[n - 1] <= times[n];
    } else {
      assert before == [];
    }
  }

  lemma TakesSplit(b: Bucket, a: seq<real>, c: seq<real>)
    ensures var (middle, first) := Takes(b, a);
            var (after, second) := Takes(middle, c);
            Takes(b, a + c) == (after, first + second)
  {
    if c == [] {
      assert a + c == a;
    } else {
      var n := |c| - 1;
      TakesSplit(b, a, c[..n]);
      assert (a + c)[..|a| + n] == a + c[..n];
    }
  }

  /** In any window of the calls, a channel gets at most the burst and half
      its length in seconds accepted. */
  lemma AcceptedInWindow(now: real, times: seq<real>, i: nat, j: nat)
    requires NonDecreasing([now] + times) && i < j <= |times|
    ensures var start := Bucket(RATE_BURST, now);
            var before, upTo := Takes(start, times[..i]).1, Takes(start, times[..j]).1;
            before <= upTo && (upTo - before) as real <= 60.0 + (times[j - 1] - times[i]) / 2.0
  {
    hide Take, Takes;
    var start := Bucket(RATE_BURST, now);
    var window := times[i..j];
    TakesKeepLevel(start, times[..i]);
    assert times[..j] == times[..i] + window;
    TakesSplit(start, times[..i], window);
    forall k, l | 0 <= k <= l < |window|
      ensures window[k] <= window[l]
    {
      assert ([now] + times)[i + k + 1] == window[k] && ([now] + times)[i + l + 1] == window[l];
    }
    var middle := Takes(start, times[..i]).0;
    var (after, accepted) := Takes(middle, window);
    assert window[0] == times[i] && window[|window| - 1] == times[j - 1];
    TokensAreConserved(middle, window);
    TakesKeepLevel(middle, window);
    assert Takes(start, times[..j]).1 == Takes(start, times[..i]).1 + accepted;
  }

  /** A party that writes at most once every two seconds is never limited. */
  lemma {:induction false} SlowSendersAreAccepted(b: Bucket, times: seq<real>)
    requires Level(b) && b.tokens >= 1.0 && (times != [] ==> b.refilled <= times[0])
    requires forall i :: 0 <= i < |times| - 1 ==> times[i] + 2.0 <= times[i + 1]
    ensures Takes(b, times).1 == |times|
  {
    if times != [] {
      var n := |times| - 1;
      SlowSendersAreAccepted(b, times[..n]);
      TakesKeepLevel(b, times[..n]);
      if n > 0 {
        assert times[n - 1] + 2.0 <= times[n];
      }
    }
  }

  // ----- the recent events -----

  const SEEN_OUTER_CAPACITY: nat := 4_096

  type Id = nat

  function LastOnes(ids: seq<Id>, n: nat): seq<Id> {
    if |ids| <= n then ids else ids[|ids| - n..]
  }

  ghost predicate NoRepeats(ids: seq<Id>) {
    forall i, j :: 0 <= i < j < |ids| ==> ids[i] != ids[j]
  }

  class SeenSet {
    var ids: set<Id>
    var order: seq<Id>
    /** Every id ever accepted, in order. */
    ghost var accepted: seq<Id>

    /** The set and the queue hold the same ids, once each: the last ones
        accepted, up to the capacity. */
    ghost predicate Valid()
      reads this
    {
      && (forall id :: id in ids <==> id in order)
      && NoRepeats(order)
      && order == LastOnes(accepted, SEEN_OUTER_CAPACITY)
    }

    constructor ()
      ensures Valid() && accepted == []
    {
      ids, order, accepted := {}, [], [];
    }

    /** Rejects exactly the ids among the last accepted ones. */
    method Insert(id: Id) returns (added: bool)
      requires Valid()
      modifies this
      ensures Valid()
      ensures added <==> id !in LastOnes(old(accepted), 4_096)
      ensures accepted == if added then old(accepted) + [id] else old(accepted)
      ensures id in ids
      ensures |order| <= 4_096
    {
      if id in ids {
        return false;
      }
      ids, order := ids + {id}, order + [id];
      accepted := accepted + [id];
      assert forall x :: x in ids <==> x in order;
      if |order| > SEEN_OUTER_CAPACITY {
        var oldest := order[0];
        assert order == [oldest] + order[1..] && oldest !in order[1..];
        assert forall x :: x in order <==> x == oldest || x in order[1..];
        order, ids := order[1..], ids - {oldest};
      }
      added := true;
    }
  }

  // ----- the order of the checks -----

  /** An event from a relay. `inner` is what unwrapping it gives: an inner id,
      or nothing when the event is not valid. */
  datatype Inbound = Inbound(author: nat, outer: Id, outerAt: int, inner: Option<Id>)

  datatype Channel = Channel(session: string, party: Party, bucket: Bucket)

  datatype Outcome =
    | Received
    | UnknownAuthor
    | SessionEnded
    | DuplicateOuter
    | RateLimited
    | Invalid
    | DuplicateInner

  class Inbox {
    var channels: map<nat, Channel>
    const seen: SeenSet
    const sessions: SessionTable
    /** The inner ids stored, in order; the table allows each once. */
    var stored: seq<Id>

    ghost predicate Valid()
      reads this, seen, sessions
    {
      && seen.Valid() && sessions.Valid() && NoRepeats(stored)
      && (forall a :: a in channels ==> Level(channels[a].bucket))
    }

    constructor (sessions: SessionTable)
      requires sessions.Valid()
      ensures Valid() && channels == map[] && stored == [] && this.sessions == sessions && fresh(seen)
    {
      channels, stored, this.sessions := map[], [], sessions;
      seen := new SeenSet();
    }

    predicate Ended(session: string)
      reads this, sessions
    {
      session !in sessions.rows || sessions.rows[session].state.Terminal()
    }

    method RemoveSession(session: string)
      modifies this`channels
      ensures channels == map a | a in old(channels) && old(channels)[a].session != session :: old(channels)[a]
    {
      channels := map a | a in channels && channels[a].session != session :: channels[a];
    }

    /** Validates and stores one event, the cheapest checks first: each
        outcome says which checks passed before it, and what it changed. An
        event is remembered, and costs a token, before it is unwrapped. */
    method Handle(event: Inbound, localNow: int, now: real) returns (outcome: Outcome)
      requires Valid()
      modifies this`channels, this`stored, seen, sessions
      ensures Valid()
      ensures outcome.UnknownAuthor? <==> event.author !in old(channels)
      ensures outcome.SessionEnded? <==> event.author in old(channels) && old(Ended(channels[event.author].session))
      ensures outcome.DuplicateOuter? <==>
                && event.author in old(channels) && !old(Ended(channels[event.author].session))
                && event.outer in LastOnes(old(seen.accepted), 4_096)
      ensures outcome in {RateLimited, Invalid, DuplicateInner, Received} ==>
                && event.author in old(channels)
                && seen.accepted == old(seen.accepted) + [event.outer]
                && channels == old(channels)[event.author :=
                                 old(channels)[event.author].(bucket := Take(old(channels)[event.author].bucket, now).0)]
                && (outcome.RateLimited? <==> !Take(old(channels)[event.author].bucket, now).1)
                && (outcome.Invalid? ==> event.inner.None?)
                && (outcome in {DuplicateInner, Received} ==> event.inner.Some?)
                && (outcome.DuplicateInner? ==> event.inner.value in old(stored))
      ensures outcome in {UnknownAuthor, SessionEnded, DuplicateOuter} ==> seen.accepted == old(seen.accepted)
      ensures outcome in {UnknownAuthor, DuplicateOuter} ==> channels == old(channels)
      ensures outcome.SessionEnded? ==>
                forall a :: a in channels <==> a in old(channels)
                                               && old(channels)[a].session != old(channels)[event.author].session
      ensures !outcome.Received? ==> stored == old(stored) && sessions.rows == old(sessions.rows)
      ensures outcome.Received? ==>
                && event.inner.value !in old(stored) && stored == old(stored) + [event.inner.value]
                && var c := old(channels)[event.author];
                   c.session in old(sessions.rows)
                   && sessions.rows == old(sessions.rows)[c.session :=
                        AdvanceCursorRow(old(sessions.rows)[c.session], c.party, Min(event.outerAt, localNow), localNow)]
    {
      if event.author !in channels {
        return UnknownAuthor;
      }
      var channel := channels[event.author];
      if Ended(channel.session) {
        RemoveSession(channel.session);
        return SessionEnded;
      }
      var isNew := seen.Insert(event.outer);
      if !isNew {
        return DuplicateOuter;
      }
      var (bucket, ok) := Take(channel.bucket, now);
      channels := channels[event.author := channel.(bucket := bucket)];
      if !ok {
        return RateLimited;
      }
      if event.inner.None? {
        return Invalid;
      }
      if event.inner.value in stored {
        return DuplicateInner;
      }
      stored := stored + [event.inner.value];
      sessions.AdvanceCursor(channel.session, channel.party, Min(event.outerAt, localNow), localNow);
      outcome := Received;
    }
  }

  /** One event with the times it is handled at. */
  datatype Arrival = Arrival(event: Inbound, localNow: int, now: real)

  /** Any events one after the other; `others` are the ids they made the set
      accept. */
  method HandleAll(inbox: Inbox, arrivals: seq<Arrival>) returns (ghost others: seq<Id>)
    requires inbox.Valid()
    modifies inbox`channels, inbox`stored, inbox.seen, inbox.sessions
    ensures inbox.Valid() && inbox.seen.accepted == old(inbox.seen.accepted) + others
    ensures |others| <= |arrivals| && forall id :: id in others ==> exists a :: a in arrivals && a.event.outer == id
  {
    others := [];
    for i := 0 to |arrivals|
      invariant inbox.Valid() && inbox.seen.accepted == old(inbox.seen.accepted) + others
      invariant |others| <= i && forall id :: id in others ==> exists a :: a in arrivals && a.event.outer == id
    {
      var a := arrivals[i];
      ghost var before := inbox.seen.accepted;
      var outcome := inbox.Handle(a.event, a.localNow, a.now);
      if inbox.seen.accepted != before {
        others := others + [a.event.outer];
      }
    }
  }

  lemma StillRecent(ids: seq<Id>, id: Id, others: seq<Id>)
    requires id !in LastOnes(ids, SEEN_OUTER_CAPACITY) && id !in others
    ensures id in LastOnes(ids + [id] + others, SEEN_OUTER_CAPACITY) <==> |others| < SEEN_OUTER_CAPACITY
  {
    var all := ids + [id] + others;
    var recent := LastOnes(all, SEEN_OUTER_CAPACITY);
    assert all[|ids|] == id;
    if |others| < SEEN_OUTER_CAPACITY {
      assert recent[|recent| - |others| - 1] == id;
    } else {
      assert forall k :: 0 <= k < |recent| ==> recent[k] == others[|others| - SEEN_OUTER_CAPACITY + k];
    }
  }

  /** A valid message that comes too fast is remembered before it is limited.
      Whatever events come in between, a redelivery while its session lives is
      a duplicate, and so never stored, exactly when the id is still among the
      last 4096 accepted: when fewer than 4096 others were accepted since. */
  method LimitedMessageIsLost(inbox: Inbox, event: Inbound, localNow: int, now: real, between: seq<Arrival>,
                              later: int, laterNow: real)
    returns (first: Outcome, second: Outcome, ghost others: seq<Id>, ghost live: bool, ghost before: seq<Id>)
    requires inbox.Valid()
    modifies inbox`channels, inbox`stored, inbox.seen, inbox.sessions
    ensures |others| <= |between| && forall id :: id in others ==> exists a :: a in between && a.event.outer == id
    ensures first.RateLimited? ==>
              (second.DuplicateOuter? <==>
                 live && event.outer in LastOnes(old(inbox.seen.accepted) + [event.outer] + others, 4_096))
    ensures first.RateLimited? && event.outer !in others ==>
              (second.DuplicateOuter? <==> live && |others| < 4_096)
    ensures !live ==> second in {UnknownAuthor, SessionEnded}
    ensures second.DuplicateOuter? ==> inbox.stored == before
  {
    first := inbox.Handle(event, localNow, now);
    others := HandleAll(inbox, between);
    live := event.author in inbox.channels && !inbox.Ended(inbox.channels[event.author].session);
    before := inbox.stored;
    second := inbox.Handle(event, later, laterNow);
    if first.RateLimited? && event.outer !in others {
      StillRecent(old(inbox.seen.accepted), event.outer, others);
    }
  }
}

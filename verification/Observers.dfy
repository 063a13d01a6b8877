/** Observer notices (src/notifier/observers.rs): an outbox derived from the
    event log (src/store/events.rs), delivered with a doubling backoff. */
module Observers {
  import opened Domain

  datatype Notice = Notice(dispute: string, observer: nat, subject: string)

  /** The outbox's events, in the order they were appended. */
  datatype Recorded = Queued(notice: Notice, at: int) | Notified(notice: Notice, at: int) | Failed(notice: Notice, at: int)

  const RETRY_WINDOW_SECS: int := 24 * 3600
  const RETRY_BASE_SECS: nat := 60
  const RETRY_MAX_SECS: nat := 3600

  function Power(n: nat): nat {
    if n == 0 then 1 else 2 * Power(n - 1)
  }

  /** A minute after the first failure, doubling up to an hour. */
  function Wait(failures: nat): nat {
    var doublings := if failures == 0 then 0 else if failures - 1 < 6 then failures - 1 else 6;
    Min(RETRY_BASE_SECS * Power(doublings), RETRY_MAX_SECS)
  }

  predicate Due(failures: nat, lastFailure: Option<int>, now: int) {
    lastFailure.None? || now - lastFailure.value >= Wait(failures)
  }

  // ----- the queries on the log -----

  predicate ObserverQueued(events: seq<Recorded>, n: Notice) {
    exists e :: e in events && e.Queued? && e.notice == n
  }

  predicate NotifiedSince(events: seq<Recorded>, n: Notice, since: int) {
    exists e :: e in events && e.Notified? && e.notice == n && e.at >= since
  }

  function FailuresSince(events: seq<Recorded>, n: Notice, since: int): nat {
    if events == [] then 0
    else
      var e := events[|events| - 1];
      FailuresSince(events[..|events| - 1], n, since) + if e.Failed? && e.notice == n && e.at >= since then 1 else 0
  }

  function LastFailureSince(events: seq<Recorded>, n: Notice, since: int): Option<int> {
    if events == [] then None
    else
      var e := events[|events| - 1];
      var before := LastFailureSince(events[..|events| - 1], n, since);
      if !(e.Failed? && e.notice == n && e.at >= since) then before
      else Some(if before.Some? then Max(before.value, e.at) else e.at)
  }

  /** The notices queued since `since` and not delivered, oldest first. */
  function PendingNotices(events: seq<Recorded>, all: seq<Recorded>, since: int): seq<Notice> {
    if events == [] then []
    else
      var e := events[|events| - 1];
      var before := PendingNotices(events[..|events| - 1], all, since);
      if e.Queued? && e.at >= since && !NotifiedSince(all, e.notice, since) then before + [e.notice] else before
  }

  // ----- the life of one notice -----

  datatype Life =
    | Unknown
    | Waiting(queuedAt: int, failures: nat, lastFailure: Option<int>)
    | Done(queuedAt: int, failures: nat)

  /** What the log may say next about a notice: it is queued once; an attempt
      comes while it waits, within the window, when it is due. */
  predicate Allowed(life: Life, e: Recorded) {
    match e
    case Queued(_, _) => life.Unknown?
    case _ => life.Waiting? && e.at - life.queuedAt <= RETRY_WINDOW_SECS && Due(life.failures, life.lastFailure, e.at)
  }

  function Next(life: Life, e: Recorded): Life {
    match (life, e)
    case (Unknown, Queued(_, at)) => Waiting(at, 0, None)
    case (Waiting(queuedAt, failures, _), Failed(_, at)) => Waiting(queuedAt, failures + 1, Some(at))
    case (Waiting(queuedAt, failures, _), Notified(_, _)) => Done(queuedAt, failures)
    case _ => life
  }

  function LifeOf(events: seq<Recorded>, n: Notice): Life {
    if events == [] then Unknown
    else
      var e := events[|events| - 1];
      var before := LifeOf(events[..|events| - 1], n);
      if e.notice == n then Next(before, e) else before
  }

  /** Every event was allowed when it was appended, and time never went
      back. */
  ghost predicate Legal(events: seq<Recorded>) {
    events != [] ==>
      var e := events[|events| - 1];
      var before := events[..|events| - 1];
      && Legal(before)
      && (before != [] ==> before[|before| - 1].at <= e.at)
      && Allowed(LifeOf(before, e.notice), e)
  }

  lemma LegalTimes(events: seq<Recorded>)
    requires Legal(events)
    ensures forall e :: e in events ==> e.at <= events[|events| - 1].at
  {
    if events != [] {
      var n := |events| - 1;
      LegalTimes(events[..n]);
      assert events == events[..n] + [events[n]];
    }
  }

  /** The queries of a delivery agree with the notice's life, although they
      only read what is recent. */
  lemma {:induction false} ViewsAgree(events: seq<Recorded>, n: Notice, since: int)
    requires Legal(events)
    ensures var life := LifeOf(events, n);
            && (ObserverQueued(events, n) <==> !life.Unknown?)
            && (life.Unknown? ==> forall e :: e in events ==> e.notice != n)
            && (!life.Unknown? ==> (exists e :: e in events && e == Queued(n, life.queuedAt))
                                   && forall e :: e in events && e.Queued? && e.notice == n ==> e.at == life.queuedAt)
            && (!life.Unknown? && life.queuedAt >= since ==>
                  && (NotifiedSince(events, n, since) <==> life.Done?)
                  && FailuresSince(events, n, since) == life.failures
                  && (life.Waiting? ==> LastFailureSince(events, n, since) == life.lastFailure))
  {
    if events != [] {
      var k := |events| - 1;
      var e := events[k];
      ViewsAgree(events[..k], n, since);
      LegalTimes(events);
      LegalTimes(events[..k]);
      assert events == events[..k] + [e];
      LastFailureIsOld(events[..k], n, since);
      if LifeOf(events[..k], n).Unknown? {
        NothingFailed(events[..k], n, since);
      } else {
        assert LifeOf(events[..k], n).queuedAt <= e.at;
      }
    }
  }

  lemma NothingFailed(events: seq<Recorded>, n: Notice, since: int)
    requires forall e :: e in events ==> e.notice != n
    ensures FailuresSince(events, n, since) == 0 && LastFailureSince(events, n, since).None?
  {
    if events != [] {
      assert events[|events| - 1] in events;
      NothingFailed(events[..|events| - 1], n, since);
    }
  }

  lemma LastFailureIsOld(events: seq<Recorded>, n: Notice, since: int)
    requires Legal(events)
    ensures LastFailureSince(events, n, since).Some? ==>
              events != [] && LastFailureSince(events, n, since).value <= events[|events| - 1].at
  {
    if events != [] {
      LastFailureIsOld(events[..|events| - 1], n, since);
    }
  }

  // ----- the bound on attempts -----

  /** The least time from the first attempt to the `n`-th. */
  function Waits(n: nat): nat {
    if n <= 1 then 0 else Waits(n - 1) + Wait(n - 1)
  }

  function Attempts(events: seq<Recorded>, n: Notice): nat {
    if events == [] then 0
    else
      var e := events[|events| - 1];
      Attempts(events[..|events| - 1], n) + if !e.Queued? && e.notice == n then 1 else 0
  }

  function AttemptsOf(life: Life): nat {
    match life
    case Unknown => 0
    case Waiting(_, failures, _) => failures
    case Done(_, failures) => failures + 1
  }

  /** A notice that failed `n` times did so over the waits between. */
  lemma {:induction false} AttemptsTakeTime(events: seq<Recorded>, n: Notice)
    requires Legal(events)
    ensures var life := LifeOf(events, n);
            && Attempts(events, n) == AttemptsOf(life)
            && (AttemptsOf(life) > 0 ==> Waits(AttemptsOf(life)) <= RETRY_WINDOW_SECS)
            && (life.Waiting? ==> (life.failures > 0 <==> life.lastFailure.Some?))
            && (life.Waiting? && life.failures > 0 ==>
                  life.lastFailure.value >= life.queuedAt + Waits(life.failures))
  {
    if events != [] {
      var k := |events| - 1;
      AttemptsTakeTime(events[..k], n);
      if events[k].notice == n && !events[k].Queued? {
        QueuedFirst(events, n);
      }
    }
  }

  /** An attempt never comes before the notice was queued. */
  lemma QueuedFirst(events: seq<Recorded>, n: Notice)
    requires Legal(events) && events != [] && events[|events| - 1].notice == n && !events[|events| - 1].Queued?
    ensures var life := LifeOf(events[..|events| - 1], n);
            life.Waiting? && life.queuedAt <= events[|events| - 1].at
  {
    var before := events[..|events| - 1];
    ViewsAgree(before, n, 0);
    LegalTimes(before);
  }

  lemma WaitIsAnHour(n: nat)
    requires n >= 7
    ensures Wait(n) == 3600
  {
    assert Power(6) == 64 by {
      assert Power(3) == 8;
    }
  }

  lemma WaitsAreLong(n: nat)
    requires n >= 7
    ensures Waits(n) == 3780 + 3600 * (n - 7)
  {
    if n == 7 {
      assert Power(3) == 8 && Power(5) == 32;
      assert Wait(1) == 60 && Wait(2) == 120 && Wait(3) == 240 && Wait(4) == 480 && Wait(5) == 960 && Wait(6) == 1920;
      assert Waits(3) == 180;
      assert Waits(5) == 900;
    } else {
      WaitIsAnHour(n - 1);
      WaitsAreLong(n - 1);
    }
  }

  lemma WaitsGrow(m: nat, n: nat)
    requires m <= n
    ensures Waits(m) <= Waits(n)
  {
    if m < n {
      WaitsGrow(m, n - 1);
    }
  }

  /** At most 29 attempts of a notice are recorded, all in its day. */
  lemma AtMostTwentyNineAttempts(events: seq<Recorded>, n: Notice)
    requires Legal(events)
    ensures Attempts(events, n) <= 29
  {
    AttemptsTakeTime(events, n);
    WaitsAreLong(30);
    if Attempts(events, n) > 29 {
      WaitsGrow(30, Attempts(events, n));
    }
  }

  /** A notice queued at the start of time that fails each time it is tried,
      as soon as it is due. */
  function Tries(n: Notice, attempts: nat): seq<Recorded> {
    if attempts == 0 then [Queued(n, 0)] else Tries(n, attempts - 1) + [Failed(n, Waits(attempts))]
  }

  lemma NoWaits()
    ensures Waits(0) == 0 && Waits(1) == 0
  {
  }

  lemma WaitsInTheDay(attempts: nat)
    requires 1 <= attempts <= 29
    ensures Waits(attempts - 1) <= Waits(attempts) <= RETRY_WINDOW_SECS
    ensures attempts > 1 ==> Waits(attempts) == Waits(attempts - 1) + Wait(attempts - 1)
  {
    WaitsGrow(attempts, 29);
    WaitsAreLong(29);
  }

  lemma {:induction false} TriesAreLegal(n: Notice, attempts: nat)
    requires attempts <= 29
    ensures var events := Tries(n, attempts);
            && Legal(events) && events != [] && events[|events| - 1].at == Waits(attempts)
            && Attempts(events, n) == attempts
            && LifeOf(events, n) == Waiting(0, attempts, if attempts == 0 then None else Some(Waits(attempts)))
  {
    hide Waits, Wait;
    var events := Tries(n, attempts);
    var before := events[..|events| - 1];
    NoWaits();
    if attempts == 0 {
      assert before == [];
    } else {
      TriesAreLegal(n, attempts - 1);
      assert before == Tries(n, attempts - 1);
      WaitsInTheDay(attempts);
    }
  }

  /** The bound is exact: a log the outbox can write has 29 attempts, and the
      notice still waits. */
  lemma TwentyNineAttemptsFit(n: Notice) returns (events: seq<Recorded>)
    ensures Legal(events) && Attempts(events, n) == 29 && LifeOf(events, n).Waiting?
  {
    events := Tries(n, 29);
    TriesAreLegal(n, 29);
  }

  function CountOf(events: seq<Recorded>, n: Notice, notified: bool): nat {
    if events == [] then 0
    else
      var e := events[|events| - 1];
      CountOf(events[..|events| - 1], n, notified)
      + if e.notice == n && (if notified then e.Notified? else e.Queued?) then 1 else 0
  }

  /** A notice is queued once and recorded as delivered at most once. */
  lemma {:induction false} OnceEach(events: seq<Recorded>, n: Notice)
    requires Legal(events)
    ensures CountOf(events, n, false) == if LifeOf(events, n).Unknown? then 0 else 1
    ensures CountOf(events, n, true) == if LifeOf(events, n).Done? then 1 else 0
  {
    if events != [] {
      OnceEach(events[..|events| - 1], n);
    }
  }

  // ----- the outbox -----

  predicate IsOneToken(id: string) {
    id != "" && forall i :: 0 <= i < |id| ==>
                              'a' <= id[i] <= 'z' || 'A' <= id[i] <= 'Z' || '0' <= id[i] <= '9' || id[i] == '-'
  }

  lemma OneTokenIff(id: string)
    ensures IsOneToken(id) <==> id != "" && forall c :: c in id ==> IsAlphanumeric(c) || c == '-'
  {
    if IsOneToken(id) {
      forall c | c in id
        ensures IsAlphanumeric(c) || c == '-'
      {
        var i :| 0 <= i < |id| && id[i] == c;
      }
    } else if id != "" {
      var i :| 0 <= i < |id| && !IsAlphanumeric(id[i]) && id[i] != '-';
      assert id[i] in id;
    }
  }

  ghost predicate Distinct(notices: seq<Notice>) {
    forall i, j :: 0 <= i < j < |notices| ==> notices[i] != notices[j]
  }

  /** The pending notices are those still waiting whose window is open, once
      each. */
  lemma PendingAre(events: seq<Recorded>, all: seq<Recorded>, since: int)
    requires Legal(events) && Legal(all) && events <= all
    ensures Distinct(PendingNotices(events, all, since))
    ensures forall n :: n in PendingNotices(events, all, since) ==>
              && !LifeOf(events, n).Unknown?
              && LifeOf(all, n).Waiting? && LifeOf(all, n).queuedAt >= since
    ensures forall n :: !LifeOf(events, n).Unknown? && LifeOf(all, n).Waiting? && LifeOf(all, n).queuedAt >= since ==>
              n in PendingNotices(events, all, since)
  {
    if events != [] {
      var k := |events| - 1;
      var e := events[k];
      PendingAre(events[..k], all, since);
      if e.Queued? {
        assert e == all[k];
        assert e in all;
        ViewsAgree(all, e.notice, since);
      }
      forall n | n in PendingNotices(events[..k], all, since)
        ensures !LifeOf(events, n).Unknown? && (e.Queued? ==> n != e.notice)
      {
      }
    }
  }

  lemma LegalMore(events: seq<Recorded>, e: Recorded)
    requires Legal(events) && (events != [] ==> events[|events| - 1].at <= e.at)
    requires Allowed(LifeOf(events, e.notice), e)
    ensures Legal(events + [e])
    ensures forall n :: LifeOf(events + [e], n) == if n == e.notice then Next(LifeOf(events, n), e) else LifeOf(events, n)
  {
    assert (events + [e])[..|events|] == events;
  }

  /** The notice is to be tried now. */
  predicate TryNow(life: Life, n: Notice, observers: set<nat>, now: int) {
    && life.Waiting? && life.queuedAt >= now - RETRY_WINDOW_SECS
    && n.observer in observers && Due(life.failures, life.lastFailure, now)
  }

  /** What was appended is the subject, queued for some of the observers. */
  ghost predicate OnlyQueued(before: seq<Recorded>, after: seq<Recorded>, observers: seq<nat>, dispute: string,
                             subject: string, now: int) {
    && before <= after
    && forall i :: |before| <= i < |after| ==>
         && after[i] == Queued(Notice(dispute, after[i].notice.observer, subject), now)
         && after[i].notice.observer in observers
  }

  /** What was appended is the outcome of trying a due notice. */
  ghost predicate OnlyTried(before: seq<Recorded>, after: seq<Recorded>, observers: set<nat>, reached: set<Notice>, now: int) {
    && before <= after
    && forall i :: |before| <= i < |after| ==>
         && after[i] == (if after[i].notice in reached then Notified(after[i].notice, now) else Failed(after[i].notice, now))
         && TryNow(LifeOf(before, after[i].notice), after[i].notice, observers, now)
  }

  lemma QueuedStays(events: seq<Recorded>, e: Recorded)
    ensures forall n :: ObserverQueued(events, n) ==> ObserverQueued(events + [e], n)
    ensures e.Queued? ==> ObserverQueued(events + [e], e.notice)
  {
    assert e in events + [e];
    forall n | ObserverQueued(events, n)
      ensures ObserverQueued(events + [e], n)
    {
      var x :| x in events && x.Queued? && x.notice == n;
      assert x in events + [e];
    }
  }

  /** How many notices were recorded as delivered. */
  function DeliveredIn(events: seq<Recorded>): nat {
    if events == [] then 0
    else DeliveredIn(events[..|events| - 1]) + if events[|events| - 1].Notified? then 1 else 0
  }

  lemma OneMoreDelivered(events: seq<Recorded>, e: Recorded)
    ensures DeliveredIn(events + [e]) == DeliveredIn(events) + if e.Notified? then 1 else 0
  {
    assert (events + [e])[..|events|] == events;
  }

  class Outbox {
    var events: seq<Recorded>
    /** The latest time anything was recorded at. */
    ghost var clock: int

    ghost predicate Valid()
      reads this
    {
      Legal(events) && (events != [] ==> events[|events| - 1].at <= clock)
    }

    constructor (now: int)
      ensures Valid() && events == [] && clock == now
    {
      events, clock := [], now;
    }

    method QueueOne(n: Notice, now: int) returns (added: bool)
      requires Valid() && clock == now
      modifies this`events
      ensures Valid()
      ensures added <==> !ObserverQueued(old(events), n)
      ensures events == if added then old(events) + [Queued(n, now)] else old(events)
    {
      added := !ObserverQueued(events, n);
      if added {
        ViewsAgree(events, n, now);
        LegalMore(events, Queued(n, now));
        events := events + [Queued(n, now)];
      }
    }

    /** Queues the subject for every observer that does not have it yet. */
    method Queue(observers: seq<nat>, dispute: string, subject: string, now: int) returns (queued: bool)
      requires Valid() && clock <= now
      modifies this
      ensures Valid() && clock == now
      ensures OnlyQueued(old(events), events, observers, dispute, subject, now)
      ensures queued <==> |events| > |old(events)|
      ensures if dispute != "" && forall c :: c in dispute ==> IsAlphanumeric(c) || c == '-'
              then forall o :: o in observers ==> ObserverQueued(events, Notice(dispute, o, subject))
              else !queued
    {
      hide Legal, ObserverQueued, IsOneToken;
      OneTokenIff(dispute);
      clock := now;
      if observers == [] || !IsOneToken(dispute) {
        return false;
      }
      queued := false;
      for k := 0 to |observers|
        invariant Valid() && clock == now
        invariant OnlyQueued(old(events), events, observers, dispute, subject, now)
        invariant queued <==> |events| > |old(events)|
        invariant forall j :: 0 <= j < k ==> ObserverQueued(events, Notice(dispute, observers[j], subject))
      {
        var n := Notice(dispute, observers[k], subject);
        ghost var before := events;
        var added := QueueOne(n, now);
        queued := queued || added;
        QueuedStays(before, Queued(n, now));
      }
    }

    /** Records the outcome of one attempt. */
    method Try(n: Notice, ok: bool, now: int)
      requires Valid() && clock == now
      requires var life := LifeOf(events, n);
               life.Waiting? && now - life.queuedAt <= RETRY_WINDOW_SECS && Due(life.failures, life.lastFailure, now)
      modifies this`events
      ensures Valid()
      ensures events == old(events) + [if ok then Notified(n, now) else Failed(n, now)]
      ensures LifeOf(events, n) != LifeOf(old(events), n)
      ensures forall m :: m != n ==> LifeOf(events, m) == LifeOf(old(events), m)
    {
      var e := if ok then Notified(n, now) else Failed(n, now);
      LegalMore(events, e);
      events := events + [e];
    }

    /** Tries every due notice once, records the outcome, and returns how
        many were delivered. `reached` says which notices get through. */
    method DeliverDue(observers: set<nat>, reached: set<Notice>, now: int) returns (delivered: nat)
      requires Valid() && clock <= now
      modifies this
      ensures Valid() && clock == now
      ensures OnlyTried(old(events), events, observers, reached, now)
      ensures forall n :: TryNow(LifeOf(old(events), n), n, observers, now) ==> LifeOf(events, n) != LifeOf(old(events), n)
      ensures DeliveredIn(events) == DeliveredIn(old(events)) + delivered
    {
      hide Legal, LifeOf, Due, DeliveredIn;
      var since := now - RETRY_WINDOW_SECS;
      var snapshot := events;
      var notices := PendingNotices(snapshot, snapshot, since);
      PendingAre(snapshot, snapshot, since);
      delivered, clock := 0, now;
      for k := 0 to |notices|
        invariant Valid() && clock == now
        invariant OnlyTried(snapshot, events, observers, reached, now)
        invariant DeliveredIn(events) == DeliveredIn(snapshot) + delivered
        invariant forall j :: k <= j < |notices| ==> LifeOf(events, notices[j]) == LifeOf(snapshot, notices[j])
        invariant forall j :: 0 <= j < k && TryNow(LifeOf(snapshot, notices[j]), notices[j], observers, now) ==>
                    LifeOf(events, notices[j]) != LifeOf(snapshot, notices[j])
      {
        var n := notices[k];
        assert n in notices;
        ViewsAgree(snapshot, n, since);
        if n.observer in observers
           && Due(FailuresSince(snapshot, n, since), LastFailureSince(snapshot, n, since), now) {
          OneMoreDelivered(events, if n in reached then Notified(n, now) else Failed(n, now));
          Try(n, n in reached, now);
          delivered := delivered + if n in reached then 1 else 0;
        }
      }
    }
  }
}

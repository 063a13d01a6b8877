/** Dispute revisions: keeping the newest of a backlog (src/daemon/sync.rs),
    and applying them to the dispute, whatever order relays deliver them in
    (src/notifier/mod.rs, src/store/disputes.rs). */
module Revisions {
  import opened Domain
  import opened Sessions

  // ----- the newest revision of each dispute -----

  /** A dispute event. Ids identify events. */
  datatype Revision = Revision(id: nat, createdAt: int, dispute: Option<string>)

  ghost predicate Identified(events: seq<Revision>) {
    forall a, b :: a in events && b in events && a.id == b.id ==> a == b
  }

  /** NIP-01, section "Kinds": the later `created_at`, then the lowest id. */
  predicate Replaces(a: Revision, b: Revision) {
    a.createdAt > b.createdAt || (a.createdAt == b.createdAt && a.id < b.id)
  }

  predicate SameDispute(a: Revision, b: Revision) {
    a.dispute.Some? && a.dispute == b.dispute
  }

  /** No event of its dispute is later, nor of its time with a lower id. */
  ghost predicate IsNewest(events: seq<Revision>, e: Revision) {
    && e in events && e.dispute.Some?
    && forall x :: x in events && SameDispute(e, x) ==>
         x.createdAt < e.createdAt || (x.createdAt == e.createdAt && e.id <= x.id)
  }

  predicate Earlier(a: Revision, b: Revision) {
    a.createdAt < b.createdAt || (a.createdAt == b.createdAt && a.id < b.id)
  }

  ghost predicate OldestFirst(events: seq<Revision>) {
    forall i, j :: 0 <= i < j < |events| ==> Earlier(events[i], events[j])
  }

  /** `r` holds the newest revision of every dispute, oldest first. */
  ghost predicate Newest(events: seq<Revision>, r: seq<Revision>) {
    OldestFirst(r) && forall e :: e in r <==> IsNewest(events, e)
  }

  function InsertRevision(e: Revision, r: seq<Revision>): (s: seq<Revision>)
    requires OldestFirst(r) && forall x :: x in r ==> x.id != e.id
    ensures OldestFirst(s)
    ensures forall x :: x in s <==> x == e || x in r
  {
    if r == [] then [e]
    else if Earlier(e, r[0]) then [e] + r
    else
      var rest := InsertRevision(e, r[1..]);
      assert forall i :: 0 <= i < |rest| ==> rest[i] in rest;
      assert forall x :: x in r <==> x == r[0] || x in r[1..];
      [r[0]] + rest
  }

  ghost predicate Kept(events: seq<Revision>, newest: map<string, Revision>) {
    && (forall d :: d in newest ==> IsNewest(events, newest[d]) && newest[d].dispute == Some(d))
    && (forall e :: e in events && e.dispute.Some? ==> e.dispute.value in newest)
  }

  lemma KeepsNewest(events: seq<Revision>, e: Revision, newest: map<string, Revision>)
    requires Kept(events, newest) && Identified(events + [e]) && e.dispute.Some?
    ensures var d := e.dispute.value;
            Kept(events + [e], if d !in newest || Replaces(e, newest[d]) then newest[d := e] else newest)
  {
    assert forall x :: x in events + [e] <==> x in events || x == e;
  }

  /** The loop over a map, then the sort. */
  method NewestRevisions(events: seq<Revision>) returns (r: seq<Revision>)
    requires Identified(events)
    ensures Newest(events, r)
  {
    var newest: map<string, Revision> := map[];
    for i := 0 to |events|
      invariant Kept(events[..i], newest)
    {
      var e := events[i];
      assert events[..i + 1] == events[..i] + [e];
      if e.dispute.Some? {
        assert Identified(events[..i] + [e]);
        KeepsNewest(events[..i], e, newest);
        if e.dispute.value !in newest || Replaces(e, newest[e.dispute.value]) {
          newest := newest[e.dispute.value := e];
        }
      } else {
        assert forall x :: x in events[..i + 1] <==> x in events[..i] || x == e;
      }
    }
    assert events[..|events|] == events;
    r := [];
    var left := newest.Keys;
    while left != {}
      invariant left <= newest.Keys
      invariant OldestFirst(r)
      invariant forall e :: e in r <==> exists d :: d in newest && d !in left && newest[d] == e
      decreases |left|
    {
      var d :| d in left;
      left := left - {d};
      r := InsertRevision(newest[d], r);
    }
    NewestAreKept(events, newest, r);
  }

  lemma NewestAreKept(events: seq<Revision>, newest: map<string, Revision>, r: seq<Revision>)
    requires Identified(events) && Kept(events, newest)
    requires forall e :: e in r <==> exists d :: d in newest && newest[d] == e
    ensures forall e :: e in r <==> IsNewest(events, e)
  {
    forall e | IsNewest(events, e)
      ensures e in r
    {
      var kept := newest[e.dispute.value];
      assert SameDispute(e, kept) && SameDispute(kept, e);
      assert kept == e;
    }
  }

  lemma SameSorted(a: seq<Revision>, b: seq<Revision>)
    requires OldestFirst(a) && OldestFirst(b) && forall e :: e in a <==> e in b
    ensures a == b
  {
    assert a != [] ==> a[0] in a;
    assert b != [] ==> b[0] in b;
    if a != [] && b != [] {
      assert a[0] in b && b[0] in a;
      assert a[0] == b[0];
      forall e | e in a[1..]
        ensures e in b[1..]
      {
        assert e in b;
      }
      forall e | e in b[1..]
        ensures e in a[1..]
      {
        assert e in a;
      }
      SameSorted(a[1..], b[1..]);
      assert a == [a[0]] + a[1..] && b == [b[0]] + b[1..];
    }
  }

  /** Which relay answered first, or repeated an event, decides nothing: the
      newest revisions depend only on the events seen. */
  lemma NewestIsOrderIndependent(a: seq<Revision>, b: seq<Revision>, r: seq<Revision>, q: seq<Revision>)
    requires forall e :: e in a <==> e in b
    requires Newest(a, r) && Newest(b, q)
    ensures r == q
  {
    assert forall e :: IsNewest(a, e) <==> IsNewest(b, e);
    SameSorted(r, q);
  }

  /** Exactly one newest revision of each dispute is returned. */
  lemma OneNewestEach(events: seq<Revision>, r: seq<Revision>, i: nat, j: nat)
    requires Identified(events) && Newest(events, r) && i < |r| && j < |r| && SameDispute(r[i], r[j])
    ensures i == j
  {
    assert IsNewest(events, r[i]) && IsNewest(events, r[j]);
    assert r[i].id == r[j].id;
  }

  // ----- one dispute -----

  datatype Status = Initiated | InProgress | SellerRefunded | Settled | Released | CooperativelyCanceled

  /** A solver or the parties closed the dispute. */
  predicate IsFinal(status: Status) {
    !status.Initiated? && !status.InProgress?
  }

  datatype Lifecycle = New | Notified | Taken | Resolved
  {
    function Rank(): nat {
      match this
      case New => 0
      case Notified => 1
      case Taken => 2
      case Resolved => 3
    }

    predicate AwaitsSolver() {
      New? || Notified?
    }
  }

  datatype Dispute = Dispute(status: Status, statusAt: int, lifecycle: Lifecycle, firstSeenAt: int,
                             lastNotifiedAt: Option<int>, updatedAt: int)

  datatype Change =
    | FirstNew
    | FirstSeen(status: Status)
    | TakenNow
    | TakenAgain
    | ResolvedNow(status: Status)
    | Updated(before: Status, after: Status)
    | Unchanged

  /** Something that happens to a dispute: a revision arrives, or solvers were
      told of the dispute. */
  datatype Happening = Arrives(status: Status, at: int, now: int) | Told(now: int)

  function FirstLifecycle(status: Status): Lifecycle {
    if status.Initiated? then New else if IsFinal(status) then Resolved else Taken
  }

  function NextLifecycle(lifecycle: Lifecycle, status: Status): Lifecycle {
    if IsFinal(status) then Resolved
    else if status.InProgress? && lifecycle.AwaitsSolver() then Taken
    else lifecycle
  }

  /** `record`: the first revision inserts the row, later ones apply only
      when they are newer than the stored one. */
  function Recorded(row: Option<Dispute>, status: Status, at: int, now: int): Option<Dispute> {
    match row
    case None => Some(Dispute(status, at, FirstLifecycle(status), now, None, now))
    case Some(d) =>
      if at <= d.statusAt then row
      else Some(d.(status := status, statusAt := at, lifecycle := NextLifecycle(d.lifecycle, status), updatedAt := now))
  }

  /** `mark_notified`: only a dispute still waiting for a solver. */
  function Marked(row: Option<Dispute>, now: int): Option<Dispute> {
    if row.None? || !row.value.lifecycle.AwaitsSolver() then row
    else Some(row.value.(lifecycle := Notified, lastNotifiedAt := Some(now), updatedAt := now))
  }

  function After(row: Option<Dispute>, h: Happening): Option<Dispute> {
    match h
    case Arrives(status, at, now) => Recorded(row, status, at, now)
    case Told(now) => Marked(row, now)
  }

  /** The row after everything that happened, in order. */
  function Run(happened: seq<Happening>): Option<Dispute> {
    if happened == [] then None
    else After(Run(happened[..|happened| - 1]), happened[|happened| - 1])
  }

  /** The revision the row converges to: the largest time, and of those with
      it the first that was delivered. */
  function Winner(happened: seq<Happening>): (w: Option<Happening>)
    ensures w.Some? ==> w.value in happened && w.value.Arrives?
    ensures forall h :: h in happened && h.Arrives? ==> w.Some? && h.at <= w.value.at
  {
    if happened == [] then None
    else
      var n := |happened| - 1;
      var w := Winner(happened[..n]);
      assert happened == happened[..n] + [happened[n]];
      if happened[n].Arrives? && (w.None? || w.value.at < happened[n].at) then Some(happened[n]) else w
  }

  /** Whatever the order of delivery, with replays and reminders in between,
      the row carries the largest revision time and the status first delivered
      with it. */
  lemma {:induction false} StatusConverges(happened: seq<Happening>)
    ensures Run(happened).Some? <==> Winner(happened).Some?
    ensures Run(happened).Some? ==>
              && Run(happened).value.statusAt == Winner(happened).value.at
              && Run(happened).value.status == Winner(happened).value.status
  {
    if happened != [] {
      StatusConverges(happened[..|happened| - 1]);
    }
  }

  /** Revisions of one time agree on the status. */
  ghost predicate NoTies(happened: seq<Happening>) {
    forall a, b :: a in happened && b in happened && a.Arrives? && b.Arrives? && a.at == b.at ==> a.status == b.status
  }

  predicate Delivered(happened: seq<Happening>, status: Status, at: int) {
    exists h :: h in happened && h.Arrives? && h.status == status && h.at == at
  }

  ghost predicate SameRevisions(a: seq<Happening>, b: seq<Happening>) {
    forall status, at :: Delivered(a, status, at) <==> Delivered(b, status, at)
  }

  lemma WinnerIsDelivered(a: seq<Happening>, b: seq<Happening>)
    requires SameRevisions(a, b) && Winner(a).Some?
    ensures Delivered(b, Winner(a).value.status, Winner(a).value.at)
    ensures Winner(b).Some? && Winner(a).value.at <= Winner(b).value.at
  {
    assert Delivered(a, Winner(a).value.status, Winner(a).value.at);
  }

  /** Two deliveries of the same revisions, in any order and any number, end
      with the same status. */
  lemma DeliveriesAgree(a: seq<Happening>, b: seq<Happening>)
    requires SameRevisions(a, b) && NoTies(b)
    ensures Run(a).Some? <==> Run(b).Some?
    ensures Run(a).Some? ==> Run(a).value.status == Run(b).value.status && Run(a).value.statusAt == Run(b).value.statusAt
  {
    hide Run, Winner, Delivered;
    StatusConverges(a);
    StatusConverges(b);
    if Winner(a).Some? {
      WinnerIsDelivered(a, b);
    }
    if Winner(b).Some? {
      WinnerIsDelivered(b, a);
    }
    if Winner(a).Some? {
      TiedStatus(b, Winner(a).value.status, Winner(a).value.at, Winner(b).value);
    }
  }

  lemma TiedStatus(happened: seq<Happening>, status: Status, at: int, w: Happening)
    requires NoTies(happened) && Delivered(happened, status, at) && w in happened && w.Arrives? && w.at == at
    ensures w.status == status
  {
  }

  lemma {:induction false} WinnerIsFirst(happened: seq<Happening>, i: nat)
    requires i < |happened| && happened[i].Arrives?
    requires forall j :: 0 <= j < |happened| && happened[j].Arrives? ==> happened[j].at <= happened[i].at
    requires forall j :: 0 <= j < i && happened[j].Arrives? ==> happened[j].at < happened[i].at
    ensures Winner(happened) == Some(happened[i])
  {
    var n := |happened| - 1;
    assert happened == happened[..n] + [happened[n]];
    if i < n {
      WinnerIsFirst(happened[..n], i);
    } else if Winner(happened[..n]).Some? {
      var w := Winner(happened[..n]).value;
      var j :| 0 <= j < n && happened[..n][j] == w;
      assert happened[j] == w;
    }
  }

  /** Of several revisions of the largest time, the one delivered first stays,
      whatever else is delivered, replayed or told in between: the tie-break
      of `NewestRevisions` does not apply here. */
  lemma TiesKeepTheFirst(happened: seq<Happening>, i: nat)
    requires i < |happened| && happened[i].Arrives?
    requires forall j :: 0 <= j < |happened| && happened[j].Arrives? ==> happened[j].at <= happened[i].at
    requires forall j :: 0 <= j < i && happened[j].Arrives? ==> happened[j].at < happened[i].at
    ensures Run(happened).Some?
    ensures Run(happened).value.status == happened[i].status && Run(happened).value.statusAt == happened[i].at
  {
    StatusConverges(happened);
    WinnerIsFirst(happened, i);
  }

  /** A replayed or older revision changes nothing at all. */
  lemma ReplaysChangeNothing(happened: seq<Happening>, h: Happening)
    requires h.Arrives? && exists g :: g in happened && g.Arrives? && g.at >= h.at
    ensures Run(happened + [h]) == Run(happened)
  {
    assert (happened + [h])[..|happened|] == happened;
    StatusConverges(happened);
  }

  lemma RunAppend(happened: seq<Happening>, h: Happening)
    ensures Run(happened + [h]) == After(Run(happened), h)
  {
    assert (happened + [h])[..|happened|] == happened;
  }

  /** The lifecycle never goes back, a resolved dispute stays resolved, and
      the notification time only moves while a solver is awaited. */
  lemma {:induction false} LifecycleNeverRegresses(happened: seq<Happening>, more: seq<Happening>)
    requires Run(happened).Some?
    ensures Run(happened + more).Some?
    ensures var before, after := Run(happened).value, Run(happened + more).value;
            && before.lifecycle.Rank() <= after.lifecycle.Rank()
            && before.statusAt <= after.statusAt
            && before.firstSeenAt == after.firstSeenAt
            && (!before.lifecycle.AwaitsSolver() ==> after.lastNotifiedAt == before.lastNotifiedAt)
  {
    if more == [] {
      assert happened + more == happened;
    } else {
      var n := |more| - 1;
      LifecycleNeverRegresses(happened, more[..n]);
      RunAppend(happened + more[..n], more[n]);
      assert happened + more[..n] + [more[n]] == happened + more;
    }
  }

  /** The dispute is resolved exactly when some final revision was newer than
      all delivered before it. */
  ghost predicate FinalApplied(happened: seq<Happening>) {
    exists i :: 0 <= i < |happened| && happened[i].Arrives? && IsFinal(happened[i].status)
                && forall j :: 0 <= j < i && happened[j].Arrives? ==> happened[j].at < happened[i].at
  }

  lemma FinalAppliedAppend(happened: seq<Happening>, h: Happening)
    ensures FinalApplied(happened + [h]) <==>
            || FinalApplied(happened)
            || (h.Arrives? && IsFinal(h.status) && forall g :: g in happened && g.Arrives? ==> g.at < h.at)
  {
    var all := happened + [h];
    assert all[|happened|] == h && forall i :: 0 <= i < |happened| ==> all[i] == happened[i];
    if FinalApplied(all) {
      var i :| 0 <= i < |all| && all[i].Arrives? && IsFinal(all[i].status)
               && forall j :: 0 <= j < i && all[j].Arrives? ==> all[j].at < all[i].at;
      if i < |happened| {
        assert happened[i].Arrives?;
      } else {
        forall g | g in happened && g.Arrives?
          ensures g.at < h.at
        {
          var j :| 0 <= j < |happened| && happened[j] == g;
          assert all[j] == g;
        }
      }
    }
    if FinalApplied(happened) {
      var i :| 0 <= i < |happened| && happened[i].Arrives? && IsFinal(happened[i].status)
               && forall j :: 0 <= j < i && happened[j].Arrives? ==> happened[j].at < happened[i].at;
      assert all[i].Arrives?;
    }
  }

  lemma {:induction false} ResolvedIff(happened: seq<Happening>)
    ensures Run(happened).Some? && Run(happened).value.lifecycle.Resolved? <==> FinalApplied(happened)
  {
    if happened != [] {
      var n := |happened| - 1;
      ResolvedIff(happened[..n]);
      StatusConverges(happened[..n]);
      FinalAppliedAppend(happened[..n], happened[n]);
      assert happened[..n] + [happened[n]] == happened;
      forall g | g in happened[..n] && g.Arrives?
        ensures g.at <= Winner(happened[..n]).value.at
      {
      }
    }
  }

  // ----- when the order of delivery matters -----

  type StatusAt = (Status, int)

  /** Exactly these revisions arrive, in some order, with replays and
      reminders in between. */
  ghost predicate Delivers(happened: seq<Happening>, revisions: set<StatusAt>) {
    forall status, at :: Delivered(happened, status, at) <==> (status, at) in revisions
  }

  ghost predicate NoneNewer(revisions: set<StatusAt>, w: StatusAt) {
    w in revisions && forall r :: r in revisions ==> r.1 <= w.1
  }

  ghost predicate Untied(revisions: set<StatusAt>) {
    forall a, b :: a in revisions && b in revisions && a.1 == b.1 ==> a == b
  }

  /** How far a revision takes a dispute that is applied to it. */
  function Level(status: Status): nat {
    if status.Initiated? then 0 else if status.InProgress? then 1 else 2
  }

  /** The lifecycle, but for whether solvers were told already. */
  function Stage(lifecycle: Lifecycle): nat {
    if lifecycle.AwaitsSolver() then 0 else if lifecycle.Taken? then 1 else 2
  }

  /** A revision newer than all before it takes the dispute to its level, at
      least; and nothing else moves the dispute. */
  lemma {:induction false} StageIsReached(happened: seq<Happening>, i: nat)
    requires i < |happened| && happened[i].Arrives?
    requires forall j :: 0 <= j < i && happened[j].Arrives? ==> happened[j].at < happened[i].at
    ensures Run(happened).Some? && Stage(Run(happened).value.lifecycle) >= Level(happened[i].status)
  {
    var n := |happened| - 1;
    if i < n {
      StageIsReached(happened[..n], i);
    } else {
      StatusConverges(happened[..n]);
      if Winner(happened[..n]).Some? {
        var w := Winner(happened[..n]).value;
        var j :| 0 <= j < n && happened[..n][j] == w;
        assert happened[j] == w;
      }
    }
  }

  lemma {:induction false} StageIsBounded(happened: seq<Happening>, level: nat)
    requires forall h :: h in happened && h.Arrives? ==> Level(h.status) <= level
    ensures Run(happened).Some? ==> Stage(Run(happened).value.lifecycle) <= level
  {
    if happened != [] {
      var n := |happened| - 1;
      assert happened[n] in happened && forall h :: h in happened[..n] ==> h in happened;
      StageIsBounded(happened[..n], level);
    }
  }

  /** The revisions in some order, each once. */
  lemma InSomeOrder(revisions: set<StatusAt>, now: int) returns (happened: seq<Happening>)
    ensures |happened| == |revisions| && forall h :: h in happened ==> h.Arrives?
    ensures Delivers(happened, revisions)
  {
    if revisions == {} {
      happened := [];
    } else {
      var r :| r in revisions;
      var rest := InSomeOrder(revisions - {r}, now);
      happened := StartingWith(revisions, r, rest, now);
    }
  }

  lemma StartingWith(revisions: set<StatusAt>, r: StatusAt, rest: seq<Happening>, now: int)
    returns (happened: seq<Happening>)
    requires r in revisions && |rest| == |revisions| - 1 && (forall h :: h in rest ==> h.Arrives?)
    requires Delivers(rest, revisions - {r})
    ensures |happened| == |revisions| && happened[0] == Arrives(r.0, r.1, now) && forall h :: h in happened ==> h.Arrives?
    ensures Delivers(happened, revisions)
  {
    var first := Arrives(r.0, r.1, now);
    happened := [first] + rest;
    forall status, at
      ensures Delivered(happened, status, at) <==> (status, at) in revisions
    {
      assert Delivered(rest, status, at) <==> (status, at) in revisions - {r};
      assert first in happened;
      if Delivered(rest, status, at) {
        var h :| h in rest && h.Arrives? && h.status == status && h.at == at;
        assert h in happened;
      }
    }
  }

  lemma OrderFrom(revisions: set<StatusAt>, r: StatusAt, now: int) returns (happened: seq<Happening>)
    requires r in revisions
    ensures |happened| == |revisions| && happened[0] == Arrives(r.0, r.1, now) && forall h :: h in happened ==> h.Arrives?
    ensures Delivers(happened, revisions)
  {
    var rest := InSomeOrder(revisions - {r}, now);
    happened := StartingWith(revisions, r, rest, now);
  }

  lemma DeliveredAre(happened: seq<Happening>, revisions: set<StatusAt>)
    requires Delivers(happened, revisions)
    ensures forall h :: h in happened && h.Arrives? ==> (h.status, h.at) in revisions
  {
    forall h | h in happened && h.Arrives?
      ensures (h.status, h.at) in revisions
    {
      assert Delivered(happened, h.status, h.at);
    }
  }

  lemma FirstOf(happened: seq<Happening>, w: StatusAt) returns (i: nat)
    requires Delivered(happened, w.0, w.1)
    requires forall h :: h in happened && h.Arrives? ==> h.at <= w.1
    ensures i < |happened| && happened[i].Arrives? && happened[i].at == w.1
    ensures forall j :: 0 <= j < |happened| && happened[j].Arrives? ==> happened[j].at <= w.1
    ensures forall j :: 0 <= j < i && happened[j].Arrives? ==> happened[j].at < w.1
  {
    i := 0;
    while !(happened[i].Arrives? && happened[i].at == w.1)
      invariant i < |happened|
      invariant forall j :: 0 <= j < i ==> !(happened[j].Arrives? && happened[j].at == w.1)
      decreases |happened| - i
    {
      var h :| h in happened && h.Arrives? && h.status == w.0 && h.at == w.1;
      var k :| 0 <= k < |happened| && happened[k] == h;
      assert i < k;
      i := i + 1;
    }
  }

  /** If no revision takes a dispute further than the newest one, every
      delivery ends where the newest takes it. */
  lemma NewestDecides(happened: seq<Happening>, revisions: set<StatusAt>, w: StatusAt)
    requires Delivers(happened, revisions) && NoneNewer(revisions, w) && Untied(revisions)
    requires forall r :: r in revisions ==> Level(r.0) <= Level(w.0)
    ensures Run(happened).Some? && Stage(Run(happened).value.lifecycle) == Level(w.0)
  {
    hide Delivers, Delivered, Run;
    DeliveredAre(happened, revisions);
    NewestIsDelivered(happened, revisions, w);
    var i := FirstOf(happened, w);
    assert happened[i] in happened && (happened[i].status, happened[i].at) in revisions;
    StageIsReached(happened, i);
    StageIsBounded(happened, Level(w.0));
  }

  lemma NewestIsDelivered(happened: seq<Happening>, revisions: set<StatusAt>, w: StatusAt)
    requires Delivers(happened, revisions) && w in revisions
    ensures Delivered(happened, w.0, w.1)
  {
    assert w == (w.0, w.1);
  }

  lemma {:induction false} OnlyTheFirstApplies(happened: seq<Happening>)
    requires happened != [] && happened[0].Arrives? && forall h :: h in happened ==> h.Arrives? && h.at <= happened[0].at
    ensures Run(happened) == Recorded(None, happened[0].status, happened[0].at, happened[0].now)
  {
    var n := |happened| - 1;
    assert happened[n] in happened && forall h :: h in happened[..n] ==> h in happened;
    if n == 0 {
      assert happened[..0] == [];
    } else {
      OnlyTheFirstApplies(happened[..n]);
    }
  }

  /** Otherwise two orders of the revisions, each delivered once, end in
      different stages: the newest first, or the one that goes further first. */
  lemma OrdersDiffer(revisions: set<StatusAt>, w: StatusAt, r: StatusAt, now: int)
    returns (a: seq<Happening>, b: seq<Happening>)
    requires NoneNewer(revisions, w) && r in revisions && Level(r.0) > Level(w.0)
    ensures Delivers(a, revisions) && |a| == |revisions| && Delivers(b, revisions) && |b| == |revisions|
    ensures Run(a).Some? && Stage(Run(a).value.lifecycle) == Level(w.0)
    ensures Run(b).Some? && Stage(Run(b).value.lifecycle) > Level(w.0)
  {
    hide Delivers;
    a := OrderFrom(revisions, w, now);
    b := OrderFrom(revisions, r, now);
    DeliveredAre(a, revisions);
    OnlyTheFirstApplies(a);
    StageIsReached(b, 0);
  }

  /** Whether the order of delivery matters: revisions without ties end a
      dispute in the same stage under every order exactly when none of them
      takes it further than the newest one does. */
  lemma OrderMattersIff(revisions: set<StatusAt>, w: StatusAt)
    requires NoneNewer(revisions, w) && Untied(revisions)
    ensures (forall a, b :: Delivers(a, revisions) && Delivers(b, revisions) ==>
               Run(a).Some? && Run(b).Some? && Stage(Run(a).value.lifecycle) == Stage(Run(b).value.lifecycle))
            <==> forall r :: r in revisions ==> Level(r.0) <= Level(w.0)
  {
    hide Delivers, Run, Untied, NoneNewer;
    if r :| r in revisions && Level(r.0) > Level(w.0) {
      var a, b := OrdersDiffer(revisions, w, r, 0);
      assert Delivers(a, revisions) && Delivers(b, revisions);
    } else {
      forall a, b | Delivers(a, revisions) && Delivers(b, revisions)
        ensures Run(a).Some? && Run(b).Some? && Stage(Run(a).value.lifecycle) == Stage(Run(b).value.lifecycle)
      {
        NewestDecides(a, revisions, w);
        NewestDecides(b, revisions, w);
      }
    }
  }

  /** Whether ties matter: every order ends with the same status exactly when
      the revisions of the largest time agree on it. */
  lemma TiesMatterIff(revisions: set<StatusAt>, w: StatusAt)
    requires NoneNewer(revisions, w)
    ensures (forall a, b :: Delivers(a, revisions) && Delivers(b, revisions) ==>
               Run(a).Some? && Run(b).Some? && Run(a).value.status == Run(b).value.status)
            <==> forall r :: r in revisions && r.1 == w.1 ==> r.0 == w.0
  {
    hide Delivers, Run;
    if r :| r in revisions && r.1 == w.1 && r.0 != w.0 {
      var a := OrderFrom(revisions, w, 0);
      var b := OrderFrom(revisions, r, 0);
      DeliveredAre(a, revisions);
      DeliveredAre(b, revisions);
      OnlyTheFirstApplies(a);
      OnlyTheFirstApplies(b);
      assert Delivers(a, revisions) && Delivers(b, revisions);
    } else {
      forall a, b | Delivers(a, revisions) && Delivers(b, revisions)
        ensures Run(a).Some? && Run(b).Some? && Run(a).value.status == Run(b).value.status
      {
        TiedDeliveries(a, revisions, w);
        TiedDeliveries(b, revisions, w);
      }
    }
  }

  lemma TiedDeliveries(happened: seq<Happening>, revisions: set<StatusAt>, w: StatusAt)
    requires Delivers(happened, revisions) && NoneNewer(revisions, w)
    requires forall r :: r in revisions && r.1 == w.1 ==> r.0 == w.0
    ensures Run(happened).Some? && Run(happened).value.status == w.0
  {
    hide Delivers, Delivered, Run;
    DeliveredAre(happened, revisions);
    NewestIsDelivered(happened, revisions, w);
    var i := FirstOf(happened, w);
    assert happened[i] in happened && (happened[i].status, happened[i].at) in revisions;
    TiesKeepTheFirst(happened, i);
  }

  /** When the newest revision delivered is final, the dispute ends resolved
      whatever the order, ties or not. */
  lemma NewestFinalResolves(happened: seq<Happening>)
    requires Winner(happened).Some? && IsFinal(Winner(happened).value.status)
    ensures Run(happened).Some? && Run(happened).value.lifecycle.Resolved?
  {
    StatusConverges(happened);
    LastFinal(happened);
  }

  lemma LastFinal(happened: seq<Happening>)
    requires Run(happened).Some? && IsFinal(Run(happened).value.status)
    ensures Run(happened).value.lifecycle.Resolved?
  {
    if happened != [] {
      var n := |happened| - 1;
      if Run(happened[..n]).Some? && IsFinal(Run(happened[..n]).value.status) {
        LastFinal(happened[..n]);
      }
    }
  }

  // ----- the stored rows -----

  datatype Entry =
    | Detected(dispute: string)
    | StatusChanged(dispute: string, before: Status, after: Status)
    | SessionClosed(session: string)
    | SessionSuperseded(session: string)
    | ResolutionRecorded(dispute: string, byParties: bool, resolvedAt: int)

  function RowOf(rows: map<string, Dispute>, id: string): Option<Dispute> {
    if id in rows then Some(rows[id]) else None
  }

  predicate ByParties(status: Status) {
    status.Released? || status.CooperativelyCanceled?
  }

  /** The dispute's live session, in a table that keeps it unique. */
  ghost predicate IsLive(rows: map<string, Row>, id: string, dispute: string) {
    id in rows && rows[id].dispute == dispute && !rows[id].state.Terminal()
  }

  class Notifier {
    var disputes: map<string, Dispute>
    const sessions: SessionTable
    var entries: seq<Entry>

    constructor (sessions: SessionTable)
      ensures disputes == map[] && entries == [] && this.sessions == sessions
    {
      disputes, entries, this.sessions := map[], [], sessions;
    }

    /** Ends the dispute's live session, if any. */
    method EndLiveSession(dispute: string, state: State, now: int) returns (ended: Option<string>)
      requires sessions.Valid() && state.Terminal()
      modifies this`entries, sessions
      ensures sessions.Valid()
      ensures ended.Some? <==> HasLive(old(sessions.rows), dispute)
      ensures ended.Some? ==>
                && IsLive(old(sessions.rows), ended.value, dispute)
                && sessions.rows == old(sessions.rows)[ended.value :=
                                                       SetStateRow(old(sessions.rows)[ended.value], state, now)]
                && entries == old(entries) + [if state.Closed? then SessionClosed(ended.value)
                                              else SessionSuperseded(ended.value)]
      ensures ended.None? ==> sessions.rows == old(sessions.rows) && entries == old(entries)
      ensures !HasLive(sessions.rows, dispute)
    {
      ended := sessions.LiveForDispute(dispute);
      if ended.Some? {
        var updated := sessions.SetState(ended.value, state, now);
        entries := entries + [if state.Closed? then SessionClosed(ended.value) else SessionSuperseded(ended.value)];
      }
    }

    /** Moves the lifecycle for a newer revision, and ends the session it
        overtakes. */
    method Transition(id: string, existing: Dispute, status: Status, at: int, now: int) returns (change: Change)
      requires sessions.Valid() && id in disputes
      requires disputes[id].lifecycle == existing.lifecycle && disputes[id].updatedAt == now
      modifies this`disputes, this`entries, sessions
      ensures sessions.Valid()
      ensures disputes == old(disputes)[id := old(disputes)[id].(lifecycle := NextLifecycle(existing.lifecycle, status))]
      ensures !change.Unchanged? && !change.FirstNew? && !change.FirstSeen?
      ensures change.ResolvedNow? <==> status in {SellerRefunded, Settled, Released, CooperativelyCanceled}
      ensures change.TakenNow? <==> status.InProgress? && existing.lifecycle.AwaitsSolver()
      ensures change.TakenAgain? <==> status.InProgress? && existing.lifecycle.Taken?
      ensures IsFinal(status) ==> !HasLive(sessions.rows, id)
      ensures forall s :: IsLive(old(sessions.rows), s, id) ==>
                var row := old(sessions.rows)[s];
                if status in {SellerRefunded, Settled, Released, CooperativelyCanceled}
                then sessions.rows == old(sessions.rows)[s := row.(state := Closed, updatedAt := now)]
                else if status == InProgress && at > row.openedAt
                then sessions.rows == old(sessions.rows)[s := row.(state := Superseded, updatedAt := now)]
                else sessions.rows == old(sessions.rows)
      ensures !HasLive(old(sessions.rows), id) ==> sessions.rows == old(sessions.rows)
      ensures old(entries) <= entries
      ensures IsFinal(status) ==>
                && |entries| > |old(entries)|
                && entries[|entries| - 1] == ResolutionRecorded(id, status in {Released, CooperativelyCanceled}, at)
    {
      if status.InProgress? {
        var live := sessions.LiveForDispute(id);
        if live.Some? && at > sessions.rows[live.value].openedAt {
          var ended := EndLiveSession(id, Superseded, now);
        }
        match existing.lifecycle
        case Taken => change := TakenAgain;
        case Resolved => change := Updated(existing.status, status);
        case _ =>
          disputes := disputes[id := disputes[id].(lifecycle := Taken, updatedAt := now)];
          change := TakenNow;
      } else if IsFinal(status) {
        disputes := disputes[id := disputes[id].(lifecycle := Resolved, updatedAt := now)];
        var ended := EndLiveSession(id, Closed, now);
        entries := entries + [ResolutionRecorded(id, ByParties(status), at)];
        change := ResolvedNow(status);
      } else {
        change := Updated(existing.status, status);
      }
    }

    /** One transaction: a revision as new as the stored one, or older,
        changes nothing. */
    method Record(id: string, status: Status, at: int, now: int) returns (change: Change)
      requires sessions.Valid()
      modifies this`disputes, this`entries, sessions
      ensures sessions.Valid()
      ensures id in disputes && disputes == old(disputes)[id := disputes[id]]
      ensures RowOf(disputes, id) == Recorded(RowOf(old(disputes), id), status, at, now)
      ensures change.Unchanged? <==> id in old(disputes) && at <= old(disputes)[id].statusAt
      ensures change.Unchanged? ==> disputes == old(disputes) && sessions.rows == old(sessions.rows) && entries == old(entries)
      ensures change.FirstNew? <==> id !in old(disputes) && status.Initiated?
      ensures change.FirstSeen? <==> id !in old(disputes) && !status.Initiated?
      ensures !change.Unchanged? && id in old(disputes) ==>
                (change.ResolvedNow? <==> status in {SellerRefunded, Settled, Released, CooperativelyCanceled})
      ensures change.ResolvedNow? ==> !HasLive(sessions.rows, id)
      ensures id !in old(disputes) ==> sessions.rows == old(sessions.rows)
      ensures !change.Unchanged? && id in old(disputes) ==>
                forall s :: IsLive(old(sessions.rows), s, id) ==>
                  var row := old(sessions.rows)[s];
                  if status in {SellerRefunded, Settled, Released, CooperativelyCanceled}
                  then sessions.rows == old(sessions.rows)[s := row.(state := Closed, updatedAt := now)]
                  else if status == InProgress && at > row.openedAt
                  then sessions.rows == old(sessions.rows)[s := row.(state := Superseded, updatedAt := now)]
                  else sessions.rows == old(sessions.rows)
    {
      if id !in disputes {
        disputes := disputes[id := Dispute(status, at, New, now, None, now)];
        if status.Initiated? {
          change := FirstNew;
        } else {
          disputes := disputes[id := disputes[id].(lifecycle := if IsFinal(status) then Resolved else Taken,
                                                   updatedAt := now)];
          change := FirstSeen(status);
        }
        entries := entries + [Detected(id)];
      } else if at <= disputes[id].statusAt {
        change := Unchanged;
      } else {
        var existing := disputes[id];
        disputes := disputes[id := existing.(status := status, statusAt := at, updatedAt := now)];
        entries := entries + [StatusChanged(id, existing.status, status)];
        change := Transition(id, existing, status, at, now);
      }
    }

    /** A notification that finishes late cannot regress the dispute. */
    method MarkNotified(id: string, now: int) returns (updated: bool)
      modifies this`disputes
      ensures updated <==> id in old(disputes) && old(disputes)[id].lifecycle.AwaitsSolver()
      ensures RowOf(disputes, id) == Marked(RowOf(old(disputes), id), now)
      ensures forall d :: d != id ==> RowOf(disputes, d) == RowOf(old(disputes), d)
    {
      updated := id in disputes && disputes[id].lifecycle.AwaitsSolver();
      if updated {
        disputes := disputes[id := disputes[id].(lifecycle := Notified, lastNotifiedAt := Some(now), updatedAt := now)];
      }
    }
  }
}

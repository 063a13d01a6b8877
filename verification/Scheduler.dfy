/** Settling bursts of messages into turns (src/mediation/settle.rs), and the
    loop that runs one turn per session at a time
    (src/mediation/turn.rs). */
module Scheduler {
  import opened Domain

  /** Session ids, by their order. */
  type SessionId = nat

  predicate Increasing(ids: seq<SessionId>) {
    forall i, j :: 0 <= i < j < |ids| ==> ids[i] < ids[j]
  }

  /** Inserts an id into a list in order. */
  function InOrder(id: SessionId, ids: seq<SessionId>): (r: seq<SessionId>)
    requires Increasing(ids) && id !in ids
    ensures Increasing(r)
    ensures forall x :: x in r <==> x == id || x in ids
  {
    if ids == [] then [id]
    else if id < ids[0] then [id] + ids
    else
      var rest := InOrder(id, ids[1..]);
      assert forall i :: 0 <= i < |rest| ==> rest[i] in rest;
      assert forall x :: x in ids <==> x == ids[0] || x in ids[1..];
      [ids[0]] + rest
  }

  class Settle {
    const quiet: nat
    var deadlines: map<SessionId, int>

    constructor (quiet: nat)
      ensures this.quiet == quiet && deadlines == map[]
    {
      this.quiet := quiet;
      deadlines := map[];
    }

    /** A message arrived: the session's turn moves to `quiet` from now. */
    method Touch(id: SessionId, now: int)
      modifies this
      ensures deadlines == old(deadlines)[id := now + quiet]
    {
      deadlines := deadlines[id := now + quiet];
    }

    method NextDeadline() returns (next: Option<int>)
      ensures next.None? <==> deadlines == map[]
      ensures next.Some? ==> exists id :: id in deadlines && deadlines[id] == next.value
      ensures next.Some? ==> forall id :: id in deadlines ==> next.value <= deadlines[id]
    {
      next := None;
      var left := deadlines.Keys;
      assert forall id :: id in deadlines <==> id in left;
      while left != {}
        invariant left <= deadlines.Keys
        invariant next.None? <==> left == deadlines.Keys
        invariant next.Some? ==> exists id :: id in deadlines && deadlines[id] == next.value
        invariant next.Some? ==> forall id :: id in deadlines && id !in left ==> next.value <= deadlines[id]
        decreases |left|
      {
        var id :| id in left;
        left := left - {id};
        if next.None? || deadlines[id] < next.value {
          next := Some(deadlines[id]);
        }
      }
    }

    /** The sessions whose turn is due, in order; they are forgotten until
        their next message. */
    method TakeDue(now: int) returns (due: seq<SessionId>)
      modifies this
      ensures Increasing(due)
      ensures forall id :: id in due <==> id in old(deadlines) && old(deadlines)[id] <= now
      ensures deadlines == map id | id in old(deadlines) && old(deadlines)[id] > now :: old(deadlines)[id]
    {
      due := [];
      var left := deadlines.Keys;
      while left != {}
        invariant left <= deadlines.Keys
        invariant Increasing(due)
        invariant forall id :: id in due <==> id in deadlines && id !in left && deadlines[id] <= now
        decreases |left|
      {
        var id :| id in left;
        left := left - {id};
        if deadlines[id] <= now {
          due := InOrder(id, due);
        }
      }
      for i := 0 to |due|
        modifies this
        invariant deadlines == map id | id in old(deadlines) && id !in due[..i] :: old(deadlines)[id]
      {
        deadlines := deadlines - {due[i]};
        assert due[..i + 1] == due[..i] + [due[i]];
      }
      assert due[..|due|] == due;
    }
  }

  function Ids(ids: seq<SessionId>): set<SessionId> {
    set id | id in ids
  }

  /** The sessions whose deadline has passed. */
  ghost function Due(deadlines: map<SessionId, int>, now: int): set<SessionId> {
    set id | id in deadlines && deadlines[id] <= now
  }

  lemma NoIds(ids: seq<SessionId>)
    ensures Ids([]) == {} && Ids(ids[..0]) == {}
  {
  }

  lemma NextId(ids: seq<SessionId>, i: nat)
    requires Increasing(ids) && i < |ids|
    ensures ids[i] !in Ids(ids[..i])
    ensures Ids(ids[..i + 1]) == Ids(ids[..i]) + {ids[i]}
  {
    assert ids[..i + 1] == ids[..i] + [ids[i]];
  }

  /** What was taken from the due ones so far comes before the next. */
  lemma Later(started: seq<SessionId>, due: seq<SessionId>, i: nat)
    requires Increasing(due) && Increasing(started) && i < |due| && Ids(started) <= Ids(due[..i])
    ensures Increasing(started + [due[i]])
    ensures Ids(started + [due[i]]) == Ids(started) + {due[i]}
  {
    forall j | 0 <= j < |started|
      ensures started[j] < due[i]
    {
      assert started[j] in Ids(started);
      assert started[j] in due[..i];
    }
  }

  type TaskId = nat

  /** At most one running turn per session; task ids are never reused. */
  ghost predicate OneEach(running: map<TaskId, SessionId>, tasks: nat) {
    && (forall a, b :: a in running && b in running && running[a] == running[b] ==> a == b)
    && (forall t :: t in running ==> t < tasks)
  }

  ghost predicate Extends(before: map<TaskId, SessionId>, after: map<TaskId, SessionId>) {
    before.Keys <= after.Keys && forall t :: t in before ==> after[t] == before[t]
  }

  lemma ExtendsItself(a: map<TaskId, SessionId>)
    ensures Extends(a, a)
  {
  }

  lemma ExtendsTwice(a: map<TaskId, SessionId>, b: map<TaskId, SessionId>, c: map<TaskId, SessionId>)
    requires Extends(a, b) && Extends(b, c)
    ensures Extends(a, c)
  {
  }

  lemma Starting(running: map<TaskId, SessionId>, tasks: nat, id: SessionId)
    requires OneEach(running, tasks) && id !in running.Values
    ensures OneEach(running[tasks := id], tasks + 1)
    ensures running[tasks := id].Values == running.Values + {id}
    ensures forall t :: t in running ==> running[tasks := id][t] == running[t]
  {
    var after := running[tasks := id];
    assert after[tasks] == id;
    forall x | x in running.Values
      ensures x in after.Values
    {
      var t :| t in running && running[t] == x;
      assert after[t] == x;
    }
  }

  lemma Ending(running: map<TaskId, SessionId>, tasks: nat, task: TaskId)
    requires OneEach(running, tasks) && task in running
    ensures OneEach(running - {task}, tasks)
    ensures (running - {task}).Values == running.Values - {running[task]}
  {
    var after := running - {task};
    forall x | x in running.Values && x != running[task]
      ensures x in after.Values
    {
      var t :| t in running && running[t] == x;
      assert after[t] == x;
    }
  }

  class TurnLoop {
    const settle: Settle
    /** The session each running turn is for. */
    var sessionsOf: map<TaskId, SessionId>
    var dueAgain: set<SessionId>
    /** Every task id so far is below. */
    var tasks: nat
    /** The last time each session was touched. */
    ghost var touchedAt: map<SessionId, int>
    /** The sessions touched since their last turn started. */
    ghost var waiting: set<SessionId>

    /** At most one turn per session runs, a session due again is running,
        and no wake-up is lost: the sessions touched since their last turn
        started are exactly those with a deadline or due again. A deadline is
        the quiet period after the last touch. */
    ghost predicate Valid()
      reads this, settle
    {
      && OneEach(sessionsOf, tasks)
      && dueAgain <= sessionsOf.Values
      && waiting == settle.deadlines.Keys + dueAgain
      && (forall id :: id in settle.deadlines ==>
            id in touchedAt && settle.deadlines[id] == touchedAt[id] + settle.quiet)
    }

    constructor (quiet: nat)
      ensures Valid() && fresh(settle) && settle.quiet == quiet
      ensures sessionsOf == map[] && waiting == {}
    {
      settle := new Settle(quiet);
      sessionsOf, dueAgain, tasks, touchedAt, waiting := map[], {}, 0, map[], {};
    }

    /** A party message, or a session left pending before a restart. */
    method Receive(id: SessionId, now: int)
      requires Valid()
      modifies this`touchedAt, this`waiting, settle
      ensures Valid()
      ensures waiting == old(waiting) + {id} && touchedAt == old(touchedAt)[id := now]
      ensures settle.deadlines == old(settle.deadlines)[id := now + settle.quiet]
    {
      settle.Touch(id, now);
      touchedAt, waiting := touchedAt[id := now], waiting + {id};
    }

    /** Starts the session's turn, or, if one is running, keeps it due. */
    method Launch(id: SessionId) returns (started: bool)
      requires OneEach(sessionsOf, tasks)
      modifies this`sessionsOf, this`dueAgain, this`tasks, this`waiting
      ensures OneEach(sessionsOf, tasks)
      ensures started <==> id !in old(sessionsOf).Values
      ensures sessionsOf == if started then old(sessionsOf)[old(tasks) := id] else old(sessionsOf)
      ensures Extends(old(sessionsOf), sessionsOf) && sessionsOf.Values == old(sessionsOf).Values + {id}
      ensures dueAgain == if started then old(dueAgain) else old(dueAgain) + {id}
      ensures waiting == if started then old(waiting) - {id} else old(waiting)
    {
      started := id !in sessionsOf.Values;
      if started {
        Starting(sessionsOf, tasks, id);
        sessionsOf, tasks := sessionsOf[tasks := id], tasks + 1;
        waiting := waiting - {id};
      } else {
        dueAgain := dueAgain + {id};
      }
    }

    method LaunchAll(due: seq<SessionId>) returns (started: seq<SessionId>)
      requires OneEach(sessionsOf, tasks) && Increasing(due)
      modifies this`sessionsOf, this`dueAgain, this`tasks, this`waiting
      ensures OneEach(sessionsOf, tasks) && Increasing(started)
      ensures Extends(old(sessionsOf), sessionsOf)
      ensures sessionsOf.Values == old(sessionsOf).Values + Ids(due)
      ensures Ids(started) == Ids(due) - old(sessionsOf).Values
      ensures dueAgain == old(dueAgain) + (Ids(due) * old(sessionsOf).Values)
      ensures waiting == old(waiting) - Ids(started)
    {
      hide OneEach, Extends, Ids;
      ExtendsItself(sessionsOf);
      NoIds(due);
      started := [];
      for i := 0 to |due|
        modifies this`sessionsOf, this`dueAgain, this`tasks, this`waiting
        invariant OneEach(sessionsOf, tasks) && Increasing(started)
        invariant Extends(old(sessionsOf), sessionsOf)
        invariant sessionsOf.Values == old(sessionsOf).Values + Ids(due[..i])
        invariant Ids(started) == Ids(due[..i]) - old(sessionsOf).Values
        invariant dueAgain == old(dueAgain) + (Ids(due[..i]) * old(sessionsOf).Values)
        invariant waiting == old(waiting) - Ids(started)
      {
        var id := due[i];
        NextId(due, i);
        ghost var before := sessionsOf;
        var starts := Launch(id);
        ExtendsTwice(old(sessionsOf), before, sessionsOf);
        if starts {
          Later(started, due, i);
          started := started + [id];
        }
      }
      assert due[..|due|] == due;
    }

    /** The timer fired: every due session starts its turn, unless one is
        running; then it is due again. No turn starts within the quiet period
        of the session's last message. */
    method Fire(now: int) returns (started: seq<SessionId>)
      requires Valid()
      modifies this`sessionsOf, this`dueAgain, this`tasks, this`waiting, settle
      ensures Valid()
      ensures Increasing(started)
      ensures Ids(started) == Due(old(settle.deadlines), now) - old(sessionsOf).Values
      ensures forall id :: id in started ==> id in touchedAt && touchedAt[id] + settle.quiet <= now
      ensures sessionsOf.Values == old(sessionsOf).Values + Ids(started)
      ensures Extends(old(sessionsOf), sessionsOf)
      ensures waiting == old(waiting) - Ids(started)
    {
      hide OneEach, Increasing;
      ghost var deadlines := settle.deadlines;
      var due := settle.TakeDue(now);
      assert Ids(due) == Due(deadlines, now);
      started := LaunchAll(due);
      forall id | id in started
        ensures id in touchedAt && touchedAt[id] + settle.quiet <= now
      {
        assert id in Ids(started);
      }
    }

    /** A turn ended, was deferred or panicked (`again`): a session to judge
        again, or due again meanwhile, is touched. */
    method Done(task: TaskId, again: bool, now: int)
      requires Valid() && task in sessionsOf
      modifies this, settle
      ensures Valid()
      ensures var id := old(sessionsOf)[task];
              && sessionsOf == old(sessionsOf) - {task}
              && id !in sessionsOf.Values
              && (again || id in old(dueAgain) ==>
                    && waiting == old(waiting) + {id}
                    && settle.deadlines == old(settle.deadlines)[id := now + settle.quiet])
              && (!again && id !in old(dueAgain) ==>
                    waiting == old(waiting) && settle.deadlines == old(settle.deadlines))
    {
      var id := sessionsOf[task];
      Ending(sessionsOf, tasks, task);
      sessionsOf := sessionsOf - {task};
      var wasDue := id in dueAgain;
      dueAgain := dueAgain - {id};
      if again || wasDue {
        settle.Touch(id, now);
        touchedAt, waiting := touchedAt[id := now], waiting + {id};
      }
    }
  }
}

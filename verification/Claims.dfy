/** Claiming a dispute to mediate it (src/mediation/mod.rs,
    src/mediation/eligibility.rs): two openers never take one dispute at once,
    but the claim is two locks, not one step. */
module Claims {
  import opened Domain

  /** Where one call of `consider` is: it read the store, or it is taking. */
  datatype Opener = Idle | HasRead(dispute: string, notified: bool, hadSession: bool) | Taking(dispute: string)

  /** `sessions` are the disputes that ever had one. */
  datatype Sys = Sys(openers: map<nat, Opener>, taking: set<string>, sessions: set<string>, notified: set<string>)

  datatype Move =
    | Read(opener: nat, dispute: string)
    | Lock(opener: nat)
    | Insert(opener: nat)
    | Finish(opener: nat)
    | SetNotified(dispute: string, notified: bool)

  datatype Ineligible = NotNotified | HadSession | AlreadyTaking

  /** The checks in their order; mediation is enabled and the judge ready. */
  function Check(notified: bool, hadSession: bool, taking: bool): Option<Ineligible> {
    if !notified then Some(NotNotified)
    else if hadSession then Some(HadSession)
    else if taking then Some(AlreadyTaking)
    else None
  }

  function OpenerAt(s: Sys, o: nat): Opener {
    if o in s.openers then s.openers[o] else Idle
  }

  function With(s: Sys, o: nat, opener: Opener): Sys {
    s.(openers := s.openers[o := opener])
  }

  function Step(s: Sys, m: Move): Sys {
    match m
    case Read(o, d) =>
      if OpenerAt(s, o).Idle? then With(s, o, HasRead(d, d in s.notified, d in s.sessions)) else s
    case Lock(o) =>
      var opener := OpenerAt(s, o);
      if !opener.HasRead? then s
      else if Check(opener.notified, opener.hadSession, opener.dispute in s.taking).Some? then With(s, o, Idle)
      else With(s, o, Taking(opener.dispute)).(taking := s.taking + {opener.dispute})
    case Insert(o) =>
      var opener := OpenerAt(s, o);
      if opener.Taking? then s.(sessions := s.sessions + {opener.dispute}) else s
    case Finish(o) =>
      var opener := OpenerAt(s, o);
      if opener.Taking? then With(s, o, Idle).(taking := s.taking - {opener.dispute}) else s
    case SetNotified(d, notified) =>
      s.(notified := if notified then s.notified + {d} else s.notified - {d})
  }

  function Exec(s: Sys, moves: seq<Move>): Sys {
    if moves == [] then s else Step(Exec(s, moves[..|moves| - 1]), moves[|moves| - 1])
  }

  function Initial(notified: set<string>): Sys {
    Sys(map[], {}, {}, notified)
  }

  /** The set in memory is exactly what the openers take, each its own. */
  ghost predicate Exclusive(s: Sys) {
    && (forall o :: OpenerAt(s, o).Taking? ==> OpenerAt(s, o).dispute in s.taking)
    && (forall d :: d in s.taking ==> exists o :: OpenerAt(s, o) == Taking(d))
    && (forall a, b :: OpenerAt(s, a).Taking? && OpenerAt(s, a) == OpenerAt(s, b) ==> a == b)
  }

  lemma StepIsExclusive(s: Sys, m: Move)
    requires Exclusive(s)
    ensures Exclusive(Step(s, m))
  {
    var after := Step(s, m);
    if m.SetNotified? {
      assert forall o :: OpenerAt(after, o) == OpenerAt(s, o);
    } else {
      assert forall o :: o != m.opener ==> OpenerAt(after, o) == OpenerAt(s, o);
    }
    forall d | d in after.taking
      ensures exists o :: OpenerAt(after, o) == Taking(d)
    {
      if d in s.taking {
        var o :| OpenerAt(s, o) == Taking(d);
        assert OpenerAt(after, o) == Taking(d);
      } else {
        assert OpenerAt(after, m.opener) == Taking(d);
      }
    }
  }

  /** In every run, two openers never take one dispute at the same time. */
  lemma {:induction false} TakesAreExclusive(notified: set<string>, moves: seq<Move>)
    ensures Exclusive(Exec(Initial(notified), moves))
  {
    if moves != [] {
      TakesAreExclusive(notified, moves[..|moves| - 1]);
      StepIsExclusive(Exec(Initial(notified), moves[..|moves| - 1]), moves[|moves| - 1]);
    }
  }

  /** Exactly when a lock takes a dispute that already had a session: the
      session was stored after the opener read, and its take is over. */
  lemma TakenAgainIff(s: Sys, o: nat)
    requires OpenerAt(s, o).HasRead? && OpenerAt(s, o).dispute in s.sessions
    ensures OpenerAt(Step(s, Lock(o)), o).Taking? <==>
            && OpenerAt(s, o).notified && !OpenerAt(s, o).hadSession
            && OpenerAt(s, o).dispute !in s.taking
  {
  }

  /** Read and locked in one step, a dispute is opened at most once. */
  lemma AtOnceIsSafe(s: Sys, o: nat, d: string)
    requires OpenerAt(s, o).Idle? && OpenerAt(Step(Step(s, Read(o, d)), Lock(o)), o).Taking?
    ensures d !in s.sessions && d in s.notified && d !in s.taking
  {
  }

  /** As it is, a dispute can be taken a second time: the other opener read
      the store before the first one stored its session. */
  lemma ADisputeIsTakenTwice(d: string)
    ensures var s := Exec(Initial({d}), [Read(1, d), Read(2, d), Lock(1), Insert(1), Finish(1), Lock(2)]);
            d in s.sessions && OpenerAt(s, 2) == Taking(d)
  {
    var s0 := Initial({d});
    var s2 := Step(Step(s0, Read(1, d)), Read(2, d));
    var s3 := Step(s2, Lock(1));
    var s4 := Step(s3, Insert(1));
    var s5 := Step(s4, Finish(1));
    var m1: seq<Move> := [Read(1, d)];
    var m2 := m1 + [Read(2, d)];
    var m3 := m2 + [Lock(1)];
    var m4 := m3 + [Insert(1)];
    var m5 := m4 + [Finish(1)];
    assert m1[..0] == [] && Exec(s0, m1) == Step(s0, Read(1, d));
    ExecStep(s0, m1, Read(2, d));
    ExecStep(s0, m2, Lock(1));
    ExecStep(s0, m3, Insert(1));
    ExecStep(s0, m4, Finish(1));
    ExecStep(s0, m5, Lock(2));
    assert m5 + [Lock(2)] == [Read(1, d), Read(2, d), Lock(1), Insert(1), Finish(1), Lock(2)];
    assert s3.taking == {d} && OpenerAt(s3, 2) == HasRead(d, true, false);
    assert s5.taking == {} && s5.sessions == {d} && OpenerAt(s5, 2) == HasRead(d, true, false);
  }

  lemma {:induction false} ExecStep(s: Sys, moves: seq<Move>, m: Move)
    ensures Exec(s, moves + [m]) == Step(Exec(s, moves), m)
  {
    assert (moves + [m])[..|moves|] == moves;
  }
}

/** The `messages` table of one session (src/store/messages.rs): rows in
    arrival order, and the two orders the code reads them in. */
module MessageLog {
  import opened Domain

  /** Row ids are positive and increase in arrival order. */
  ghost predicate Arrival(log: seq<Message>) {
    && (forall i :: 0 <= i < |log| ==> 0 < log[i].id)
    && (forall i, j :: 0 <= i < j < |log| ==> log[i].id < log[j].id)
  }

  function LastId(log: seq<Message>): nat {
    if log == [] then 0 else log[|log| - 1].id
  }

  lemma ArrivalBelowLast(log: seq<Message>, m: Message)
    requires Arrival(log) && m in log
    ensures 0 < m.id <= LastId(log)
  {
    var i :| 0 <= i < |log| && log[i] == m;
    if i < |log| - 1 {
      assert log[i].id < log[|log| - 1].id;
    }
  }

  lemma LastGrows(log: seq<Message>, after: seq<Message>)
    requires log <= after && Arrival(after)
    ensures LastId(log) <= LastId(after)
  {
    if log != [] {
      assert after[|log| - 1] == log[|log| - 1];
    }
  }

  datatype Order = ByArrival | ByTime

  /** `ByTime` is the transcript order: `created_at`, then id. */
  predicate Before(o: Order, a: Message, b: Message) {
    match o
    case ByArrival => a.id <= b.id
    case ByTime => a.createdAt < b.createdAt || (a.createdAt == b.createdAt && a.id <= b.id)
  }

  ghost predicate Sorted(o: Order, s: seq<Message>) {
    forall i, j :: 0 <= i < j < |s| ==> Before(o, s[i], s[j])
  }

  function Insert(o: Order, m: Message, s: seq<Message>): seq<Message> {
    if s == [] then [m]
    else if Before(o, m, s[0]) then [m] + s
    else [s[0]] + Insert(o, m, s[1..])
  }

  function Sort(o: Order, s: seq<Message>): seq<Message> {
    if s == [] then [] else Insert(o, s[0], Sort(o, s[1..]))
  }

  /** A session's transcript in conversation order. */
  function Listed(log: seq<Message>): seq<Message> {
    Sort(ByTime, log)
  }

  lemma InsertElements(o: Order, m: Message, s: seq<Message>)
    ensures multiset(Insert(o, m, s)) == multiset(s) + multiset{m}
  {
    if s != [] && !Before(o, m, s[0]) {
      InsertElements(o, m, s[1..]);
      assert s == [s[0]] + s[1..];
    }
  }

  lemma InsertSorted(o: Order, m: Message, s: seq<Message>)
    requires Sorted(o, s)
    ensures Sorted(o, Insert(o, m, s))
  {
    if s != [] && !Before(o, m, s[0]) {
      InsertSorted(o, m, s[1..]);
      InsertElements(o, m, s[1..]);
      var r := Insert(o, m, s[1..]);
      forall j | 0 <= j < |r|
        ensures Before(o, s[0], r[j])
      {
        assert r[j] in multiset(r);
        assert r[j] == m || r[j] in s[1..];
      }
    }
  }

  lemma SortIsSortedPermutation(o: Order, s: seq<Message>)
    ensures Sorted(o, Sort(o, s))
    ensures multiset(Sort(o, s)) == multiset(s)
  {
    if s != [] {
      SortIsSortedPermutation(o, s[1..]);
      InsertSorted(o, s[0], Sort(o, s[1..]));
      InsertElements(o, s[0], Sort(o, s[1..]));
      assert s == [s[0]] + s[1..];
    }
  }

  lemma SameRows(a: seq<Message>, b: seq<Message>, m: Message)
    requires multiset(a) == multiset(b)
    ensures |a| == |b| && (m in a <==> m in b)
  {
    assert |multiset(a)| == |multiset(b)|;
    assert m in a <==> m in multiset(a);
    assert m in b <==> m in multiset(b);
  }

  lemma SameHead(a: seq<Message>, b: seq<Message>)
    requires Arrival(a) && Sorted(ByArrival, b) && multiset(a) == multiset(b) && a != []
    ensures b != [] && a[0] == b[0]
  {
    SameRows(a, b, a[0]);
    SameRows(a, b, b[0]);
    var i :| 0 <= i < |b| && b[i] == a[0];
    var j :| 0 <= j < |a| && a[j] == b[0];
  }

  lemma SameTails(a: seq<Message>, b: seq<Message>)
    requires a != [] && b != [] && a[0] == b[0] && multiset(a) == multiset(b)
    ensures multiset(a[1..]) == multiset(b[1..])
  {
    assert a == [a[0]] + a[1..] && b == [b[0]] + b[1..];
    assert multiset(a[1..]) == multiset(a) - multiset{a[0]};
    assert multiset(b[1..]) == multiset(b) - multiset{b[0]};
  }

  lemma ArrivalIsUnique(a: seq<Message>, b: seq<Message>)
    requires Arrival(a) && Sorted(ByArrival, b) && multiset(a) == multiset(b)
    ensures a == b
  {
    if a == [] {
      assert |multiset(b)| == |b|;
    } else {
      SameHead(a, b);
      SameTails(a, b);
      ArrivalIsUnique(a[1..], b[1..]);
      assert a == [a[0]] + a[1..] && b == [b[0]] + b[1..];
    }
  }

  /** However the rows are listed, sorting them by id gives back the order
      in which they arrived. */
  lemma SortByArrivalRestores(log: seq<Message>, listed: seq<Message>)
    requires Arrival(log) && multiset(listed) == multiset(log)
    ensures Sort(ByArrival, listed) == log
  {
    SortIsSortedPermutation(ByArrival, listed);
    ArrivalIsUnique(log, Sort(ByArrival, listed));
  }

  lemma ListedIsSorted(log: seq<Message>)
    ensures Sorted(ByTime, Listed(log))
  {
    SortIsSortedPermutation(ByTime, log);
  }

  lemma ListedElements(log: seq<Message>)
    ensures multiset(Listed(log)) == multiset(log)
    ensures forall m :: m in Listed(log) <==> m in log
    ensures |Listed(log)| == |log|
  {
    SortIsSortedPermutation(ByTime, log);
    assert forall m :: m in Listed(log) <==> m in multiset(Listed(log));
    assert forall m :: m in log <==> m in multiset(log);
    assert |multiset(Listed(log))| == |multiset(log)|;
  }

  lemma ArrivalPrefix(log: seq<Message>, n: nat)
    requires Arrival(log) && n <= |log|
    ensures Arrival(log[..n])
  {
  }
}

/** What the code reads back from the logs: the history of each party
    (src/mediation/history.rs), the clocks (src/mediation/timers.rs) and the
    current hold (src/mediation/hold.rs). */
module Views {
  import opened Domain
  import opened Next
  import opened MessageLog

  datatype RowKind = SentTemplate | SentQuestion | SentReminder | Received

  predicate Matches(k: RowKind, p: Party, m: Message) {
    match k
    case SentTemplate => IsOut(m, p) && m.template.Some?
    case SentQuestion => IsOutQuestion(m, p)
    case SentReminder => IsOutTemplate(m, p, Reminder)
    case Received => IsIn(m, p)
  }

  /** The position of the last matching row, or -1. */
  function LastIndex(k: RowKind, p: Party, s: seq<Message>): (i: int)
    ensures -1 <= i < |s|
    ensures i >= 0 ==> Matches(k, p, s[i])
    ensures forall j :: i < j < |s| ==> !Matches(k, p, s[j])
  {
    if s == [] then -1
    else if Matches(k, p, s[|s| - 1]) then |s| - 1
    else
      var n := |s| - 1;
      assert forall j :: 0 <= j < n ==> s[..n][j] == s[j];
      LastIndex(k, p, s[..n])
  }

  function TemplateAt(s: seq<Message>, i: int): Option<Template>
    requires -1 <= i < |s|
  {
    if i < 0 then None else s[i].template
  }

  /** `party_history`: the rows sorted by id, then the last template, the
      last question, and whether a reply arrived after it. */
  function PartyHistoryOf(messages: seq<Message>, p: Party): PartyHistory {
    var arrived := Sort(ByArrival, messages);
    var question := LastIndex(SentQuestion, p, arrived);
    PartyHistory(TemplateAt(arrived, LastIndex(SentTemplate, p, arrived)),
                 TemplateAt(arrived, question),
                 question >= 0 && LastIndex(Received, p, arrived) < question,
                 false)
  }

  function SentTo(messages: seq<Message>, p: Party): set<Template> {
    set m | m in messages && IsOut(m, p) && m.template.Some? :: m.template.value
  }

  function AskedOf(messages: seq<Message>): Asked {
    Asked(SentTo(messages, Buyer), SentTo(messages, Seller))
  }

  predicate Heard(messages: seq<Message>, p: Party) {
    exists m :: m in messages && IsIn(m, p)
  }

  /** `from_messages`: the loop that collects the sent templates, and both
      parties' histories. */
  method FromMessages(messages: seq<Message>) returns (asked: Asked, buyer: PartyHistory, seller: PartyHistory)
    ensures asked == AskedOf(messages)
    ensures buyer == PartyHistoryOf(messages, Buyer) && seller == PartyHistoryOf(messages, Seller)
  {
    asked := Asked({}, {});
    for i := 0 to |messages|
      invariant asked == AskedOf(messages[..i])
    {
      var m := messages[i];
      assert messages[..i + 1] == messages[..i] + [m];
      if m.direction == Out && m.template.Some? {
        match m.party
        case Buyer => asked := asked.(buyer := asked.buyer + {m.template.value});
        case Seller => asked := asked.(seller := asked.seller + {m.template.value});
      }
    }
    assert messages[..|messages|] == messages;
    buyer, seller := PartyHistoryOf(messages, Buyer), PartyHistoryOf(messages, Seller);
  }

  // ----- clocks -----

  datatype PartyClock = PartyClock(questionAt: Option<int>, repliedAt: Option<int>, remindedAt: Option<int>)

  /** The matching row with the largest id, in rows listed in any order. */
  function MaxById(k: RowKind, p: Party, s: seq<Message>): (r: Option<Message>)
    ensures r.None? ==> forall m :: m in s ==> !Matches(k, p, m)
    ensures r.Some? ==> r.value in s && Matches(k, p, r.value)
    ensures r.Some? ==> forall m :: m in s && Matches(k, p, m) ==> m.id <= r.value.id
  {
    if s == [] then None
    else
      var r := MaxById(k, p, s[1..]);
      assert s == [s[0]] + s[1..];
      if Matches(k, p, s[0]) && (r.None? || r.value.id < s[0].id) then Some(s[0]) else r
  }

  function CreatedAt(m: Option<Message>): Option<int> {
    if m.None? then None else Some(m.value.createdAt)
  }

  /** `party_clock`: a reply counts by its id, whatever its timestamp. */
  function ClockOf(messages: seq<Message>, p: Party): PartyClock {
    var question := MaxById(SentQuestion, p, messages);
    var replied := question.Some? && exists m :: m in messages && IsIn(m, p) && m.id > question.value.id;
    PartyClock(CreatedAt(question),
               if replied then CreatedAt(question) else None,
               CreatedAt(MaxById(SentReminder, p, messages)))
  }

  // ----- the views agree with the log in arrival order -----

  /** The flag a question sets and a message from the party clears. */
  predicate Owes(log: seq<Message>, p: Party) {
    if log == [] then false
    else
      var m := log[|log| - 1];
      if Matches(SentQuestion, p, m) then true
      else if Matches(Received, p, m) then false
      else Owes(log[..|log| - 1], p)
  }

  lemma {:induction false} OwesIsLastIndex(log: seq<Message>, p: Party)
    ensures Owes(log, p) <==> LastIndex(SentQuestion, p, log) > LastIndex(Received, p, log)
  {
    if log != [] {
      OwesIsLastIndex(log[..|log| - 1], p);
    }
  }

  /** Whatever order the rows are listed in, `party_history` reads the
      question flag, the last template and the last question of the log. */
  lemma HistoryIsArrival(log: seq<Message>, listed: seq<Message>, p: Party)
    requires Arrival(log) && multiset(listed) == multiset(log)
    ensures PartyHistoryOf(listed, p) ==
            PartyHistory(TemplateAt(log, LastIndex(SentTemplate, p, log)),
                         TemplateAt(log, LastIndex(SentQuestion, p, log)), Owes(log, p), false)
  {
    SortByArrivalRestores(log, listed);
    OwesIsLastIndex(log, p);
  }

  lemma MaxByIdIsLast(k: RowKind, p: Party, log: seq<Message>, listed: seq<Message>)
    requires Arrival(log) && multiset(listed) == multiset(log)
    ensures var i := LastIndex(k, p, log);
            MaxById(k, p, listed) == if i < 0 then None else Some(log[i])
  {
    var i := LastIndex(k, p, log);
    var r := MaxById(k, p, listed);
    if r.Some? {
      SameRows(listed, log, r.value);
      var j :| 0 <= j < |log| && log[j] == r.value;
      assert j <= i;
    }
    if i >= 0 {
      SameRows(listed, log, log[i]);
    }
  }

  /** The timers and the policy agree on who still owes an answer: the clocks
      of an asked party say "not replied" exactly when its history says
      "outstanding", for any order of the rows. */
  lemma ClocksAgreeWithHistory(log: seq<Message>, listed: seq<Message>, p: Party)
    requires Arrival(log) && multiset(listed) == multiset(log)
    ensures var clock := ClockOf(listed, p);
            && (clock.questionAt.Some? <==> PartyHistoryOf(listed, p).lastQuestion.Some?)
            && (clock.questionAt.Some? && clock.repliedAt.None? <==> PartyHistoryOf(listed, p).outstanding)
            && (clock.repliedAt.Some? ==> clock.repliedAt == clock.questionAt)
  {
    var clock := ClockOf(listed, p);
    var q := LastIndex(SentQuestion, p, log);
    var r := LastIndex(Received, p, log);
    HistoryIsArrival(log, listed, p);
    OwesIsLastIndex(log, p);
    MaxByIdIsLast(SentQuestion, p, log, listed);
    if q >= 0 {
      if r > q {
        SameRows(log, listed, log[r]);
        assert log[r] in listed && IsIn(log[r], p) && log[r].id > log[q].id;
      } else {
        forall m | m in listed && IsIn(m, p)
          ensures m.id <= log[q].id
        {
          SameRows(log, listed, m);
          var j :| 0 <= j < |log| && log[j] == m;
          assert Matches(Received, p, log[j]);
          assert j <= r;
        }
      }
    }
  }

  /** A party never heard still owes the answer to its last question. */
  lemma UnheardOwes(log: seq<Message>, p: Party)
    requires !Heard(log, p) && LastIndex(SentQuestion, p, log) >= 0
    ensures Owes(log, p)
  {
    OwesIsLastIndex(log, p);
  }
}

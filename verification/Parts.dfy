/** Splitting a long solver message into parts (src/solver/mod.rs): nothing
    is lost, repeated or reordered, and every part fits. */
module Parts {
  import opened Domain

  // ----- the text the lines make -----

  /** The lines, joined with newlines. */
  function Joined(lines: seq<string>): string {
    if lines == [] then ""
    else if |lines| == 1 then lines[0]
    else Joined(lines[..|lines| - 1]) + "\n" + lines[|lines| - 1]
  }

  /** Where line `i` starts in the joined text. */
  function Start(lines: seq<string>, i: nat): nat
    requires i < |lines|
  {
    if i == 0 then 0 else Start(lines, i - 1) + |lines[i - 1]| + 1
  }

  function End(lines: seq<string>, i: nat): nat
    requires i < |lines|
  {
    Start(lines, i) + |lines[i]|
  }

  /** A newline between two lines, not one inside a line. */
  ghost predicate IsSeparator(lines: seq<string>, at: nat) {
    exists i: nat :: i + 1 < |lines| && at == End(lines, i)
  }

  /** Only separators lie from `from` up to `to`. */
  ghost predicate OnlySeparators(lines: seq<string>, from: nat, to: nat) {
    from <= to && forall at :: from <= at < to ==> IsSeparator(lines, at)
  }

  /** The position is inside a line too long for one body. */
  ghost predicate InsideLongLine(lines: seq<string>, budget: nat, at: nat) {
    exists i: nat :: i < |lines| && Start(lines, i) < at < End(lines, i) && |lines[i]| > budget
  }

  lemma {:induction false} StartsIn(lines: seq<string>, i: nat)
    requires i < |lines|
    ensures Start(lines, i) == if i == 0 then 0 else |Joined(lines[..i])| + 1
    ensures End(lines, i) == |Joined(lines[..i + 1])|
  {
    if i > 0 {
      StartsIn(lines, i - 1);
      assert lines[..i + 1][..i] == lines[..i];
    }
  }

  lemma {:induction false} JoinedPrefix(lines: seq<string>, i: nat)
    requires i < |lines|
    ensures Joined(lines[..i + 1]) <= Joined(lines)
    decreases |lines| - i
  {
    if i + 1 < |lines| {
      JoinedPrefix(lines, i + 1);
      assert lines[..i + 2][..i + 1] == lines[..i + 1];
    } else {
      assert lines[..i + 1] == lines;
    }
  }

  /** A line stands in the joined text where it starts, after a newline
      unless it is the first. */
  lemma LineIsThere(lines: seq<string>, i: nat)
    requires i < |lines|
    ensures End(lines, i) <= |Joined(lines)|
    ensures Joined(lines)[Start(lines, i)..End(lines, i)] == lines[i]
    ensures i > 0 ==> Start(lines, i) == End(lines, i - 1) + 1 && Joined(lines)[End(lines, i - 1)] == '\n'
  {
    StartsIn(lines, i);
    JoinedPrefix(lines, i);
    var upTo := Joined(lines[..i + 1]);
    assert Joined(lines)[..|upTo|] == upTo;
    if i == 0 {
      assert lines[..1] == [lines[0]];
    } else {
      StartsIn(lines, i - 1);
      assert lines[..i + 1][..i] == lines[..i];
      assert upTo == Joined(lines[..i]) + "\n" + lines[i];
      assert Joined(lines)[Start(lines, i)..End(lines, i)] == upTo[Start(lines, i)..End(lines, i)];
      assert Joined(lines)[End(lines, i - 1)] == upTo[End(lines, i - 1)];
    }
  }

  lemma LastEnds(lines: seq<string>)
    requires lines != []
    ensures End(lines, |lines| - 1) == |Joined(lines)|
  {
    StartsIn(lines, |lines| - 1);
    assert lines[..|lines|] == lines;
  }

  // ----- bodies -----

  /** A body is a slice of the joined text: between it and the body before,
      or before the first, only separators are left out; where nothing is left
      out, a line longer than the budget is cut. */
  ghost predicate BodyOk(lines: seq<string>, budget: nat, body: string, start: nat, before: nat, first: bool) {
    && |body| <= budget
    && start + |body| <= |Joined(lines)|
    && body == Joined(lines)[start..start + |body|]
    && OnlySeparators(lines, before, start)
    && (!first && start == before ==> InsideLongLine(lines, budget, start))
  }

  ghost predicate Slices(lines: seq<string>, budget: nat, bodies: seq<string>, starts: seq<nat>) {
    && |starts| == |bodies|
    && forall k :: 0 <= k < |bodies| ==>
         BodyOk(lines, budget, bodies[k], starts[k], EndBefore(bodies, starts, k), k == 0)
  }

  /** Where the body before the `k`-th ends. */
  function EndBefore(bodies: seq<string>, starts: seq<nat>, k: nat): nat
    requires |starts| == |bodies| && k <= |bodies|
  {
    if k == 0 then 0 else starts[k - 1] + |bodies[k - 1]|
  }

  ghost predicate SplitsInto(lines: seq<string>, budget: nat, bodies: seq<string>, starts: seq<nat>) {
    && Slices(lines, budget, bodies, starts)
    && bodies != []
    && EndBefore(bodies, starts, |bodies|) == |Joined(lines)|
  }

  /** One more body. */
  lemma SlicesMore(lines: seq<string>, budget: nat, bodies: seq<string>, starts: seq<nat>, body: string, start: nat)
    requires Slices(lines, budget, bodies, starts)
    requires BodyOk(lines, budget, body, start, EndBefore(bodies, starts, |bodies|), bodies == [])
    ensures Slices(lines, budget, bodies + [body], starts + [start])
    ensures EndBefore(bodies + [body], starts + [start], |bodies| + 1) == start + |body|
  {
    hide BodyOk;
    var b, s := bodies + [body], starts + [start];
    forall k | 0 <= k < |b|
      ensures BodyOk(lines, budget, b[k], s[k], EndBefore(b, s, k), k == 0)
    {
      assert EndBefore(b, s, k) == EndBefore(bodies, starts, k);
      if k < |bodies| {
        assert b[k] == bodies[k] && s[k] == starts[k];
      }
    }
  }

  lemma NoGap(lines: seq<string>, at: nat)
    ensures OnlySeparators(lines, at, at)
  {
  }

  lemma InsideIt(lines: seq<string>, budget: nat, i: nat, at: nat)
    requires i < |lines| && Start(lines, i) < at < End(lines, i) && |lines[i]| > budget
    ensures InsideLongLine(lines, budget, at)
  {
  }

  lemma SeparatorsThen(lines: seq<string>, from: nat, i: nat)
    requires i + 1 < |lines| && OnlySeparators(lines, from, End(lines, i))
    ensures OnlySeparators(lines, from, Start(lines, i + 1)) && Start(lines, i + 1) == End(lines, i) + 1
  {
    assert IsSeparator(lines, End(lines, i));
  }

  // ----- the loop -----

  /** The body being filled is a slice too. */
  ghost predicate Filling(lines: seq<string>, budget: nat, bodies: seq<string>, starts: seq<nat>,
                          current: string, from: nat) {
    && Slices(lines, budget, bodies, starts)
    && |current| <= budget
    && (current != "" ==>
          BodyOk(lines, budget, current, from, EndBefore(bodies, starts, |bodies|), bodies == []))
  }

  /** With nothing in the body, the text goes on at `at`. */
  ghost predicate ResumesAt(lines: seq<string>, budget: nat, bodies: seq<string>, starts: seq<nat>, at: nat) {
    && |starts| == |bodies|
    && OnlySeparators(lines, EndBefore(bodies, starts, |bodies|), at)
    && (bodies != [] && EndBefore(bodies, starts, |bodies|) == at ==> InsideLongLine(lines, budget, at))
  }

  /** Before line `i`. */
  ghost predicate BeforeLine(lines: seq<string>, budget: nat, bodies: seq<string>, starts: seq<nat>,
                             current: string, from: nat, i: nat)
    requires i <= |lines|
  {
    && Filling(lines, budget, bodies, starts, current, from)
    && (i == 0 ==> current == "" && bodies == [])
    && (i > 0 && current != "" ==> from + |current| == End(lines, i - 1))
    && (i > 0 && current == "" ==>
          && OnlySeparators(lines, EndBefore(bodies, starts, |bodies|), End(lines, i - 1))
          && (bodies != [] ==> EndBefore(bodies, starts, |bodies|) < End(lines, i - 1)))
  }

  /** `o` characters into line `i`. */
  ghost predicate InLine(lines: seq<string>, budget: nat, bodies: seq<string>, starts: seq<nat>,
                         current: string, from: nat, i: nat, o: nat)
    requires i < |lines|
  {
    && o <= |lines[i]|
    && Filling(lines, budget, bodies, starts, current, from)
    && (current != "" && o == 0 ==> i > 0 && from + |current| == End(lines, i - 1))
    && (current != "" && o > 0 ==> from + |current| == Start(lines, i) + o)
    && (current == "" ==> ResumesAt(lines, budget, bodies, starts, Start(lines, i) + o))
    && (current == "" && o == 0 && bodies != [] ==> EndBefore(bodies, starts, |bodies|) < Start(lines, i))
    && (o > 0 ==> o < |lines[i]| && |lines[i]| > budget && (current != "" ==> |current| == budget))
  }

  lemma LineBegins(lines: seq<string>, budget: nat, bodies: seq<string>, starts: seq<nat>,
                   current: string, from: nat, i: nat)
    requires i < |lines| && BeforeLine(lines, budget, bodies, starts, current, from, i)
    ensures InLine(lines, budget, bodies, starts, current, from, i, 0)
  {
    hide Slices, InsideLongLine, Joined, Start, BodyOk, OnlySeparators;
    FillingLength(lines, budget, bodies, starts, current, from);
    if i == 0 {
      NoGap(lines, 0);
      FirstStarts(lines);
    } else if current == "" {
      SeparatorsThen(lines, EndBefore(bodies, starts, |bodies|), i - 1);
    }
  }

  lemma FirstStarts(lines: seq<string>)
    requires lines != []
    ensures Start(lines, 0) == 0
  {
  }

  lemma FillingLength(lines: seq<string>, budget: nat, bodies: seq<string>, starts: seq<nat>, current: string, from: nat)
    requires Filling(lines, budget, bodies, starts, current, from)
    ensures |starts| == |bodies|
  {
  }

  lemma BodyIsFull(lines: seq<string>, budget: nat, bodies: seq<string>, starts: seq<nat>,
                   current: string, from: nat, i: nat, o: nat)
    requires i < |lines| && InLine(lines, budget, bodies, starts, current, from, i, o) && current != ""
    ensures InLine(lines, budget, bodies + [current], starts + [from], "", from, i, o)
  {
    hide Slices, OnlySeparators, InsideLongLine, Joined, Start, BodyOk;
    FillingLength(lines, budget, bodies, starts, current, from);
    SlicesMore(lines, budget, bodies, starts, current, from);
    assert |bodies + [current]| == |bodies| + 1;
    if o == 0 {
      NoGap(lines, End(lines, i - 1));
      SeparatorsThen(lines, End(lines, i - 1), i - 1);
    } else {
      NoGap(lines, Start(lines, i) + o);
      InsideIt(lines, budget, i, Start(lines, i) + o);
    }
  }

  /** What the body holds once `take` more characters of the line are in. */
  function Taken(current: string, line: string, o: nat, take: nat): string
    requires o + take <= |line|
  {
    (if current != "" then current + "\n" else current) + line[o..o + take]
  }

  lemma TakingSlices(lines: seq<string>, budget: nat, bodies: seq<string>, starts: seq<nat>,
                     current: string, from: nat, i: nat, o: nat, take: nat)
    requires i < |lines| && InLine(lines, budget, bodies, starts, current, from, i, o) && o + take <= |lines[i]|
    requires current != "" ==> o == 0
    ensures var begin := if current == "" then Start(lines, i) + o else from;
            var taken := Taken(current, lines[i], o, take);
            && begin + |taken| == Start(lines, i) + o + take <= |Joined(lines)|
            && taken == Joined(lines)[begin..begin + |taken|]
  {
    hide Joined, Filling, ResumesAt, Slices, Start;
    LineIsThere(lines, i);
    var text := Joined(lines);
    SliceOfSlice(text, Start(lines, i), End(lines, i), o, o + take);
    if current != "" {
      FillingIs(lines, budget, bodies, starts, current, from);
      Extended(text, from, End(lines, i - 1), take);
    }
  }

  /** A slice, a newline and what follows it. */
  lemma Extended(text: string, from: nat, at: nat, take: nat)
    requires from <= at && at + 1 + take <= |text| && text[at] == '\n'
    ensures text[from..at] + "\n" + text[at + 1..at + 1 + take] == text[from..at + 1 + take]
  {
    assert text[from..at] + "\n" == text[from..at + 1];
  }

  lemma SliceOfSlice(text: string, a: nat, b: nat, c: nat, d: nat)
    requires a <= b <= |text| && c <= d <= b - a
    ensures text[a..b][c..d] == text[a + c..a + d]
  {
    forall k | 0 <= k < d - c
      ensures text[a..b][c..d][k] == text[a + c..a + d][k]
    {
      assert text[a..b][c + k] == text[a + c + k];
    }
  }

  lemma FillingIs(lines: seq<string>, budget: nat, bodies: seq<string>, starts: seq<nat>, current: string, from: nat)
    requires Filling(lines, budget, bodies, starts, current, from) && current != ""
    ensures from + |current| <= |Joined(lines)| && current == Joined(lines)[from..from + |current|]
  {
  }

  lemma TakingFills(lines: seq<string>, budget: nat, bodies: seq<string>, starts: seq<nat>,
                    current: string, from: nat, i: nat, o: nat, take: nat)
    requires i < |lines| && InLine(lines, budget, bodies, starts, current, from, i, o) && o + take <= |lines[i]|
    requires current != "" ==> o == 0
    requires |Taken(current, lines[i], o, take)| <= budget
    requires o + take < |lines[i]| ==> |lines[i]| > budget && |Taken(current, lines[i], o, take)| == budget
    requires take > 0 || o + take == |lines[i]|
    ensures var begin := if current == "" then Start(lines, i) + o else from;
            var taken := Taken(current, lines[i], o, take);
            if o + take < |lines[i]| then InLine(lines, budget, bodies, starts, taken, begin, i, o + take)
            else BeforeLine(lines, budget, bodies, starts, taken, begin, i + 1)
  {
    hide Joined, Slices, OnlySeparators, InsideLongLine, Start;
    TakingSlices(lines, budget, bodies, starts, current, from, i, o, take);
    if o + take < |lines[i]| {
      TakingInside(lines, budget, bodies, starts, current, from, i, o, take);
    }
  }

  /** Taking part of a line stays inside it. */
  lemma TakingInside(lines: seq<string>, budget: nat, bodies: seq<string>, starts: seq<nat>,
                     current: string, from: nat, i: nat, o: nat, take: nat)
    requires i < |lines| && InLine(lines, budget, bodies, starts, current, from, i, o) && o + take < |lines[i]|
    requires current != "" ==> o == 0
    requires |lines[i]| > budget && |Taken(current, lines[i], o, take)| == budget && take > 0
    ensures var begin := if current == "" then Start(lines, i) + o else from;
            InLine(lines, budget, bodies, starts, Taken(current, lines[i], o, take), begin, i, o + take)
  {
    hide Joined, Slices, OnlySeparators, InsideLongLine;
    TakingSlices(lines, budget, bodies, starts, current, from, i, o, take);
  }

  // ----- bodies are filled -----

  /** A body leaves no room for more, or too little for a line that fits a
      body of its own. */
  predicate NoRoom(body: string, line: string, budget: nat) {
    |body| + 1 >= budget || (|line| <= budget && |body| + 1 + |line| > budget)
  }

  /** What begins at `at` is `o` characters into line `i`, and the body before
      could not take it: it had no room for the line, or a cut line filled it
      up. */
  predicate FullAt(lines: seq<string>, budget: nat, body: string, at: nat, i: nat, o: nat) {
    && i < |lines| && (o == 0 || o < |lines[i]|) && at == Start(lines, i) + o
    && if o == 0 then NoRoom(body, lines[i], budget) else |body| == budget
  }

  ghost predicate IsFull(lines: seq<string>, budget: nat, body: string, at: nat) {
    exists i: nat, o: nat :: FullAt(lines, budget, body, at, i, o)
  }

  /** Every body but the last is filled; only the last may be empty, after a
      line that is. */
  ghost predicate Filled(lines: seq<string>, budget: nat, bodies: seq<string>, starts: seq<nat>) {
    && |starts| == |bodies|
    && (forall k :: 0 < k < |bodies| ==> IsFull(lines, budget, bodies[k - 1], starts[k]))
    && (forall k :: 0 <= k < |bodies| && bodies[k] == "" ==>
          k == |bodies| - 1 && (lines == [] || lines[|lines| - 1] == ""))
  }

  /** While filling, `o` characters into line `i`: no body so far is empty,
      and the last one is full for what comes next. */
  ghost predicate FillsIn(lines: seq<string>, budget: nat, bodies: seq<string>, starts: seq<nat>,
                          current: string, from: nat, i: nat, o: nat)
    requires i < |lines|
  {
    && Filled(lines, budget, bodies, starts)
    && "" !in bodies
    && (bodies != [] ==>
          if current != "" then IsFull(lines, budget, bodies[|bodies| - 1], from)
          else if o == 0 then NoRoom(bodies[|bodies| - 1], lines[i], budget)
          else |bodies[|bodies| - 1]| == budget)
  }

  ghost predicate FillsBefore(lines: seq<string>, budget: nat, bodies: seq<string>, starts: seq<nat>,
                              current: string, from: nat, i: nat)
    requires i <= |lines|
  {
    && Filled(lines, budget, bodies, starts)
    && "" !in bodies
    && (current == "" && i > 0 ==> lines[i - 1] == "")
    && (bodies != [] ==>
          if current != "" then IsFull(lines, budget, bodies[|bodies| - 1], from)
          else i > 0 && |bodies[|bodies| - 1]| + 1 >= budget)
  }

  lemma LineFills(lines: seq<string>, budget: nat, bodies: seq<string>, starts: seq<nat>,
                  current: string, from: nat, i: nat)
    requires i < |lines| && FillsBefore(lines, budget, bodies, starts, current, from, i)
    ensures FillsIn(lines, budget, bodies, starts, current, from, i, 0)
  {
    hide Filled, IsFull;
  }

  lemma FilledMore(lines: seq<string>, budget: nat, bodies: seq<string>, starts: seq<nat>, body: string, start: nat)
    requires Filled(lines, budget, bodies, starts) && "" !in bodies
    requires body == "" ==> lines == [] || lines[|lines| - 1] == ""
    requires bodies != [] ==> IsFull(lines, budget, bodies[|bodies| - 1], start)
    ensures Filled(lines, budget, bodies + [body], starts + [start])
  {
    hide IsFull;
    var b, s := bodies + [body], starts + [start];
    forall k | 0 < k < |b|
      ensures IsFull(lines, budget, b[k - 1], s[k])
    {
      assert b[k - 1] == bodies[k - 1];
      if k < |bodies| {
        assert s[k] == starts[k];
      }
    }
  }

  /** A body goes out only when it is full for the line at hand. */
  lemma FlushingFills(lines: seq<string>, budget: nat, bodies: seq<string>, starts: seq<nat>,
                      current: string, from: nat, i: nat, o: nat)
    requires i < |lines| && FillsIn(lines, budget, bodies, starts, current, from, i, o) && current != ""
    requires if o == 0 then NoRoom(current, lines[i], budget) else |current| == budget
    ensures FillsIn(lines, budget, bodies + [current], starts + [from], "", from, i, o)
  {
    hide IsFull, Filled;
    FilledMore(lines, budget, bodies, starts, current, from);
    assert (bodies + [current])[|bodies|] == current;
  }

  lemma StartsFull(lines: seq<string>, budget: nat, body: string, i: nat, o: nat)
    requires i < |lines| && (o == 0 || o < |lines[i]|)
    requires if o == 0 then NoRoom(body, lines[i], budget) else |body| == budget
    ensures IsFull(lines, budget, body, Start(lines, i) + o)
  {
    assert FullAt(lines, budget, body, Start(lines, i) + o, i, o);
  }

  lemma TakingStaysFull(lines: seq<string>, budget: nat, bodies: seq<string>, starts: seq<nat>,
                        current: string, from: nat, i: nat, o: nat, take: nat)
    requires i < |lines| && FillsIn(lines, budget, bodies, starts, current, from, i, o) && o + take <= |lines[i]|
    requires take > 0 || o + take == |lines[i]|
    requires o > 0 ==> o < |lines[i]|
    ensures var begin := if current == "" then Start(lines, i) + o else from;
            var taken := Taken(current, lines[i], o, take);
            if o + take < |lines[i]| then FillsIn(lines, budget, bodies, starts, taken, begin, i, o + take)
            else FillsBefore(lines, budget, bodies, starts, taken, begin, i + 1)
  {
    hide IsFull, Filled, Start;
    if current == "" && bodies != [] {
      StartsFull(lines, budget, bodies[|bodies| - 1], i, o);
    }
  }

  lemma LastFills(lines: seq<string>, budget: nat, bodies: seq<string>, starts: seq<nat>, current: string, from: nat)
    requires FillsBefore(lines, budget, bodies, starts, current, from, |lines|)
    ensures Filled(lines, budget, bodies + [current], starts + [if current == "" then |Joined(lines)| else from])
  {
    hide Filled, IsFull;
    if current == "" && bodies != [] {
      LastEnds(lines);
      StartsFull(lines, budget, bodies[|bodies| - 1], |lines| - 1, 0);
    }
    FilledMore(lines, budget, bodies, starts, current, if current == "" then |Joined(lines)| else from);
  }

  lemma NothingFilled(lines: seq<string>, budget: nat)
    ensures FillsBefore(lines, budget, [], [], "", 0, 0)
  {
  }

  lemma WithinLine(lines: seq<string>, budget: nat, bodies: seq<string>, starts: seq<nat>,
                   current: string, from: nat, i: nat, o: nat)
    requires i < |lines| && InLine(lines, budget, bodies, starts, current, from, i, o)
    ensures o > 0 ==> o < |lines[i]| && (current != "" ==> |current| == budget)
  {
  }

  /** `chunk`: fills bodies line by line; a line that does not fit what is
      left goes to the next body, unless it fits no body at all. */
  method Chunk(lines: seq<string>, budget: nat) returns (bodies: seq<string>, ghost starts: seq<nat>)
    requires budget >= 1
    ensures SplitsInto(lines, budget, bodies, starts)
    ensures Filled(lines, budget, bodies, starts)
    ensures bodies != [] && forall k :: 0 <= k < |bodies| ==> |bodies[k]| <= budget
  {
    hide Slices, Filling, ResumesAt, OnlySeparators, InsideLongLine, Joined, End, Start, FillsIn, FillsBefore, Filled;
    hide InLine, BeforeLine;
    bodies, starts := [], [];
    var current: string := "";
    ghost var from: nat := 0;
    NothingYet(lines, budget);
    NothingFilled(lines, budget);
    for i := 0 to |lines|
      invariant BeforeLine(lines, budget, bodies, starts, current, from, i)
      invariant FillsBefore(lines, budget, bodies, starts, current, from, i)
    {
      LineBegins(lines, budget, bodies, starts, current, from, i);
      LineFills(lines, budget, bodies, starts, current, from, i);
      var o: nat := 0;
      while true
        invariant InLine(lines, budget, bodies, starts, current, from, i, o)
        invariant FillsIn(lines, budget, bodies, starts, current, from, i, o)
        decreases |lines[i]| - o, |current|
      {
        FillingFits(lines, budget, bodies, starts, current, from, i, o);
        WithinLine(lines, budget, bodies, starts, current, from, i, o);
        var rest := lines[i][o..];
        var separator := if |current| > 0 then 1 else 0;
        var room := if budget < |current| + separator then 0 else budget - (|current| + separator);
        if room == 0 || (|current| > 0 && |rest| > room && |rest| <= budget) {
          BodyIsFull(lines, budget, bodies, starts, current, from, i, o);
          FlushingFills(lines, budget, bodies, starts, current, from, i, o);
          bodies, starts, current := bodies + [current], starts + [from], "";
        } else {
          var take := if |rest| < room then |rest| else room;
          TakingFills(lines, budget, bodies, starts, current, from, i, o, take);
          TakingStaysFull(lines, budget, bodies, starts, current, from, i, o, take);
          from := if current == "" then Start(lines, i) + o else from;
          SliceOfSlice(lines[i], o, |lines[i]|, 0, take);
          ghost var taken := Taken(current, lines[i], o, take);
          if separator == 1 {
            current := current + "\n";
          }
          current := current + rest[..take];
          assert current == taken;
          o := o + take;
          if o == |lines[i]| {
            break;
          }
        }
      }
    }
    LastBody(lines, budget, bodies, starts, current, from);
    LastFills(lines, budget, bodies, starts, current, from);
    starts := starts + [if current == "" then |Joined(lines)| else from];
    bodies := bodies + [current];
    BodiesFit(lines, budget, bodies, starts);
  }

  lemma BodiesFit(lines: seq<string>, budget: nat, bodies: seq<string>, starts: seq<nat>)
    requires Slices(lines, budget, bodies, starts)
    ensures forall k :: 0 <= k < |bodies| ==> |bodies[k]| <= budget
  {
  }

  lemma NothingYet(lines: seq<string>, budget: nat)
    ensures BeforeLine(lines, budget, [], [], "", 0, 0)
  {
  }

  lemma FillingFits(lines: seq<string>, budget: nat, bodies: seq<string>, starts: seq<nat>,
                    current: string, from: nat, i: nat, o: nat)
    requires i < |lines| && InLine(lines, budget, bodies, starts, current, from, i, o)
    ensures |current| <= budget && o <= |lines[i]|
  {
  }

  lemma LastBody(lines: seq<string>, budget: nat, bodies: seq<string>, starts: seq<nat>, current: string, from: nat)
    requires BeforeLine(lines, budget, bodies, starts, current, from, |lines|)
    ensures SplitsInto(lines, budget, bodies + [current], starts + [if current == "" then |Joined(lines)| else from])
  {
    if lines != [] {
      LastEnds(lines);
    }
    SlicesMore(lines, budget, bodies, starts, current, if current == "" then |Joined(lines)| else from);
  }

  // ----- what the bodies keep -----

  lemma Ordered(lines: seq<string>, i: nat, j: nat)
    requires i < j < |lines|
    ensures End(lines, i) < Start(lines, j)
  {
    if i < j - 1 {
      Ordered(lines, i, j - 1);
    }
  }

  lemma NoSeparatorInLine(lines: seq<string>, i: nat, at: nat)
    requires i < |lines| && Start(lines, i) <= at < End(lines, i)
    ensures !IsSeparator(lines, at)
  {
    if IsSeparator(lines, at) {
      var j: nat :| j + 1 < |lines| && at == End(lines, j);
      if j < i {
        Ordered(lines, j, i);
      } else if i < j {
        Ordered(lines, i, j);
      }
      assert false;
    }
  }

  lemma OneLine(lines: seq<string>, i: nat, j: nat, at: nat)
    requires i < |lines| && j < |lines|
    requires Start(lines, i) < at < End(lines, i) && Start(lines, j) < at < End(lines, j)
    ensures i == j
  {
    if i < j {
      Ordered(lines, i, j);
    } else if j < i {
      Ordered(lines, j, i);
    }
  }

  lemma BodyAt(lines: seq<string>, budget: nat, bodies: seq<string>, starts: seq<nat>, k: nat)
    requires Slices(lines, budget, bodies, starts) && k < |bodies|
    ensures |starts| == |bodies| && |bodies[k]| <= budget
    ensures starts[k] + |bodies[k]| <= |Joined(lines)|
    ensures bodies[k] == Joined(lines)[starts[k]..starts[k] + |bodies[k]|]
    ensures OnlySeparators(lines, EndBefore(bodies, starts, k), starts[k])
    ensures k > 0 && starts[k] == EndBefore(bodies, starts, k) ==> InsideLongLine(lines, budget, starts[k])
  {
  }

  lemma SeparatorAt(lines: seq<string>, from: nat, to: nat, at: nat)
    requires OnlySeparators(lines, from, to) && from <= at < to
    ensures IsSeparator(lines, at)
  {
  }

  lemma NotInGap(lines: seq<string>, from: nat, to: nat, at: nat)
    requires OnlySeparators(lines, from, to) && !IsSeparator(lines, at)
    ensures !(from <= at < to)
  {
  }

  lemma SlicesLength(lines: seq<string>, budget: nat, bodies: seq<string>, starts: seq<nat>)
    requires Slices(lines, budget, bodies, starts)
    ensures |starts| == |bodies|
  {
  }

  /** A character of a line is in some body. */
  lemma SomeBodyHolds(lines: seq<string>, budget: nat, bodies: seq<string>, starts: seq<nat>, at: nat, n: nat)
    returns (k: nat)
    requires Slices(lines, budget, bodies, starts) && n <= |bodies|
    requires at < EndBefore(bodies, starts, n) && !IsSeparator(lines, at)
    ensures k < n && starts[k] <= at < starts[k] + |bodies[k]|
  {
    hide Slices, Joined, OnlySeparators, InsideLongLine, IsSeparator;
    SlicesLength(lines, budget, bodies, starts);
    k := n - 1;
    BodyAt(lines, budget, bodies, starts, k);
    if at < starts[k] {
      NotInGap(lines, EndBefore(bodies, starts, k), starts[k], at);
      k := SomeBodyHolds(lines, budget, bodies, starts, at, n - 1);
    }
  }

  /** A line that fits the budget stands whole in one body. */
  lemma {:induction false} FittingLineIsWhole(lines: seq<string>, budget: nat, bodies: seq<string>, starts: seq<nat>, i: nat)
    returns (k: nat)
    requires SplitsInto(lines, budget, bodies, starts) && i < |lines| && 0 < |lines[i]| <= budget
    ensures k < |bodies| && starts[k] <= Start(lines, i) && End(lines, i) <= starts[k] + |bodies[k]|
    ensures lines[i] == bodies[k][Start(lines, i) - starts[k]..End(lines, i) - starts[k]]
  {
    hide Slices, Joined, OnlySeparators, InsideLongLine, IsSeparator, Start;
    LineIsThere(lines, i);
    NoSeparatorInLine(lines, i, Start(lines, i));
    k := SomeBodyHolds(lines, budget, bodies, starts, Start(lines, i), |bodies|);
    BodyAt(lines, budget, bodies, starts, k);
    if starts[k] + |bodies[k]| < End(lines, i) {
      CutInLine(lines, budget, bodies, starts, i, k + 1);
      assert false;
    }
    SliceOfSlice(Joined(lines), starts[k], starts[k] + |bodies[k]|, Start(lines, i) - starts[k], End(lines, i) - starts[k]);
  }

  /** A cut inside a line is inside a long one. */
  lemma CutInLine(lines: seq<string>, budget: nat, bodies: seq<string>, starts: seq<nat>, i: nat, k: nat)
    requires Slices(lines, budget, bodies, starts) && i < |lines| && 0 < k < |bodies|
    requires Start(lines, i) < EndBefore(bodies, starts, k) < End(lines, i)
    ensures |lines[i]| > budget
  {
    hide Slices, Joined, OnlySeparators, IsSeparator, Start, End;
    SlicesLength(lines, budget, bodies, starts);
    var e := EndBefore(bodies, starts, k);
    BodyAt(lines, budget, bodies, starts, k);
    SeparatorsGoOn(lines, e, starts[k]);
    if starts[k] == e {
      var j: nat :| j < |lines| && Start(lines, j) < e < End(lines, j) && |lines[j]| > budget;
      OneLine(lines, i, j, e);
    } else {
      SeparatorAt(lines, e, starts[k], e);
      NoSeparatorInLine(lines, i, e);
    }
  }

  lemma SeparatorsGoOn(lines: seq<string>, from: nat, to: nat)
    requires OnlySeparators(lines, from, to)
    ensures from <= to
  {
  }

  /** The bodies put together again, with a newline wherever a separator was
      left out. */
  function Rejoined(bodies: seq<string>, starts: seq<nat>): string
    requires |starts| == |bodies|
  {
    if bodies == [] then ""
    else
      var n := |bodies| - 1;
      var before := Rejoined(bodies[..n], starts[..n]);
      if n > 0 && starts[n] != starts[n - 1] + |bodies[n - 1]| then before + "\n" + bodies[n] else before + bodies[n]
  }

  lemma NoTwoSeparators(lines: seq<string>, at: nat)
    requires forall i :: 0 <= i < |lines| ==> lines[i] != ""
    ensures !(IsSeparator(lines, at) && IsSeparator(lines, at + 1))
    ensures !IsSeparator(lines, 0)
  {
    if IsSeparator(lines, at) && IsSeparator(lines, at + 1) {
      var i: nat :| i + 1 < |lines| && at == End(lines, i);
      var j: nat :| j + 1 < |lines| && at + 1 == End(lines, j);
      if i < j {
        Ordered(lines, i, j);
      } else if j < i {
        Ordered(lines, j, i);
      }
      assert false;
    }
  }

  lemma SeparatorIsNewline(lines: seq<string>, at: nat)
    requires IsSeparator(lines, at)
    ensures at < |Joined(lines)| && Joined(lines)[at] == '\n'
  {
    var i: nat :| i + 1 < |lines| && at == End(lines, i);
    LineIsThere(lines, i + 1);
  }

  lemma {:induction false} RejoinedPrefix(lines: seq<string>, budget: nat, bodies: seq<string>, starts: seq<nat>, n: nat)
    requires Slices(lines, budget, bodies, starts) && n <= |bodies|
    requires forall i :: 0 <= i < |lines| ==> lines[i] != ""
    ensures EndBefore(bodies, starts, n) <= |Joined(lines)|
    ensures Rejoined(bodies[..n], starts[..n]) == Joined(lines)[..EndBefore(bodies, starts, n)]
  {
    hide Slices, Joined, OnlySeparators, InsideLongLine, IsSeparator;
    SlicesLength(lines, budget, bodies, starts);
    if n > 0 {
      var text, k := Joined(lines), n - 1;
      RejoinedPrefix(lines, budget, bodies, starts, k);
      BodyAt(lines, budget, bodies, starts, k);
      var e := EndBefore(bodies, starts, k);
      assert bodies[..n][..k] == bodies[..k] && starts[..n][..k] == starts[..k];
      AtMostOneSeparator(lines, e, starts[k]);
      if starts[k] == e + 1 {
        SeparatorAt(lines, e, starts[k], e);
        SeparatorIsNewline(lines, e);
        assert text[..e] + "\n" == text[..e + 1];
      }
      assert text[..starts[k]] + text[starts[k]..starts[k] + |bodies[k]|] == text[..starts[k] + |bodies[k]|];
    }
  }

  lemma AtMostOneSeparator(lines: seq<string>, from: nat, to: nat)
    requires OnlySeparators(lines, from, to)
    requires forall i :: 0 <= i < |lines| ==> lines[i] != ""
    ensures to <= from + 1
    ensures from == 0 ==> to == 0
  {
    NoTwoSeparators(lines, from);
    if IsSeparator(lines, from) {
      NotInGap(lines, from, to, from + 1);
    } else {
      NotInGap(lines, from, to, from);
    }
  }

  /** Nothing is lost, repeated or reordered: the bodies of lines that are not
      empty, as rendered lines never are, rejoin to the joined lines. */
  lemma {:induction false} NothingIsLost(lines: seq<string>, budget: nat, bodies: seq<string>, starts: seq<nat>)
    requires SplitsInto(lines, budget, bodies, starts)
    requires forall i :: 0 <= i < |lines| ==> lines[i] != ""
    ensures Rejoined(bodies, starts) == Joined(lines)
  {
    RejoinedPrefix(lines, budget, bodies, starts, |bodies|);
    assert bodies[..|bodies|] == bodies && starts[..|bodies|] == starts;
  }

  // ----- no more bodies than needed -----

  /** Lines as the transcript renders them. */
  predicate NoEmptyLine(lines: seq<string>) {
    forall i :: 0 <= i < |lines| ==> lines[i] != ""
  }

  /** A body begins where a line was too long for what was left: the body
      before, a newline and the rest of that line exceed the budget, and
      where a line is cut the body before is full. */
  lemma BodiesAreFilled(lines: seq<string>, budget: nat, bodies: seq<string>, starts: seq<nat>, k: nat)
    returns (i: nat, o: nat)
    requires Filled(lines, budget, bodies, starts) && NoEmptyLine(lines) && 0 < k < |bodies|
    ensures i < |lines| && o < |lines[i]| && starts[k] == Start(lines, i) + o
    ensures |bodies[k - 1]| + 1 + |lines[i][o..]| > budget
    ensures o > 0 ==> |bodies[k - 1]| == budget
    ensures o == 0 ==> NoRoom(bodies[k - 1], lines[i], budget)
    ensures bodies[k] != ""
  {
    hide Start;
    assert IsFull(lines, budget, bodies[k - 1], starts[k]);
    i, o :| FullAt(lines, budget, bodies[k - 1], starts[k], i, o);
  }

  /** Each body ends before the next one begins. */
  lemma {:induction false} EndsGrow(lines: seq<string>, budget: nat, bodies: seq<string>, starts: seq<nat>,
                                    j: nat, k: nat)
    requires Slices(lines, budget, bodies, starts) && j < k <= |bodies|
    ensures starts[j] + |bodies[j]| <= EndBefore(bodies, starts, k)
    ensures k < |bodies| ==> EndBefore(bodies, starts, k) <= starts[k]
  {
    hide Slices, Joined, OnlySeparators, InsideLongLine;
    SlicesLength(lines, budget, bodies, starts);
    if k < |bodies| {
      BodyAt(lines, budget, bodies, starts, k);
      SeparatorsGoOn(lines, EndBefore(bodies, starts, k), starts[k]);
    }
    if j < k - 1 {
      EndsGrow(lines, budget, bodies, starts, j, k - 1);
    }
  }

  /** A body that begins with a line which fits holds all of it. */
  lemma LeadingLineIsWhole(lines: seq<string>, budget: nat, bodies: seq<string>, starts: seq<nat>, k: nat, i: nat)
    requires SplitsInto(lines, budget, bodies, starts) && k < |bodies| && i < |lines|
    requires starts[k] == Start(lines, i) && 0 < |lines[i]| <= budget && bodies[k] != ""
    ensures |bodies[k]| >= |lines[i]|
  {
    hide Slices, Joined, OnlySeparators, InsideLongLine, Start;
    var j := FittingLineIsWhole(lines, budget, bodies, starts, i);
    if j < k {
      EndsGrow(lines, budget, bodies, starts, j, k);
      assert false;
    } else if k < j {
      EndsGrow(lines, budget, bodies, starts, k, j);
      assert false;
    }
  }

  /** Two bodies in a row never fit one. */
  lemma NeighboursOverflow(lines: seq<string>, budget: nat, bodies: seq<string>, starts: seq<nat>, k: nat)
    requires SplitsInto(lines, budget, bodies, starts) && Filled(lines, budget, bodies, starts)
    requires NoEmptyLine(lines) && 0 < k < |bodies|
    ensures |bodies[k - 1]| + 1 + |bodies[k]| > budget
  {
    hide Slices, Joined, Filled, Start;
    var i, o := BodiesAreFilled(lines, budget, bodies, starts, k);
    if o == 0 && |bodies[k - 1]| + 1 < budget {
      LeadingLineIsWhole(lines, budget, bodies, starts, k, i);
    }
  }

  lemma {:induction false} HalfFilled(lines: seq<string>, budget: nat, bodies: seq<string>, starts: seq<nat>, n: nat)
    requires SplitsInto(lines, budget, bodies, starts) && Filled(lines, budget, bodies, starts)
    requires NoEmptyLine(lines) && 0 < n <= |bodies|
    ensures (n - 1) * budget + |bodies[n - 1]| <= 2 * EndBefore(bodies, starts, n)
  {
    hide Joined, Filled, OnlySeparators, InsideLongLine;
    if n > 1 {
      HalfFilled(lines, budget, bodies, starts, n - 1);
      NeighboursOverflow(lines, budget, bodies, starts, n - 1);
      BodyAt(lines, budget, bodies, starts, n - 1);
      SeparatorsGoOn(lines, EndBefore(bodies, starts, n - 1), starts[n - 1]);
      assert (n - 1) * budget == (n - 2) * budget + budget;
    }
  }

  /** A long text never takes more than about twice the fewest bodies that
      could hold it. */
  lemma FewBodies(lines: seq<string>, budget: nat, bodies: seq<string>, starts: seq<nat>)
    requires SplitsInto(lines, budget, bodies, starts) && Filled(lines, budget, bodies, starts) && NoEmptyLine(lines)
    ensures (|bodies| - 1) * budget <= 2 * |Joined(lines)|
  {
    hide *;
    AllIsThere(lines, budget, bodies, starts);
    HalfFilled(lines, budget, bodies, starts, |bodies|);
  }

  lemma AllIsThere(lines: seq<string>, budget: nat, bodies: seq<string>, starts: seq<nat>)
    requires SplitsInto(lines, budget, bodies, starts)
    ensures |starts| == |bodies| > 0 && EndBefore(bodies, starts, |bodies|) == |Joined(lines)|
  {
    hide Joined;
  }

  lemma BeginsAtOnce(lines: seq<string>, budget: nat, bodies: seq<string>, starts: seq<nat>)
    requires SplitsInto(lines, budget, bodies, starts) && NoEmptyLine(lines)
    ensures |starts| == |bodies| > 0 && starts[0] == 0
  {
    hide Joined;
    BodyAt(lines, budget, bodies, starts, 0);
    AtMostOneSeparator(lines, 0, starts[0]);
  }

  /** Lines that fit one body make one body. */
  lemma OneBodyIfItFits(lines: seq<string>, budget: nat, bodies: seq<string>, starts: seq<nat>)
    requires SplitsInto(lines, budget, bodies, starts) && Filled(lines, budget, bodies, starts) && NoEmptyLine(lines)
    requires |Joined(lines)| <= budget
    ensures bodies == [Joined(lines)]
  {
    hide Slices, Joined, Filled, Start, OnlySeparators, InsideLongLine;
    BeginsAtOnce(lines, budget, bodies, starts);
    BodyAt(lines, budget, bodies, starts, 0);
    if |bodies| > 1 {
      SecondIsTooFar(lines, budget, bodies, starts);
      assert false;
    }
    assert EndBefore(bodies, starts, 1) == |Joined(lines)|;
    assert Joined(lines)[0..|Joined(lines)|] == Joined(lines);
    assert bodies == [bodies[0]];
  }

  lemma SecondIsTooFar(lines: seq<string>, budget: nat, bodies: seq<string>, starts: seq<nat>)
    requires SplitsInto(lines, budget, bodies, starts) && Filled(lines, budget, bodies, starts) && NoEmptyLine(lines)
    requires |bodies| > 1
    ensures |Joined(lines)| > budget
  {
    hide Slices, Joined, Filled, Start, OnlySeparators, InsideLongLine;
    BeginsAtOnce(lines, budget, bodies, starts);
    BodyAt(lines, budget, bodies, starts, 0);
    BodyAt(lines, budget, bodies, starts, 1);
    var i, o := BodiesAreFilled(lines, budget, bodies, starts, 1);
    LineIsThere(lines, i);
    SeparatorsGoOn(lines, |bodies[0]|, starts[1]);
    if o == 0 && starts[1] == |bodies[0]| {
      CutsAreInside(lines, budget, i);
      assert false;
    }
  }

  lemma CutsAreInside(lines: seq<string>, budget: nat, i: nat)
    requires i < |lines|
    ensures !InsideLongLine(lines, budget, Start(lines, i))
  {
    if InsideLongLine(lines, budget, Start(lines, i)) {
      var j: nat :| j < |lines| && Start(lines, j) < Start(lines, i) < End(lines, j) && |lines[j]| > budget;
      if j < i {
        Ordered(lines, j, i);
      } else if i < j {
        Ordered(lines, i, j);
      }
      assert false;
    }
  }

  // ----- the messages -----

  const MAX_DM_CHARS: nat := 30_000

  function Digits(n: nat): (d: nat)
    ensures d >= 1
  {
    if n < 10 then 1 else 1 + Digits(n / 10)
  }

  function Decimal(n: nat): (s: string)
    ensures |s| == Digits(n)
  {
    if n < 10 then ["0123456789"[n]] else Decimal(n / 10) + ["0123456789"[n % 10]]
  }

  /** The number a run of digits stands for. */
  function ValueOf(s: string): int {
    if s == "" then 0 else 10 * ValueOf(s[..|s| - 1]) + (s[|s| - 1] as int - '0' as int)
  }

  lemma DigitReads(n: nat)
    requires n < 10
    ensures "0123456789"[n] as int - '0' as int == n
  {
  }

  /** A decimal reads back as its number. */
  lemma {:induction false} DecimalReads(n: nat)
    ensures ValueOf(Decimal(n)) == n
  {
    var s := Decimal(n);
    DigitReads(n % 10);
    if n < 10 {
      assert s[..0] == "";
    } else {
      DecimalReads(n / 10);
      assert s[..|s| - 1] == Decimal(n / 10);
    }
  }

  function PartOf(i: nat, n: nat): string {
    ", part " + Decimal(i) + "/" + Decimal(n)
  }

  function TranscriptHeader(dispute: string, messages: nat, part: string): string {
    "Dispute " + dispute + " \U{00B7} transcript (" + Decimal(messages) + " messages, times UTC" + part + ")"
  }

  /** What a part's body may hold: the header is counted with three digits
      each, and the newline after it is not counted. */
  function TranscriptBudget(dispute: string, messages: nat): int {
    MAX_DM_CHARS - |TranscriptHeader(dispute, messages, PartOf(999, 999))|
  }

  function Single(dispute: string, lines: seq<string>): string {
    Joined([TranscriptHeader(dispute, |lines|, "")] + lines)
  }

  function TranscriptPart(dispute: string, messages: nat, i: nat, n: nat, body: string): string {
    TranscriptHeader(dispute, messages, PartOf(i, n)) + "\n" + body
  }

  /** One message, or parts numbered from 1 over exactly the rendered
      lines. */
  method Transcript(dispute: string, lines: seq<string>)
    returns (parts: seq<string>, ghost bodies: seq<string>, ghost starts: seq<nat>)
    requires TranscriptBudget(dispute, |lines|) >= 1
    ensures |Single(dispute, lines)| <= MAX_DM_CHARS ==> parts == [Single(dispute, lines)]
    ensures |Single(dispute, lines)| > MAX_DM_CHARS ==>
              && SplitsInto(lines, TranscriptBudget(dispute, |lines|), bodies, starts)
              && Filled(lines, TranscriptBudget(dispute, |lines|), bodies, starts)
              && |parts| == |bodies|
              && forall i :: 0 <= i < |parts| ==>
                   parts[i] == TranscriptPart(dispute, |lines|, i + 1, |parts|, bodies[i])
  {
    hide SplitsInto, Filled, Joined, TranscriptPart;
    bodies, starts := [], [];
    var single := Single(dispute, lines);
    if |single| <= MAX_DM_CHARS {
      return [single], [], [];
    }
    var chunks;
    chunks, starts := Chunk(lines, TranscriptBudget(dispute, |lines|));
    bodies := chunks;
    parts := [];
    for i := 0 to |chunks|
      invariant |parts| == i
      invariant forall j :: 0 <= j < i ==> parts[j] == TranscriptPart(dispute, |lines|, j + 1, |chunks|, chunks[j])
    {
      parts := parts + [TranscriptPart(dispute, |lines|, i + 1, |chunks|, chunks[i])];
    }
  }

  lemma HeaderLength(dispute: string, messages: nat, i: nat, n: nat)
    ensures |TranscriptHeader(dispute, messages, PartOf(i, n))|
         == MAX_DM_CHARS - TranscriptBudget(dispute, messages) + Digits(i) + Digits(n) - 6
  {
    assert Digits(999) == 3 by {
      assert Digits(99) == 2;
    }
    assert |PartOf(i, n)| == 8 + Digits(i) + Digits(n);
    assert |PartOf(999, 999)| == 14;
  }

  /** Exactly when a part is short enough: its number and the count of parts
      may have five digits together, or its body must leave room. */
  lemma PartFitsIff(dispute: string, messages: nat, i: nat, n: nat, body: string)
    ensures |TranscriptPart(dispute, messages, i, n, body)| <= MAX_DM_CHARS <==>
            |body| + Digits(i) + Digits(n) <= TranscriptBudget(dispute, messages) + 5
  {
    HeaderLength(dispute, messages, i, n);
  }

  lemma FewDigits(i: nat, n: nat)
    requires i <= n <= 99
    ensures Digits(i) <= 2 && Digits(n) <= 2
  {
    assert Digits(i / 10) == 1 && Digits(n / 10) == 1;
  }

  /** Up to 99 parts, every part is within the limit. */
  lemma PartsFit(dispute: string, lines: seq<string>, bodies: seq<string>, starts: seq<nat>, i: nat)
    requires TranscriptBudget(dispute, |lines|) >= 1
    requires SplitsInto(lines, TranscriptBudget(dispute, |lines|), bodies, starts)
    requires |bodies| <= 99 && i < |bodies|
    ensures |TranscriptPart(dispute, |lines|, i + 1, |bodies|, bodies[i])| <= 30_000
  {
    hide Joined;
    FewDigits(i + 1, |bodies|);
    BodyAt(lines, TranscriptBudget(dispute, |lines|), bodies, starts, i);
    PartFitsIff(dispute, |lines|, i + 1, |bodies|, bodies[i]);
  }

  /** From the hundredth part on, a full body is one character too long. */
  lemma AFullHundredthPartIsTooLong(dispute: string, messages: nat, i: nat, n: nat, body: string)
    requires 100 <= i <= n <= 999 && |body| == TranscriptBudget(dispute, messages)
    ensures |TranscriptPart(dispute, messages, i, n, body)| == 30_001
  {
    HeaderLength(dispute, messages, i, n);
    assert Digits(i / 10) == 2 && Digits(n / 10) == 2 by {
      assert Digits(i / 10 / 10) == 1 && Digits(n / 10 / 10) == 1;
    }
  }

  function UpdateHeader(dispute: string, messages: nat): string {
    "Dispute " + dispute + " \U{00B7} new messages since handoff (" + Decimal(messages) + ")"
  }

  /** Updates count the newline: every part is within the limit. */
  method Update(dispute: string, lines: seq<string>)
    returns (parts: seq<string>, ghost bodies: seq<string>, ghost starts: seq<nat>)
    requires |UpdateHeader(dispute, |lines|)| + 1 < MAX_DM_CHARS
    ensures SplitsInto(lines, MAX_DM_CHARS - |UpdateHeader(dispute, |lines|)| - 1, bodies, starts)
    ensures Filled(lines, MAX_DM_CHARS - |UpdateHeader(dispute, |lines|)| - 1, bodies, starts)
    ensures |parts| == |bodies|
    ensures forall i :: 0 <= i < |parts| ==> parts[i] == UpdateHeader(dispute, |lines|) + "\n" + bodies[i]
    ensures parts != [] && forall i :: 0 <= i < |parts| ==> |parts[i]| <= 30_000
  {
    hide Joined, InsideLongLine, OnlySeparators, Slices, BodyOk, UpdateHeader, Filled;
    var header := UpdateHeader(dispute, |lines|);
    var chunks;
    chunks, starts := Chunk(lines, MAX_DM_CHARS - |header| - 1);
    bodies := chunks;
    parts := [];
    for i := 0 to |chunks|
      invariant |parts| == i
      invariant forall j :: 0 <= j < i ==> parts[j] == header + "\n" + chunks[j] && |parts[j]| <= MAX_DM_CHARS
    {
      BodyAt(lines, MAX_DM_CHARS - |header| - 1, bodies, starts, i);
      parts := parts + [header + "\n" + chunks[i]];
    }
  }
}

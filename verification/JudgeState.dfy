/** What the judge is shown (src/judge/state.rs): which messages are a
    party's latest, and the identifiers taken out of the text. */
module JudgeState {
  import opened Domain
  import opened MessageLog
  import opened Views

  // ----- the latest messages of each party -----

  /** Position `i` of the transcript gets the short id `m{i+1}`; the lists
      hold positions. */
  function Latest(transcript: seq<Message>, p: Party): (r: seq<nat>)
    ensures forall i :: i in r ==> i < |transcript|
  {
    if transcript == [] then []
    else
      var n := |transcript| - 1;
      var before := Latest(transcript[..n], p);
      var m := transcript[n];
      if IsOut(m, p) then [] else if IsIn(m, p) then before + [n] else before
  }

  predicate Wrote(transcript: seq<Message>, p: Party) {
    Latest(transcript, p) != []
  }

  /** `build` keeps both lists while it walks the transcript: a message from
      Serbero clears the list of the party it goes to. */
  method BuildLatest(transcript: seq<Message>) returns (buyer: seq<nat>, seller: seq<nat>)
    ensures buyer == Latest(transcript, Buyer) && seller == Latest(transcript, Seller)
  {
    buyer, seller := [], [];
    for i := 0 to |transcript|
      invariant buyer == Latest(transcript[..i], Buyer) && seller == Latest(transcript[..i], Seller)
    {
      var m := transcript[i];
      assert transcript[..i + 1][..i] == transcript[..i];
      match (m.direction, m.party)
      case (Out, Buyer) => buyer := [];
      case (Out, Seller) => seller := [];
      case (In, Buyer) => buyer := buyer + [i];
      case (In, Seller) => seller := seller + [i];
    }
    assert transcript[..|transcript|] == transcript;
  }

  /** The evaluation's own definition (eval/spike/run.py): where Serbero last
      wrote to the party, and the party's messages after it. */
  function LastTo(transcript: seq<Message>, p: Party): (r: int)
    ensures -1 <= r < |transcript|
    ensures r >= 0 ==> IsOut(transcript[r], p)
    ensures forall i :: r < i < |transcript| ==> !IsOut(transcript[i], p)
  {
    if transcript == [] then -1
    else
      var n := |transcript| - 1;
      assert forall i :: 0 <= i < n ==> transcript[..n][i] == transcript[i];
      if IsOut(transcript[n], p) then n else LastTo(transcript[..n], p)
  }

  /** The position, if it holds a message of the party's. */
  function Here(transcript: seq<Message>, p: Party, i: nat): seq<nat>
    requires i < |transcript|
  {
    if IsIn(transcript[i], p) then [i] else []
  }

  function InFrom(transcript: seq<Message>, p: Party, start: nat): seq<nat>
    requires start <= |transcript|
    decreases |transcript| - start
  {
    if start == |transcript| then []
    else Here(transcript, p, start) + InFrom(transcript, p, start + 1)
  }

  lemma InFromSame(transcript: seq<Message>, p: Party, start: nat)
    requires start < |transcript| - 1
    ensures var before := transcript[..|transcript| - 1];
            && InFrom(transcript, p, start) == Here(transcript, p, start) + InFrom(transcript, p, start + 1)
            && InFrom(before, p, start) == Here(transcript, p, start) + InFrom(before, p, start + 1)
  {
    assert transcript[..|transcript| - 1][start] == transcript[start];
  }

  lemma Associates(a: seq<nat>, b: seq<nat>, c: seq<nat>)
    ensures a + (b + c) == a + b + c
  {
  }

  lemma {:induction false} InFromExtends(transcript: seq<Message>, p: Party, start: nat)
    requires start < |transcript|
    ensures var n := |transcript| - 1;
            InFrom(transcript, p, start) == InFrom(transcript[..n], p, start) + Here(transcript, p, n)
    decreases |transcript| - start
  {
    hide Here;
    var n := |transcript| - 1;
    if start < n {
      hide InFrom;
      InFromExtends(transcript, p, start + 1);
      InFromSame(transcript, p, start);
      Associates(Here(transcript, p, start), InFrom(transcript[..n], p, start + 1), Here(transcript, p, n));
    } else {
      InFromLast(transcript, p);
    }
  }

  lemma InFromLast(transcript: seq<Message>, p: Party)
    requires transcript != []
    ensures var n := |transcript| - 1;
            InFrom(transcript, p, n) == Here(transcript, p, n) && InFrom(transcript[..n], p, n) == []
  {
    assert InFrom(transcript, p, |transcript|) == [];
  }

  lemma EarlierLastTo(transcript: seq<Message>, p: Party)
    requires transcript != [] && !IsOut(transcript[|transcript| - 1], p)
    ensures LastTo(transcript, p) == LastTo(transcript[..|transcript| - 1], p)
  {
  }

  /** Both definitions name the same messages. */
  lemma {:induction false} LatestIsSinceLastOut(transcript: seq<Message>, p: Party)
    ensures Latest(transcript, p) == InFrom(transcript, p, LastTo(transcript, p) + 1)
  {
    if transcript != [] {
      var n := |transcript| - 1;
      LatestIsSinceLastOut(transcript[..n], p);
      if !IsOut(transcript[n], p) {
        EarlierLastTo(transcript, p);
        InFromExtends(transcript, p, LastTo(transcript, p) + 1);
      }
    }
  }

  lemma LatestAre(transcript: seq<Message>, p: Party, i: nat)
    requires i < |transcript|
    ensures i in Latest(transcript, p) <==>
            IsIn(transcript[i], p) && forall j :: i < j < |transcript| ==> !IsOut(transcript[j], p)
  {
    var n := |transcript| - 1;
    if i < n {
      LatestAre(transcript[..n], p, i);
      assert transcript[..n][i] == transcript[i];
      assert forall j :: i < j < n ==> transcript[..n][j] == transcript[j];
    }
  }

  // ----- a reply that is never judged -----

  /** The party's newest reply is among the messages a turn judges exactly
      when it is not stamped before a message Serbero sent the party, although
      the clocks and the history count it as a reply whatever its time. */
  lemma ReplyIsLatestIff(log: seq<Message>, reply: Message, p: Party, i: nat)
    requires Arrival(log + [reply]) && IsIn(reply, p)
    requires i < |Listed(log + [reply])| && Listed(log + [reply])[i] == reply
    ensures !Owes(log + [reply], p)
    ensures i in Latest(Listed(log + [reply]), p) <==>
            forall m :: m in log && IsOut(m, p) ==> m.createdAt <= reply.createdAt
  {
    hide Listed, Latest;
    var listed := Listed(log + [reply]);
    LatestAre(listed, p, i);
    ReplyIsNewest(log, reply);
    if j :| i < j < |listed| && IsOut(listed[j], p) {
      ListedInOrder(log + [reply], i, j);
      assert listed[j] in listed;
    }
    forall m | m in log && IsOut(m, p) && m.createdAt > reply.createdAt
      ensures exists j :: i < j < |listed| && IsOut(listed[j], p)
    {
      var j :| 0 <= j < |listed| && listed[j] == m;
      if j < i {
        ListedInOrder(log + [reply], j, i);
      }
    }
  }

  lemma ListedInOrder(log: seq<Message>, i: nat, j: nat)
    requires i < j < |Listed(log)|
    ensures Before(ByTime, Listed(log)[i], Listed(log)[j])
  {
    SortIsSortedPermutation(ByTime, log);
  }

  lemma ReplyIsNewest(log: seq<Message>, reply: Message)
    requires Arrival(log + [reply])
    ensures forall m :: m in Listed(log + [reply]) <==> m in log || m == reply
    ensures forall m :: m in log ==> m.id < reply.id
  {
    var all := log + [reply];
    ListedElements(all);
    forall m | m in log
      ensures m.id < reply.id
    {
      var k :| 0 <= k < |log| && log[k] == m;
      assert all[k] == m && all[|log|] == reply;
    }
  }

  /** A turn finds something of the party's to judge exactly when one of its
      messages comes, by time and then by arrival, after everything Serbero
      sent it. */
  lemma WroteIff(log: seq<Message>, p: Party)
    requires Arrival(log)
    ensures Wrote(Listed(log), p) <==>
            exists m :: m in log && IsIn(m, p) && forall x :: x in log && IsOut(x, p) ==> Before(ByTime, x, m)
  {
    hide Listed, Latest, Before;
    var listed := Listed(log);
    ListedElements(log);
    if Wrote(listed, p) {
      var i := Latest(listed, p)[0];
      assert i in Latest(listed, p);
      LatestAre(listed, p, i);
      assert listed[i] in listed;
      forall x | x in log && IsOut(x, p)
        ensures Before(ByTime, x, listed[i])
      {
        var j :| 0 <= j < |listed| && listed[j] == x;
        if j < i {
          ListedInOrder(log, j, i);
        }
      }
    }
    if m :| m in log && IsIn(m, p) && forall x :: x in log && IsOut(x, p) ==> Before(ByTime, x, m) {
      var i :| 0 <= i < |listed| && listed[i] == m;
      LatestAre(listed, p, i);
      forall j | i < j < |listed|
        ensures !IsOut(listed[j], p)
      {
        if IsOut(listed[j], p) {
          assert listed[j] in listed;
          ListedInOrder(log, i, j);
          BeforeOneWay(log, listed[j], m);
        }
      }
    }
  }

  lemma BeforeOneWay(log: seq<Message>, a: Message, b: Message)
    requires Arrival(log) && a in log && b in log && Before(ByTime, a, b) && Before(ByTime, b, a)
    ensures a == b
  {
    var i, j :| 0 <= i < |log| && 0 <= j < |log| && log[i] == a && log[j] == b;
  }

  // ----- identifiers taken out of the text -----

  const REDACTED := "[redacted]"

  predicate IsWordChar(c: char) {
    'a' <= c <= 'z' || 'A' <= c <= 'Z' || '0' <= c <= '9'
  }

  predicate IsWord(w: string) {
    forall i :: 0 <= i < |w| ==> IsWordChar(w[i])
  }

  /** Empty, or beginning with a character that is in no word. */
  predicate IsGap(text: string) {
    text == "" || !IsWordChar(text[0])
  }

  /** How long the word at the start of the text is. */
  function WordLength(text: string): (n: nat)
    ensures n <= |text| && IsWord(text[..n]) && IsGap(text[n..])
  {
    if IsGap(text) then 0 else 1 + WordLength(text[1..])
  }

  function Replaced(w: string, isId: string -> bool): string {
    if isId(w) then REDACTED else w
  }

  /** Every maximal run of letters and digits that is an identifier is
      replaced; the rest stays. */
  function Redacted(text: string, isId: string -> bool): string
    decreases |text|
  {
    if text == "" then ""
    else if !IsWordChar(text[0]) then [text[0]] + Redacted(text[1..], isId)
    else
      var n := WordLength(text);
      Replaced(text[..n], isId) + Redacted(text[n..], isId)
  }

  lemma WordIsWhole(w: string, rest: string)
    requires IsWord(w) && IsGap(rest)
    ensures WordLength(w + rest) == |w|
  {
    if w == "" {
      assert w + rest == rest;
    } else {
      assert (w + rest)[1..] == w[1..] + rest;
      WordIsWhole(w[1..], rest);
    }
  }

  lemma RedactedThenGap(c: char, rest: string, isId: string -> bool)
    requires !IsWordChar(c)
    ensures Redacted([c] + rest, isId) == [c] + Redacted(rest, isId)
  {
    assert ([c] + rest)[1..] == rest;
  }

  lemma RedactedThenWord(w: string, rest: string, isId: string -> bool)
    requires IsWord(w) && w != "" && IsGap(rest)
    ensures Redacted(w + rest, isId) == Replaced(w, isId) + Redacted(rest, isId)
  {
    WordIsWhole(w, rest);
    assert (w + rest)[..|w|] == w && (w + rest)[|w|..] == rest;
  }

  /** `redact`: one pass with the start of the current word, and a sentinel
      after the last character. */
  method Redact(text: string, isId: string -> bool) returns (out: string)
    ensures out == Redacted(text, isId)
  {
    hide Redacted, Replaced, IsWordChar;
    out := "";
    var wordStart: Option<nat> := None;
    assert text[0..] == text && out + Redacted(text, isId) == Redacted(text, isId);
    for i := 0 to |text| + 1
      invariant wordStart.Some? ==> wordStart.value < i <= |text| && IsWord(text[wordStart.value..i])
      invariant i == |text| + 1 ==> wordStart.None? && out == Redacted(text, isId)
      invariant i <= |text| ==>
                  Redacted(text, isId) == out + Redacted(text[if wordStart.Some? then wordStart.value else i..], isId)
    {
      if i < |text| && IsWordChar(text[i]) {
        var start: nat := if wordStart.Some? then wordStart.value else i;
        assert text[start..i + 1] == text[start..i] + [text[i]];
        wordStart := Some(start);
      } else {
        if wordStart.Some? {
          var word := text[wordStart.value..i];
          Spelled(text, wordStart.value, i, isId);
          out := out + Replaced(word, isId);
          wordStart := None;
        }
        if i < |text| {
          assert text[i..] == [text[i]] + text[i + 1..];
          RedactedThenGap(text[i], text[i + 1..], isId);
          out := out + [text[i]];
        } else {
          NothingRedacted(text[i..], isId);
        }
      }
    }
  }

  lemma NothingRedacted(text: string, isId: string -> bool)
    requires text == ""
    ensures Redacted(text, isId) == ""
  {
  }

  lemma Spelled(text: string, start: nat, i: nat, isId: string -> bool)
    requires start < i <= |text| && IsWord(text[start..i]) && (i < |text| ==> !IsWordChar(text[i]))
    ensures Redacted(text[start..], isId) == Replaced(text[start..i], isId) + Redacted(text[i..], isId)
  {
    assert text[start..] == text[start..i] + text[i..];
    RedactedThenWord(text[start..i], text[i..], isId);
  }

  // ----- what redaction means -----

  lemma RedactedGap(text: string, isId: string -> bool)
    requires IsGap(text)
    ensures IsGap(Redacted(text, isId))
  {
  }

  /** Text is redacted piece by piece: any character outside the words
      splits it. With `WordsStay`, this fixes the result. */
  lemma {:induction false} RedactedSplits(a: string, c: char, b: string, isId: string -> bool)
    requires !IsWordChar(c)
    ensures Redacted(a + [c] + b, isId) == Redacted(a, isId) + [c] + Redacted(b, isId)
    decreases |a|
  {
    hide Redacted, Replaced, WordLength;
    if a == "" {
      assert a + [c] + b == [c] + b;
      RedactedThenGap(c, b, isId);
      NothingRedacted(a, isId);
    } else if !IsWordChar(a[0]) {
      RedactedSplits(a[1..], c, b, isId);
      assert a + [c] + b == [a[0]] + (a[1..] + [c] + b) && a == [a[0]] + a[1..];
      RedactedThenGap(a[0], a[1..] + [c] + b, isId);
      RedactedThenGap(a[0], a[1..], isId);
      Regroup([a[0]], Redacted(a[1..], isId), [c], Redacted(b, isId));
    } else {
      var n := WordLength(a);
      var w, rest := a[..n], a[n..];
      WordIsNotEmpty(a);
      assert a == w + rest && a + [c] + b == w + (rest + [c] + b);
      RedactedSplits(rest, c, b, isId);
      RedactedThenWord(w, rest, isId);
      RedactedThenWord(w, rest + [c] + b, isId);
      Regroup(Replaced(w, isId), Redacted(rest, isId), [c], Redacted(b, isId));
    }
  }

  lemma WordIsNotEmpty(text: string)
    requires !IsGap(text)
    ensures WordLength(text) > 0
  {
  }

  lemma Regroup(a: string, b: string, c: string, d: string)
    ensures a + (b + c + d) == a + b + c + d
  {
  }

  /** The words of a text, in order. */
  function Words(text: string): seq<string>
    decreases |text|
  {
    if text == "" then []
    else if !IsWordChar(text[0]) then Words(text[1..])
    else
      var n := WordLength(text);
      [text[..n]] + Words(text[n..])
  }

  function Renamed(words: seq<string>, isId: string -> bool): seq<string> {
    if words == [] then [] else [if isId(words[0]) then "redacted" else words[0]] + Renamed(words[1..], isId)
  }

  lemma WordsOfWord(w: string, rest: string)
    requires IsWord(w) && w != "" && IsGap(rest)
    ensures Words(w + rest) == [w] + Words(rest)
  {
    WordIsWhole(w, rest);
    assert (w + rest)[..|w|] == w && (w + rest)[|w|..] == rest;
  }

  lemma WordsOfRedaction(rest: string)
    ensures Words(REDACTED + rest) == ["redacted"] + Words(rest)
  {
    var after := "]" + rest;
    assert (REDACTED + rest)[1..] == "redacted" + after;
    WordsOfWord("redacted", after);
    assert after[1..] == rest;
  }

  /** Every word stays, in order, but the identifiers. */
  lemma {:induction false} WordsStay(text: string, isId: string -> bool)
    ensures Words(Redacted(text, isId)) == Renamed(Words(text), isId)
    decreases |text|
  {
    if text != "" {
      if !IsWordChar(text[0]) {
        WordsStay(text[1..], isId);
        assert Redacted(text, isId)[1..] == Redacted(text[1..], isId);
      } else {
        var n := WordLength(text);
        var w, rest := text[..n], Redacted(text[n..], isId);
        WordsStay(text[n..], isId);
        RedactedGap(text[n..], isId);
        if isId(w) {
          WordsOfRedaction(rest);
        } else {
          WordsOfWord(w, rest);
        }
        assert Words(text)[1..] == Words(text[n..]);
      }
    }
  }

  lemma RenamedAreClean(words: seq<string>, isId: string -> bool)
    requires !isId("redacted")
    ensures forall w :: w in Renamed(words, isId) ==> !isId(w)
  {
  }

  lemma {:induction false} CleanTextStays(text: string, isId: string -> bool)
    requires forall w :: w in Words(text) ==> !isId(w)
    ensures Redacted(text, isId) == text
    decreases |text|
  {
    hide Redacted, WordLength;
    NothingRedacted("", isId);
    if text != "" {
      if !IsWordChar(text[0]) {
        CleanTextStays(text[1..], isId);
        assert [text[0]] + text[1..] == text;
        RedactedThenGap(text[0], text[1..], isId);
      } else {
        var n := WordLength(text);
        WordIsNotEmpty(text);
        WordsOfWord(text[..n], text[n..]);
        assert text[..n] + text[n..] == text;
        assert Words(text)[0] in Words(text) && forall w :: w in Words(text[n..]) ==> w in Words(text);
        CleanTextStays(text[n..], isId);
        RedactedThenWord(text[..n], text[n..], isId);
      }
    }
  }

  /** No identifier is left, and redacting again changes nothing. */
  lemma NoIdentifierIsLeft(text: string, isId: string -> bool)
    requires !isId("redacted")
    ensures forall w :: w in Words(Redacted(text, isId)) ==> !isId(w)
    ensures Redacted(Redacted(text, isId), isId) == Redacted(text, isId)
  {
    WordsStay(text, isId);
    RenamedAreClean(Words(text), isId);
    CleanTextStays(Redacted(text, isId), isId);
  }

  lemma WholeWord(w: string, isId: string -> bool)
    requires w != "" && IsWord(w)
    ensures Redacted(w, isId) == Replaced(w, isId)
  {
    WordIsWhole(w, "");
    assert w + "" == w && w[..|w|] == w && w[|w|..] == "";
    NothingRedacted("", isId);
    assert Replaced(w, isId) + "" == Replaced(w, isId);
  }

  /** Wherever it stands, an identifier of letters and digits between two
      other characters is replaced, and what is around it is redacted on its
      own. */
  lemma {:induction false} IdentifierIsTakenOut(a: string, c: char, w: string, d: char, b: string, isId: string -> bool)
    requires w != "" && isId(w) && forall i :: 0 <= i < |w| ==> IsAlphanumeric(w[i])
    requires !IsAlphanumeric(c) && !IsAlphanumeric(d)
    ensures Redacted(a + [c] + w + [d] + b, isId) == Redacted(a, isId) + [c] + "[redacted]" + [d] + Redacted(b, isId)
  {
    hide Redacted;
    RedactedSplits(a, c, w + [d] + b, isId);
    assert a + [c] + w + [d] + b == a + [c] + (w + [d] + b);
    RedactedSplits(w, d, b, isId);
    WholeWord(w, isId);
    var rest := Redacted(b, isId);
    assert Redacted(a, isId) + [c] + ("[redacted]" + [d] + rest) == Redacted(a, isId) + [c] + "[redacted]" + [d] + rest;
  }
}

/** The `sessions` table (src/store/sessions.rs): guarded updates of one row,
    and the table they run on. */
module Sessions {
  import opened Domain

  datatype State = Opening | Active | Guiding | HandedOff | Closed | Superseded
  {
    predicate Terminal() {
      Closed? || Superseded?
    }

    /** Serbero mediates: it may still ask, remind and guide. */
    predicate Mediating() {
      Opening? || Active? || Guiding?
    }

    function Rank(): nat {
      match this
      case Opening => 0
      case Active => 1
      case Guiding => 2
      case HandedOff => 3
      case Closed => 4
      case Superseded => 4
    }
  }

  datatype Row = Row(
    dispute: string,
    state: State,
    buyerLanguage: Option<Language>,
    sellerLanguage: Option<Language>,
    buyerCursor: Option<int>,
    sellerCursor: Option<int>,
    rounds: nat,
    buyerRounds: nat,
    sellerRounds: nat,
    handoffReason: Option<Reason>,
    openedAt: int,
    updatedAt: int)
  {
    function RoundsOf(p: Party): nat {
      if p == Buyer then buyerRounds else sellerRounds
    }

    /** The language the party is addressed in: detected, or the default. */
    function LanguageOf(p: Party, default: Language): Language {
      var lang := if p == Buyer then buyerLanguage else sellerLanguage;
      if lang.Some? then lang.value else default
    }

    function CursorOf(p: Party): Option<int> {
      if p == Buyer then buyerCursor else sellerCursor
    }
  }

  function NewRow(dispute: string, now: int): Row {
    Row(dispute, Opening, None, None, None, None, 0, 0, 0, None, now, now)
  }

  // ----- the guarded updates, on one row -----

  /** Claims the session for a handoff, only while Serbero mediates it. */
  function HandOffRow(row: Row, reason: Reason, now: int): Row {
    if row.state.Mediating() then row.(state := HandedOff, handoffReason := Some(reason), updatedAt := now) else row
  }

  /** Moves a live session to `state`; a terminal one never changes. */
  function SetStateRow(row: Row, state: State, now: int): Row {
    if row.state.Terminal() then row else row.(state := state, updatedAt := now)
  }

  function StartGuidingRow(row: Row, now: int): Row {
    if row.state.Active? then row.(state := Guiding, updatedAt := now) else row
  }

  function CountRoundRow(row: Row, p: Party, firstInTurn: bool, now: int): Row {
    row.(rounds := row.rounds + if firstInTurn then 1 else 0,
         buyerRounds := row.buyerRounds + if p.Buyer? then 1 else 0,
         sellerRounds := row.sellerRounds + if p.Seller? then 1 else 0,
         updatedAt := now)
  }

  function SetLanguageRow(row: Row, p: Party, lang: Language, now: int): Row {
    match p
    case Buyer => row.(buyerLanguage := Some(lang), updatedAt := now)
    case Seller => row.(sellerLanguage := Some(lang), updatedAt := now)
  }

  function AdvanceCursorRow(row: Row, p: Party, cursor: int, now: int): Row {
    var stored := row.CursorOf(p);
    var moved := Some(Max(if stored.Some? then stored.value else 0, cursor));
    match p
    case Buyer => row.(buyerCursor := moved, updatedAt := now)
    case Seller => row.(sellerCursor := moved, updatedAt := now)
  }

  // ----- the table -----

  datatype InsertResult = RowInserted | LiveSessionExists | DuplicateId

  /** At most one live session per dispute. */
  predicate OneLivePerDispute(rows: map<string, Row>) {
    forall a, b :: (a in rows && b in rows && rows[a].dispute == rows[b].dispute
                    && !rows[a].state.Terminal() && !rows[b].state.Terminal()) ==> a == b
  }

  predicate HasLive(rows: map<string, Row>, dispute: string) {
    exists id :: id in rows && rows[id].dispute == dispute && !rows[id].state.Terminal()
  }

  class SessionTable {
    var rows: map<string, Row>

    predicate Valid()
      reads this
    {
      OneLivePerDispute(rows)
    }

    constructor ()
      ensures Valid() && rows == map[]
    {
      rows := map[];
    }

    method Insert(id: string, dispute: string, now: int) returns (r: InsertResult)
      requires Valid()
      modifies this
      ensures Valid()
      ensures r.LiveSessionExists? <==> id !in old(rows) && HasLive(old(rows), dispute)
      ensures r.DuplicateId? <==> id in old(rows)
      ensures rows == if r.RowInserted? then old(rows)[id := NewRow(dispute, now)] else old(rows)
    {
      if id in rows {
        return DuplicateId;
      }
      if HasLive(rows, dispute) {
        return LiveSessionExists;
      }
      rows := rows[id := NewRow(dispute, now)];
      r := RowInserted;
    }

    /** The live session of a dispute; the index makes it the only one. */
    method LiveForDispute(dispute: string) returns (r: Option<string>)
      requires Valid()
      ensures r.Some? <==> HasLive(rows, dispute)
      ensures r.Some? ==> r.value in rows && rows[r.value].dispute == dispute && !rows[r.value].state.Terminal()
      ensures r.Some? ==> forall id :: (id in rows && rows[id].dispute == dispute && !rows[id].state.Terminal()) ==>
                                         id == r.value
    {
      if HasLive(rows, dispute) {
        var id :| id in rows && rows[id].dispute == dispute && !rows[id].state.Terminal();
        r := Some(id);
      } else {
        r := None;
      }
    }

    /** Returns whether this call claimed the session. */
    method HandOff(id: string, reason: Reason, now: int) returns (claimed: bool)
      requires Valid()
      modifies this
      ensures Valid()
      ensures claimed <==> id in old(rows) && old(rows)[id].state.Mediating()
      ensures rows == if id in old(rows) then old(rows)[id := HandOffRow(old(rows)[id], reason, now)] else old(rows)
    {
      claimed := id in rows && rows[id].state.Mediating();
      if id in rows {
        rows := rows[id := HandOffRow(rows[id], reason, now)];
      }
    }

    method SetState(id: string, state: State, now: int) returns (updated: bool)
      requires Valid()
      modifies this
      ensures Valid()
      ensures updated <==> id in old(rows) && !old(rows)[id].state.Terminal()
      ensures rows == if id in old(rows) then old(rows)[id := SetStateRow(old(rows)[id], state, now)] else old(rows)
    {
      updated := id in rows && !rows[id].state.Terminal();
      if id in rows {
        rows := rows[id := SetStateRow(rows[id], state, now)];
      }
    }

    method StartGuiding(id: string, now: int) returns (started: bool)
      requires Valid()
      modifies this
      ensures Valid()
      ensures started <==> id in old(rows) && old(rows)[id].state.Active?
      ensures rows == if id in old(rows) then old(rows)[id := StartGuidingRow(old(rows)[id], now)] else old(rows)
    {
      started := id in rows && rows[id].state.Active?;
      if id in rows {
        rows := rows[id := StartGuidingRow(rows[id], now)];
      }
    }

    method CountRound(id: string, p: Party, firstInTurn: bool, now: int)
      requires Valid()
      modifies this
      ensures Valid()
      ensures id !in old(rows) ==> rows == old(rows)
      ensures id in old(rows) ==>
                var row := old(rows)[id];
                rows == old(rows)[id := row.(rounds := if firstInTurn then row.rounds + 1 else row.rounds,
                                             buyerRounds := if p == Buyer then row.buyerRounds + 1 else row.buyerRounds,
                                             sellerRounds := if p == Seller then row.sellerRounds + 1 else row.sellerRounds,
                                             updatedAt := now)]
    {
      if id in rows {
        rows := rows[id := CountRoundRow(rows[id], p, firstInTurn, now)];
      }
    }

    method AdvanceCursor(id: string, p: Party, cursor: int, now: int)
      requires Valid()
      modifies this
      ensures Valid()
      ensures rows == if id in old(rows) then old(rows)[id := AdvanceCursorRow(old(rows)[id], p, cursor, now)]
                      else old(rows)
    {
      if id in rows {
        rows := rows[id := AdvanceCursorRow(rows[id], p, cursor, now)];
      }
    }
  }

  /** The cursor never moves back, and a cursor clamped to the local clock
      keeps the stored one at or before it. */
  lemma CursorIsMonotone(row: Row, p: Party, outer: int, now: int)
    ensures var after := AdvanceCursorRow(row, p, Min(outer, now), now);
            && after.CursorOf(p).Some?
            && (row.CursorOf(p).Some? ==> row.CursorOf(p).value <= after.CursorOf(p).value)
            && after.CursorOf(p).value >= Min(outer, now)
            && after.CursorOf(p).value in {Min(outer, now), if row.CursorOf(p).Some? then row.CursorOf(p).value else 0}
            && after.CursorOf(p.Other()) == row.CursorOf(p.Other())
            && (now >= 0 && (row.CursorOf(p).Some? ==> row.CursorOf(p).value <= now) ==> after.CursorOf(p).value <= now)
  {
  }
}

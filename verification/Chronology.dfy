/** Demo rows made no older than what they belong to, by a bounded number of rounds. */
module Chronology {
  import opened Results

  /** A row's table and id; rows without an id have none. */
  datatype Key = Key(table: string, id: Option<string>)

  /** A row object: what it belongs to never changes, its times do if it is stamped. */
  class Row {
    const key: Key
    const refs: seq<Key>
    const stamped: bool
    var created: Option<int>
    var updated: Option<int>

    constructor (key: Key, refs: seq<Key>, stamped: bool, created: Option<int>, updated: Option<int>)
      ensures this.key == key && this.refs == refs && this.stamped == stamped
      ensures this.created == created && this.updated == updated
    {
      this.key, this.refs, this.stamped := key, refs, stamped;
      this.created, this.updated := created, updated;
    }
  }

  type Times = map<Row, Option<int>>

  const ROUNDS := 10

  function Max(a: int, b: int): int { if a < b then b else a }

  function Or(a: Option<int>, b: int): int { if a.Some? then a.value else b }

  // ---------------------------------------------------------------- parents and chains

  /** The rows by key, the last of equal keys. */
  function ByKey(rows: seq<Row>): (found: map<Key, Row>)
    ensures forall key <- found :: found[key] in rows && found[key].key == key
    ensures forall row <- rows :: row.key in found
  {
    if rows == [] then map[]
    else
      var before := ByKey(rows[..|rows| - 1]);
      assert rows == rows[..|rows| - 1] + [rows[|rows| - 1]];
      before[rows[|rows| - 1].key := rows[|rows| - 1]]
  }

  /** Of rows with one key the last is found. */
  lemma {:induction false} ByKeyIsLast(rows: seq<Row>, i: nat)
    requires i < |rows| && forall j :: i < j < |rows| ==> rows[j].key != rows[i].key
    ensures ByKey(rows)[rows[i].key] == rows[i]
    decreases |rows|
  {
    if i < |rows| - 1 {
      ByKeyIsLast(rows[..|rows| - 1], i);
    }
  }

  ghost predicate Parent(rows: seq<Row>, row: Row, parent: Row) {
    exists key <- row.refs :: key in ByKey(rows) && ByKey(rows)[key] == parent
  }

  /** So many links lead from a row up to another; only stamped rows take times from their parents. */
  ghost predicate Chain(rows: seq<Row>, n: nat, row: Row, above: Row) {
    if n == 0 then row == above
    else row.stamped && exists parent <- rows :: Parent(rows, row, parent) && Chain(rows, n - 1, parent, above)
  }

  ghost predicate Above(rows: seq<Row>, row: Row, above: Row) { exists n: nat :: Chain(rows, n, row, above) }

  ghost predicate NoChainOf(rows: seq<Row>, n: nat) { forall row <- rows, above <- rows :: !Chain(rows, n, row, above) }

  ghost predicate Covers(start: Times, rows: seq<Row>) { forall row <- rows :: row in start }

  /** The time a row brings, by what it started with; a stamped row without one gets the default. */
  ghost function Brings(start: Times, default: int, row: Row): Option<int>
    requires row in start
  {
    if row.stamped then Some(Or(start[row], default)) else start[row]
  }

  /** The latest time that the row and all rows above it bring. */
  ghost predicate Latest(rows: seq<Row>, start: Times, default: int, row: Row, time: Option<int>)
    requires Covers(start, rows)
  {
    && time.Some?
    && (exists above <- rows :: Above(rows, row, above) && Brings(start, default, above) == time)
    && forall above <- rows :: Above(rows, row, above) && Brings(start, default, above).Some? ==>
         Brings(start, default, above).value <= time.value
  }

  ghost predicate AllLatest(rows: seq<Row>, start: Times, default: int, times: Times)
    requires Covers(start, rows) && Covers(times, rows)
  {
    forall row <- rows ::
      if row.stamped then Latest(rows, start, default, row, times[row]) else times[row] == start[row]
  }

  lemma AboveItself(rows: seq<Row>, row: Row)
    ensures Above(rows, row, row)
  {
    assert Chain(rows, 0, row, row);
  }

  lemma AboveParent(rows: seq<Row>, row: Row, parent: Row, above: Row)
    requires row.stamped && parent in rows && Parent(rows, row, parent) && Above(rows, parent, above)
    ensures Above(rows, row, above)
  {
    var n: nat :| Chain(rows, n, parent, above);
    assert Chain(rows, n + 1, row, above);
  }

  /** The next link of a chain. */
  lemma NextLink(rows: seq<Row>, n: nat, row: Row, above: Row) returns (parent: Row)
    requires n > 0 && Chain(rows, n, row, above)
    ensures row.stamped && parent in rows && Parent(rows, row, parent) && Chain(rows, n - 1, parent, above)
    ensures !parent.stamped ==> n == 1 && parent == above
  {
    parent :| parent in rows && Parent(rows, row, parent) && Chain(rows, n - 1, parent, above);
  }

  // ---------------------------------------------------------------- the rounds as functions

  /** The latest of a time and the times of the rows with these keys. */
  ghost function LatestOf(rows: seq<Row>, now: Times, refs: seq<Key>, time: int): int
    requires Covers(now, rows)
  {
    if refs == [] then time
    else
      var before, key := LatestOf(rows, now, refs[..|refs| - 1], time), refs[|refs| - 1];
      if key in ByKey(rows) && now[ByKey(rows)[key]].Some? then Max(before, now[ByKey(rows)[key]].value) else before
  }

  /** What a round gives a row: its own time or the default, or a parent's if that is later. */
  ghost function Around(rows: seq<Row>, now: Times, default: int, row: Row): int
    requires Covers(now, rows) && row in rows
  {
    LatestOf(rows, now, row.refs, Or(now[row], default))
  }

  ghost function Visited(rows: seq<Row>, now: Times, default: int, n: nat): (times: Times)
    requires Covers(now, rows) && n < |rows|
    ensures Covers(times, rows)
  {
    if rows[n].stamped then now[rows[n] := Some(Around(rows, now, default, rows[n]))] else now
  }

  /** After the first rows of a round. */
  ghost function RoundOf(rows: seq<Row>, now: Times, default: int, n: nat): (times: Times)
    requires Covers(now, rows) && n <= |rows|
    ensures Covers(times, rows)
  {
    if n == 0 then now else Visited(rows, RoundOf(rows, now, default, n - 1), default, n - 1)
  }

  ghost function RoundsOf(rows: seq<Row>, start: Times, default: int, rounds: nat): (times: Times)
    requires Covers(start, rows)
    ensures Covers(times, rows)
  {
    if rounds == 0 then start else RoundOf(rows, RoundsOf(rows, start, default, rounds - 1), default, |rows|)
  }

  lemma {:induction false} LatestOfKeys(rows: seq<Row>, now: Times, refs: seq<Key>, time: int)
    requires Covers(now, rows)
    ensures time <= LatestOf(rows, now, refs, time)
    ensures forall key <- refs :: key in ByKey(rows) && now[ByKey(rows)[key]].Some? ==>
              now[ByKey(rows)[key]].value <= LatestOf(rows, now, refs, time)
    ensures LatestOf(rows, now, refs, time) == time
         || exists key <- refs :: key in ByKey(rows) && now[ByKey(rows)[key]] == Some(LatestOf(rows, now, refs, time))
  {
    if refs != [] {
      var init := refs[..|refs| - 1];
      LatestOfKeys(rows, now, init, time);
      assert refs == init + [refs[|refs| - 1]];
      hide ByKey;
    }
  }

  lemma AroundIsLatest(rows: seq<Row>, now: Times, default: int, row: Row)
    requires Covers(now, rows) && row in rows
    ensures var time := Around(rows, now, default, row);
            && Or(now[row], default) <= time
            && (forall parent <- rows :: Parent(rows, row, parent) && now[parent].Some? ==> now[parent].value <= time)
            && (time == Or(now[row], default)
                || exists parent <- rows :: Parent(rows, row, parent) && now[parent] == Some(time))
  {
    hide LatestOf, ByKey;
    var time := Around(rows, now, default, row);
    LatestOfKeys(rows, now, row.refs, Or(now[row], default));
    if time != Or(now[row], default) {
      var key :| key in row.refs && key in ByKey(rows) && now[ByKey(rows)[key]] == Some(time);
      assert Parent(rows, row, ByKey(rows)[key]);
    }
  }

  lemma {:induction false} UnstampedKept(rows: seq<Row>, now: Times, default: int, n: nat)
    requires Covers(now, rows) && n <= |rows|
    ensures forall row <- rows :: !row.stamped ==> RoundOf(rows, now, default, n)[row] == now[row]
  {
    hide Around;
    if n > 0 {
      UnstampedKept(rows, now, default, n - 1);
    }
  }

  lemma {:induction false} UnstampedStay(rows: seq<Row>, start: Times, default: int, rounds: nat)
    requires Covers(start, rows)
    ensures forall row <- rows :: !row.stamped ==> RoundsOf(rows, start, default, rounds)[row] == start[row]
  {
    if rounds > 0 {
      UnstampedStay(rows, start, default, rounds - 1);
      UnstampedKept(rows, RoundsOf(rows, start, default, rounds - 1), default, |rows|);
    }
  }

  /** Once a round changes nothing, no later one does. */
  lemma {:induction false} SettledStays(rows: seq<Row>, start: Times, default: int, few: nat, rounds: nat)
    requires Covers(start, rows) && few <= rounds
    requires RoundsOf(rows, start, default, few + 1) == RoundsOf(rows, start, default, few)
    ensures RoundsOf(rows, start, default, rounds) == RoundsOf(rows, start, default, few)
  {
    hide RoundOf;
    if few < rounds {
      SettledStays(rows, start, default, few, rounds - 1);
    }
  }

  // ---------------------------------------------------------------- how far the rounds reach

  /**
   * A chain leads from the row at this place up to another, with at most so many late links: those to a parent that
   * does not stand earlier in the list. The link to a row that starts with a time is never late.
   */
  ghost predicate Comes(rows: seq<Row>, timed: set<Row>, late: nat, place: nat, above: Row)
    requires place < |rows|
    decreases late, place
  {
    && rows[place].stamped
    && (|| rows[place] == above
        || (above in timed && Parent(rows, rows[place], above))
        || exists next: nat ::
             next < |rows| && Parent(rows, rows[place], rows[next])
             && if next < place then Comes(rows, timed, late, next, above)
                else late > 0 && Comes(rows, timed, late - 1, next, above))
  }

  lemma {:induction false} ComesWithMore(rows: seq<Row>, timed: set<Row>, late: nat, place: nat, above: Row)
    requires place < |rows| && Comes(rows, timed, late, place, above)
    ensures Comes(rows, timed, late + 1, place, above)
    decreases late, place
  {
    if rows[place] != above && !(above in timed && Parent(rows, rows[place], above)) {
      var next: nat :| next < |rows| && Parent(rows, rows[place], rows[next])
                    && if next < place then Comes(rows, timed, late, next, above)
                       else late > 0 && Comes(rows, timed, late - 1, next, above);
      ComesWithMore(rows, timed, if next < place then late else late - 1, next, above);
    }
  }

  /** After whole rounds and the first rows of another, a row has seen what the other started with. */
  ghost predicate Seen(rows: seq<Row>, timed: set<Row>, rounds: nat, n: nat, row: Row, above: Row) {
    || (row == above && above in timed)
    || exists place: nat ::
         place < |rows| && rows[place] == row
         && ((place < n && Comes(rows, timed, rounds, place, above))
             || (rounds > 0 && Comes(rows, timed, rounds - 1, place, above)))
  }

  /** The latest time that the rows seen bring; none if they bring none. */
  ghost predicate LatestSeen(
      rows: seq<Row>, start: Times, default: int, rounds: nat, n: nat, row: Row, time: Option<int>)
    requires Covers(start, rows)
  {
    var timed := Timed(rows, start);
    && (forall above <- rows :: Seen(rows, timed, rounds, n, row, above) && Brings(start, default, above).Some? ==>
          time.Some? && Brings(start, default, above).value <= time.value)
    && (time.Some? ==>
          exists above <- rows :: Seen(rows, timed, rounds, n, row, above) && Brings(start, default, above) == time)
  }

  /** The rows that start with a time. */
  ghost function Timed(rows: seq<Row>, start: Times): set<Row>
    requires Covers(start, rows)
  {
    set row <- rows | start[row].Some?
  }

  ghost predicate AllLatestSeen(rows: seq<Row>, start: Times, default: int, rounds: nat, n: nat, now: Times)
    requires Covers(start, rows) && Covers(now, rows)
  {
    forall row <- rows ::
      if row.stamped then LatestSeen(rows, start, default, rounds, n, row, now[row]) else now[row] == start[row]
  }

  lemma SeenByParent(rows: seq<Row>, timed: set<Row>, rounds: nat, n: nat, parent: Row, above: Row)
    requires n < |rows| && rows[n].stamped && parent in rows && Parent(rows, rows[n], parent)
    requires Seen(rows, timed, rounds, n, parent, above)
    ensures Seen(rows, timed, rounds, n + 1, rows[n], above)
  {
    assert Comes(rows, timed, rounds, n, above) by {
      if !(parent == above && above in timed) {
        var place: nat :| place < |rows| && rows[place] == parent
                       && ((place < n && Comes(rows, timed, rounds, place, above))
                           || (rounds > 0 && Comes(rows, timed, rounds - 1, place, above)));
        if place < n && !Comes(rows, timed, rounds, place, above) {
          ComesWithMore(rows, timed, rounds - 1, place, above);
        }
      }
    }
  }

  lemma SeenBefore(rows: seq<Row>, timed: set<Row>, rounds: nat, n: nat, row: Row, above: Row)
    requires n < |rows|
    ensures Seen(rows, timed, rounds, n, row, above) ==> Seen(rows, timed, rounds, n + 1, row, above)
    ensures row != rows[n] && Seen(rows, timed, rounds, n + 1, row, above) ==> Seen(rows, timed, rounds, n, row, above)
  {
    hide Comes;
  }

  /** A row that has seen anything has seen its own time or the default. */
  lemma SeenItself(rows: seq<Row>, timed: set<Row>, rounds: nat, n: nat, row: Row, above: Row)
    requires Seen(rows, timed, rounds, n, row, above)
    ensures Seen(rows, timed, rounds, n, row, row)
  {
  }

  /** What a visit newly shows a row: itself, a parent that started with a time, or what a parent has seen. */
  lemma NewlySeen(rows: seq<Row>, timed: set<Row>, rounds: nat, n: nat, above: Row)
    requires n < |rows| && rows[n].stamped
    requires Seen(rows, timed, rounds, n + 1, rows[n], above) && !Seen(rows, timed, rounds, n, rows[n], above)
    ensures rows[n] == above
         || (above in timed && Parent(rows, rows[n], above))
         || exists parent <- rows ::
              parent.stamped && Parent(rows, rows[n], parent) && Seen(rows, timed, rounds, n, parent, above)
  {
    assert Comes(rows, timed, rounds, n, above);
    if rows[n] != above && !(above in timed && Parent(rows, rows[n], above)) {
      var next: nat :| next < |rows| && Parent(rows, rows[n], rows[next])
                    && if next < n then Comes(rows, timed, rounds, next, above)
                       else rounds > 0 && Comes(rows, timed, rounds - 1, next, above);
      assert Seen(rows, timed, rounds, n, rows[next], above);
    }
  }

  /** What a visit gives is no earlier than what the row has seen by then, */
  lemma VisitSeesNoLater(rows: seq<Row>, start: Times, default: int, rounds: nat, n: nat, now: Times, above: Row)
    requires Covers(start, rows) && Covers(now, rows) && n < |rows| && rows[n].stamped && above in rows
    requires AllLatestSeen(rows, start, default, rounds, n, now)
    requires Seen(rows, Timed(rows, start), rounds, n + 1, rows[n], above) && Brings(start, default, above).Some?
    ensures Brings(start, default, above).value <= Around(rows, now, default, rows[n])
  {
    var timed, row := Timed(rows, start), rows[n];
    AroundIsLatest(rows, now, default, row);
    hide Around, Comes, Parent;
    assert LatestSeen(rows, start, default, rounds, n, row, now[row]);
    if !Seen(rows, timed, rounds, n, row, above) {
      NewlySeen(rows, timed, rounds, n, above);
      if row == above {
        NothingSeen(rows, start, default, rounds, n, row, now[row]);
      } else if above in timed && Parent(rows, row, above) {
        assert above.stamped ==> LatestSeen(rows, start, default, rounds, n, above, now[above]);
      } else {
        var parent :| parent in rows && parent.stamped && Parent(rows, row, parent) && Seen(rows, timed, rounds, n, parent, above);
        assert LatestSeen(rows, start, default, rounds, n, parent, now[parent]);
      }
    }
  }

  /** A row that has not seen itself has no time. */
  lemma NothingSeen(rows: seq<Row>, start: Times, default: int, rounds: nat, n: nat, row: Row, time: Option<int>)
    requires Covers(start, rows) && LatestSeen(rows, start, default, rounds, n, row, time)
    requires !Seen(rows, Timed(rows, start), rounds, n, row, row)
    ensures time == None
  {
    hide Comes;
    if time.Some? {
      var above :| above in rows && Seen(rows, Timed(rows, start), rounds, n, row, above);
      SeenItself(rows, Timed(rows, start), rounds, n, row, above);
      assert false;
    }
  }

  /** and is what one row seen brings. */
  lemma VisitIsSeen(rows: seq<Row>, start: Times, default: int, rounds: nat, n: nat, now: Times)
    requires Covers(start, rows) && Covers(now, rows) && n < |rows| && rows[n].stamped
    requires AllLatestSeen(rows, start, default, rounds, n, now)
    ensures exists above <- rows ::
              Seen(rows, Timed(rows, start), rounds, n + 1, rows[n], above)
              && Brings(start, default, above) == Some(Around(rows, now, default, rows[n]))
  {
    var timed, row := Timed(rows, start), rows[n];
    var time := Around(rows, now, default, row);
    AroundIsLatest(rows, now, default, row);
    SeenByItself(rows, timed, rounds, n);
    hide Around, Comes, Parent;
    assert LatestSeen(rows, start, default, rounds, n, row, now[row]);
    if now[row] == Some(time) {
      var above :| above in rows && Seen(rows, timed, rounds, n, row, above) && Brings(start, default, above) == Some(time);
      SeenBefore(rows, timed, rounds, n, row, above);
    } else if time != Or(now[row], default) {
      var parent :| parent in rows && Parent(rows, row, parent) && now[parent] == Some(time);
      if parent.stamped {
        assert LatestSeen(rows, start, default, rounds, n, parent, now[parent]);
        var above :| above in rows && Seen(rows, timed, rounds, n, parent, above) && Brings(start, default, above) == Some(time);
        SeenByParent(rows, timed, rounds, n, parent, above);
      } else {
        SeenByParent(rows, timed, rounds, n, parent, parent);
      }
    }
  }

  lemma SeenByItself(rows: seq<Row>, timed: set<Row>, rounds: nat, n: nat)
    requires n < |rows| && rows[n].stamped
    ensures Seen(rows, timed, rounds, n + 1, rows[n], rows[n])
  {
    assert Comes(rows, timed, rounds, n, rows[n]);
  }

  lemma VisitKeeps(rows: seq<Row>, start: Times, default: int, rounds: nat, n: nat, now: Times)
    requires Covers(start, rows) && Covers(now, rows) && n < |rows|
    requires AllLatestSeen(rows, start, default, rounds, n, now)
    ensures AllLatestSeen(rows, start, default, rounds, n + 1, Visited(rows, now, default, n))
  {
    hide Seen, Around, Brings, Timed;
    var times, timed := Visited(rows, now, default, n), Timed(rows, start);
    forall row | row in rows && row.stamped
      ensures LatestSeen(rows, start, default, rounds, n + 1, row, times[row])
    {
      if row == rows[n] {
        VisitIsSeen(rows, start, default, rounds, n, now);
        forall above | above in rows && Seen(rows, timed, rounds, n + 1, row, above) && Brings(start, default, above).Some?
          ensures Brings(start, default, above).value <= times[row].value
        {
          VisitSeesNoLater(rows, start, default, rounds, n, now, above);
        }
      } else {
        assert LatestSeen(rows, start, default, rounds, n, row, now[row]);
        forall above
          ensures Seen(rows, timed, rounds, n + 1, row, above) <==> Seen(rows, timed, rounds, n, row, above)
        {
          SeenBefore(rows, timed, rounds, n, row, above);
        }
      }
    }
  }

  lemma {:induction false} RoundKeeps(rows: seq<Row>, start: Times, default: int, rounds: nat, n: nat, now: Times)
    requires Covers(start, rows) && Covers(now, rows) && n <= |rows|
    requires AllLatestSeen(rows, start, default, rounds, 0, now)
    ensures AllLatestSeen(rows, start, default, rounds, n, RoundOf(rows, now, default, n))
  {
    hide AllLatestSeen, Visited;
    if n > 0 {
      RoundKeeps(rows, start, default, rounds, n - 1, now);
      VisitKeeps(rows, start, default, rounds, n - 1, RoundOf(rows, now, default, n - 1));
    }
  }

  lemma SeenNextRound(rows: seq<Row>, timed: set<Row>, rounds: nat, row: Row, above: Row)
    ensures Seen(rows, timed, rounds, |rows|, row, above) <==> Seen(rows, timed, rounds + 1, 0, row, above)
  {
    if rounds > 0 {
      forall place: nat | place < |rows| && Comes(rows, timed, rounds - 1, place, above)
        ensures Comes(rows, timed, rounds, place, above)
      {
        ComesWithMore(rows, timed, rounds - 1, place, above);
      }
    }
    hide Comes;
  }

  /** After any number of rounds every stamped row has the latest time of what it has seen. */
  lemma {:induction false} RoundsReach(rows: seq<Row>, start: Times, default: int, rounds: nat)
    requires Covers(start, rows)
    ensures AllLatestSeen(rows, start, default, rounds, 0, RoundsOf(rows, start, default, rounds))
  {
    hide AllLatestSeen, RoundOf, RoundsOf;
    if rounds == 0 {
      NoRoundSeen(rows, start, default);
    } else {
      var before := RoundsOf(rows, start, default, rounds - 1);
      RoundsReach(rows, start, default, rounds - 1);
      RoundKeeps(rows, start, default, rounds - 1, |rows|, before);
      OneMoreRound(rows, start, default, rounds);
      NextRoundSeen(rows, start, default, rounds - 1, RoundOf(rows, before, default, |rows|));
    }
  }

  lemma OneMoreRound(rows: seq<Row>, start: Times, default: int, rounds: nat)
    requires Covers(start, rows) && rounds > 0
    ensures RoundsOf(rows, start, default, rounds) == RoundOf(rows, RoundsOf(rows, start, default, rounds - 1), default, |rows|)
  {
  }

  lemma NoRoundSeen(rows: seq<Row>, start: Times, default: int)
    requires Covers(start, rows)
    ensures AllLatestSeen(rows, start, default, 0, 0, RoundsOf(rows, start, default, 0))
  {
    hide Comes;
  }

  lemma {:induction false} NextRoundSeen(rows: seq<Row>, start: Times, default: int, rounds: nat, now: Times)
    requires Covers(start, rows) && Covers(now, rows) && AllLatestSeen(rows, start, default, rounds, |rows|, now)
    ensures AllLatestSeen(rows, start, default, rounds + 1, 0, now)
  {
    hide Seen, Brings, Timed;
    forall row, above
      ensures Seen(rows, Timed(rows, start), rounds, |rows|, row, above)
         <==> Seen(rows, Timed(rows, start), rounds + 1, 0, row, above)
    {
      SeenNextRound(rows, Timed(rows, start), rounds, row, above);
    }
  }

  lemma {:induction false} ComesFromAbove(rows: seq<Row>, timed: set<Row>, late: nat, place: nat, above: Row)
    requires place < |rows| && Comes(rows, timed, late, place, above) && above in rows
    ensures Above(rows, rows[place], above)
    decreases late, place
  {
    hide Above;
    AboveItself(rows, above);
    if rows[place] != above {
      if above in timed && Parent(rows, rows[place], above) {
        AboveParent(rows, rows[place], above, above);
      } else {
        var next: nat :| next < |rows| && Parent(rows, rows[place], rows[next])
                      && if next < place then Comes(rows, timed, late, next, above)
                         else late > 0 && Comes(rows, timed, late - 1, next, above);
        ComesFromAbove(rows, timed, if next < place then late else late - 1, next, above);
        AboveParent(rows, rows[place], rows[next], above);
      }
    }
  }

  lemma SeenIsAbove(rows: seq<Row>, timed: set<Row>, rounds: nat, row: Row, above: Row)
    requires Seen(rows, timed, rounds, 0, row, above) && above in rows
    ensures Above(rows, row, above)
  {
    hide Comes, Above;
    AboveItself(rows, row);
    if row != above || above !in timed {
      var place: nat :| place < |rows| && rows[place] == row && Comes(rows, timed, rounds - 1, place, above);
      ComesFromAbove(rows, timed, rounds - 1, place, above);
    }
  }

  // ---------------------------------------------------------------- when ten rounds are enough

  /** Ten rounds take the time from above: it comes by nine late links at most, or is the row's own. */
  ghost predicate InReach(rows: seq<Row>, timed: set<Row>, row: Row, above: Row) {
    Seen(rows, timed, ROUNDS, 0, row, above)
  }

  /** Every row above that starts with a time is in reach, and where one above gets the default, one of those is. */
  ghost predicate AllInReach(rows: seq<Row>, timed: set<Row>) {
    forall row <- rows, above <- rows :: row.stamped && Above(rows, row, above) ==>
      if above in timed then InReach(rows, timed, row, above)
      else above.stamped ==> exists other <- rows :: other.stamped && other !in timed && InReach(rows, timed, row, other)
  }

  lemma InReachIsLatest(rows: seq<Row>, start: Times, default: int)
    requires Covers(start, rows) && AllInReach(rows, Timed(rows, start))
    ensures AllLatest(rows, start, default, RoundsOf(rows, start, default, ROUNDS))
  {
    hide Above, RoundsOf, Comes;
    var times, timed := RoundsOf(rows, start, default, ROUNDS), Timed(rows, start);
    RoundsReach(rows, start, default, ROUNDS);
    forall row | row in rows && row.stamped
      ensures Latest(rows, start, default, row, times[row])
    {
      assert LatestSeen(rows, start, default, ROUNDS, 0, row, times[row]);
      AboveItself(rows, row);
      hide Seen;
      forall above | above in rows && Seen(rows, timed, ROUNDS, 0, row, above)
        ensures Above(rows, row, above)
      {
        SeenIsAbove(rows, timed, ROUNDS, row, above);
      }
      forall above | above in rows && Above(rows, row, above) && Brings(start, default, above).Some?
        ensures times[row].Some? && Brings(start, default, above).value <= times[row].value
      {
        assert above !in timed ==> Brings(start, default, above) == Some(default);
      }
    }
  }

  /** One row starts at one, all others and the default at zero: what is out of reach is missed. */
  lemma TimeOutOfReach(rows: seq<Row>, timed: set<Row>, row: Row, above: Row) returns (start: Times)
    requires row in rows && row.stamped && above in rows && above in timed && timed <= ItemsOf(rows)
    requires Above(rows, row, above) && !InReach(rows, timed, row, above)
    ensures Covers(start, rows) && Timed(rows, start) == timed
    ensures !AllLatest(rows, start, 0, RoundsOf(rows, start, 0, ROUNDS))
  {
    hide Above, RoundsOf, Seen;
    start := map r | r in rows :: if r in timed then Some(if r == above then 1 else 0) else None;
    RoundsReach(rows, start, 0, ROUNDS);
    var time := RoundsOf(rows, start, 0, ROUNDS)[row];
    assert LatestSeen(rows, start, 0, ROUNDS, 0, row, time);
    assert Brings(start, 0, above) == Some(1);
    assert forall r <- rows :: r != above ==> Brings(start, 0, r) in {None, Some(0)};
  }

  /** All rows with a time start at zero and the default is one: it is missed where no row above brings it. */
  lemma DefaultOutOfReach(rows: seq<Row>, timed: set<Row>, row: Row, above: Row) returns (start: Times)
    requires row in rows && row.stamped && above in rows && above.stamped && above !in timed && timed <= ItemsOf(rows)
    requires Above(rows, row, above)
    requires forall other <- rows :: other.stamped && other !in timed ==> !InReach(rows, timed, row, other)
    ensures Covers(start, rows) && Timed(rows, start) == timed
    ensures !AllLatest(rows, start, 1, RoundsOf(rows, start, 1, ROUNDS))
  {
    hide Above, RoundsOf, Seen;
    start := map r | r in rows :: if r in timed then Some(0) else None;
    RoundsReach(rows, start, 1, ROUNDS);
    var time := RoundsOf(rows, start, 1, ROUNDS)[row];
    assert LatestSeen(rows, start, 1, ROUNDS, 0, row, time);
    assert Brings(start, 1, above) == Some(1);
  }

  ghost function ItemsOf(rows: seq<Row>): set<Row> { set row <- rows }

  /** By which rows start with a time: ten rounds reach the latest times, whatever they are, exactly if all are in reach. */
  lemma TenRoundsSolveIff(rows: seq<Row>, timed: set<Row>)
    requires timed <= ItemsOf(rows)
    ensures (forall start, default :: Covers(start, rows) && Timed(rows, start) == timed ==>
               AllLatest(rows, start, default, RoundsOf(rows, start, default, ROUNDS)))
       <==> AllInReach(rows, timed)
  {
    hide Above, RoundsOf, AllLatest, InReach, Timed;
    if AllInReach(rows, timed) {
      forall start, default | Covers(start, rows) && Timed(rows, start) == timed
        ensures AllLatest(rows, start, default, RoundsOf(rows, start, default, ROUNDS))
      {
        InReachIsLatest(rows, start, default);
      }
    } else {
      var row, above :| row in rows && above in rows && row.stamped && Above(rows, row, above)
                     && !(if above in timed then InReach(rows, timed, row, above)
                          else above.stamped ==> exists other <- rows ::
                                 other.stamped && other !in timed && InReach(rows, timed, row, other));
      if above in timed {
        var start := TimeOutOfReach(rows, timed, row, above);
      } else {
        var start := DefaultOutOfReach(rows, timed, row, above);
      }
    }
  }

  /** A chain has no more late links than links, and the last is none if it leads to a row with a time. */
  /** A chain of rows comes one link further down. */
  lemma ComesFurther(rows: seq<Row>, timed: set<Row>, late: nat, place: nat, next: nat, above: Row)
    requires place < |rows| && next < |rows| && rows[place].stamped && Parent(rows, rows[place], rows[next])
    requires Comes(rows, timed, late, next, above)
    ensures Comes(rows, timed, late + 1, place, above)
  {
    hide Parent;
    ComesWithMore(rows, timed, late, next, above);
  }

  lemma {:induction false} ChainComes(rows: seq<Row>, timed: set<Row>, n: nat, place: nat, above: Row)
    requires place < |rows| && rows[place].stamped && Chain(rows, n, rows[place], above)
    ensures above.stamped ==> Comes(rows, timed, n, place, above)
    ensures n > 0 && above in timed ==> Comes(rows, timed, n - 1, place, above)
  {
    hide Chain, Comes, Parent;
    if n == 0 {
      ComesToItself(rows, timed, place, above);
    } else {
      var parent := NextLink(rows, n, rows[place], above);
      var next: nat :| next < |rows| && rows[next] == parent;
      if n == 1 && above in timed {
        LastLink(rows, parent, above);
        ComesByTimed(rows, timed, place, above);
      }
      if parent.stamped {
        ChainComes(rows, timed, n - 1, next, above);
        if above.stamped {
          ComesFurther(rows, timed, n - 1, place, next, above);
        }
        if n > 1 && above in timed {
          ComesFurther(rows, timed, n - 2, place, next, above);
        }
      }
    }
  }

  lemma ComesToItself(rows: seq<Row>, timed: set<Row>, place: nat, above: Row)
    requires place < |rows| && rows[place].stamped && Chain(rows, 0, rows[place], above)
    ensures Comes(rows, timed, 0, place, above)
  {
  }

  lemma LastLink(rows: seq<Row>, parent: Row, above: Row)
    requires Chain(rows, 0, parent, above)
    ensures parent == above
  {
  }

  lemma ComesByTimed(rows: seq<Row>, timed: set<Row>, place: nat, above: Row)
    requires place < |rows| && rows[place].stamped && above in timed && Parent(rows, rows[place], above)
    ensures Comes(rows, timed, 0, place, above)
  {
  }

  lemma {:induction false} MoreLateLinks(rows: seq<Row>, timed: set<Row>, few: nat, late: nat, place: nat, above: Row)
    requires place < |rows| && few <= late && Comes(rows, timed, few, place, above)
    ensures Comes(rows, timed, late, place, above)
    decreases late
  {
    if few < late {
      MoreLateLinks(rows, timed, few, late - 1, place, above);
      ComesWithMore(rows, timed, late - 1, place, above);
    }
  }

  lemma ChainIsInReach(rows: seq<Row>, timed: set<Row>, n: nat, row: Row, above: Row)
    requires row in rows && row.stamped && Chain(rows, n, row, above)
    requires if above in timed then n <= ROUNDS else above.stamped && n < ROUNDS
    ensures InReach(rows, timed, row, above)
  {
    if n > 0 || above !in timed {
      var place: nat :| place < |rows| && rows[place] == row;
      ChainComes(rows, timed, n, place, above);
      MoreLateLinks(rows, timed, if above in timed then n - 1 else n, ROUNDS - 1, place, above);
    }
  }

  /** A long chain starts with one of any smaller length. */
  lemma {:induction false} ChainStarts(rows: seq<Row>, n: nat, m: nat, row: Row, above: Row) returns (middle: Row)
    requires Chain(rows, n, row, above) && m <= n && row in rows && above in rows
    ensures middle in rows && Chain(rows, m, row, middle)
    decreases n
  {
    if m == 0 {
      middle := row;
    } else {
      var parent :| parent in rows && Parent(rows, row, parent) && Chain(rows, n - 1, parent, above);
      middle := ChainStarts(rows, n - 1, m - 1, parent, above);
    }
  }

  /** In any order, chains of less than ten links are in reach, and of ten when every stamped row starts with a time. */
  lemma ShortChainsInReach(rows: seq<Row>, timed: set<Row>)
    requires NoChainOf(rows, ROUNDS)
          || (NoChainOf(rows, ROUNDS + 1) && forall row <- rows :: row.stamped ==> row in timed)
    ensures AllInReach(rows, timed)
  {
    hide InReach, Chain;
    forall row, above | row in rows && above in rows && row.stamped && Above(rows, row, above)
                        && (above in timed || above.stamped)
      ensures InReach(rows, timed, row, above)
    {
      var n: nat :| Chain(rows, n, row, above);
      var short := if NoChainOf(rows, ROUNDS) then ROUNDS else ROUNDS + 1;
      if n >= short {
        var middle := ChainStarts(rows, n, short, row, above);
        assert false;
      }
      ChainIsInReach(rows, timed, n, row, above);
    }
  }

  /** Eleven stamped rows, each belonging to the next one in the list alone: children come first. */
  ghost predicate ChildrenFirst(rows: seq<Row>) {
    && |rows| == ROUNDS + 1
    && (forall row <- rows :: row.stamped)
    && (forall i, j :: 0 <= i < j < |rows| ==> rows[i].key != rows[j].key)
    && (forall i :: 0 <= i < ROUNDS ==> rows[i].refs == [rows[i + 1].key])
    && rows[ROUNDS].refs == []
  }

  lemma ParentIsNext(rows: seq<Row>, i: nat, parent: Row)
    requires ChildrenFirst(rows) && i < |rows|
    ensures |rows| == ROUNDS + 1
    ensures Parent(rows, rows[i], parent) <==> i < ROUNDS && parent == rows[i + 1]
  {
    hide ByKey;
    if i < ROUNDS {
      assert rows[i].refs == [rows[i + 1].key] && rows[i + 1] in rows;
      assert rows[i + 1].key in rows[i].refs;
    }
  }

  lemma {:induction false} LadderChain(rows: seq<Row>, n: nat, i: nat, above: Row)
    requires ChildrenFirst(rows) && i < |rows| && Chain(rows, n, rows[i], above)
    ensures i + n < |rows| && above == rows[i + n]
    decreases n
  {
    hide Parent, ChildrenFirst;
    if n > 0 {
      hide Chain;
      var parent := NextLink(rows, n, rows[i], above);
      ParentIsNext(rows, i, parent);
      LadderChain(rows, n - 1, i + 1, above);
    }
  }

  lemma {:induction false} LadderIsLate(rows: seq<Row>, timed: set<Row>, late: nat, i: nat)
    requires ChildrenFirst(rows) && i < |rows| && rows[ROUNDS] !in timed
    requires Comes(rows, timed, late, i, rows[ROUNDS])
    ensures late + i >= ROUNDS
    decreases late, i
  {
    hide Parent;
    if i < ROUNDS {
      assert rows[i] != rows[ROUNDS];
      var next: nat :| next < |rows| && Parent(rows, rows[i], rows[next])
                    && if next < i then Comes(rows, timed, late, next, rows[ROUNDS])
                       else late > 0 && Comes(rows, timed, late - 1, next, rows[ROUNDS]);
      ParentIsNext(rows, i, rows[next]);
      LadderIsLate(rows, timed, late - 1, next);
    }
  }

  lemma {:induction false} LadderTop(rows: seq<Row>, n: nat)
    requires ChildrenFirst(rows) && n <= ROUNDS
    ensures Chain(rows, n, rows[ROUNDS - n], rows[ROUNDS])
  {
    hide Parent;
    if n > 0 {
      LadderTop(rows, n - 1);
      ParentIsNext(rows, ROUNDS - n, rows[ROUNDS - n + 1]);
    }
  }

  /** Ten such links, all rows below the top starting with a time, are solved exactly when the top starts with one. */
  lemma TenLinksSolvedIff(rows: seq<Row>, timed: set<Row>)
    requires ChildrenFirst(rows) && forall i :: 0 <= i < ROUNDS ==> rows[i] in timed
    ensures AllInReach(rows, timed) <==> rows[ROUNDS] in timed
  {
    var top := rows[ROUNDS];
    if top in timed {
      forall row, above | row in rows && above in rows
        ensures !Chain(rows, ROUNDS + 1, row, above)
      {
        if Chain(rows, ROUNDS + 1, row, above) {
          var i: nat :| i < |rows| && rows[i] == row;
          LadderChain(rows, ROUNDS + 1, i, above);
          assert false;
        }
      }
      ShortChainsInReach(rows, timed);
    } else {
      LadderTop(rows, ROUNDS);
      if AllInReach(rows, timed) {
        OnlyTopUntimed(rows, timed);
        assert Above(rows, rows[0], top) && InReach(rows, timed, rows[0], top);
        var place: nat :| place < |rows| && rows[place] == rows[0] && Comes(rows, timed, ROUNDS - 1, place, top);
        assert place == 0;
        LadderIsLate(rows, timed, ROUNDS - 1, 0);
        assert false;
      }
    }
  }

  lemma OnlyTopUntimed(rows: seq<Row>, timed: set<Row>)
    requires ChildrenFirst(rows) && forall i :: 0 <= i < ROUNDS ==> rows[i] in timed
    ensures forall row <- rows :: row !in timed ==> row == rows[ROUNDS]
  {
  }

  // ---------------------------------------------------------------- the rounds as the program runs them

  ghost function Now(rows: seq<Row>): (times: Times)
    reads rows
    ensures Covers(times, rows) && forall row <- rows :: times[row] == row.created
  {
    map row | row in rows :: row.created
  }

  ghost function Updates(rows: seq<Row>): (times: Times)
    reads rows
    ensures Covers(times, rows) && forall row <- rows :: times[row] == row.updated
  {
    map row | row in rows :: row.updated
  }

  /** The update time is the one it started with, brought up to the creation. */
  ghost predicate UpdatedAfter(row: Row, started: Option<int>)
    reads row
  {
    row.created.Some? && row.updated == Some(Max(Or(started, row.created.value), row.created.value))
  }

  /** The row is not touched yet, or its update time is right. */
  ghost predicate UpdateKept(row: Row, updated: Option<int>)
    reads row
  {
    row.updated == updated || (row.stamped && UpdatedAfter(row, updated))
  }

  ghost predicate UpdatesKept(rows: seq<Row>, updates: Times)
    requires Covers(updates, rows)
    reads rows
  {
    forall row <- rows :: UpdateKept(row, updates[row])
  }

  /** The stamped ones of the first rows have the right update time. */
  ghost predicate UpdatedUpTo(rows: seq<Row>, updates: Times, n: nat)
    requires Covers(updates, rows) && n <= |rows|
    reads rows
  {
    forall k :: 0 <= k < n && rows[k].stamped ==> UpdatedAfter(rows[k], updates[rows[k]])
  }

  /** A row of a round: the rows, when they were updated at first, and how many are done. */
  datatype Turn = Turn(rows: seq<Row>, updated: Times, n: nat)

  /** A step that writes one row right leaves the others as they were. */
  twostate lemma OneRowMoved(t: Turn)
    requires Covers(t.updated, t.rows) && t.n < |t.rows| && t.rows[t.n].stamped
    requires forall other <- t.rows :: other != t.rows[t.n] ==> unchanged(other)
    requires old(UpdatesKept(t.rows, t.updated)) && old(UpdatedUpTo(t.rows, t.updated, t.n))
    requires UpdatedAfter(t.rows[t.n], t.updated[t.rows[t.n]])
    ensures UpdatesKept(t.rows, t.updated) && UpdatedUpTo(t.rows, t.updated, t.n + 1)
    ensures Now(t.rows) == old(Now(t.rows))[t.rows[t.n] := t.rows[t.n].created]
  {
    forall k | 0 <= k < t.n && t.rows[k].stamped
      ensures UpdatedAfter(t.rows[k], t.updated[t.rows[k]])
    {
      assert t.rows[k] != t.rows[t.n] ==> unchanged(t.rows[k]);
      assert old(UpdatedAfter(t.rows[k], t.updated[t.rows[k]]));
    }
    forall row | row in t.rows
      ensures UpdateKept(row, t.updated[row])
    {
      assert row != t.rows[t.n] ==> unchanged(row);
      assert old(UpdateKept(row, t.updated[row]));
    }
  }

  /** The later of the row's own time, or the default, and its parents' times. */
  method LatestAround(rows: seq<Row>, byKey: map<Key, Row>, row: Row, default: int) returns (when: int)
    requires row in rows && byKey == ByKey(rows)
    ensures when == Around(rows, Now(rows), default, row)
  {
    when := Or(row.created, default);
    for r := 0 to |row.refs|
      invariant when == LatestOf(rows, Now(rows), row.refs[..r], Or(row.created, default))
    {
      assert row.refs[..r + 1][..r] == row.refs[..r];
      if row.refs[r] in byKey && byKey[row.refs[r]].created.Some? {
        when := Max(when, byKey[row.refs[r]].created.value);
      }
    }
    assert row.refs[..|row.refs|] == row.refs;
  }

  /** One stamped row: its time, and its update time brought up to it. */
  method Visit(rows: seq<Row>, byKey: map<Key, Row>, row: Row, default: int, ghost started: Option<int>)
    returns (changed: bool)
    requires row in rows && row.stamped && byKey == ByKey(rows)
    requires row.updated == started || UpdatedAfter(row, started)
    modifies row
    ensures row.created == Some(Around(rows, old(Now(rows)), default, row))
    ensures UpdatedAfter(row, started)
    ensures !changed ==> row.created == old(row.created)
  {
    var when := LatestAround(rows, byKey, row, default);
    AroundIsLatest(rows, Now(rows), default, row);
    hide Around, ByKey, Parent;
    changed := row.created != Some(when);
    if changed {
      row.created := Some(when);
    }
    row.updated := Some(Max(Or(row.updated, when), when));
  }

  /** One row of a round, if it is stamped. */
  method VisitNext(rows: seq<Row>, byKey: map<Key, Row>, n: nat, default: int, ghost updates: Times)
    returns (moved: bool)
    requires byKey == ByKey(rows) && Covers(updates, rows) && n < |rows|
    requires UpdatesKept(rows, updates) && UpdatedUpTo(rows, updates, n)
    modifies rows[n]
    ensures Now(rows) == Visited(rows, old(Now(rows)), default, n)
    ensures UpdatesKept(rows, updates) && UpdatedUpTo(rows, updates, n + 1)
    ensures !moved ==> Now(rows) == old(Now(rows))
  {
    hide Around, ByKey, UpdatedAfter;
    moved := false;
    if rows[n].stamped {
      assert UpdateKept(rows[n], updates[rows[n]]);
      moved := Visit(rows, byKey, rows[n], default, updates[rows[n]]);
      OneRowMoved(Turn(rows, updates, n));
      assert !moved ==> Now(rows) == old(Now(rows));
    }
  }

  /** One round over the rows, in order. */
  method Round(rows: seq<Row>, byKey: map<Key, Row>, default: int, ghost updates: Times) returns (changed: bool)
    requires byKey == ByKey(rows) && Covers(updates, rows) && UpdatesKept(rows, updates)
    modifies rows
    ensures Now(rows) == RoundOf(rows, old(Now(rows)), default, |rows|)
    ensures UpdatesKept(rows, updates) && UpdatedUpTo(rows, updates, |rows|)
    ensures !changed ==> Now(rows) == old(Now(rows))
  {
    hide Visited, ByKey, UpdatesKept, UpdatedAfter;
    changed := false;
    for n := 0 to |rows|
      invariant Now(rows) == RoundOf(rows, old(Now(rows)), default, n)
      invariant UpdatesKept(rows, updates) && UpdatedUpTo(rows, updates, n)
      invariant !changed ==> Now(rows) == old(Now(rows))
    {
      var moved := VisitNext(rows, byKey, n, default, updates);
      changed := changed || moved;
    }
  }

  /**
   * Rounds until nothing changes, ten at most: every stamped row has the latest time of all it has seen by then,
   * which is the latest of all rows above when they are in reach.
   */
  method AlignTimestamps(rows: seq<Row>, default: int)
    modifies rows
    ensures Now(rows) == RoundsOf(rows, old(Now(rows)), default, ROUNDS)
    ensures forall row <- rows ::
              if row.stamped then LatestSeen(rows, old(Now(rows)), default, ROUNDS, 0, row, row.created)
              else row.created == old(row.created) && row.updated == old(row.updated)
    ensures forall row <- rows :: row.stamped ==> UpdatedAfter(row, old(row.updated))
    ensures AllInReach(rows, old(Timed(rows, Now(rows)))) ==> AllLatest(rows, old(Now(rows)), default, Now(rows))
  {
    hide RoundOf, ByKey, AllInReach, LatestSeen, AllLatest, UpdatedAfter;
    ghost var start, updates := Now(rows), Updates(rows);
    var byKey := ByKey(rows);
    for round := 0 to ROUNDS
      invariant Now(rows) == RoundsOf(rows, start, default, round)
      invariant UpdatesKept(rows, updates)
      invariant round > 0 ==> UpdatedUpTo(rows, updates, |rows|)
    {
      var changed := Round(rows, byKey, default, updates);
      if !changed {
        SettledStays(rows, start, default, round, ROUNDS);
        break;
      }
    }
    RoundsReach(rows, start, default, ROUNDS);
    if AllInReach(rows, Timed(rows, start)) {
      InReachIsLatest(rows, start, default);
    }
  }

  // ---------------------------------------------------------------- the least solution

  /** Times that give every stamped row at least its own time and its parents'. */
  ghost predicate Solves(rows: seq<Row>, start: Times, default: int, times: Times)
    requires Covers(start, rows) && Covers(times, rows)
  {
    forall row <- rows ::
      if row.stamped then
        times[row].Some? && Or(start[row], default) <= times[row].value
        && forall parent <- rows :: Parent(rows, row, parent) && times[parent].Some? ==> times[parent].value <= times[row].value
      else times[row] == start[row]
  }

  /** The latest times above solve this: no stamped row is older than a parent. */
  lemma LatestSolves(rows: seq<Row>, start: Times, default: int, times: Times)
    requires Covers(start, rows) && Covers(times, rows) && AllLatest(rows, start, default, times)
    ensures Solves(rows, start, default, times)
  {
    hide Above, Parent;
    forall row | row in rows && row.stamped
      ensures times[row].Some? && Or(start[row], default) <= times[row].value
    {
      AboveItself(rows, row);
    }
    forall row, parent | row in rows && row.stamped && parent in rows && Parent(rows, row, parent) && times[parent].Some?
      ensures times[parent].value <= times[row].value
    {
      AboveItself(rows, parent);
      var above :| above in rows && Above(rows, parent, above) && Brings(start, default, above) == times[parent];
      AboveParent(rows, row, parent, above);
    }
  }

  lemma {:induction false} SolutionIsAbove(rows: seq<Row>, start: Times, default: int, times: Times, n: nat, row: Row, above: Row)
    requires Covers(start, rows) && Covers(times, rows) && Solves(rows, start, default, times)
    requires row in rows && above in rows && Chain(rows, n, row, above) && Brings(start, default, above).Some?
    ensures times[row].Some? && Brings(start, default, above).value <= times[row].value
    decreases n
  {
    if n > 0 {
      var parent := NextLink(rows, n, row, above);
      SolutionIsAbove(rows, start, default, times, n - 1, parent, above);
    }
  }

  /** And they are the least: every other solution is at least as late everywhere. */
  lemma LatestIsLeast(rows: seq<Row>, start: Times, default: int, least: Times, times: Times, row: Row)
    requires Covers(start, rows) && Covers(least, rows) && Covers(times, rows) && row in rows && row.stamped
    requires AllLatest(rows, start, default, least) && Solves(rows, start, default, times)
    ensures times[row].Some? && least[row].value <= times[row].value
  {
    var above :| above in rows && Above(rows, row, above) && Brings(start, default, above) == least[row];
    var n: nat :| Chain(rows, n, row, above);
    SolutionIsAbove(rows, start, default, times, n, row, above);
  }
}

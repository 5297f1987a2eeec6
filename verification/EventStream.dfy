/** Following a workspace's events: pages of new events, a window for late ones, and what was sent. */
module EventStream {

  const PAGE := 200
  const LATE := 60

  /** A committed event as one stream sees it; `visible` is the member's scope, decided once per sandbox. */
  datatype Event = Event(number: int, created: int, visible: bool)

  /** The follower: how far it has read, where it began, the recent sends it remembers, all it has sent, and the clock
      when it last forgot. */
  datatype Stream = Stream(after: int, floor: int, sent: map<int, int>, out: seq<Event>, clock: int)

  // The queries, over the events a snapshot holds, oldest first.

  datatype Query = After(number: int) | Late(upto: int, since: int)

  predicate Selects(q: Query, e: Event) {
    match q
    case After(after) => e.number > after
    case Late(upto, since) => e.number <= upto && e.created >= since
  }

  function Select(table: seq<Event>, q: Query): (r: seq<Event>)
    ensures forall e :: e in r <==> e in table && Selects(q, e)
  {
    if table == [] then []
    else
      var last := |table| - 1;
      Select(table[..last], q) + if Selects(q, table[last]) then [table[last]] else []
  }

  function Limited(rows: seq<Event>): seq<Event> {
    if |rows| > PAGE then rows[..PAGE] else rows
  }

  ghost predicate Ordered(table: seq<Event>) {
    forall i, j :: 0 <= i < j < |table| ==> table[i].number < table[j].number
  }

  lemma {:induction false} SelectOrdered(table: seq<Event>, q: Query)
    requires Ordered(table)
    ensures Ordered(Select(table, q))
  {
    if table != [] {
      var last := |table| - 1;
      SelectOrdered(table[..last], q);
      forall e | e in Select(table[..last], q) ensures e.number < table[last].number {
        assert e in table[..last];
      }
    }
  }

  // One read of the stream.

  /** Sends the first `k` rows, except what was sent, what the member may not see and, among late rows, what is not
      after the starting point. */
  function Emitted(s: Stream, rows: seq<Event>, late: bool, k: nat): Stream
    requires k <= |rows|
  {
    if k == 0 then s
    else
      var t := Emitted(s, rows, late, k - 1);
      var e := rows[k - 1];
      if !e.visible || (late && e.number <= s.floor) || e.number in t.sent then t
      else t.(sent := t.sent[e.number := e.created], out := t.out + [e])
  }

  function Highest(after: int, rows: seq<Event>, k: nat): (r: int)
    requires k <= |rows|
    ensures r >= after && forall i :: 0 <= i < k ==> rows[i].number <= r
    ensures r == after || exists i :: 0 <= i < k && rows[i].number == r
  {
    if k == 0 then after
    else
      var r := Highest(after, rows, k - 1);
      if rows[k - 1].number > r then rows[k - 1].number else r
  }

  function Forget(sent: map<int, int>, horizon: int): map<int, int> {
    map q | q in sent && sent[q] >= horizon :: sent[q]
  }

  /** The events a late read looks among. */
  function Recent(s: Stream, table: seq<Event>, now: int): seq<Event> {
    Select(table, Late(s.after, now - LATE))
  }

  function Stragglers(s: Stream, table: seq<Event>, now: int): seq<Event> {
    if s.after > s.floor then Limited(Recent(s, table, now)) else []
  }

  function NewRows(s: Stream, table: seq<Event>): seq<Event> {
    Limited(Select(table, After(s.after)))
  }

  /** The snapshot that late events are read from, the one that new events are read from, and the clock at the first
      read and after the sends. */
  datatype Turn = Turn(first: seq<Event>, second: seq<Event>, now: int, later: int)

  /** One turn of the loop. */
  function Polled(s: Stream, turn: Turn): Stream {
    var stragglers, rows := Stragglers(s, turn.first, turn.now), NewRows(s, turn.second);
    var t := Emitted(s, stragglers, true, |stragglers|);
    var u := Emitted(t, rows, false, |rows|);
    u.(after := Highest(s.after, rows, |rows|), sent := Forget(u.sent, turn.later - LATE),
        clock := turn.later)
  }

  class Follower {
    var after: int
    const floor: int
    var sent: map<int, int>
    ghost var out: seq<Event>
    ghost var clock: int

    ghost function View(): Stream
      reads this
    {
      Stream(after, floor, sent, out, clock)
    }

    constructor (after: int, ghost clock: int)
      ensures View() == Begun(after, clock)
    {
      this.after, floor, sent, out, this.clock := after, after, map[], [], clock;
    }

    method Frame(e: Event)
      modifies this`sent, this`out
      ensures sent == old(sent)[e.number := e.created] && out == old(out) + [e]
    {
      sent := sent[e.number := e.created];
      out := out + [e];
    }

    method Send(rows: seq<Event>, late: bool)
      modifies this`sent, this`out
      ensures View() == Emitted(old(View()), rows, late, |rows|)
    {
      for i := 0 to |rows|
        invariant View() == Emitted(old(View()), rows, late, i)
      {
        if rows[i].visible && (!late || rows[i].number > floor) && rows[i].number !in sent {
          Frame(rows[i]);
        }
      }
    }

    method Poll(first: seq<Event>, second: seq<Event>, now: int, later: int) returns (again: bool)
      modifies this
      ensures View() == Polled(old(View()), Turn(first, second, now, later))
      ensures again <==> |NewRows(old(View()), second)| == PAGE
    {
      var stragglers := if after > floor then Limited(Select(first, Late(after, now - LATE))) else [];
      var rows := Limited(Select(second, After(after)));
      Send(stragglers, true);
      Send(rows, false);
      var top := after;
      for i := 0 to |rows|
        invariant top == Highest(after, rows, i)
      {
        if rows[i].number > top {
          top := rows[i].number;
        }
      }
      after := top;
      sent := Forget(sent, later - LATE);
      clock := later;
      again := |rows| == PAGE;
    }
  }

  // What a run sends. `log` holds every event there will be; a snapshot holds some of them.

  ghost predicate Drawn(rows: seq<Event>, log: map<int, Event>) {
    forall e :: e in rows ==> e.number in log && log[e.number] == e
  }

  ghost predicate Once(out: seq<Event>) {
    forall i, j :: 0 <= i < j < |out| ==> out[i].number != out[j].number
  }

  /** Nothing was sent twice or without being the member's to see, and `sent` tells only what was sent. */
  ghost predicate Honest(s: Stream, log: map<int, Event>) {
    && Once(s.out) && Drawn(s.out, log)
    && (forall e :: e in s.out ==> e.visible && e.number > s.floor)
    && (forall q :: q in s.sent ==> q in log && log[q] in s.out && s.sent[q] == log[q].created)
  }

  /** What was sent is behind `after`, and remembered unless it is older than what was last forgotten. */
  ghost predicate Remembers(s: Stream) {
    s.floor <= s.after &&
    forall e :: e in s.out ==> e.number <= s.after && (e.number in s.sent || e.created < s.clock - LATE)
  }

  ghost predicate Inv(s: Stream, log: map<int, Event>) {
    Honest(s, log) && Remembers(s)
  }

  /** A row to send was not sent, or is remembered. */
  ghost predicate Known(s: Stream, rows: seq<Event>) {
    forall e :: e in rows ==> e !in s.out || e.number in s.sent
  }

  ghost predicate Grown(s: Stream, t: Stream, rows: seq<Event>) {
    && t.after == s.after && t.floor == s.floor && t.clock == s.clock
    && s.out <= t.out
    && (forall q :: q in s.sent ==> q in t.sent)
    && (forall e :: e in t.out ==> e in s.out || (e in rows && e.number in t.sent))
  }

  lemma {:induction false} EmittedGrows(s: Stream, rows: seq<Event>, late: bool, k: nat, log: map<int, Event>)
    requires k <= |rows| && Drawn(rows, log) && Honest(s, log) && Known(s, rows)
    requires late || forall e :: e in rows ==> e.number > s.floor
    ensures Honest(Emitted(s, rows, late, k), log) && Grown(s, Emitted(s, rows, late, k), rows)
    ensures Known(Emitted(s, rows, late, k), rows)
  {
    if k > 0 {
      EmittedGrows(s, rows, late, k - 1, log);
      var t, e := Emitted(s, rows, late, k - 1), rows[k - 1];
      if Emitted(s, rows, late, k) != t {
        assert e in rows && e !in t.out;
      }
    }
  }

  lemma {:induction false} EmittedSends(s: Stream, rows: seq<Event>, late: bool, k: nat, i: nat, log: map<int, Event>)
    requires i < k <= |rows| && Drawn(rows, log) && Honest(s, log) && Known(s, rows)
    requires late || forall e :: e in rows ==> e.number > s.floor
    requires rows[i].visible && rows[i].number > s.floor
    ensures rows[i] in Emitted(s, rows, late, k).out
    decreases k
  {
    EmittedGrows(s, rows, late, k - 1, log);
    if i < k - 1 {
      EmittedSends(s, rows, late, k - 1, i, log);
    } else {
      assert rows[i] in rows;
    }
  }

  /** Every row a turn reads is an event of the log, in order, and the clock does not go back. */
  ghost predicate Reads(s: Stream, turn: Turn, log: map<int, Event>) {
    && Drawn(turn.first, log) && Drawn(turn.second, log)
    && Ordered(turn.first) && Ordered(turn.second)
    && s.clock <= turn.now <= turn.later
  }

  /** Late rows are recent enough to be remembered if they were sent; new rows were never sent. */
  lemma RowsKnown(s: Stream, turn: Turn)
    requires Remembers(s) && s.clock <= turn.now
    ensures Known(s, Stragglers(s, turn.first, turn.now))
    ensures forall e :: e in Stragglers(s, turn.first, turn.now) ==> e.number <= s.after
    ensures forall e :: e in NewRows(s, turn.second) ==> e !in s.out && e.number > s.after
  {
    forall e | e in Stragglers(s, turn.first, turn.now) ensures e.created >= turn.now - LATE && e.number <= s.after {
      assert e in Recent(s, turn.first, turn.now);
    }
    forall e | e in NewRows(s, turn.second) ensures e.number > s.after {
      assert e in Select(turn.second, After(s.after));
    }
  }

  /** A turn forgets every send of an event older than the late window. */
  lemma OldSendsForgotten(s: Stream, turn: Turn, number: int)
    requires number in Polled(s, turn).sent
    ensures Polled(s, turn).sent[number] >= turn.later - LATE
  {
  }

  /** The two sends of a turn, in the state each leaves. */
  lemma PollSends(s: Stream, turn: Turn, log: map<int, Event>)
    requires Inv(s, log) && Reads(s, turn, log)
    ensures var rows := Stragglers(s, turn.first, turn.now);
            var t := Emitted(s, rows, true, |rows|);
            var added := NewRows(s, turn.second);
            var u := Emitted(t, added, false, |added|);
            && Honest(t, log) && Grown(s, t, rows) && Known(t, added)
            && Honest(u, log) && Grown(t, u, added)
  {
    RowsKnown(s, turn);
    var rows, added := Stragglers(s, turn.first, turn.now), NewRows(s, turn.second);
    assert Drawn(rows, log) && Drawn(added, log);
    EmittedGrows(s, rows, true, |rows|, log);
    var t := Emitted(s, rows, true, |rows|);
    forall e | e in added ensures e !in t.out {
      assert e !in s.out && e.number > s.after;
    }
    EmittedGrows(t, added, false, |added|, log);
  }

  lemma PollKeeps(s: Stream, turn: Turn, log: map<int, Event>)
    requires Inv(s, log) && Reads(s, turn, log)
    ensures Inv(Polled(s, turn), log)
    ensures s.out <= Polled(s, turn).out && Polled(s, turn).floor == s.floor && Polled(s, turn).after >= s.after
  {
    PollSends(s, turn, log);
    var rows, added := Stragglers(s, turn.first, turn.now), NewRows(s, turn.second);
    var t := Emitted(s, rows, true, |rows|);
    var u := Emitted(t, added, false, |added|);
    var end := Polled(s, turn);
    forall e | e in u.out ensures e.number <= end.after && (e.number in u.sent || e.created < turn.later - LATE) {
      if e in added {
        var i :| 0 <= i < |added| && added[i] == e;
      } else if e in rows {
        RowsKnown(s, turn);
      }
    }
  }

  /** The first PAGE recent events are the rows a late read returns. */
  lemma StragglerAt(s: Stream, table: seq<Event>, now: int, i: nat)
    requires i < |Recent(s, table, now)| && i < PAGE && Recent(s, table, now)[i].number > s.floor
    ensures i < |Stragglers(s, table, now)| && Stragglers(s, table, now)[i] == Recent(s, table, now)[i]
  {
    assert Recent(s, table, now)[i] in Recent(s, table, now);
  }

  lemma LateSend(s: Stream, turn: Turn, log: map<int, Event>, i: nat)
    requires Inv(s, log) && Reads(s, turn, log)
    requires var rows := Stragglers(s, turn.first, turn.now); i < |rows| && rows[i].visible && rows[i].number > s.floor
    ensures var rows := Stragglers(s, turn.first, turn.now); rows[i] in Emitted(s, rows, true, |rows|).out
  {
    RowsKnown(s, turn);
    var rows := Stragglers(s, turn.first, turn.now);
    assert Drawn(rows, log);
    EmittedSends(s, rows, true, |rows|, i, log);
  }

  lemma StragglerSent(s: Stream, turn: Turn, log: map<int, Event>, i: nat)
    requires Inv(s, log) && Reads(s, turn, log)
    requires var recent := Recent(s, turn.first, turn.now);
             i < |recent| && i < PAGE && recent[i].visible && recent[i].number > s.floor
    ensures Recent(s, turn.first, turn.now)[i] in Polled(s, turn).out
  {
    StragglerAt(s, turn.first, turn.now, i);
    LateSend(s, turn, log, i);
    PollSends(s, turn, log);
  }

  lemma SentFrom(s: Stream, turn: Turn, log: map<int, Event>, e: Event)
    requires Inv(s, log) && Reads(s, turn, log) && e in Polled(s, turn).out
    ensures e in s.out || e in Stragglers(s, turn.first, turn.now) || e.number > s.after
  {
    PollSends(s, turn, log);
    RowsKnown(s, turn);
  }

  lemma Beyond(s: Stream, table: seq<Event>, now: int, i: nat)
    requires Ordered(table) && PAGE <= i < |Recent(s, table, now)|
    ensures Recent(s, table, now)[i] !in Stragglers(s, table, now) && Recent(s, table, now)[i].number <= s.after
  {
    SelectOrdered(table, Late(s.after, now - LATE));
    assert Recent(s, table, now)[i] in Recent(s, table, now);
  }

  lemma StragglerSentByRank(s: Stream, turn: Turn, log: map<int, Event>, i: nat)
    requires Inv(s, log) && Reads(s, turn, log)
    requires var recent := Recent(s, turn.first, turn.now);
             i < |recent| && recent[i].visible && recent[i].number > s.floor && recent[i] !in s.out
    ensures Recent(s, turn.first, turn.now)[i] in Polled(s, turn).out <==> i < PAGE
  {
    var e := Recent(s, turn.first, turn.now)[i];
    if i < PAGE {
      StragglerSent(s, turn, log, i);
    } else {
      Beyond(s, turn.first, turn.now, i);
      if e in Polled(s, turn).out {
        SentFrom(s, turn, log, e);
      }
    }
  }

  /** Nothing between the old and the new reading point is skipped. */
  lemma NewEventsSent(s: Stream, turn: Turn, log: map<int, Event>, e: Event)
    requires Inv(s, log) && Reads(s, turn, log)
    requires e in turn.second && e.visible && s.after < e.number <= Polled(s, turn).after
    ensures e in Polled(s, turn).out
  {
    PollSends(s, turn, log);
    RowsKnown(s, turn);
    SelectOrdered(turn.second, After(s.after));
    var all, rows := Select(turn.second, After(s.after)), NewRows(s, turn.second);
    var i :| 0 <= i < |all| && all[i] == e;
    assert i < PAGE;
    var stragglers := Stragglers(s, turn.first, turn.now);
    EmittedSends(Emitted(s, stragglers, true, |stragglers|), rows, false, |rows|, i, log);
  }

  // The same by what a snapshot holds, whatever the queries and the limit make of it.

  /** The snapshot's events after `after` and before e. */
  ghost function NewBefore(table: seq<Event>, after: int, e: Event): set<Event> {
    set x | x in table && after < x.number < e.number
  }

  /** The snapshot's events up to `after`, written since `since`, and before e. */
  ghost function RecentBefore(table: seq<Event>, after: int, since: int, e: Event): set<Event> {
    set x | x in table && x.number <= after && x.created >= since && x.number < e.number
  }

  ghost function Members(rows: seq<Event>): set<Event> {
    set x | x in rows
  }

  lemma {:induction false} OrderedCount(rows: seq<Event>)
    requires Ordered(rows)
    ensures |Members(rows)| == |rows|
  {
    if rows != [] {
      var last := |rows| - 1;
      OrderedCount(rows[..last]);
      assert Members(rows) == Members(rows[..last]) + {rows[last]};
    }
  }

  /** The place of a selected event is the number of selected events before it. */
  lemma RankCounts(rows: seq<Event>, i: nat)
    requires Ordered(rows) && i < |rows|
    ensures |set x | x in rows && x.number < rows[i].number| == i
  {
    OrderedCount(rows[..i]);
    assert (set x | x in rows && x.number < rows[i].number) == Members(rows[..i]) by {
      forall x | x in rows && x.number < rows[i].number ensures x in rows[..i] {
        var j :| 0 <= j < |rows| && rows[j] == x;
        assert j < i;
      }
    }
  }

  lemma NewRank(table: seq<Event>, after: int, e: Event) returns (i: nat)
    requires Ordered(table) && e in table && e.number > after
    ensures i < |Select(table, After(after))| && Select(table, After(after))[i] == e && i == |NewBefore(table, after, e)|
  {
    var rows := Select(table, After(after));
    SelectOrdered(table, After(after));
    i :| 0 <= i < |rows| && rows[i] == e;
    RankCounts(rows, i);
    assert (set x | x in rows && x.number < e.number) == NewBefore(table, after, e);
  }

  lemma RecentRank(table: seq<Event>, after: int, since: int, e: Event) returns (i: nat)
    requires Ordered(table) && e in table && e.number <= after && e.created >= since
    ensures i < |Select(table, Late(after, since))| && Select(table, Late(after, since))[i] == e
    ensures i == |RecentBefore(table, after, since, e)|
  {
    var rows := Select(table, Late(after, since));
    SelectOrdered(table, Late(after, since));
    i :| 0 <= i < |rows| && rows[i] == e;
    RankCounts(rows, i);
    assert (set x | x in rows && x.number < e.number) == RecentBefore(table, after, since, e);
  }

  /** A turn reads up to exactly the first PAGE events after its reading point: an event is passed if and only if fewer
      than PAGE events of the snapshot come between, and the reading point rests on an event of the snapshot. */
  lemma ReadsExactly(s: Stream, turn: Turn, e: Event)
    requires Ordered(turn.second) && e in turn.second && e.number > s.after
    ensures e.number <= Polled(s, turn).after <==> |NewBefore(turn.second, s.after, e)| < PAGE
    ensures exists x :: x in turn.second && x.number == Polled(s, turn).after
  {
    var all, rows := Select(turn.second, After(s.after)), NewRows(s, turn.second);
    var i := NewRank(turn.second, s.after, e);
    SelectOrdered(turn.second, After(s.after));
    assert i < PAGE ==> rows[i] == e;
    assert rows[0] in all;
    var after := Highest(s.after, rows, |rows|);
    assert rows[0].number > s.after;
    var j :| 0 <= j < |rows| && rows[j].number == after;
    assert rows[j] == all[j] && all[j] in all;
  }

  lemma FirstIn(rows: seq<Event>)
    ensures rows == [] || rows[0] in rows
  {
  }

  /** Without an event after it in the snapshot, the reading point stays. */
  lemma ReadingPointStays(s: Stream, turn: Turn)
    requires forall x :: x in turn.second ==> x.number <= s.after
    ensures Polled(s, turn).after == s.after
  {
    FirstIn(Select(turn.second, After(s.after)));
  }

  /** A turn is followed by another at once exactly when the snapshot held a full page of new events. */
  lemma FullPageExactly(s: Stream, table: seq<Event>)
    requires Ordered(table)
    ensures |NewRows(s, table)| == PAGE <==> |set x | x in table && x.number > s.after| >= PAGE
  {
    var all := Select(table, After(s.after));
    SelectOrdered(table, After(s.after));
    OrderedCount(all);
    assert Members(all) == set x | x in table && x.number > s.after;
  }

  /** A new event with fewer than PAGE new events before it is passed, and sent if it is the member's to see. */
  lemma NewEventSent(s: Stream, turn: Turn, log: map<int, Event>, e: Event)
    requires Inv(s, log) && Reads(s, turn, log)
    requires e in turn.second && e.number > s.after && |NewBefore(turn.second, s.after, e)| < PAGE
    ensures e.number <= Polled(s, turn).after && (e.visible ==> e in Polled(s, turn).out)
  {
    ReadsExactly(s, turn, e);
    if e.visible {
      NewEventsSent(s, turn, log, e);
    }
  }

  /** A visible late event that a read sees and that was not sent yet is sent exactly when fewer than PAGE recent events
      of the snapshot come before it. */
  lemma StragglerSentExactly(s: Stream, turn: Turn, log: map<int, Event>, e: Event)
    requires Inv(s, log) && Reads(s, turn, log)
    requires e in turn.first && s.floor < e.number <= s.after && e.created >= turn.now - LATE && e.visible && e !in s.out
    ensures e in Polled(s, turn).out <==> |RecentBefore(turn.first, s.after, turn.now - LATE, e)| < PAGE
  {
    var i := RecentRank(turn.first, s.after, turn.now - LATE, e);
    StragglerSentByRank(s, turn, log, i);
  }

  lemma {:induction false} EmittedInOrder(s: Stream, rows: seq<Event>, late: bool, k: nat)
    requires k <= |rows| && Ordered(rows)
    ensures s.out <= Emitted(s, rows, late, k).out && Ordered(Emitted(s, rows, late, k).out[|s.out|..])
    ensures forall e :: e in Emitted(s, rows, late, k).out[|s.out|..] ==> e in rows[..k]
  {
    if k > 0 {
      EmittedInOrder(s, rows, late, k - 1);
      var t, u := Emitted(s, rows, late, k - 1), Emitted(s, rows, late, k);
      assert rows[..k] == rows[..k - 1] + [rows[k - 1]];
      if u != t {
        assert u.out[|s.out|..] == t.out[|s.out|..] + [rows[k - 1]];
        forall e | e in t.out[|s.out|..] ensures e.number < rows[k - 1].number {
          assert e in rows[..k - 1];
        }
      }
    }
  }

  /** From `before` to `after`, rows of `rows` were added in ascending number. */
  ghost predicate Appends(before: seq<Event>, after: seq<Event>, rows: seq<Event>) {
    && before <= after && Ordered(after[|before|..])
    && (forall e :: e in after[|before|..] ==> e in rows)
  }

  lemma SendAppends(s: Stream, rows: seq<Event>, late: bool)
    requires Ordered(rows)
    ensures Appends(s.out, Emitted(s, rows, late, |rows|).out, rows)
  {
    EmittedInOrder(s, rows, late, |rows|);
    assert rows[..|rows|] == rows;
  }

  lemma AppendsJoin(a: seq<Event>, b: seq<Event>, c: seq<Event>, rows: seq<Event>, added: seq<Event>, at: int)
    requires Appends(a, b, rows) && Appends(b, c, added)
    requires (forall e :: e in rows ==> e.number <= at) && (forall e :: e in added ==> e.number > at)
    ensures a <= c && Ordered(c[|a|..])
  {
    var x, y := b[|a|..], c[|b|..];
    assert c[|a|..] == x + y;
    forall i, j | 0 <= i < |x| && 0 <= j < |y| ensures x[i].number < y[j].number {
      assert x[i] in x && y[j] in y;
    }
  }

  lemma RowsOrdered(s: Stream, turn: Turn)
    requires Remembers(s) && s.clock <= turn.now && Ordered(turn.first) && Ordered(turn.second)
    ensures Ordered(Stragglers(s, turn.first, turn.now)) && Ordered(NewRows(s, turn.second))
    ensures forall e :: e in Stragglers(s, turn.first, turn.now) ==> e.number <= s.after
    ensures forall e :: e in NewRows(s, turn.second) ==> e.number > s.after
  {
    RowsKnown(s, turn);
    SelectOrdered(turn.first, Late(s.after, turn.now - LATE));
    SelectOrdered(turn.second, After(s.after));
  }

  /** What a turn sends, late events and new ones together, it sends in ascending number. */
  lemma TurnSendsInOrder(s: Stream, turn: Turn, log: map<int, Event>)
    requires Inv(s, log) && Reads(s, turn, log)
    ensures s.out <= Polled(s, turn).out && Ordered(Polled(s, turn).out[|s.out|..])
  {
    RowsOrdered(s, turn);
    var rows, added := Stragglers(s, turn.first, turn.now), NewRows(s, turn.second);
    var t := Emitted(s, rows, true, |rows|);
    SendAppends(s, rows, true);
    SendAppends(t, added, false);
    AppendsJoin(s.out, t.out, Emitted(t, added, false, |added|).out, rows, added, s.after);
  }

  // Whole runs.

  ghost predicate Next(s: Stream, turn: Turn, t: Stream, log: map<int, Event>) {
    Reads(s, turn, log) && t == Polled(s, turn)
  }

  /** `turns` lead from `s` to `t`. */
  ghost predicate Path(s: Stream, turns: seq<Turn>, t: Stream, log: map<int, Event>)
    decreases |turns|
  {
    if turns == [] then t == s
    else
      var last := |turns| - 1;
      exists u :: Path(s, turns[..last], u, log) && Next(u, turns[last], t, log)
  }

  function Begun(after: int, clock: int): Stream {
    Stream(after, after, map[], [], clock)
  }

  lemma TurnKeeps(s: Stream, turn: Turn, t: Stream, log: map<int, Event>)
    requires Inv(s, log) && Next(s, turn, t, log)
    ensures Inv(t, log) && s.out <= t.out && t.floor == s.floor
  {
    PollKeeps(s, turn, log);
  }

  lemma {:induction false} PathKeeps(s: Stream, turns: seq<Turn>, t: Stream, log: map<int, Event>)
    requires Inv(s, log) && Path(s, turns, t, log)
    ensures Inv(t, log) && s.out <= t.out && t.floor == s.floor
    decreases |turns|
  {
    if turns != [] {
      var last := |turns| - 1;
      var u :| Path(s, turns[..last], u, log) && Next(u, turns[last], t, log);
      PathKeeps(s, turns[..last], u, log);
      TurnKeeps(u, turns[last], t, log);
    }
  }

  /** However long the stream runs and whatever it forgets, it sends no event twice, none the member may not see and
      none from before its starting point. */
  lemma NothingSentTwice(after: int, clock: int, turns: seq<Turn>, t: Stream, log: map<int, Event>)
    requires Path(Begun(after, clock), turns, t, log)
    ensures Once(t.out) && forall e :: e in t.out ==> e.visible && e.number > after
  {
    PathKeeps(Begun(after, clock), turns, t, log);
  }

  /** A turn shows the stream e: late and recent with fewer than PAGE such events before it, or new with fewer than PAGE
      new ones before it. */
  ghost predicate Shows(s: Stream, turn: Turn, e: Event) {
    || (e in turn.first && e.number <= s.after && e.created >= turn.now - LATE &&
        |RecentBefore(turn.first, s.after, turn.now - LATE, e)| < PAGE)
    || (e in turn.second && e.number > s.after && |NewBefore(turn.second, s.after, e)| < PAGE)
  }

  lemma SeenIsSent(s: Stream, turn: Turn, t: Stream, log: map<int, Event>, e: Event)
    requires Inv(s, log) && Next(s, turn, t, log) && e.visible && e.number > s.floor && Shows(s, turn, e)
    ensures e in t.out
  {
    if e.number > s.after {
      NewEventSent(s, turn, log, e);
    } else if e in s.out {
      PollKeeps(s, turn, log);
    } else {
      StragglerSentExactly(s, turn, log, e);
    }
  }

  /** Every visible event above the starting point that some turn of a run shows the stream has been sent from then
      on. */
  lemma EverythingSeenIsSent(after: int, clock: int, before: seq<Turn>, s: Stream, turn: Turn, t: Stream,
                             rest: seq<Turn>, end: Stream, log: map<int, Event>, e: Event)
    requires Path(Begun(after, clock), before, s, log) && Next(s, turn, t, log) && Path(t, rest, end, log)
    requires e.visible && e.number > after && Shows(s, turn, e)
    ensures e in end.out
  {
    PathKeeps(Begun(after, clock), before, s, log);
    SeenIsSent(s, turn, t, log, e);
    TurnKeeps(s, turn, t, log);
    PathKeeps(t, rest, end, log);
  }

  // A backlog is worked off, a page a turn.

  /** The events there will be between the reading point and e. */
  ghost function Backlog(s: Stream, log: map<int, Event>, e: Event): set<int> {
    set q | q in log && s.after < q < e.number
  }

  ghost function Numbers(xs: set<Event>): set<int> {
    set x | x in xs :: x.number
  }

  lemma {:induction false} NumbersCount(xs: set<Event>, log: map<int, Event>)
    requires forall x :: x in xs ==> x.number in log && log[x.number] == x
    ensures |Numbers(xs)| == |xs|
  {
    if xs != {} {
      var x :| x in xs;
      NumbersCount(xs - {x}, log);
      assert Numbers(xs) == Numbers(xs - {x}) + {x.number};
    }
  }

  lemma SubsetCount(a: set<int>, b: set<int>)
    requires a <= b
    ensures |a| <= |b| && |b - a| == |b| - |a|
  {
    assert b == a + (b - a);
  }

  lemma NoBigger(a: set<Event>, b: set<Event>)
    requires a <= b
    ensures |a| <= |b|
  {
    assert b == a + (b - a);
  }

  /** A turn that sees e passes it, or passes at least PAGE events before it. */
  lemma BacklogShrinks(s: Stream, turn: Turn, t: Stream, log: map<int, Event>, e: Event)
    requires Next(s, turn, t, log) && e in turn.second && e.number > s.after
    ensures e.number <= t.after || |Backlog(t, log, e)| + PAGE <= |Backlog(s, log, e)|
  {
    ReadsExactly(s, turn, e);
    if e.number > t.after {
      var x :| x in turn.second && x.number == t.after;
      var passed := set y | y in turn.second && s.after < y.number <= t.after;
      PassedPage(s, turn, e, passed);
      NumbersCount(passed, log);
      assert Numbers(passed) <= Backlog(s, log, e);
      SubsetCount(Numbers(passed), Backlog(s, log, e));
      assert Backlog(t, log, e) <= Backlog(s, log, e) - Numbers(passed);
      SubsetCount(Backlog(t, log, e), Backlog(s, log, e) - Numbers(passed));
    }
  }

  /** A turn that does not reach an event of its snapshot passes at least PAGE others. */
  lemma PassedPage(s: Stream, turn: Turn, e: Event, passed: set<Event>)
    requires Ordered(turn.second) && e in turn.second && e.number > Polled(s, turn).after && e.number > s.after
    requires passed == set y | y in turn.second && s.after < y.number <= Polled(s, turn).after
    ensures |passed| >= PAGE
  {
    var all, rows := Select(turn.second, After(s.after)), NewRows(s, turn.second);
    ReadsExactly(s, turn, e);
    var i := NewRank(turn.second, s.after, e);
    SelectOrdered(turn.second, After(s.after));
    OrderedCount(rows);
    assert |rows| == PAGE;
    forall x | x in Members(rows) ensures x in passed {
      var j :| 0 <= j < |rows| && rows[j] == x;
      assert all[j] in all;
    }
    NoBigger(Members(rows), passed);
  }

  /** Every turn's snapshot of new events holds e. */
  ghost predicate Sees(turns: seq<Turn>, e: Event) {
    forall i :: 0 <= i < |turns| ==> e in turns[i].second
  }

  /** e has been passed, and then sent if it is the member's to see. */
  ghost predicate Done(s: Stream, e: Event) {
    e.number <= s.after && (e.visible ==> e in s.out)
  }

  lemma TurnWorks(s: Stream, turn: Turn, t: Stream, log: map<int, Event>, e: Event)
    requires Inv(s, log) && Next(s, turn, t, log) && e in turn.second && (e.number > s.after || Done(s, e))
    ensures Done(t, e) || (e.number > t.after && e.number > s.after && |Backlog(t, log, e)| + PAGE <= |Backlog(s, log, e)|)
  {
    PollKeeps(s, turn, log);
    if e.number > s.after {
      BacklogShrinks(s, turn, t, log, e);
      if e.number <= t.after && e.visible {
        NewEventsSent(s, turn, log, e);
      }
    }
  }

  lemma {:induction false} BacklogOver(s: Stream, turns: seq<Turn>, t: Stream, log: map<int, Event>, e: Event)
    requires Inv(s, log) && Path(s, turns, t, log) && Sees(turns, e) && e.number > s.after
    ensures Done(t, e) || (e.number > t.after && |Backlog(t, log, e)| + PAGE * |turns| <= |Backlog(s, log, e)|)
    decreases |turns|
  {
    if turns != [] {
      var last := |turns| - 1;
      var u :| Path(s, turns[..last], u, log) && Next(u, turns[last], t, log);
      BacklogOver(s, turns[..last], u, log, e);
      PathKeeps(s, turns[..last], u, log);
      TurnWorks(u, turns[last], t, log, e);
    }
  }

  /** An event that every turn sees is passed, and sent if visible, once there were more turns than pages of events
      before it. */
  lemma BacklogWorkedOff(after: int, clock: int, turns: seq<Turn>, t: Stream, log: map<int, Event>, e: Event)
    requires Path(Begun(after, clock), turns, t, log) && Sees(turns, e) && e.number > after
    requires PAGE * |turns| > |Backlog(Begun(after, clock), log, e)|
    ensures e.number <= t.after && (e.visible ==> e in t.out)
  {
    BacklogOver(Begun(after, clock), turns, t, log, e);
  }
}

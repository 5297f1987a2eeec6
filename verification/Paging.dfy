/** Cursor pagination over newest-first tables, with a filter: pages, cursors and following them to the end. */
module Paging {
  import opened Options
  import Text

  datatype Pos = Pos(at: int, id: string)

  /** A row of the list; `wanted` is the answer of the page's filter. */
  datatype Row = Row(at: int, id: string, wanted: bool)
  {
    function Key(): Pos { Pos(at, id) }
  }

  predicate Below(a: Pos, b: Pos) {
    a.at < b.at || (a.at == b.at && Text.Less(a.id, b.id))
  }

  /** Newest first, no two rows at one position. */
  ghost predicate Descending(table: seq<Row>) {
    forall i, j :: 0 <= i < j < |table| ==> Below(table[j].Key(), table[i].Key())
  }

  /** Where the rows below a position begin, looking from row `i` on. */
  function Start(table: seq<Row>, before: Option<Pos>, i: nat): (r: nat)
    requires i <= |table|
    ensures i <= r <= |table|
    decreases |table| - i
  {
    if before.None? || i == |table| || Below(table[i].Key(), before.value) then i else Start(table, before, i + 1)
  }

  function Fetch(table: seq<Row>, before: Option<Pos>, n: nat): seq<Row> {
    var i := Start(table, before, 0);
    table[i..if i + n < |table| then i + n else |table|]
  }

  /** The kept rows among rows `lo` to `hi`. */
  function Kept(table: seq<Row>, lo: nat, hi: nat): seq<Row>
    requires lo <= hi <= |table|
    decreases hi
  {
    if hi == lo then [] else Kept(table, lo, hi - 1) + if table[hi - 1].wanted then [table[hi - 1]] else []
  }

  /** The kept rows after a cursor. */
  function Left(table: seq<Row>, before: Option<Pos>): seq<Row> {
    Kept(table, Start(table, before, 0), |table|)
  }

  /** A page: the first kept rows after the cursor, and the cursor of the next page unless none are left. */
  function Page(table: seq<Row>, before: Option<Pos>, limit: nat): (seq<Row>, Option<Pos>)
    requires limit > 0
  {
    var kept := Left(table, before);
    if |kept| > limit then (kept[..limit], Some(kept[limit - 1].Key())) else (kept, None)
  }

  lemma BelowStrict(a: Pos, b: Pos)
    ensures !Below(a, a) && !(Below(a, b) && Below(b, a))
  {
    Text.LessStrict(a.id, b.id);
  }

  lemma BelowTransitive(a: Pos, b: Pos, c: Pos)
    requires Below(a, b) && Below(b, c)
    ensures Below(a, c)
  {
    if a.at == b.at == c.at {
      Text.LessTransitive(a.id, b.id, c.id);
    }
  }

  // What a page holds, by positions in the table.

  /** Row i passes the filter and comes after the cursor. */
  ghost predicate Wanted(table: seq<Row>, before: Option<Pos>, i: int) {
    0 <= i < |table| && table[i].wanted && (before.None? || Below(table[i].Key(), before.value))
  }

  /** `at` lists, in increasing order, exactly the positions of the wanted rows after the cursor. */
  ghost predicate Lists(at: seq<int>, table: seq<Row>, before: Option<Pos>) {
    (forall i, j :: 0 <= i < j < |at| ==> at[i] < at[j]) && (forall i :: i in at <==> Wanted(table, before, i))
  }

  /** `rows` are the rows of the table at these positions. */
  ghost predicate RowsAt(rows: seq<Row>, table: seq<Row>, at: seq<int>) {
    |rows| == |at| && forall k :: 0 <= k < |at| ==> 0 <= at[k] < |table| && rows[k] == table[at[k]]
  }

  /** A row is left if and only if it is below the cursor. */
  lemma {:induction false} StartMeans(table: seq<Row>, before: Option<Pos>, i: nat, k: nat)
    requires Descending(table) && i <= k < |table|
    ensures Start(table, before, i) <= k ==> before.None? || Below(table[k].Key(), before.value)
    ensures Start(table, before, i) > k ==> before.Some? && !Below(table[k].Key(), before.value)
    decreases |table| - i
  {
    if before.None? {
    } else if Below(table[i].Key(), before.value) {
      if i < k {
        BelowTransitive(table[k].Key(), table[i].Key(), before.value);
      }
    } else if i < k {
      StartMeans(table, before, i + 1, k);
    }
  }

  /** The positions of the kept rows among rows `lo` to `hi`. */
  ghost function Positions(table: seq<Row>, lo: nat, hi: nat): seq<int>
    requires lo <= hi <= |table|
    decreases hi
  {
    if hi == lo then [] else Positions(table, lo, hi - 1) + if table[hi - 1].wanted then [hi - 1] else []
  }

  lemma {:induction false} PositionsMean(table: seq<Row>, lo: nat, hi: nat)
    requires lo <= hi <= |table|
    ensures forall i :: i in Positions(table, lo, hi) <==> lo <= i < hi && table[i].wanted
    ensures forall i, j :: 0 <= i < j < |Positions(table, lo, hi)| ==> Positions(table, lo, hi)[i] < Positions(table, lo, hi)[j]
    decreases hi
  {
    if lo < hi {
      PositionsMean(table, lo, hi - 1);
      var at := Positions(table, lo, hi - 1);
      assert forall k :: 0 <= k < |at| ==> at[k] in at;
    }
  }

  lemma {:induction false} KeptAtPositions(table: seq<Row>, lo: nat, hi: nat)
    requires lo <= hi <= |table|
    ensures RowsAt(Kept(table, lo, hi), table, Positions(table, lo, hi))
    decreases hi
  {
    if lo < hi {
      KeptAtPositions(table, lo, hi - 1);
    }
  }

  /** What is left after a cursor: the wanted rows below it, each once and in the table's order, and nothing else. */
  lemma LeftMeans(table: seq<Row>, before: Option<Pos>) returns (at: seq<int>)
    requires Descending(table)
    ensures Lists(at, table, before) && RowsAt(Left(table, before), table, at)
  {
    var lo := Start(table, before, 0);
    at := Positions(table, lo, |table|);
    PositionsMean(table, lo, |table|);
    KeptAtPositions(table, lo, |table|);
    forall i ensures i in at <==> Wanted(table, before, i) {
      if 0 <= i < |table| {
        StartMeans(table, before, 0, i);
      }
    }
  }

  /** A page is the first `limit` of the wanted rows below the cursor, and its cursor is the last one's position exactly
      when there are more. */
  lemma PageMeans(table: seq<Row>, before: Option<Pos>, limit: nat) returns (at: seq<int>)
    requires Descending(table) && limit > 0
    ensures Lists(at, table, before)
    ensures var (page, next) := Page(table, before, limit);
            && RowsAt(page, table, if |at| > limit then at[..limit] else at)
            && (next.Some? <==> |at| > limit)
            && (next.Some? ==> 0 <= at[limit - 1] < |table| && next.value == table[at[limit - 1]].Key())
  {
    at := LeftMeans(table, before);
  }

  /** The rows below one of the table's own positions begin right after it. */
  lemma {:induction false} StartAfter(table: seq<Row>, p: nat, i: nat)
    requires Descending(table) && i <= p < |table|
    ensures Start(table, Some(table[p].Key()), i) == p + 1
    decreases p - i
  {
    BelowStrict(table[i].Key(), table[p].Key());
    if i < p {
      StartAfter(table, p, i + 1);
    }
  }

  lemma {:induction false} KeptSplits(table: seq<Row>, lo: nat, mid: nat, hi: nat)
    requires lo <= mid <= hi <= |table|
    ensures Kept(table, lo, hi) == Kept(table, lo, mid) + Kept(table, mid, hi)
    decreases hi
  {
    if mid < hi {
      KeptSplits(table, lo, mid, hi - 1);
    }
  }

  /** Where the kept row number `m` stands. */
  lemma {:induction false} KeptAt(table: seq<Row>, lo: nat, hi: nat, m: nat) returns (p: nat)
    requires lo <= hi <= |table| && m < |Kept(table, lo, hi)|
    ensures lo <= p < hi && table[p] == Kept(table, lo, hi)[m]
    ensures Kept(table, p + 1, hi) == Kept(table, lo, hi)[m + 1..]
    decreases hi
  {
    if m < |Kept(table, lo, hi - 1)| {
      p := KeptAt(table, lo, hi - 1, m);
    } else {
      p := hi - 1;
    }
  }

  /** The cursor of a page leaves the kept rows after the page. */
  lemma CursorLeaves(table: seq<Row>, before: Option<Pos>, limit: nat)
    requires limit > 0 && Descending(table) && |Left(table, before)| > limit
    ensures Left(table, Some(Left(table, before)[limit - 1].Key())) == Left(table, before)[limit..]
  {
    var p := KeptAt(table, Start(table, before, 0), |table|, limit - 1);
    StartAfter(table, p, 0);
  }

  /** A page and what its cursor leaves are what there was; the cursor is null exactly when it would leave nothing. */
  lemma PageSplits(table: seq<Row>, before: Option<Pos>, limit: nat)
    requires limit > 0 && Descending(table)
    ensures var (page, next) := Page(table, before, limit);
            && |page| <= limit
            && (next.None? ==> page == Left(table, before))
            && (next.Some? ==> |page| == limit && Left(table, next) != [] && page + Left(table, next) == Left(table, before))
  {
    if |Left(table, before)| > limit {
      CursorLeaves(table, before, limit);
    }
  }

  /** Adds a batch's kept rows, rows `p` to `q`, to those found, until there is one more than the page holds. */
  method Gather(found: seq<Row>, rows: seq<Row>, limit: nat, ghost table: seq<Row>, ghost lo: nat, ghost p: nat)
    returns (r: seq<Row>)
    requires lo <= p && p + |rows| <= |table| && rows == table[p..p + |rows|]
    requires found == Kept(table, lo, p) && |found| <= limit
    ensures |r| <= limit ==> r == Kept(table, lo, p + |rows|)
    ensures |r| > limit ==> |r| == limit + 1 && r <= Kept(table, lo, |table|)
  {
    r := found;
    for i := 0 to |rows|
      invariant r == Kept(table, lo, p + i) && |r| <= limit
    {
      if rows[i].wanted {
        r := r + [rows[i]];
        if |r| > limit {
          KeptSplits(table, lo, p + i + 1, |table|);
          return;
        }
      }
    }
  }

  lemma FullPage(table: seq<Row>, cursor: Option<Pos>, limit: nat, found: seq<Row>)
    requires limit > 0 && found <= Left(table, cursor) && |found| == limit + 1
    ensures Page(table, cursor, limit) == (found[..limit], Some(found[limit - 1].Key()))
  {
    assert found[..limit] == Left(table, cursor)[..limit];
  }

  // Following the cursors to the end.

  /** `after` is `before` with newer rows on top. */
  ghost predicate Extends(before: seq<Row>, after: seq<Row>) {
    |before| <= |after| && after[|after| - |before|..] == before
  }

  lemma {:induction false} KeptExtended(before: seq<Row>, after: seq<Row>, lo: nat, hi: nat)
    requires Extends(before, after) && lo <= hi <= |before|
    ensures Kept(after, |after| - |before| + lo, |after| - |before| + hi) == Kept(before, lo, hi)
    decreases hi
  {
    if lo < hi {
      KeptExtended(before, after, lo, hi - 1);
      assert after[|after| - |before| + hi - 1] == before[hi - 1];
    }
  }

  /** Newer rows do not change what a row's cursor leaves. */
  lemma LeftExtended(before: seq<Row>, after: seq<Row>, p: nat)
    requires Descending(before) && Descending(after) && Extends(before, after) && p < |before|
    ensures Left(after, Some(before[p].Key())) == Left(before, Some(before[p].Key()))
  {
    var d := |after| - |before|;
    assert after[d + p] == before[p];
    StartAfter(after, d + p, 0);
    StartAfter(before, p, 0);
    KeptExtended(before, after, p + 1, |before|);
  }

  /** A batch after row `p` of a table is the same from a table with newer rows. */
  lemma FetchExtended(before: seq<Row>, after: seq<Row>, p: nat, n: nat)
    requires Descending(before) && Descending(after) && Extends(before, after) && p < |before|
    ensures Fetch(after, Some(before[p].Key()), n) == Fetch(before, Some(before[p].Key()), n)
  {
    var d := |after| - |before|;
    assert after[d + p] == before[p];
    StartAfter(after, d + p, 0);
    StartAfter(before, p, 0);
    assert forall i :: 0 <= i < |before| ==> after[d..][i] == before[i];
  }

  /** `before` is where the first batch began, or the position of row `p - 1` of the table. */
  ghost predicate Continues(table: seq<Row>, before: Option<Pos>, p: nat, first: bool) {
    && p <= |table| && Start(table, before, 0) == p
    && (first || (p > 0 && before == Some(table[p - 1].Key())))
  }

  /** The first `k` tables are one table that newer rows are added to. */
  ghost predicate Versions(tables: seq<seq<Row>>, k: nat)
    requires k <= |tables|
  {
    k == 0 || (Versions(tables, k - 1) && Descending(tables[k - 1]) && Extends(tables[0], tables[k - 1]))
  }

  lemma {:induction false} VersionAt(tables: seq<seq<Row>>, k: nat, i: nat)
    requires i < k <= |tables| && Versions(tables, k)
    ensures Descending(tables[i]) && Extends(tables[0], tables[i])
    decreases k
  {
    if i < k - 1 {
      VersionAt(tables, k - 1, i);
    }
  }

  lemma BatchRows(tables: seq<seq<Row>>, turn: nat, before: Option<Pos>, n: nat, p: nat)
    requires turn < |tables| && Versions(tables, |tables|) && Continues(tables[0], before, p, turn == 0)
    ensures var rows := Fetch(tables[turn], before, n);
      && p + |rows| <= |tables[0]| && rows == tables[0][p..p + |rows|]
      && |rows| <= n && (|rows| < n ==> p + |rows| == |tables[0]|)
  {
    VersionAt(tables, |tables|, 0);
    VersionAt(tables, |tables|, turn);
    if turn > 0 {
      FetchExtended(tables[0], tables[turn], p - 1, n);
    }
  }

  lemma NextContinues(tables: seq<seq<Row>>, p: nat)
    requires tables != [] && Versions(tables, |tables|) && 0 < p <= |tables[0]|
    ensures Continues(tables[0], Some(tables[0][p - 1].Key()), p, false)
  {
    VersionAt(tables, |tables|, 0);
    StartAfter(tables[0], p - 1, 0);
  }

  lemma BatchLast(tables: seq<seq<Row>>, p: nat, rows: seq<Row>)
    requires tables != [] && Versions(tables, |tables|) && p + |rows| <= |tables[0]| && rows == tables[0][p..p + |rows|]
    ensures rows != [] ==> Continues(tables[0], Some(rows[|rows| - 1].Key()), p + |rows|, false)
  {
    if rows != [] {
      NextContinues(tables, p + |rows|);
    }
  }

  /** The kept rows after the cursor, up to row `p` of the table, still fit the page. */
  ghost predicate Gathered(table: seq<Row>, cursor: Option<Pos>, limit: nat, found: seq<Row>, p: nat) {
    && Start(table, cursor, 0) <= p <= |table|
    && found == Kept(table, Start(table, cursor, 0), p) && |found| <= limit
  }

  lemma LastPage(table: seq<Row>, cursor: Option<Pos>, limit: nat, found: seq<Row>)
    requires limit > 0 && Gathered(table, cursor, limit, found, |table|)
    ensures Page(table, cursor, limit) == (found, None)
  {
  }

  /** What a batch leaves to do: the page is full, the rows ran out, or the next batch follows. */
  ghost predicate Batched(table: seq<Row>, cursor: Option<Pos>, limit: nat, found: seq<Row>, before: Option<Pos>, p: nat,
                          more: bool)
    requires limit > 0
  {
    if |found| > limit then Page(table, cursor, limit) == (found[..limit], Some(found[limit - 1].Key()))
    else if !more then Page(table, cursor, limit) == (found, None)
    else Gathered(table, cursor, limit, found, p) && Continues(table, before, p, false)
  }

  lemma BatchOutcome(tables: seq<seq<Row>>, cursor: Option<Pos>, limit: nat, r: seq<Row>, rows: seq<Row>, p: nat)
    requires limit > 0 && tables != [] && Versions(tables, |tables|) && Start(tables[0], cursor, 0) <= p
    requires p + |rows| <= |tables[0]| && rows == tables[0][p..p + |rows|] && (|rows| <= limit ==> p + |rows| == |tables[0]|)
    requires |r| <= limit ==> r == Kept(tables[0], Start(tables[0], cursor, 0), p + |rows|)
    requires |r| > limit ==> |r| == limit + 1 && r <= Left(tables[0], cursor)
    ensures Batched(tables[0], cursor, limit, r, if |rows| > limit then Some(rows[|rows| - 1].Key()) else None, p + |rows|,
                    |rows| > limit)
  {
    if |r| > limit {
      FullPage(tables[0], cursor, limit, r);
    } else if |rows| <= limit {
      LastPage(tables[0], cursor, limit, r);
    } else {
      BatchLast(tables, p, rows);
    }
  }

  /** Fetches one batch of `limit + 1` rows and gathers it. */
  method NextBatch(tables: seq<seq<Row>>, turn: nat, ghost cursor: Option<Pos>, before: Option<Pos>, found: seq<Row>,
                   limit: nat, ghost p: nat)
    returns (r: seq<Row>, last: Option<Pos>, more: bool, ghost q: nat)
    requires limit > 0 && turn < |tables| && Versions(tables, |tables|)
    requires Continues(tables[0], before, p, turn == 0) && Gathered(tables[0], cursor, limit, found, p)
    ensures Batched(tables[0], cursor, limit, r, last, q, more) && (more ==> p < q <= |tables[0]|)
  {
    BatchRows(tables, turn, before, limit + 1, p);
    var rows := Fetch(tables[turn], before, limit + 1);
    q := p + |rows|;
    r := Gather(found, rows, limit, tables[0], Start(tables[0], cursor, 0), p);
    more := |rows| > limit;
    last := if more then Some(rows[|rows| - 1].Key()) else None;
    BatchOutcome(tables, cursor, limit, r, rows, p);
  }

  /** A page, fetched in batches until it is full or the rows run out; each batch reads the table as it is by then, to
      which newer rows may have been added, and the page is that of the first. */
  method Collect(tables: seq<seq<Row>>, cursor: Option<Pos>, limit: nat) returns (page: seq<Row>, next: Option<Pos>)
    requires limit > 0 && tables != [] && Versions(tables, |tables|)
    ensures (page, next) == Page(tables[0], cursor, limit)
  {
    var before, found, turn := cursor, [], 0;
    ghost var p := Start(tables[0], cursor, 0);
    while true
      invariant turn < |tables| && p <= |tables[0]|
      invariant Continues(tables[0], before, p, turn == 0) && Gathered(tables[0], cursor, limit, found, p)
      decreases |tables[0]| - p
    {
      var more;
      found, before, more, p := NextBatch(tables, turn, cursor, before, found, limit, p);
      if |found| > limit {
        return found[..limit], Some(found[limit - 1].Key());
      }
      if !more {
        return found, None;
      }
      turn := if turn + 1 < |tables| then turn + 1 else turn;
    }
  }

  /** One request of a walk: the table when it is answered, and its limit. */
  datatype Call = Call(table: seq<Row>, limit: nat)

  /** What a walk has gathered, the cursor it holds, and whether the last cursor was null. */
  datatype Walk = Walk(found: seq<Row>, cursor: Option<Pos>, done: bool)

  function Walked(calls: seq<Call>, k: nat): Walk
    requires k <= |calls| && forall i :: 0 <= i < |calls| ==> calls[i].limit > 0
  {
    if k == 0 then Walk([], None, false)
    else
      var w := Walked(calls, k - 1);
      if w.done then w
      else
        var (page, next) := Page(calls[k - 1].table, w.cursor, calls[k - 1].limit);
        Walk(w.found + page, next, next.None?)
  }

  /** Between requests, rows are only added, and newer than all there are. */
  ghost predicate Growing(calls: seq<Call>) {
    && (forall i :: 0 <= i < |calls| ==> calls[i].limit > 0 && Descending(calls[i].table))
    && (forall i :: 0 <= i < |calls| ==> Extends(calls[0].table, calls[i].table))
  }

  /** A cursor a walk may hold: none yet, or one of the first table's positions. */
  ghost predicate Held(table: seq<Row>, cursor: Option<Pos>) {
    cursor.None? || exists p :: 0 <= p < |table| && cursor == Some(table[p].Key())
  }

  /** The next page of a walk over `table`, answered from `now`, comes from `table` as it was. */
  lemma NextPage(table: seq<Row>, now: seq<Row>, cursor: Option<Pos>, limit: nat)
    requires limit > 0 && Descending(table) && Descending(now) && Extends(table, now)
    requires Held(table, cursor) && (cursor.None? ==> now == table)
    ensures Left(now, cursor) == Left(table, cursor) && Held(table, Page(now, cursor, limit).1)
  {
    if cursor.Some? {
      var p :| 0 <= p < |table| && cursor == Some(table[p].Key());
      LeftExtended(table, now, p);
    }
    if |Left(table, cursor)| > limit {
      var p := KeptAt(table, Start(table, cursor, 0), |table|, limit - 1);
    }
  }

  /** What a walk has found and what its cursor leaves are the kept rows there were at its first request. */
  ghost predicate Partway(table: seq<Row>, w: Walk, k: nat) {
    if w.done then w.found == Left(table, None)
    else
      && w.found + Left(table, w.cursor) == Left(table, None)
      && Held(table, w.cursor) && (w.cursor.None? <==> k == 0)
      && (k > 0 ==> Left(table, w.cursor) != []) && |w.found| >= k
  }

  lemma CallKeeps(table: seq<Row>, w: Walk, k: nat, now: seq<Row>, limit: nat)
    requires limit > 0 && Descending(table) && Descending(now) && Extends(table, now) && (k == 0 ==> now == table)
    requires Partway(table, w, k) && !w.done
    ensures var (page, next) := Page(now, w.cursor, limit); Partway(table, Walk(w.found + page, next, next.None?), k + 1)
  {
    NextPage(table, now, w.cursor, limit);
    PageSplits(table, w.cursor, limit);
    var (page, next) := Page(now, w.cursor, limit);
    assert Page(table, w.cursor, limit) == (page, next);
    if next.Some? {
      assert w.found + page + Left(table, next) == w.found + Left(table, w.cursor);
    }
  }

  lemma {:induction false} WalkKeeps(calls: seq<Call>, k: nat)
    requires Growing(calls) && calls != [] && k <= |calls|
    ensures Partway(calls[0].table, Walked(calls, k), k)
  {
    if k > 0 {
      WalkKeeps(calls, k - 1);
      if !Walked(calls, k - 1).done {
        CallKeeps(calls[0].table, Walked(calls, k - 1), k - 1, calls[k - 1].table, calls[k - 1].limit);
      }
    }
  }

  /** Following the cursors to a null one gives every wanted row of the first request's table once, in order, and no
      other, whatever the limits and whatever newer rows arrive; until then what was found is the first of them and more
      remain; and a null one comes within as many requests as there are wanted rows, and one. */
  lemma WalkFindsAll(calls: seq<Call>, k: nat) returns (at: seq<int>)
    requires Growing(calls) && 0 < k <= |calls|
    ensures Lists(at, calls[0].table, None)
    ensures var w := Walked(calls, k);
            && w.done == w.cursor.None?
            && (w.done ==> RowsAt(w.found, calls[0].table, at))
            && (!w.done ==> |w.found| < |at| && RowsAt(w.found, calls[0].table, at[..|w.found|]))
            && (k > |at| ==> w.done)
  {
    at := LeftMeans(calls[0].table, None);
    WalkKeeps(calls, k);
    DoneIsNull(calls, k);
  }

  lemma {:induction false} DoneIsNull(calls: seq<Call>, k: nat)
    requires Growing(calls) && k <= |calls|
    ensures k > 0 ==> Walked(calls, k).done == Walked(calls, k).cursor.None?
  {
    if k > 0 {
      DoneIsNull(calls, k - 1);
    }
  }

  // Cursors as text.

  /** How instants are written, and how text is made safe for a URL. */
  datatype Codec = Codec(iso: int -> string, parse: string -> Option<int>, wrap: string -> string,
                         unwrap: string -> Option<string>)

  /** What `isoformat` and base64 promise: their inverses read them back, an instant is written without a bar, and
      only the empty text is wrapped as the empty text. */
  ghost predicate Faithful(c: Codec) {
    && (forall at :: c.parse(c.iso(at)) == Some(at) && '|' !in c.iso(at))
    && (forall text :: c.unwrap(c.wrap(text)) == Some(text) && (c.wrap(text) == "" ==> text == ""))
  }

  function Encode(c: Codec, pos: Pos): string {
    c.wrap(c.iso(pos.at) + ['|'] + pos.id)
  }

  /** None for a text that is no cursor; an empty text stands for no cursor. */
  function Decode(c: Codec, text: string): Option<Option<Pos>> {
    if text == "" then Some(None)
    else
      var plain := c.unwrap(text);
      if plain.None? then None
      else
        var (at, id) := Text.Partition(plain.value, '|');
        if c.parse(at).None? then None else Some(Some(Pos(c.parse(at).value, id)))
  }

  /** A cursor given out is read back as the position it was made from, whatever the row's id holds. */
  lemma CursorRoundTrip(c: Codec, pos: Pos)
    requires Faithful(c)
    ensures Decode(c, Encode(c, pos)) == Some(Some(pos))
  {
    var plain := c.iso(pos.at) + ['|'] + pos.id;
    assert plain[|c.iso(pos.at)|] == '|';
    assert c.unwrap(c.wrap(plain)) == Some(plain);
    Text.PartitionJoins(c.iso(pos.at), '|', pos.id);
  }
}

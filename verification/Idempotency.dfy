/** Idempotency keys: claims, the responses kept for replay, and what a repeated request gets. */
module Idempotency {
  import opened Options

  const ABANDONED := 600
  const RETENTION := 24 * 3600
  const MAX_RESPONSE := 0x10_0000

  type Byte = b: int | 0 <= b < 256

  datatype Response = Response(status: int, contentType: string, body: seq<Byte>)

  // What the middleware captures of a response.

  datatype Message = Start(status: int, contentType: string) | Body(chunk: seq<Byte>)

  /** The body bytes of the first `k` messages. */
  function Sent(messages: seq<Message>, k: nat): seq<Byte>
    requires k <= |messages|
  {
    if k == 0 then [] else Sent(messages, k - 1) + if messages[k - 1].Body? then messages[k - 1].chunk else []
  }

  /** The response's status and content type after the first `k` messages; the last start counts, and none is a 500. */
  function Head(messages: seq<Message>, k: nat): (int, string)
    requires k <= |messages|
  {
    if k == 0 then (500, "")
    else if messages[k - 1].Start? then (messages[k - 1].status, messages[k - 1].contentType)
    else Head(messages, k - 1)
  }

  /** The body is every body message's bytes, end to end. */
  lemma {:induction false} SentJoins(a: seq<Message>, b: seq<Message>, k: nat)
    requires k <= |b|
    ensures Sent(a + b, |a| + k) == Sent(a, |a|) + Sent(b, k)
    decreases k
  {
    if k == 0 {
      SentPrefix(a, a + b, |a|);
    } else {
      SentJoins(a, b, k - 1);
      assert (a + b)[|a| + k - 1] == b[k - 1];
    }
  }

  lemma SentOne(message: Message)
    ensures Sent([message], 1) == if message.Body? then message.chunk else []
  {
  }

  lemma {:induction false} SentPrefix(a: seq<Message>, b: seq<Message>, k: nat)
    requires k <= |a| && a <= b
    ensures Sent(a, k) == Sent(b, k)
  {
    if k > 0 {
      SentPrefix(a, b, k - 1);
    }
  }

  /** The last start message counts; a response that never started is a 500. */
  lemma {:induction false} HeadIsLastStart(messages: seq<Message>, k: nat, i: nat)
    requires i <= k <= |messages| && forall j :: i <= j < k ==> messages[j].Body?
    ensures i == 0 ==> Head(messages, k) == (500, "")
    ensures i > 0 && messages[i - 1].Start? ==> Head(messages, k) == (messages[i - 1].status, messages[i - 1].contentType)
    decreases k
  {
    if i < k {
      HeadIsLastStart(messages, k - 1, i);
    }
  }

  const STREAM := "text/event-stream"

  /** Whether a whole response is kept: not a failure, not too long, not a stream, and text. */
  predicate Keeps(r: Response, text: bool) {
    r.status < 500 && |r.body| <= MAX_RESPONSE && !(STREAM <= r.contentType) && text
  }

  function Whole(messages: seq<Message>): Response {
    var head := Head(messages, |messages|);
    Response(head.0, head.1, Sent(messages, |messages|))
  }

  /** Collects a response as it is sent, without holding more than MAX_RESPONSE bytes of it, and decides whether to
      keep it; `decodes` tells whether the bytes are text. */
  method Capture(messages: seq<Message>, decodes: seq<Byte> -> bool) returns (kept: Option<Response>)
    ensures kept == if Keeps(Whole(messages), decodes(Whole(messages).body)) then Some(Whole(messages)) else None
    ensures kept.Some? ==> kept.value == Response(Head(messages, |messages|).0, Head(messages, |messages|).1, Sent(messages, |messages|))
    ensures kept.Some? <==>
            && Head(messages, |messages|).0 < 500 && |Sent(messages, |messages|)| <= 0x10_0000
            && !("text/event-stream" <= Head(messages, |messages|).1) && decodes(Sent(messages, |messages|))
  {
    var status, contentType, body, size := 500, "", [], 0;
    for i := 0 to |messages|
      invariant (status, contentType) == Head(messages, i) && size == |Sent(messages, i)|
      invariant |body| <= MAX_RESPONSE && (size <= MAX_RESPONSE ==> body == Sent(messages, i))
    {
      match messages[i] {
        case Start(s, c) => status, contentType := s, c;
        case Body(chunk) =>
          size := size + |chunk|;
          if size <= MAX_RESPONSE {
            body := body + chunk;
          }
      }
    }
    if status < 500 && size <= MAX_RESPONSE && !(STREAM <= contentType) && decodes(body) {
      return Some(Response(status, contentType, body));
    }
    return None;
  }

  // The table of keys.

  datatype Slot = Slot(owner: string, key: string)

  datatype Row = Row(hash: string, created: int, answer: Option<Response>)

  datatype Claimed = Run | Replay(answer: Response) | Reused | InProgress

  /** What becomes of a request that claims a key. */
  function Decide(rows: map<Slot, Row>, slot: Slot, hash: string, now: int): Claimed {
    if slot !in rows || (rows[slot].answer.None? && now - rows[slot].created > ABANDONED) then Run
    else if rows[slot].hash != hash then Reused
    else if rows[slot].answer.None? then InProgress
    else Replay(rows[slot].answer.value)
  }

  class Table {
    var rows: map<Slot, Row>

    /** The insert that leaves an existing row as it is. */
    method Insert(slot: Slot, hash: string, now: int) returns (row: Row, inserted: bool)
      modifies this
      ensures slot in rows && row == rows[slot] && inserted == (slot !in old(rows))
      ensures rows == if inserted then old(rows)[slot := Row(hash, now, None)] else old(rows)
    {
      inserted := slot !in rows;
      if inserted {
        rows := rows[slot := Row(hash, now, None)];
      }
      row := rows[slot];
    }

    method Release(slot: Slot)
      modifies this
      ensures rows == old(rows) - {slot}
    {
      rows := rows - {slot};
    }

    /** A request claims its key: it runs, or it gets an answer at once. */
    method Claim(slot: Slot, hash: string, now: int) returns (r: Claimed)
      modifies this
      ensures r == Decide(old(rows), slot, hash, now)
      ensures rows == if r.Run? then old(rows)[slot := Row(hash, now, None)] else old(rows)
    {
      var row, inserted := Insert(slot, hash, now);
      if !inserted && row.answer.None? && now - row.created > ABANDONED {
        Release(slot);
        row, inserted := Insert(slot, hash, now);
      }
      if inserted {
        return Run;
      }
      if row.hash != hash {
        return Reused;
      }
      if row.answer.None? {
        return InProgress;
      }
      return Replay(row.answer.value);
    }

    /** The end of a run: its response is kept under the key, or the key is free again. */
    method Finish(slot: Slot, kept: Option<Response>)
      modifies this
      ensures rows == Finished(old(rows), slot, kept)
    {
      if kept.None? {
        Release(slot);
      } else if slot in rows {
        rows := rows[slot := rows[slot].(answer := kept)];
      }
    }
  }

  function Finished(rows: map<Slot, Row>, slot: Slot, kept: Option<Response>): map<Slot, Row> {
    if kept.None? then rows - {slot} else if slot in rows then rows[slot := rows[slot].(answer := kept)] else rows
  }

  // Runs.

  datatype Work = Work(slot: Slot, hash: string, started: int)

  /** A run that ended, with the response it sent and whether that was kept. */
  datatype Ended = Ended(slot: Slot, hash: string, response: Response)

  datatype State = State(rows: map<Slot, Row>, runs: map<nat, Work>, ended: set<Ended>, now: int)

  ghost predicate Begin(s: State, t: State, id: nat, slot: Slot, hash: string) {
    && Decide(s.rows, slot, hash, s.now).Run? && id !in s.runs
    && t == s.(rows := s.rows[slot := Row(hash, s.now, None)], runs := s.runs[id := Work(slot, hash, s.now)])
  }

  /** A run sends its response; it is kept or not. */
  ghost predicate End(s: State, t: State, id: nat, response: Response, text: bool) {
    && id in s.runs
    && var run := s.runs[id];
       t == s.(rows := Finished(s.rows, run.slot, if Keeps(response, text) then Some(response) else None),
               runs := s.runs - {id}, ended := s.ended + {Ended(run.slot, run.hash, response)})
  }

  /** The process dies; its row stays as it was. */
  ghost predicate Crash(s: State, t: State, id: nat) {
    t == s.(runs := s.runs - {id})
  }

  ghost predicate Purge(s: State, t: State) {
    t == s.(rows := map slot | slot in s.rows && s.rows[slot].created >= s.now - RETENTION :: s.rows[slot])
  }

  /** Time passes, but for no run longer than ABANDONED. */
  ghost predicate Tick(s: State, t: State) {
    s.now <= t.now && t == s.(now := t.now) && forall id :: id in s.runs ==> t.now - s.runs[id].started <= ABANDONED
  }

  ghost predicate Step(s: State, t: State) {
    || (exists id, slot, hash :: Begin(s, t, id, slot, hash))
    || (exists id, response, text :: End(s, t, id, response, text))
    || (exists id :: Crash(s, t, id))
    || Purge(s, t)
    || Tick(s, t)
  }

  /** A run in progress is alone on its key, whose row is its own. */
  ghost predicate Owned(s: State, id: nat)
    requires id in s.runs
  {
    var run := s.runs[id];
    && run.slot in s.rows && s.rows[run.slot] == Row(run.hash, run.started, None)
    && s.now - ABANDONED <= run.started <= s.now
    && forall other :: other in s.runs && s.runs[other].slot == run.slot ==> other == id
  }

  /** An answer kept under a key is the response of a run that ended, of the same request. */
  ghost predicate Earned(s: State, slot: Slot)
    requires slot in s.rows
  {
    var row := s.rows[slot];
    row.answer.Some? ==> Ended(slot, row.hash, row.answer.value) in s.ended
  }

  ghost predicate Inv(s: State) {
    && (forall id :: id in s.runs ==> Owned(s, id))
    && (forall slot :: slot in s.rows ==> Earned(s, slot))
  }

  lemma BeginKeeps(s: State, t: State, id: nat, slot: Slot, hash: string)
    requires Inv(s) && Begin(s, t, id, slot, hash)
    ensures Inv(t)
  {
    forall k | k in s.runs ensures s.runs[k].slot != slot {
      assert Owned(s, k);
    }
    forall k | k in t.runs ensures Owned(t, k) {
      if k != id { assert Owned(s, k); }
    }
    forall k | k in t.rows ensures Earned(t, k) {
      if k != slot { assert Earned(s, k); }
    }
  }

  lemma EndKeeps(s: State, t: State, id: nat, response: Response, text: bool)
    requires Inv(s) && End(s, t, id, response, text)
    ensures Inv(t)
  {
    assert Owned(s, id);
    forall k | k in t.runs ensures Owned(t, k) {
      assert Owned(s, k);
    }
    forall k | k in t.rows ensures Earned(t, k) {
      assert Earned(s, k);
    }
  }

  lemma OtherKeeps(s: State, t: State)
    requires Inv(s) && ((exists id :: Crash(s, t, id)) || Purge(s, t) || Tick(s, t))
    ensures Inv(t)
  {
    forall k | k in t.runs ensures Owned(t, k) {
      assert Owned(s, k);
    }
    forall k | k in t.rows ensures Earned(t, k) {
      assert Earned(s, k);
    }
  }

  lemma StepKeeps(s: State, t: State)
    requires Inv(s) && Step(s, t)
    ensures Inv(t)
  {
    if id, slot, hash :| Begin(s, t, id, slot, hash) {
      BeginKeeps(s, t, id, slot, hash);
    } else if id, response, text :| End(s, t, id, response, text) {
      EndKeeps(s, t, id, response, text);
    } else {
      OtherKeeps(s, t);
    }
  }

  // Whole runs of the table.

  ghost predicate Reached(s: State, start: int, length: nat)
    decreases length
  {
    if length == 0 then s == State(map[], map[], {}, start)
    else exists before :: Reached(before, start, length - 1) && Step(before, s)
  }

  lemma {:induction false} ReachedKeeps(s: State, start: int, length: nat)
    requires Reached(s, start, length)
    ensures Inv(s)
    decreases length
  {
    if length > 0 {
      var before :| Reached(before, start, length - 1) && Step(before, s);
      ReachedKeeps(before, start, length - 1);
      StepKeeps(before, s);
    }
  }

  /** While no run outlasts ABANDONED, no two runs share a key, through crashes, purges and retries. */
  lemma OneRunPerKey(s: State, start: int, length: nat, a: nat, b: nat)
    requires Reached(s, start, length) && a in s.runs && b in s.runs && s.runs[a].slot == s.runs[b].slot
    ensures a == b
  {
    ReachedKeeps(s, start, length);
    assert Owned(s, a);
  }

  /** And a repeated request is answered with the response of a run that ended, of the same owner, key and hash. */
  lemma ReplaysAreEarned(s: State, start: int, length: nat, slot: Slot, hash: string)
    requires Reached(s, start, length) && Decide(s.rows, slot, hash, s.now).Replay?
    ensures Ended(slot, hash, Decide(s.rows, slot, hash, s.now).answer) in s.ended
  {
    ReachedKeeps(s, start, length);
    assert Earned(s, slot);
  }

  // A completed request runs once.

  /** A key with an answer replays it to its own request and refuses any other, however long ago it was given. */
  lemma AnsweredReplays(rows: map<Slot, Row>, slot: Slot, hash: string, now: int)
    requires slot in rows && rows[slot].answer.Some?
    ensures Decide(rows, slot, hash, now) == if hash == rows[slot].hash then Replay(rows[slot].answer.value) else Reused
  {
  }

  /** A key nobody holds is free. */
  lemma UnclaimedRuns(rows: map<Slot, Row>, slot: Slot, hash: string, now: int)
    requires slot !in rows
    ensures Decide(rows, slot, hash, now) == Run
  {
  }

  /** The end of a run: a response that may be kept is the key's answer, under the run's own hash; any other frees it. */
  lemma EndAnswers(s: State, t: State, id: nat, response: Response, text: bool)
    requires Inv(s) && End(s, t, id, response, text)
    ensures var run := s.runs[id];
            if response.status < 500 && |response.body| <= MAX_RESPONSE && !(STREAM <= response.contentType) && text
            then run.slot in t.rows && t.rows[run.slot] == Row(run.hash, run.started, Some(response))
            else run.slot !in t.rows
  {
    assert Owned(s, id);
  }

  ghost predicate Holds(s: State, slot: Slot, row: Row) {
    slot in s.rows && s.rows[slot] == row
  }

  /** A step leaves an answered row as it is, unless it purges it. */
  lemma AnswerStays(s: State, t: State, slot: Slot, row: Row)
    requires Inv(s) && Step(s, t) && Holds(s, slot, row) && row.answer.Some?
    ensures s.now <= t.now && (Holds(t, slot, row) || row.created < s.now - RETENTION)
  {
    if id, other, hash :| Begin(s, t, id, other, hash) {
      AnsweredReplays(s.rows, slot, hash, s.now);
    } else if id, response, text :| End(s, t, id, response, text) {
      assert Owned(s, id);
    }
  }

  /** `length` steps lead from `s` to `t`. */
  ghost predicate Leads(s: State, t: State, length: nat)
    decreases length
  {
    if length == 0 then s == t else exists u :: Leads(s, u, length - 1) && Step(u, t)
  }

  lemma {:induction false} LeadsKeeps(s: State, t: State, length: nat, slot: Slot, row: Row)
    requires Inv(s) && Leads(s, t, length) && Holds(s, slot, row) && row.answer.Some?
    ensures Inv(t) && s.now <= t.now && (Holds(t, slot, row) || row.created < t.now - RETENTION)
    decreases length
  {
    if length > 0 {
      var u :| Leads(s, u, length - 1) && Step(u, t);
      LeadsKeeps(s, u, length - 1, slot, row);
      StepKeeps(u, t);
      if Holds(u, slot, row) {
        AnswerStays(u, t, slot, row);
      } else {
        TimePasses(u, t);
      }
    }
  }

  lemma TimePasses(s: State, t: State)
    requires Step(s, t)
    ensures s.now <= t.now
  {
  }

  /** Once a run's response is kept, its request is not run again for RETENTION: until then no run is on its key, every
      repeat gets that response, and every other request with the key is refused. */
  lemma CompletedOnce(s: State, t: State, u: State, start: int, before: nat, after: nat, id: nat, response: Response)
    requires Reached(s, start, before) && End(s, t, id, response, true) && Keeps(response, true) && Leads(t, u, after)
    requires u.now - s.runs[id].started <= RETENTION
    ensures var run := s.runs[id];
            && (forall k :: k in u.runs ==> u.runs[k].slot != run.slot)
            && Decide(u.rows, run.slot, run.hash, u.now) == Replay(response)
            && (forall hash :: hash != run.hash ==> Decide(u.rows, run.slot, hash, u.now) == Reused)
  {
    ReachedKeeps(s, start, before);
    EndKeeps(s, t, id, response, true);
    EndAnswers(s, t, id, response, true);
    var run := s.runs[id];
    LeadsKeeps(t, u, after, run.slot, Row(run.hash, run.started, Some(response)));
    forall k | k in u.runs ensures u.runs[k].slot != run.slot {
      assert Owned(u, k);
    }
  }

  /** A request that claims the key of a run in progress begins a second run exactly when that run is older than
      ABANDONED; until then it is told to wait, or that the key is for another request. */
  lemma SecondRunExactly(s: State, now: int, a: nat, hash: string)
    requires Inv(s) && a in s.runs && s.now <= now
    ensures Decide(s.rows, s.runs[a].slot, hash, now).Run? <==> now - s.runs[a].started > ABANDONED
    ensures now - s.runs[a].started <= ABANDONED ==>
              Decide(s.rows, s.runs[a].slot, hash, now) == if hash == s.runs[a].hash then InProgress else Reused
  {
    assert Owned(s, a);
  }

  /** A run that outlasts ABANDONED can leave its response under another request's hash, to be replayed to it. */
  lemma OverrunMisfiles(slot: Slot, first: string, second: string, response: Response, start: int)
    returns (a: State, late: State, b: State, end: State)
    requires first != second && Keeps(response, true)
    ensures Begin(State(map[], map[], {}, start), a, 0, slot, first)
    ensures late == a.(now := start + ABANDONED + 1)
    ensures Begin(late, b, 1, slot, second) && b.runs.Keys == {0, 1}
    ensures End(b, end, 0, response, true)
    ensures Decide(end.rows, slot, second, end.now) == Replay(response)
    ensures Ended(slot, second, response) !in end.ended
  {
    var empty := State(map[], map[], {}, start);
    a := empty.(rows := empty.rows[slot := Row(first, start, None)], runs := empty.runs[0 := Work(slot, first, start)]);
    late := a.(now := start + ABANDONED + 1);
    b := late.(rows := late.rows[slot := Row(second, late.now, None)], runs := late.runs[1 := Work(slot, second, late.now)]);
    end := b.(rows := Finished(b.rows, slot, Some(response)), runs := b.runs - {0},
              ended := {Ended(slot, first, response)});
    assert b.ended + {Ended(slot, first, response)} == end.ended;
  }
}

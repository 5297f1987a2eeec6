/** The worker object of the job queue: its methods, proved against the transactions of `Jobs`. */
module JobWorker {
  import opened Options
  import opened Jobs
  import opened JobOutcomes

  predicate Distinct(ids: seq<JobId>) {
    forall i, j :: 0 <= i < j < |ids| ==> ids[i] != ids[j]
  }

  /** The listing of the rows in one state. */
  predicate Lists(rows: map<JobId, Row>, ids: seq<JobId>, state: JobState) {
    && Distinct(ids)
    && (forall id :: id in ids ==> id in rows && rows[id].state == state)
    && (forall id :: id in rows && rows[id].state == state ==> id in ids)
  }

  function Ids(ids: seq<JobId>): set<JobId> {
    set id | id in ids
  }

  lemma {:induction false} DistinctOnce(ids: seq<JobId>)
    requires Distinct(ids)
    ensures multiset(ids) == multiset(Ids(ids))
  {
    if ids != [] {
      var last := |ids| - 1;
      DistinctOnce(ids[..last]);
      assert ids == ids[..last] + [ids[last]];
      assert Ids(ids) == Ids(ids[..last]) + {ids[last]};
    }
  }

  /** The delay before the next attempt: the backoff's entries in turn, the last one from then on. */
  function Delay(backoff: seq<nat>, attempts: nat): nat
    requires |backoff| > 0 && attempts > 0
  {
    backoff[if attempts - 1 < |backoff| - 1 then attempts - 1 else |backoff| - 1]
  }

  /** Attempt k waits for the k-th entry of the backoff, and every attempt past its end for the last. */
  lemma DelayIsTheAttempts(backoff: seq<nat>, attempts: nat)
    requires |backoff| > 0 && attempts > 0
    ensures attempts <= |backoff| ==> Delay(backoff, attempts) == backoff[attempts - 1]
    ensures attempts >= |backoff| ==> Delay(backoff, attempts) == backoff[|backoff| - 1]
  {
  }

  function Failing(rows: map<JobId, Row>, ids: set<JobId>, now: int): map<JobId, Row> {
    map id | id in rows :: if id in ids then rows[id].Ended(Failed, now) else rows[id]
  }

  lemma DisjointUnion(a: set<JobId>, b: set<JobId>)
    requires a !! b
    ensures multiset(a + b) == multiset(a) + multiset(b)
  {
  }

  /** Failing the overdue among the running jobs, then among the queued ones, fails each overdue job once. */
  lemma ExpiredAll(s: State, first: seq<JobId>, second: seq<JobId>)
    requires Distinct(first) && Distinct(second)
    requires forall id :: id in first <==> id in s.rows && s.rows[id].state.Running? && s.rows[id].Overdue(s.now)
    requires forall id :: id in second <==> id in s.rows && s.rows[id].state.Queued? && s.rows[id].Overdue(s.now)
    ensures Failing(Failing(s.rows, Ids(first), s.now), Ids(second), s.now) == Expire(s).rows
    ensures multiset(first) + multiset(second) == multiset(Overdue(s))
  {
    DistinctOnce(first);
    DistinctOnce(second);
    assert Ids(first) + Ids(second) == Overdue(s);
    DisjointUnion(Ids(first), Ids(second));
  }

  lemma StillRunningSplits(s: State, done: set<JobId>, id: JobId)
    requires id !in done
    ensures StillRunning(s.rows, done + {id}) == StillRunning(s.rows, done) + StillRunning(Requeue(s, done).rows, {id})
    ensures StillRunning(s.rows, done) !! StillRunning(Requeue(s, done).rows, {id})
  {
  }

  lemma RequeueSplits(s: State, done: set<JobId>, id: JobId)
    requires id !in done
    ensures Requeue(s, done + {id}) == Requeue(Requeue(s, done), {id})
  {
    StillRunningSplits(s, done, id);
    DisjointUnion(StillRunning(s.rows, done), StillRunning(Requeue(s, done).rows, {id}));
    assert Requeue(s, done + {id}).rows == Requeue(Requeue(s, done), {id}).rows;
  }

  lemma RequeuedAll(s: State, listed: seq<JobId>, ids: set<JobId>)
    requires Ids(listed) == StillRunning(s.rows, ids)
    ensures Requeue(s, Ids(listed)) == Requeue(s, ids)
  {
    assert StillRunning(s.rows, Ids(listed)) == StillRunning(s.rows, ids);
  }

  /** One job is offered to the worker, which takes none when it is closing or full. */
  function Offered(s: State, id: JobId): State {
    if s.closing || |s.live| >= PARALLEL then s else Claim(s, id)
  }

  /** What a pass over the first `k` due jobs dispatches. */
  function Dispatched(s: State, due: seq<JobId>, k: nat): State
    requires k <= |due|
  {
    if k == 0 then s
    else
      Offered(Dispatched(s, due, k - 1), due[k - 1])
  }

  lemma {:induction false} DispatchedFull(s: State, due: seq<JobId>, k: nat)
    requires k <= |due|
    requires var t := Dispatched(s, due, k); t.closing || |t.live| >= PARALLEL
    ensures Dispatched(s, due, |due|) == Dispatched(s, due, k)
    decreases |due| - k
  {
    if k < |due| {
      DispatchedFull(s, due, k + 1);
    }
  }

  /** After a pass, a due job is still queued only if the worker is closing or full or its sandbox is busy. */
  lemma {:induction false} NothingDueLeft(s: State, due: seq<JobId>, i: nat, k: nat)
    requires i < k <= |due|
    ensures var t := Dispatched(s, due, k);
            due[i] in t.rows && t.rows[due[i]].state.Queued? ==>
              t.closing || |t.live| >= PARALLEL || t.rows[due[i]].sandbox in t.live
    decreases k
  {
    if i + 1 < k {
      NothingDueLeft(s, due, i, k - 1);
    }
  }

  /** Queued, and its sandbox is not busy. */
  ghost predicate Ready(s: State, id: JobId) {
    id in s.rows && s.rows[id].state.Queued? && s.rows[id].sandbox !in s.live
  }

  /** A job that is still ready was ready before. */
  lemma ReadyBefore(s: State, id: JobId, k: JobId)
    requires Ready(Offered(s, id), k)
    ensures Ready(s, k)
  {
  }

  /** Offering a job to a worker that is not closing or full leaves it not ready. */
  lemma OfferedIsTaken(s: State, id: JobId)
    requires Ready(Offered(s, id), id)
    ensures (s.closing || |s.live| >= PARALLEL) && Offered(s, id) == s
  {
  }

  /** A pass goes through the due jobs in order: a later one is claimed past one that stays queued only if the earlier
      one's sandbox is busy. */
  lemma {:induction false} PassInOrder(s: State, due: seq<JobId>, i: nat, k: nat)
    requires i < k <= |due| && Ready(Dispatched(s, due, k), due[i])
    ensures var t := Dispatched(s, due, k);
            t == Dispatched(s, due, i) && (t.closing || |t.live| >= PARALLEL)
    decreases k
  {
    var u := Dispatched(s, due, k - 1);
    if i + 1 < k {
      ReadyBefore(u, due[k - 1], due[i]);
      PassInOrder(s, due, i, k - 1);
    } else {
      OfferedIsTaken(u, due[i]);
    }
  }

  class Worker {
    var rows: map<JobId, Row>
    var live: map<Sandbox, JobId>
    var closing: bool
    ghost var threads: map<JobId, Sandbox>
    ghost var ran: multiset<JobId>
    ghost var waited: multiset<JobId>
    ghost var interrupted: multiset<JobId>
    ghost var gaveUp: multiset<JobId>
    ghost const longest: nat

    ghost function View(now: int): State
      reads this
    {
      State(rows, live, threads, closing, now, ran, waited, interrupted, gaveUp, longest)
    }

    constructor (ghost now: int, ghost longest: nat)
      ensures View(now) == Started(now, longest)
    {
      rows, live, closing := map[], map[], false;
      threads, ran, waited, interrupted, gaveUp, this.longest := map[], multiset{}, multiset{}, multiset{}, multiset{}, longest;
    }

    method Claim(id: JobId, sandbox: Sandbox, ghost now: int) returns (claimed: Option<Row>)
      requires id in rows ==> rows[id].sandbox == sandbox
      modifies this
      ensures View(now) == Jobs.Claim(old(View(now)), id)
      ensures claimed.Some? <==> ran[id] == old(ran[id]) + 1
      ensures claimed.Some? ==> id in rows && claimed.value == rows[id]
    {
      claimed := None;
      if sandbox !in live && id in rows && rows[id].state.Queued? {
        var row := rows[id].(state := Running, attempts := rows[id].attempts + 1);
        rows := rows[id := row];
        live := live[sandbox := id];
        threads := threads[id := sandbox];
        ran := ran + multiset{id};
        claimed := Some(row);
      }
    }

    method GiveUp(id: JobId)
      modifies this`gaveUp
      ensures gaveUp == old(gaveUp) + multiset{id}
    {
      gaveUp := gaveUp + multiset{id};
    }

    method GiveUpAll(ids: seq<JobId>)
      modifies this`gaveUp
      ensures gaveUp == old(gaveUp) + multiset(ids)
    {
      for i := 0 to |ids|
        invariant gaveUp == old(gaveUp) + multiset(ids[..i])
      {
        assert ids[..i + 1] == ids[..i] + [ids[i]];
        GiveUp(ids[i]);
      }
      assert ids[..|ids|] == ids;
    }

    method RetryOrFail(id: JobId, attempts: nat, backoff: seq<nat>, now: int)
      requires |backoff| > 0 && attempts > 0
      modifies this
      ensures View(now) == Jobs.RetryOrFail(old(View(now)), id, Delay(backoff, attempts))
    {
      var delay := Delay(backoff, attempts);
      if id !in rows || !rows[id].state.Running? {
        return;
      }
      var row := rows[id];
      if MayRetry(row, now, delay) {
        rows := rows[id := row.(state := Queued, runAfter := now + delay)];
        return;
      }
      rows := rows[id := row.Ended(Failed, now)];
      GiveUp(id);
    }

    method Defer(id: JobId, window: nat, now: int)
      modifies this
      ensures View(now) == Jobs.Defer(old(View(now)), id, window)
    {
      if id !in rows || !rows[id].state.Running? {
        return;
      }
      var row := rows[id];
      if row.created >= now - MAX_WAIT {
        rows := rows[id := row.(state := Queued, attempts := row.GiveBack(), runAfter := now + WAIT_POLL,
                                deadline := Some(now + WAIT_POLL + window))];
        waited := waited + multiset{id};
        return;
      }
      rows := rows[id := row.Ended(Failed, now)];
      GiveUp(id);
    }

    method Leave(id: JobId, sandbox: Sandbox, ghost now: int)
      requires id in threads && threads[id] == sandbox
      modifies this
      ensures View(now) == Jobs.Leave(old(View(now)), id)
    {
      if sandbox in live && live[sandbox] == id {
        live := live - {sandbox};
      }
      threads := threads - {id};
    }

    method Execute(id: JobId, sandbox: Sandbox, attempts: nat, backoff: seq<nat>, outcome: Outcome, now: int)
      requires id in threads && threads[id] == sandbox && |backoff| > 0 && attempts > 0
      modifies this
      ensures View(now) == Jobs.Leave(Settled(old(View(now)), id, outcome, Delay(backoff, attempts)), id)
    {
      match outcome {
        case Waiting(window) => Defer(id, window, now);
        case Raised => RetryOrFail(id, attempts, backoff, now);
        case Done =>
          if id in rows && rows[id].Unfinished() {
            rows := rows[id := rows[id].Ended(Succeeded, now)];
          }
      }
      Leave(id, sandbox, now);
    }

    /** Fails the overdue jobs of one listing and returns them. */
    method FailOverdue(listed: seq<JobId>, now: int) returns (expired: seq<JobId>)
      requires Distinct(listed)
      requires forall id :: id in listed ==> id in rows && rows[id].Unfinished()
      modifies this`rows
      ensures Distinct(expired)
      ensures forall id :: id in expired <==> id in listed && old(rows)[id].Overdue(now)
      ensures rows == Failing(old(rows), Ids(expired), now)
    {
      expired := [];
      for i := 0 to |listed|
        invariant Distinct(expired)
        invariant forall id :: id in expired <==> id in listed[..i] && old(rows)[id].Overdue(now)
        invariant rows == Failing(old(rows), Ids(expired), now)
      {
        var id := listed[i];
        assert listed[..i + 1] == listed[..i] + [id] && id !in listed[..i];
        if rows[id].Overdue(now) {
          rows := rows[id := rows[id].Ended(Failed, now)];
          expired := expired + [id];
        }
      }
    }

    /** Fails every overdue job, the running ones first. */
    method FailEvery(running: seq<JobId>, queued: seq<JobId>, now: int) returns (expired: seq<JobId>)
      requires Lists(rows, running, Running) && Lists(rows, queued, Queued)
      modifies this`rows
      ensures rows == Jobs.Expire(old(View(now))).rows
      ensures multiset(expired) == multiset(Overdue(old(View(now))))
    {
      ghost var s := View(now);
      var first := FailOverdue(running, now);
      assert forall id :: id in queued ==> rows[id] == s.rows[id];
      var second := FailOverdue(queued, now);
      ExpiredAll(s, first, second);
      expired := first + second;
    }

    method Expire(running: seq<JobId>, queued: seq<JobId>, now: int)
      requires Lists(rows, running, Running) && Lists(rows, queued, Queued)
      modifies this
      ensures View(now) == Jobs.Expire(old(View(now)))
    {
      var expired := FailEvery(running, queued, now);
      GiveUpAll(expired);
    }

    method Recover(running: seq<JobId>, ghost now: int)
      requires Lists(rows, running, Running)
      modifies this
      ensures View(now) == Requeue(old(View(now)), old(rows).Keys)
    {
      RequeueListed(running, now);
      RequeuedAll(old(View(now)), running, old(rows).Keys);
    }

    /** The end of a shutdown; `left` lists the jobs of the `live` map. */
    method RequeueLive(left: seq<JobId>, ghost now: int)
      requires Distinct(left) && Ids(left) == LiveIds(live)
      modifies this
      ensures View(now) == Apply(old(View(now)), Step.RequeueLive)
    {
      RequeueListed(left, now);
    }

    method RequeueOne(id: JobId, ghost now: int)
      modifies this
      ensures View(now) == Requeue(old(View(now)), {id})
    {
      ghost var s := View(now);
      if id in rows && rows[id].state.Running? {
        assert StillRunning(rows, {id}) == {id};
        rows := rows[id := rows[id].(state := Queued, attempts := rows[id].GiveBack())];
        interrupted := interrupted + multiset{id};
      } else {
        assert StillRunning(rows, {id}) == {};
      }
      assert rows == Requeue(s, {id}).rows;
    }

    method RequeueListed(listed: seq<JobId>, ghost now: int)
      requires Distinct(listed)
      modifies this
      ensures View(now) == Requeue(old(View(now)), Ids(listed))
    {
      ghost var s := View(now);
      assert Requeue(s, {}) == s by {
        assert StillRunning(s.rows, {}) == {};
      }
      for i := 0 to |listed|
        invariant View(now) == Requeue(s, Ids(listed[..i]))
      {
        assert Ids(listed[..i + 1]) == Ids(listed[..i]) + {listed[i]};
        RequeueSplits(s, Ids(listed[..i]), listed[i]);
        RequeueOne(listed[i], now);
      }
      assert listed[..|listed|] == listed;
    }

    /** One pass of the dispatch loop over the due jobs, oldest first. */
    method Pass(due: seq<JobId>, ghost now: int)
      modifies this
      ensures View(now) == Dispatched(old(View(now)), due, |due|)
    {
      ghost var s := View(now);
      for i := 0 to |due|
        invariant View(now) == Dispatched(s, due, i)
      {
        if closing || |live| >= PARALLEL {
          DispatchedFull(s, due, i);
          break;
        }
        if due[i] in rows {
          var _ := Claim(due[i], rows[due[i]].sandbox, now);
        }
      }
    }
  }
}

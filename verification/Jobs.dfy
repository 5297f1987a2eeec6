/** The persistent job queue: claims, retries, waits, deadlines and restarts around one worker process. */
module Jobs {
  import opened Options

  type JobId = string
  type Sandbox = string

  // Instants and spans are in microseconds, the resolution of the database's timestamps.
  const SECOND := 1_000_000
  const PARALLEL := 8
  const MAX_WAIT := 2 * 3600 * SECOND
  const WAIT_POLL := 15 * SECOND

  datatype JobState = Queued | Running | Succeeded | Failed | Cancelled

  datatype Row = Row(sandbox: Sandbox, state: JobState, attempts: nat, maxAttempts: nat,
                     runAfter: int, deadline: Option<int>, created: int, finished: Option<int>)
  {
    predicate Unfinished() { state.Queued? || state.Running? }
    predicate Overdue(now: int) { Unfinished() && deadline.Some? && deadline.value < now }
    predicate Due(now: int) { state.Queued? && runAfter <= now }
    function Ended(state: JobState, now: int): Row { this.(state := state, finished := Some(now)) }
    function GiveBack(): nat { if attempts == 0 then 0 else attempts - 1 }
  }

  /** The `jobs` table, the worker's `live` map and its handler threads, and what has happened to each job so far:
      how often its handler was started, how often it waited, how often a stop of the process interrupted it, and how
      often its failure callback was called. `longest` is the longest backoff of any handler. */
  datatype State = State(
    rows: map<JobId, Row>, live: map<Sandbox, JobId>, threads: map<JobId, Sandbox>, closing: bool, now: int,
    ran: multiset<JobId>, waited: multiset<JobId>, interrupted: multiset<JobId>, gaveUp: multiset<JobId>, longest: nat)

  // Transactions. Each is one database session, under the worker's lock where the source takes it.

  function Claim(s: State, id: JobId): State {
    if id !in s.rows || s.rows[id].sandbox in s.live || !s.rows[id].state.Queued? then s
    else
      var row := s.rows[id];
      s.(rows := s.rows[id := row.(state := Running, attempts := row.attempts + 1)],
         live := s.live[row.sandbox := id], threads := s.threads[id := row.sandbox], ran := s.ran + multiset{id})
  }

  function Succeed(s: State, id: JobId): State {
    if id in s.rows && s.rows[id].Unfinished() then s.(rows := s.rows[id := s.rows[id].Ended(Succeeded, s.now)]) else s
  }

  function Fail(s: State, id: JobId): State {
    if id in s.rows
    then s.(rows := s.rows[id := s.rows[id].Ended(Failed, s.now)], gaveUp := s.gaveUp + multiset{id})
    else s
  }

  predicate MayRetry(row: Row, now: int, delay: nat) {
    row.attempts < row.maxAttempts && (row.deadline.None? || now + delay < row.deadline.value)
  }

  function RetryOrFail(s: State, id: JobId, delay: nat): State {
    if id !in s.rows || !s.rows[id].state.Running? then s
    else if MayRetry(s.rows[id], s.now, delay)
    then s.(rows := s.rows[id := s.rows[id].(state := Queued, runAfter := s.now + delay)])
    else Fail(s, id)
  }

  function Defer(s: State, id: JobId, window: nat): State {
    if id !in s.rows || !s.rows[id].state.Running? then s
    else if s.rows[id].created >= s.now - MAX_WAIT then
      var row := s.rows[id];
      s.(rows := s.rows[id := row.(state := Queued, attempts := row.GiveBack(), runAfter := s.now + WAIT_POLL,
                                   deadline := Some(s.now + WAIT_POLL + window))],
         waited := s.waited + multiset{id})
    else Fail(s, id)
  }

  /** The end of a thread, however it went. */
  function Leave(s: State, id: JobId): State {
    if id !in s.threads then s
    else
      var sandbox := s.threads[id];
      s.(live := if sandbox in s.live && s.live[sandbox] == id then s.live - {sandbox} else s.live,
         threads := s.threads - {id})
  }

  function Overdue(s: State): set<JobId> {
    set id | id in s.rows && s.rows[id].Overdue(s.now)
  }

  function Expire(s: State): State {
    s.(rows := map id | id in s.rows :: if s.rows[id].Overdue(s.now) then s.rows[id].Ended(Failed, s.now) else s.rows[id],
       gaveUp := s.gaveUp + multiset(Overdue(s)))
  }

  function StillRunning(rows: map<JobId, Row>, ids: set<JobId>): set<JobId> {
    set id | id in rows && id in ids && rows[id].state.Running?
  }

  /** Puts the running jobs among `ids` back in the queue, without the attempt they had begun. */
  function Requeue(s: State, ids: set<JobId>): State {
    var running := StillRunning(s.rows, ids);
    s.(rows := map id | id in s.rows ::
                 if id in running then s.rows[id].(state := Queued, attempts := s.rows[id].GiveBack()) else s.rows[id],
       interrupted := s.interrupted + multiset(running))
  }

  datatype Step =
    | Enqueue(id: JobId, sandbox: Sandbox, maxAttempts: nat, deadline: Option<int>)
    | Cancel(sandbox: Sandbox)
    | Drop(id: JobId)                // the sandbox's row, and its jobs with it, are deleted
    | Tick(now: int)
    | Dispatch(id: JobId)
    | Finish(id: JobId)
    | Err(id: JobId, delay: nat)
    | Wait(id: JobId, window: nat)
    | End(id: JobId)
    | ExpireAll
    | Close                          // a shutdown begins: dispatch nothing more
    | RequeueLive                    // and ends: what still runs goes back in the queue
    | Restart                        // the process is gone, its threads with it; the next one requeues and starts

  predicate Enabled(s: State, step: Step) {
    match step
    case Enqueue(id, _, maxAttempts, _) =>
      id !in s.rows && s.ran[id] == s.waited[id] == s.interrupted[id] == s.gaveUp[id] == 0 && id !in s.threads && maxAttempts > 0
    case Tick(now) => s.now <= now
    case Dispatch(id) => !s.closing && |s.live| < PARALLEL && id in s.rows && s.rows[id].Due(s.now)
    case Finish(id) => id in s.threads
    case Err(id, delay) => id in s.threads && delay <= s.longest
    case Wait(id, _) => id in s.threads
    case End(id) => id in s.threads
    case Cancel(_) => true
    case Drop(_) => true
    case ExpireAll => true
    case Close => true
    case RequeueLive => s.closing
    case Restart => true
  }

  function CancelRows(rows: map<JobId, Row>, sandbox: Sandbox, now: int): map<JobId, Row> {
    map id | id in rows ::
      if rows[id].sandbox == sandbox && rows[id].state.Queued? then rows[id].Ended(Cancelled, now) else rows[id]
  }

  function LiveIds(live: map<Sandbox, JobId>): set<JobId> {
    set sandbox | sandbox in live :: live[sandbox]
  }

  function Apply(s: State, step: Step): State {
    match step
    case Enqueue(id, sandbox, maxAttempts, deadline) =>
      s.(rows := s.rows[id := Row(sandbox, Queued, 0, maxAttempts, s.now, deadline, s.now, None)])
    case Cancel(sandbox) => s.(rows := CancelRows(s.rows, sandbox, s.now))
    case Drop(id) => s.(rows := s.rows - {id})
    case Tick(now) => s.(now := now)
    case Dispatch(id) => Claim(s, id)
    case Finish(id) => Succeed(s, id)
    case Err(id, delay) => RetryOrFail(s, id, delay)
    case Wait(id, window) => Defer(s, id, window)
    case End(id) => Leave(s, id)
    case ExpireAll => Expire(s)
    case Close => s.(closing := true)
    case RequeueLive => Requeue(s, LiveIds(s.live))
    case Restart => Requeue(s, s.rows.Keys).(live := map[], threads := map[], closing := false)
  }

  // One thread per sandbox.

  /** `live` and the threads name each other, and the worker never runs more than PARALLEL. */
  ghost predicate Exclusive(s: State) {
    && (forall sandbox :: sandbox in s.live ==>
          s.live[sandbox] in s.threads && s.threads[s.live[sandbox]] == sandbox)
    && (forall id :: id in s.threads ==> s.threads[id] in s.live && s.live[s.threads[id]] == id)
    && (forall id :: id in s.threads && id in s.rows ==> s.rows[id].sandbox == s.threads[id])
    && |s.threads| == |s.live| <= PARALLEL
  }

  lemma DispatchKeepsExclusive(s: State, id: JobId)
    requires Exclusive(s) && |s.live| < PARALLEL
    ensures Exclusive(Claim(s, id))
  {
    var t := Claim(s, id);
    if t != s {
      assert id !in s.threads;
      assert t.threads.Keys == s.threads.Keys + {id} && t.live.Keys == s.live.Keys + {s.rows[id].sandbox};
    }
  }

  lemma EndKeepsExclusive(s: State, id: JobId)
    requires Exclusive(s) && id in s.threads
    ensures Exclusive(Leave(s, id))
  {
    var t := Leave(s, id);
    assert t.threads.Keys == s.threads.Keys - {id} && t.live.Keys == s.live.Keys - {s.threads[id]};
  }

  ghost predicate SameWork(s: State, t: State, id: JobId) {
    && t.live == s.live && t.threads == s.threads
    && (id in t.rows && id in s.threads ==> id in s.rows && t.rows[id].sandbox == s.rows[id].sandbox)
  }

  lemma RequeueSameWork(s: State, ids: set<JobId>, id: JobId)
    ensures SameWork(s, Requeue(s, ids), id)
  {
  }

  lemma SettlingSameWork(s: State, k: JobId, span: nat, id: JobId)
    ensures SameWork(s, RetryOrFail(s, k, span), id) && SameWork(s, Defer(s, k, span), id)
  {
  }

  /** Only a dispatch, the end of a thread and a restart touch who runs; nothing changes a job's sandbox. */
  lemma OtherStepsSameWork(s: State, step: Step, id: JobId)
    requires Enabled(s, step) && !step.Dispatch? && !step.End? && !step.Restart?
    ensures SameWork(s, Apply(s, step), id)
  {
    match step
    case Err(k, delay) => SettlingSameWork(s, k, delay, id);
    case Wait(k, window) => SettlingSameWork(s, k, window, id);
    case RequeueLive => RequeueSameWork(s, LiveIds(s.live), id);
    case _ =>
  }

  lemma SameWorkKeepsExclusive(s: State, t: State)
    requires Exclusive(s) && forall id :: SameWork(s, t, id)
    ensures Exclusive(t)
  {
    assert SameWork(s, t, "");
    forall id | id in t.threads && id in t.rows ensures t.rows[id].sandbox == t.threads[id] {
      assert SameWork(s, t, id);
    }
  }

  lemma OtherStepsKeepExclusive(s: State, step: Step)
    requires Exclusive(s) && Enabled(s, step) && !step.Dispatch? && !step.End? && !step.Restart?
    ensures Exclusive(Apply(s, step))
  {
    forall id ensures SameWork(s, Apply(s, step), id) {
      OtherStepsSameWork(s, step, id);
    }
    SameWorkKeepsExclusive(s, Apply(s, step));
  }

  lemma StepKeepsExclusive(s: State, step: Step)
    requires Exclusive(s) && Enabled(s, step)
    ensures Exclusive(Apply(s, step))
  {
    match step
    case Dispatch(id) => DispatchKeepsExclusive(s, id);
    case End(id) => EndKeepsExclusive(s, id);
    case Restart =>
    case _ => OtherStepsKeepExclusive(s, step);
  }

  // How often a handler runs, and that failure is reported once.

  /** The reasons a job may fail, at the instant it did: no attempt was left, it had waited long enough, or its deadline
      was past or closer than the longest backoff. */
  predicate Spent(row: Row, longest: nat) {
    row.finished.Some? &&
    (|| row.attempts == row.maxAttempts
     || row.created < row.finished.value - MAX_WAIT
     || (row.deadline.Some? && row.deadline.value <= row.finished.value + longest))
  }

  /** Attempts, waits and interruptions account for every run of a job, each wait took at least WAIT_POLL, and no job
      failed early. */
  ghost predicate Tally(row: Row, now: int, ran: nat, waited: nat, interrupted: nat, longest: nat) {
    && ran == row.attempts + waited + interrupted
    && row.attempts <= row.maxAttempts
    && (row.state.Queued? ==> row.attempts < row.maxAttempts)
    && (row.state.Running? ==> row.attempts > 0 && row.runAfter <= now)
    && (row.Unfinished() ==> row.created + WAIT_POLL * waited <= row.runAfter)
    && WAIT_POLL * waited <= MAX_WAIT + WAIT_POLL
    && (row.state.Failed? ==> Spent(row, longest))
  }

  /** A job given up on has failed, and its failure was reported once. */
  ghost predicate Accounted(s: State, id: JobId) {
    && s.gaveUp[id] <= 1
    && (id in s.rows ==>
          && (s.gaveUp[id] == 1 ==> s.rows[id].state.Failed?)
          && Tally(s.rows[id], s.now, s.ran[id], s.waited[id], s.interrupted[id], s.longest))
  }

  lemma ClaimAccounts(s: State, id: JobId, k: JobId)
    requires Accounted(s, k) && (id in s.rows ==> s.rows[id].runAfter <= s.now)
    ensures Accounted(Claim(s, id), k)
  {
  }

  lemma RetryOrFailAccounts(s: State, id: JobId, delay: nat, k: JobId)
    requires Accounted(s, k) && delay <= s.longest
    ensures Accounted(RetryOrFail(s, id, delay), k)
  {
  }

  lemma DeferAccounts(s: State, id: JobId, window: nat, k: JobId)
    requires Accounted(s, k)
    ensures Accounted(Defer(s, id, window), k)
  {
  }

  lemma ExpireAccounts(s: State, k: JobId)
    requires Accounted(s, k)
    ensures Accounted(Expire(s), k)
  {
    assert multiset(Overdue(s))[k] == if k in Overdue(s) then 1 else 0;
  }

  lemma RequeueAccounts(s: State, ids: set<JobId>, k: JobId)
    requires Accounted(s, k)
    ensures Accounted(Requeue(s, ids), k)
  {
    var running := StillRunning(s.rows, ids);
    assert multiset(running)[k] == if k in running then 1 else 0;
  }

  lemma StepAccounts(s: State, step: Step, k: JobId)
    requires Accounted(s, k) && Enabled(s, step)
    ensures Accounted(Apply(s, step), k)
  {
    match step
    case Dispatch(id) => ClaimAccounts(s, id, k);
    case Err(id, delay) => RetryOrFailAccounts(s, id, delay, k);
    case Wait(id, window) => DeferAccounts(s, id, window, k);
    case ExpireAll => ExpireAccounts(s, k);
    case RequeueLive => RequeueAccounts(s, LiveIds(s.live), k);
    case Restart => RequeueAccounts(s, s.rows.Keys, k);
    case _ =>
  }

  // Whole runs.

  function Started(now: int, longest: nat): State {
    State(map[], map[], map[], false, now, multiset{}, multiset{}, multiset{}, multiset{}, longest)
  }

  /** `s` is what some sequence of enabled steps leads to, from an empty queue. */
  ghost predicate Reached(s: State, start: State, steps: seq<Step>)
    decreases |steps|
  {
    if steps == [] then s == start && start == Started(start.now, start.longest)
    else
      var last := |steps| - 1;
      exists before :: Reached(before, start, steps[..last]) && Enabled(before, steps[last]) && s == Apply(before, steps[last])
  }

  lemma {:induction false} RunKeeps(s: State, start: State, steps: seq<Step>, id: JobId)
    requires Reached(s, start, steps)
    ensures Exclusive(s) && Accounted(s, id)
    decreases |steps|
  {
    if steps != [] {
      var last := |steps| - 1;
      var before :| Reached(before, start, steps[..last]) && Enabled(before, steps[last]) && s == Apply(before, steps[last]);
      RunKeeps(before, start, steps[..last], id);
      StepKeepsExclusive(before, steps[last]);
      StepAccounts(before, steps[last], id);
    }
  }

  /** In every state the worker can reach, through expiry, shutdown and restart, no two threads work on one sandbox
      and at most PARALLEL work at all. */
  lemma OneThreadPerSandbox(s: State, start: State, steps: seq<Step>, a: JobId, b: JobId)
    requires Reached(s, start, steps) && a in s.threads && b in s.threads && s.threads[a] == s.threads[b]
    ensures a == b && |s.threads| <= PARALLEL
  {
    RunKeeps(s, start, steps, a);
  }

  lemma WaitsFit(waited: nat)
    requires WAIT_POLL * waited <= MAX_WAIT + WAIT_POLL
    ensures waited <= MAX_WAIT / WAIT_POLL + 1
  {
  }

  /** A handler runs at most its attempts, plus the waits that fit in MAX_WAIT, plus one for every time the process
      stopped under it; its failure callback is called at most once, and then for good. */
  lemma RunsAreBounded(s: State, start: State, steps: seq<Step>, id: JobId)
    requires Reached(s, start, steps)
    ensures s.gaveUp[id] <= 1
    ensures id in s.rows ==>
              && s.ran[id] <= s.rows[id].maxAttempts + MAX_WAIT / WAIT_POLL + 1 + s.interrupted[id]
              && (s.gaveUp[id] == 1 ==> s.rows[id].state.Failed?)
  {
    RunKeeps(s, start, steps, id);
    if id in s.rows {
      WaitsFit(s.waited[id]);
    }
  }

  /** No job fails early: when it failed, it had used all its attempts, or had been there for more than MAX_WAIT, or its
      deadline was past or no further off than the longest backoff. */
  lemma NoJobFailsEarly(s: State, start: State, steps: seq<Step>, id: JobId)
    requires Reached(s, start, steps) && id in s.rows && s.rows[id].state.Failed?
    ensures var row := s.rows[id];
            && row.finished.Some?
            && (|| row.attempts == row.maxAttempts
                || row.finished.value - row.created > MAX_WAIT
                || (row.deadline.Some? && row.deadline.value <= row.finished.value + s.longest))
  {
    RunKeeps(s, start, steps, id);
  }

  /** Nothing moves a job that has ended, not even the thread still working on it. */
  lemma EndedStaysEnded(s: State, step: Step, id: JobId)
    requires Enabled(s, step) && id in s.rows && !s.rows[id].Unfinished() && id in Apply(s, step).rows
    ensures Apply(s, step).rows[id] == s.rows[id]
  {
  }
}

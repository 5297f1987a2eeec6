/** What the end of a handler, an expiry and a recovery mean for jobs, their sandboxes and the others. */
module JobOutcomes {
  import opened Options
  import opened Jobs

  datatype Outcome = Done | Waiting(window: nat) | Raised

  /** How a handler's outcome settles its job. */
  function Settled(s: State, id: JobId, outcome: Outcome, delay: nat): State {
    match outcome
    case Done => Succeed(s, id)
    case Waiting(window) => Defer(s, id, window)
    case Raised => RetryOrFail(s, id, delay)
  }

  /** A finished handler's job has succeeded, unless it had ended already. */
  lemma SuccessMeans(s: State, id: JobId)
    requires id in s.rows
    ensures Succeed(s, id) == s.(rows := Succeed(s, id).rows)
    ensures Succeed(s, id).rows == s.rows[id :=
      if s.rows[id].state.Queued? || s.rows[id].state.Running?
      then s.rows[id].(state := Succeeded, finished := Some(s.now)) else s.rows[id]]
  {
    assert s.rows == s.rows[id := s.rows[id]];
  }

  /** A failed attempt is tried again after the delay exactly if one is left and the deadline is further off; otherwise
      the job fails and is reported; a job that is not running any more is left alone. */
  lemma ErrorMeans(s: State, id: JobId, delay: nat)
    requires id in s.rows
    ensures var row, t := s.rows[id], RetryOrFail(s, id, delay);
      if !row.state.Running? then t == s
      else if row.attempts < row.maxAttempts && (row.deadline.None? || row.deadline.value > s.now + delay)
      then t == s.(rows := s.rows[id := row.(state := Queued, runAfter := s.now + delay)])
      else t == s.(rows := s.rows[id := row.(state := Failed, finished := Some(s.now))], gaveUp := s.gaveUp + multiset{id})
  {
  }

  /** A job that has to wait looks again in 15 seconds, with its attempt given back and a deadline `window` after that, if
      it is no older than two hours; otherwise it fails and is reported. */
  lemma WaitMeans(s: State, id: JobId, window: nat)
    requires id in s.rows
    ensures var row, t := s.rows[id], Defer(s, id, window);
      if !row.state.Running? then t == s
      else if s.now - row.created <= 7200 * SECOND
      then t == s.(rows := s.rows[id := row.(state := Queued, attempts := if row.attempts == 0 then 0 else row.attempts - 1,
                                             runAfter := s.now + 15 * SECOND,
                                             deadline := Some(s.now + 15 * SECOND + window))],
                   waited := s.waited + multiset{id})
      else t == s.(rows := s.rows[id := row.(state := Failed, finished := Some(s.now))], gaveUp := s.gaveUp + multiset{id})
  {
  }

  /** The end of a thread frees its sandbox and no other, and touches no job. */
  lemma LeaveMeans(s: State, id: JobId)
    requires Exclusive(s) && id in s.threads
    ensures Leave(s, id) == s.(live := s.live - {s.threads[id]}, threads := s.threads - {id})
  {
  }

  /** After an expiry no unfinished job is overdue; each overdue one failed and was reported once more, and no other row
      changed. */
  lemma ExpireMeans(s: State, id: JobId)
    requires id in s.rows
    ensures var row, t := s.rows[id], Expire(s);
      var late := (row.state.Queued? || row.state.Running?) && row.deadline.Some? && row.deadline.value < s.now;
      && id in t.rows && t.rows[id] == (if late then row.(state := Failed, finished := Some(s.now)) else row)
      && t.gaveUp[id] == s.gaveUp[id] + (if late then 1 else 0)
      && t.live == s.live && t.threads == s.threads
  {
    assert multiset(Overdue(s))[id] == if id in Overdue(s) then 1 else 0;
  }

  /** After a recovery no job is running: each that was is queued with the attempts it had before the interrupted one, and
      no other row changed. */
  lemma RecoverMeans(s: State, id: JobId)
    requires id in s.rows
    ensures var row, t := s.rows[id], Requeue(s, s.rows.Keys);
      && id in t.rows
      && t.rows[id] == (if row.state.Running? then row.(state := Queued, attempts := if row.attempts == 0 then 0 else row.attempts - 1) else row)
      && t.live == s.live && t.threads == s.threads && t.gaveUp == s.gaveUp
  {
  }
}

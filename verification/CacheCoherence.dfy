/** What a hit in the request cache is worth, while rows change, notifications travel and loads overlap them. */
module CacheCoherence {
  import opened Options
  import opened RequestCache

  /** What a loader reads for one key: its row, and the key it then reads through the cache, if any. */
  datatype Row = Row(workspace: Option<Workspace>, data: string, through: Option<Key>)

  datatype Phase = Begun | Read(row: Row) | Loaded(value: Value)

  /** A `get` that missed and has not returned; `started` is the generation it began in. */
  datatype Load = Load(key: Key, started: nat, phase: Phase)

  /** The committed rows, the notifications sent and not yet delivered, the cache and the loads in progress. */
  datatype World = World(db: map<Key, Row>, flying: multiset<Workspace>, entries: seq<Entry>, generation: nat,
                         ready: bool, loads: map<nat, Load>)

  // A key that names a workspace holds rows of that workspace; a loader reads through such keys only, in its own
  // workspace, and one level deep.
  predicate RowFits(key: Key, row: Row) {
    && (key.scope.Some? ==> row.workspace == key.scope && row.through.None?)
    && (row.through.Some? ==>
          row.through.value.scope.Some? && (row.workspace.None? || row.workspace == row.through.value.scope))
  }

  ghost predicate WellScoped(db: map<Key, Row>) {
    forall key :: key in db ==> RowFits(key, db[key])
  }

  /** What a loader makes of a row and of what it read through the cache. */
  function Combine(row: Row, inner: Option<Value>): Option<Value> {
    if row.through.None? then Some(Value(row.workspace, row.data, None))
    else if inner.None? then None
    else Some(Value(row.workspace, row.data, Some(inner.value.data)))
  }

  function Plain(db: map<Key, Row>, key: Key): Option<Value> {
    if key in db then Some(Value(db[key].workspace, db[key].data, None)) else None
  }

  /** What the loader of a key would return now. */
  function Answer(db: map<Key, Row>, key: Key): Option<Value> {
    if key !in db then None
    else Combine(db[key], if db[key].through.Some? then Plain(db, db[key].through.value) else None)
  }

  /** Whether a notification that would remove values of `workspace` is still on its way. */
  predicate Pending(s: World, workspace: Option<Workspace>) {
    if workspace.None? then |s.flying| > 0 else workspace.value in s.flying
  }

  predicate Current(s: World, key: Key, value: Value) {
    Answer(s.db, key) == Some(value) || Pending(s, value.workspace)
  }

  predicate Sound(s: World, key: Key, value: Value) {
    (key.scope.Some? ==> value.workspace == key.scope) && Current(s, key, value)
  }

  predicate PhaseSound(s: World, key: Key, phase: Phase) {
    match phase
    case Begun => true
    case Read(row) => RowFits(key, row) && (Pending(s, row.workspace) || (key in s.db && s.db[key] == row))
    case Loaded(value) => Sound(s, key, value)
  }

  /** A load that may still be stored is as sound as an entry. */
  predicate LoadSound(s: World, load: Load) {
    && load.started <= s.generation
    && (load.started == s.generation ==> s.ready && PhaseSound(s, load.key, load.phase))
  }

  ghost predicate Inv(s: World) {
    && WellScoped(s.db)
    && Distinct(s.entries) && |s.entries| <= MAX_ENTRIES
    && (!s.ready ==> s.entries == [])
    && (forall e :: e in s.entries ==> Sound(s, e.key, e.value))
    && (forall id :: id in s.loads ==> LoadSound(s, s.loads[id]))
  }

  // The steps.

  /** A transaction notifies the workspaces of every row it changes, as it was and as it is. */
  ghost predicate Announces(before: map<Key, Row>, after: map<Key, Row>, sent: set<Workspace>) {
    forall key :: Changed(before, after, key) ==>
      && sent != {}
      && (key in before && before[key].workspace.Some? ==> before[key].workspace.value in sent)
      && (key in after && after[key].workspace.Some? ==> after[key].workspace.value in sent)
  }

  predicate Changed(before: map<Key, Row>, after: map<Key, Row>, key: Key) {
    (key in before) != (key in after) || (key in before && key in after && before[key] != after[key])
  }

  ghost predicate Commit(s: World, t: World, sent: set<Workspace>) {
    && WellScoped(t.db) && Announces(s.db, t.db, sent)
    && t == s.(db := t.db, flying := s.flying + multiset(sent))
  }

  ghost predicate Deliver(s: World, t: World, workspace: Workspace) {
    workspace in s.flying &&
    t == s.(flying := s.flying - multiset{workspace}, entries := Unaffected(s.entries, workspace),
            generation := s.generation + 1)
  }

  /** A notice that names no workspace clears the table. */
  ghost predicate Clear(s: World, t: World) {
    t == s.(entries := [], generation := s.generation + 1)
  }

  /** The listener's connection is found broken, or the cache is closed. */
  ghost predicate Disconnect(s: World, t: World) {
    t == s.(flying := multiset{}, entries := [], generation := s.generation + 1, ready := false)
  }

  /** The listener is connected again; what was sent before it listened is never delivered. */
  ghost predicate Connect(s: World, t: World) {
    !s.ready && t.flying <= s.flying && t == s.(flying := t.flying, ready := true)
  }

  ghost predicate Use(s: World, t: World, e: Entry) {
    s.ready && e in s.entries && t == s.(entries := Popped(s.entries, e.key) + [e])
  }

  ghost predicate Miss(s: World, t: World, id: nat, key: Key) {
    s.ready && id !in s.loads &&
    t == s.(entries := Popped(s.entries, key), loads := s.loads[id := Load(key, s.generation, Begun)])
  }

  ghost predicate At(s: World, t: World, id: nat, phase: Phase) {
    id in s.loads && t == s.(loads := s.loads[id := s.loads[id].(phase := phase)])
  }

  ghost predicate ReadRow(s: World, t: World, id: nat) {
    id in s.loads && s.loads[id].phase.Begun? && s.loads[id].key in s.db && At(s, t, id, Read(s.db[s.loads[id].key]))
  }

  /** The loader returns: alone, with what a hit gave it, or with what a load begun since gave it. */
  ghost predicate Return(s: World, t: World, id: nat, inner: Option<Value>) {
    id in s.loads && s.loads[id].phase.Read? &&
    var row := s.loads[id].phase.row;
    (row.through.Some? ==>
      || (exists e :: e in s.entries && e.key == row.through.value && inner == Some(e.value))
      || (exists k :: k in s.loads && s.loads[k].key == row.through.value && s.loads[k].started >= s.loads[id].started &&
                      s.loads[k].phase.Loaded? && inner == Some(s.loads[k].phase.value))) &&
    Combine(row, inner).Some? && At(s, t, id, Loaded(Combine(row, inner).value))
  }

  ghost predicate Store(s: World, t: World, id: nat, now: int) {
    id in s.loads && s.loads[id].phase.Loaded? &&
    var load := s.loads[id];
    t == s.(entries := if load.started == s.generation && s.ready
                       then Stored(s.entries, Entry(load.key, load.phase.value, now + TTL)) else s.entries)
  }

  ghost predicate End(s: World, t: World, id: nat) {
    t == s.(loads := s.loads - {id})
  }

  // Each step keeps the invariant.

  lemma StillPending(s: World, t: World, workspace: Option<Workspace>)
    requires s.flying <= t.flying && Pending(s, workspace)
    ensures Pending(t, workspace)
  {
  }

  /** A row that changes leaves a notification for its workspace. */
  lemma ChangePends(s: World, t: World, sent: set<Workspace>, key: Key, row: Row)
    requires Commit(s, t, sent) && key in s.db && s.db[key] == row
    ensures Pending(t, row.workspace) || (key in t.db && t.db[key] == row)
  {
    if Changed(s.db, t.db, key) {
      assert sent != {};
      var w :| w in sent;
      assert w in t.flying;
    }
  }

  lemma CommitKeepsCurrent(s: World, t: World, sent: set<Workspace>, key: Key, value: Value)
    requires Commit(s, t, sent) && WellScoped(s.db) && Current(s, key, value)
    ensures Current(t, key, value)
  {
    if Pending(s, value.workspace) {
      StillPending(s, t, value.workspace);
    } else {
      var row := s.db[key];
      ChangePends(s, t, sent, key, row);
      if row.through.Some? {
        var inner := row.through.value;
        ChangePends(s, t, sent, inner, s.db[inner]);
        if Pending(t, s.db[inner].workspace) {
          assert Pending(t, row.workspace);
        }
      }
    }
  }

  lemma CommitKeepsLoad(s: World, t: World, sent: set<Workspace>, load: Load)
    requires Commit(s, t, sent) && WellScoped(s.db) && LoadSound(s, load)
    ensures LoadSound(t, load)
  {
    if load.started == s.generation {
      match load.phase
      case Begun =>
      case Read(row) =>
        if Pending(s, row.workspace) {
          StillPending(s, t, row.workspace);
        } else {
          ChangePends(s, t, sent, load.key, row);
        }
      case Loaded(value) => CommitKeepsCurrent(s, t, sent, load.key, value);
    }
  }

  lemma CommitKeeps(s: World, t: World, sent: set<Workspace>)
    requires Inv(s) && Commit(s, t, sent)
    ensures Inv(t)
  {
    forall e | e in t.entries ensures Sound(t, e.key, e.value) {
      CommitKeepsCurrent(s, t, sent, e.key, e.value);
    }
    forall id | id in t.loads ensures LoadSound(t, t.loads[id]) {
      CommitKeepsLoad(s, t, sent, t.loads[id]);
    }
  }

  lemma SameWorld(s: World, t: World, load: Load)
    requires t.db == s.db && t.flying == s.flying && t.generation == s.generation && t.ready == s.ready
    requires LoadSound(s, load)
    ensures LoadSound(t, load)
  {
  }

  lemma DeliverKeeps(s: World, t: World, workspace: Workspace)
    requires Inv(s) && Deliver(s, t, workspace)
    ensures Inv(t)
  {
    UnaffectedDistinct(s.entries, workspace);
    forall e | e in t.entries ensures Sound(t, e.key, e.value) {
      assert e in s.entries && !Belongs(e, workspace);
    }
  }

  lemma ConnectionKeeps(s: World, t: World)
    requires Inv(s) && (Clear(s, t) || Disconnect(s, t) || Connect(s, t))
    ensures Inv(t)
  {
  }

  lemma UseKeeps(s: World, t: World, e: Entry)
    requires Inv(s) && Use(s, t, e)
    ensures Inv(t)
  {
    PoppedGone(s.entries, e.key);
    PoppedShrinks(s.entries, e);
    forall id | id in t.loads ensures LoadSound(t, t.loads[id]) {
      SameWorld(s, t, t.loads[id]);
    }
  }

  lemma MissKeeps(s: World, t: World, id: nat, key: Key)
    requires Inv(s) && Miss(s, t, id, key)
    ensures Inv(t)
  {
    PoppedGone(s.entries, key);
    forall k | k in t.loads ensures LoadSound(t, t.loads[k]) {
      if k != id {
        SameWorld(s, t, s.loads[k]);
      }
    }
  }

  lemma AtKeeps(s: World, t: World, id: nat, phase: Phase)
    requires Inv(s) && At(s, t, id, phase)
    requires s.loads[id].started == s.generation ==> PhaseSound(s, s.loads[id].key, phase)
    ensures Inv(t)
  {
    forall k | k in t.loads ensures LoadSound(t, t.loads[k]) {
      if k != id {
        SameWorld(s, t, s.loads[k]);
      }
    }
  }

  /** Combining a sound row with a sound value read through the cache gives a sound value. */
  lemma CombineSound(s: World, key: Key, row: Row, inner: Option<Value>)
    requires WellScoped(s.db) && PhaseSound(s, key, Read(row)) && Combine(row, inner).Some?
    requires row.through.Some? ==> inner.Some? && Sound(s, row.through.value, inner.value)
    ensures Sound(s, key, Combine(row, inner).value)
  {
    if row.through.Some? && !Pending(s, row.workspace) {
      var through := row.through.value;
      assert !Pending(s, through.scope) || row.workspace.None?;
      assert Answer(s.db, through) == inner;
    }
  }

  lemma ReturnKeeps(s: World, t: World, id: nat, inner: Option<Value>)
    requires Inv(s) && Return(s, t, id, inner)
    ensures Inv(t)
  {
    var load := s.loads[id];
    if load.started == s.generation {
      CombineSound(s, load.key, load.phase.row, inner);
    }
    AtKeeps(s, t, id, Loaded(Combine(load.phase.row, inner).value));
  }

  lemma StoreKeeps(s: World, t: World, id: nat, now: int)
    requires Inv(s) && Store(s, t, id, now)
    ensures Inv(t)
  {
    var load := s.loads[id];
    StoredDistinct(s.entries, Entry(load.key, load.phase.value, now + TTL));
    forall k | k in t.loads ensures LoadSound(t, t.loads[k]) {
      SameWorld(s, t, s.loads[k]);
    }
  }

  ghost predicate Step(s: World, t: World) {
    || (exists sent :: Commit(s, t, sent))
    || (exists workspace :: Deliver(s, t, workspace))
    || Clear(s, t) || Disconnect(s, t) || Connect(s, t)
    || (exists e :: Use(s, t, e))
    || (exists id, key :: Miss(s, t, id, key))
    || (exists id :: ReadRow(s, t, id))
    || (exists id, inner :: Return(s, t, id, inner))
    || (exists id, now :: Store(s, t, id, now))
    || (exists id :: End(s, t, id))
  }

  lemma StepKeeps(s: World, t: World)
    requires Inv(s) && Step(s, t)
    ensures Inv(t)
  {
    if sent :| Commit(s, t, sent) {
      CommitKeeps(s, t, sent);
    } else if workspace :| Deliver(s, t, workspace) {
      DeliverKeeps(s, t, workspace);
    } else if Clear(s, t) || Disconnect(s, t) || Connect(s, t) {
      ConnectionKeeps(s, t);
    } else if e :| Use(s, t, e) {
      UseKeeps(s, t, e);
    } else if id, key :| Miss(s, t, id, key) {
      MissKeeps(s, t, id, key);
    } else if id :| ReadRow(s, t, id) {
      AtKeeps(s, t, id, Read(s.db[s.loads[id].key]));
    } else if id, inner :| Return(s, t, id, inner) {
      ReturnKeeps(s, t, id, inner);
    } else if id, now :| Store(s, t, id, now) {
      StoreKeeps(s, t, id, now);
    } else {
      var id :| End(s, t, id);
    }
  }

  /** A run from a cache that has not started. */
  ghost predicate Run(run: seq<World>) {
    && |run| > 0
    && WellScoped(run[0].db) && run[0].entries == [] && run[0].loads == map[] && !run[0].ready
    && forall i, j :: 0 <= i && j == i + 1 < |run| ==> Step(run[i], run[j])
  }

  lemma {:induction false} RunKeeps(run: seq<World>, i: nat)
    requires Run(run) && i < |run|
    ensures Inv(run[i])
  {
    if i > 0 {
      RunKeeps(run, i - 1);
      StepKeeps(run[i - 1], run[i]);
    }
  }

  /** At every point of every run, a hit whose workspace has no notification on its way is what the loader would
      return, and the table is within its bound. */
  lemma HitsAreCurrent(run: seq<World>, i: nat, e: Entry)
    requires Run(run) && i < |run| && e in run[i].entries && !Pending(run[i], e.value.workspace)
    ensures Answer(run[i].db, e.key) == Some(e.value)
    ensures run[i].ready && |run[i].entries| <= MAX_ENTRIES
  {
    RunKeeps(run, i);
  }
}

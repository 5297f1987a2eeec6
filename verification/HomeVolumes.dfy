/** Who owns which home volume: spare assignment, refills, moves and their cleanup, with crashes anywhere and a switch
    whose commit outcome is unknown. Claims are the cluster's, rows the database's. */
module HomeVolumes {
  import opened Options

  type Id = string
  type Name = string

  /** What a claim holds: nothing yet, or some version of one sandbox's home. */
  datatype Content = Empty | Home(id: Id, version: nat)
  /** `spare` is the spare-node label, `owner` the zoo.dev/sandbox label. */
  datatype Claim = Claim(spare: bool, owner: Option<Id>, content: Content)
  /** `initial` is the claim name a sandbox is created with; `reserved` is its node reservation. */
  datatype Row = Row(initial: Name, home: Name, previous: Option<Name>, reserved: bool)

  datatype Progress = Begun | Copied(content: Content) | Created(content: Content) | Restored(content: Content)
  datatype Mover = Mover(id: Id, source: Name, target: Name, at: Progress)

  /** What a sandbox's one live job is doing. */
  datatype Job = Boot | Move(m: nat)

  datatype Holder = Preparing(id: Id, name: Name) | Refilling(doomed: set<Name>)

  datatype State = State(
    claims: map<Name, Claim>,
    rows: map<Id, Row>,
    pods: map<Id, Name>,           // each running sandbox pod, and the claim it mounts
    latest: map<Id, nat>,          // the version of each home last written
    movers: map<nat, Mover>,
    jobs: map<Id, Job>,            // the job queue's live map: one job for each sandbox
    holder: Option<Holder>,        // of the placement lock
    used: set<Name>,               // every name ever given out
    owners: map<Name, Id>)         // every name that was ever a sandbox's home

  ghost predicate Refers(row: Row, name: Name) {
    row.home == name || row.previous == Some(name)
  }

  ghost predicate Referenced(s: State, name: Name) {
    exists id :: id in s.rows && Refers(s.rows[id], name)
  }

  ghost predicate Mounted(s: State, name: Name) {
    exists id :: id in s.pods && s.pods[id] == name
  }

  /** `available_spare`: labelled spare, assigned to nobody, never bound. */
  ghost predicate Available(s: State, name: Name) {
    && name in s.claims && s.claims[name].spare && s.claims[name].owner.None? && s.claims[name].content.Empty?
    && !Referenced(s, name) && !Mounted(s, name)
  }

  /** A boot that is preparing its home does nothing else meanwhile. */
  ghost predicate PreparingFor(s: State, id: Id) {
    s.holder.Some? && s.holder.value.Preparing? && s.holder.value.id == id
  }

  // Boots.

  ghost predicate CreateSandbox(s: State, t: State, id: Id, name: Name) {
    && id !in s.rows && id !in s.latest && name !in s.used
    && t == s.(rows := s.rows[id := Row(name, name, None, false)], latest := s.latest[id := 0],
               used := s.used + {name}, owners := s.owners[name := id])
  }

  ghost predicate SetReserved(s: State, t: State, id: Id, reserved: bool) {
    && id in s.rows && (reserved ==> id !in s.pods) && !PreparingFor(s, id)
    && t == s.(rows := s.rows[id := s.rows[id].(reserved := reserved)])
  }

  /** `ensure_claim` on a home that was never created. */
  ghost predicate EnsureHome(s: State, t: State, id: Id) {
    && id in s.rows && s.rows[id].reserved && !PreparingFor(s, id)
    && s.rows[id].home !in s.claims && s.rows[id].home == s.rows[id].initial
    && t == s.(claims := s.claims[s.rows[id].home := Claim(false, None, Empty)])
  }

  /** The job queue claims a boot for a sandbox that has no live job. */
  ghost predicate TakeSlot(s: State, t: State, id: Id) {
    id in s.rows && id !in s.jobs && t == s.(jobs := s.jobs[id := Boot])
  }

  ghost predicate DropSlot(s: State, t: State, id: Id) {
    Booting(s, id) && t == s.(jobs := s.jobs - {id})
  }

  ghost predicate Booting(s: State, id: Id) {
    id in s.jobs && s.jobs[id].Boot?
  }

  ghost predicate PostPod(s: State, t: State, id: Id) {
    && id in s.rows && s.rows[id].reserved && !PreparingFor(s, id) && id !in s.pods && s.rows[id].home in s.claims
    && t == s.(pods := s.pods[id := s.rows[id].home])
  }

  ghost predicate RemovePod(s: State, t: State, id: Id) {
    id in s.pods && t == s.(pods := s.pods - {id})
  }

  ghost predicate Write(s: State, t: State, id: Id) {
    && id in s.pods && s.pods[id] in s.claims && id in s.latest
    && var v := s.latest[id] + 1;
       t == s.(latest := s.latest[id := v],
               claims := s.claims[s.pods[id] := s.claims[s.pods[id]].(content := Home(id, v))])
  }

  // Spares.

  ghost predicate CreateSpare(s: State, t: State, name: Name) {
    name !in s.used && t == s.(claims := s.claims[name := Claim(true, None, Empty)], used := s.used + {name})
  }

  /** `prepare_home_claim` takes the placement lock and picks a spare for a home that was never created. */
  ghost predicate Prepare(s: State, t: State, id: Id, name: Name) {
    && s.holder.None? && id in s.rows && s.rows[id].reserved && id !in s.pods
    && s.rows[id].home == s.rows[id].initial && s.rows[id].home !in s.claims && Available(s, name)
    && t == s.(holder := Some(Preparing(id, name)))
  }

  /** The compare-and-swap of the row's home commits. */
  ghost predicate Assign(s: State, t: State, id: Id, name: Name) {
    && s.holder == Some(Preparing(id, name)) && id in s.rows
    && s.rows[id].home == s.rows[id].initial && s.rows[id].reserved && s.rows[id].previous.None?
    && t == s.(rows := s.rows[id := s.rows[id].(home := name)], owners := s.owners[name := id], holder := None)
  }

  /** `own_spare_claim`, by the boot or by a refill that helps it: the resource version makes check and write one. */
  ghost predicate Relabel(s: State, t: State, name: Name, id: Id) {
    && name in s.claims && s.claims[name].spare && (s.claims[name].owner.None? || s.claims[name].owner == Some(id))
    && name in s.owners && s.owners[name] == id
    && t == s.(claims := s.claims[name := s.claims[name].(owner := Some(id))])
  }

  /** A refill decides, under the lock, which spares to delete: listed, not referenced, not mounted. */
  ghost predicate Refill(s: State, t: State, doomed: set<Name>) {
    && s.holder.None?
    && (forall name :: name in doomed ==>
          name in s.claims && s.claims[name].spare && !Referenced(s, name) && !Mounted(s, name))
    && t == s.(holder := Some(Refilling(doomed)))
  }

  ghost predicate RefillDelete(s: State, t: State, name: Name) {
    && s.holder.Some? && s.holder.value.Refilling? && name in s.holder.value.doomed
    && t == s.(claims := s.claims - {name})
  }

  /** The transaction ends: rolled back, crashed, or a finished refill. */
  ghost predicate Unlock(s: State, t: State) {
    s.holder.Some? && t == s.(holder := None)
  }

  // Moves.

  ghost predicate MoveBegin(s: State, t: State, m: nat, id: Id, target: Name) {
    && m !in s.movers && id in s.rows && s.rows[id].home in s.claims && id !in s.pods && s.rows[id].previous.None?
    && target !in s.used && id !in s.jobs
    && t == s.(movers := s.movers[m := Mover(id, s.rows[id].home, target, Begun)], jobs := s.jobs[id := Move(m)],
               used := s.used + {target})
  }

  /** The snapshot reads the home the row names now. */
  ghost predicate MoveCopy(s: State, t: State, m: nat) {
    && m in s.movers && s.movers[m].at.Begun? && s.movers[m].id in s.rows && s.rows[s.movers[m].id].home in s.claims
    && t == s.(movers := s.movers[m := s.movers[m].(at := Copied(s.claims[s.rows[s.movers[m].id].home].content))])
  }

  ghost predicate MoveCreate(s: State, t: State, m: nat) {
    && m in s.movers && s.movers[m].at.Copied?
    && t == s.(movers := s.movers[m := s.movers[m].(at := Created(s.movers[m].at.content))],
               claims := s.claims[s.movers[m].target := Claim(false, None, Empty)])
  }

  ghost predicate MoveRestore(s: State, t: State, m: nat) {
    && m in s.movers && s.movers[m].at.Created? && s.movers[m].target in s.claims
    && t == s.(movers := s.movers[m := s.movers[m].(at := Restored(s.movers[m].at.content))],
               claims := s.claims[s.movers[m].target := Claim(false, None, s.movers[m].at.content)])
  }

  /** `switch_sandbox_home_claim` commits, whether or not the mover learns of it. */
  ghost predicate MoveSwitch(s: State, t: State, m: nat) {
    && m in s.movers && s.movers[m].at.Restored? && s.movers[m].id in s.rows && s.movers[m].id !in s.pods
    && var v := s.movers[m];
       var row := s.rows[v.id];
       && row.home == v.source && row.previous.None? && !row.reserved
       && t == s.(rows := s.rows[v.id := row.(home := v.target, previous := Some(v.source))],
                  owners := s.owners[v.target := v.id], movers := s.movers - {m}, jobs := s.jobs - {v.id})
  }

  /** Failed, or its switch was refused: the target is deleted. */
  ghost predicate MoveAbort(s: State, t: State, m: nat) {
    m in s.movers &&
    t == s.(claims := s.claims - {s.movers[m].target}, movers := s.movers - {m}, jobs := s.jobs - {s.movers[m].id})
  }

  /** Died, or cannot tell whether its switch committed: the target stays. */
  ghost predicate MoveCrash(s: State, t: State, m: nat) {
    m in s.movers && t == s.(movers := s.movers - {m}, jobs := s.jobs - {s.movers[m].id})
  }

  ghost predicate CleanupDelete(s: State, t: State, id: Id) {
    && id in s.rows && s.rows[id].previous.Some?
    && t == s.(claims := s.claims - {s.rows[id].previous.value})
  }

  ghost predicate CleanupClear(s: State, t: State, id: Id) {
    && id in s.rows && s.rows[id].previous.Some? && s.rows[id].previous.value !in s.claims
    && t == s.(rows := s.rows[id := s.rows[id].(previous := None)])
  }

  ghost predicate CreateStep(s: State, t: State) {
    || (exists id, name :: CreateSandbox(s, t, id, name))
    || (exists id, reserved :: SetReserved(s, t, id, reserved))
    || (exists id :: EnsureHome(s, t, id))
    || (exists id :: Write(s, t, id))
  }

  ghost predicate SlotStep(s: State, t: State) {
    || (exists id :: TakeSlot(s, t, id))
    || (exists id :: DropSlot(s, t, id))
  }

  ghost predicate PodStep(s: State, t: State) {
    || (exists id :: PostPod(s, t, id) && Booting(s, id))
    || (exists id :: RemovePod(s, t, id))
  }

  ghost predicate SpareStep(s: State, t: State) {
    || (exists name :: CreateSpare(s, t, name))
    || (exists id, name :: Prepare(s, t, id, name))
    || (exists id, name :: Assign(s, t, id, name))
    || (exists name, id :: Relabel(s, t, name, id))
  }

  ghost predicate TrimStep(s: State, t: State) {
    || (exists doomed :: Refill(s, t, doomed))
    || (exists name :: RefillDelete(s, t, name))
    || Unlock(s, t)
  }

  ghost predicate CopyStep(s: State, t: State) {
    || (exists m, id, target :: MoveBegin(s, t, m, id, target))
    || (exists m :: MoveCopy(s, t, m))
    || (exists m :: MoveCreate(s, t, m))
    || (exists m :: MoveRestore(s, t, m))
  }

  ghost predicate SettleStep(s: State, t: State) {
    || (exists m :: MoveSwitch(s, t, m))
    || (exists m :: MoveAbort(s, t, m))
    || (exists m :: MoveCrash(s, t, m))
  }

  ghost predicate CleanStep(s: State, t: State) {
    || (exists id :: CleanupDelete(s, t, id))
    || (exists id :: CleanupClear(s, t, id))
  }

  ghost predicate Next(s: State, t: State) {
    || CreateStep(s, t) || SlotStep(s, t) || PodStep(s, t) || SpareStep(s, t)
    || TrimStep(s, t) || CopyStep(s, t) || SettleStep(s, t) || CleanStep(s, t)
  }

  // What every step keeps.

  /** Every reference is recorded in `owners`, so no name has two owners. */
  ghost predicate Owned(s: State) {
    && s.claims.Keys <= s.used && s.owners.Keys <= s.used
    && forall id :: id in s.rows ==>
         && s.rows[id].home in s.owners && s.owners[s.rows[id].home] == id
         && (s.rows[id].previous.Some? ==>
               && s.rows[id].previous.value in s.owners && s.owners[s.rows[id].previous.value] == id
               && s.rows[id].previous.value != s.rows[id].home)
  }

  /** A claim that was a sandbox's home and still exists is still referenced by that sandbox. */
  ghost predicate Recorded(s: State) {
    forall name :: name in s.claims && name in s.owners ==>
      s.owners[name] in s.rows && Refers(s.rows[s.owners[name]], name)
  }

  /** Move targets are new names, one mover each, and nobody's home until the switch. */
  ghost predicate TargetsPrivate(s: State) {
    && (forall m :: m in s.movers ==>
          && s.movers[m].id in s.rows
          && s.movers[m].target in s.used && s.movers[m].target !in s.owners
          && (s.movers[m].target in s.claims ==> !s.claims[s.movers[m].target].spare))
    && (forall m, k :: m in s.movers && k in s.movers && m != k ==> s.movers[m].target != s.movers[k].target)
  }

  /** Pods mount their sandbox's home. */
  ghost predicate PodsAtHome(s: State) {
    forall id :: id in s.pods ==> id in s.rows && s.pods[id] == s.rows[id].home && s.pods[id] in s.claims
  }

  /** A spare that was never assigned is empty; one being assigned replaces a home that was never created; a claim
      marked for deletion was never anyone's. */
  ghost predicate SparesClean(s: State) {
    && (forall name :: name in s.claims && s.claims[name].spare && name !in s.owners ==>
          s.claims[name].content.Empty?)
    && (s.holder.Some? ==>
          match s.holder.value
          case Preparing(id, name) =>
            && name in s.claims && s.claims[name].spare && name !in s.owners
            && id in s.rows && s.rows[id].reserved && s.rows[id].home !in s.claims && id !in s.pods
          case Refilling(doomed) =>
            forall name :: name in doomed ==>
              name in s.used && name !in s.owners && (forall m :: m in s.movers ==> s.movers[m].target != name))
  }

  ghost predicate Holds(content: Content, id: Id, version: nat) {
    if version == 0 then content == Empty || content == Home(id, 0) else content == Home(id, version)
  }

  /** The claim a sandbox's row names exists and holds the latest home, or nothing was ever written and none is needed. */
  ghost predicate HomeSafe(s: State, id: Id)
    requires id in s.rows
  {
    && id in s.latest
    && if s.rows[id].home in s.claims then Holds(s.claims[s.rows[id].home].content, id, s.latest[id])
       else s.rows[id].home == s.rows[id].initial && s.latest[id] == 0
  }

  ghost predicate HomesSafe(s: State) {
    forall id :: id in s.rows ==> HomeSafe(s, id)
  }

  /** A target that was created is there, and once restored it holds the move's copy. */
  ghost predicate TargetsHold(s: State) {
    forall m :: m in s.movers ==>
      var v := s.movers[m];
      && (v.at.Restored? ==> v.target in s.claims && s.claims[v.target].content == v.at.content)
      && (v.at.Created? ==> v.target in s.claims)
  }

  /** Versions only grow. */
  ghost predicate Newer(s: State, t: State) {
    forall id :: id in s.latest ==> id in t.latest && s.latest[id] <= t.latest[id]
  }

  /** A move keeps its copy as long as it is under way. */
  ghost predicate CopyKept(s: State, t: State) {
    Newer(s, t) &&
    forall m :: m in s.movers && m in t.movers && !s.movers[m].at.Begun? ==>
      && t.movers[m].id == s.movers[m].id && !t.movers[m].at.Begun?
      && t.movers[m].at.content == s.movers[m].at.content
  }

  /** A copy taken for a move is still the latest home. */
  ghost predicate CopiesLatest(s: State) {
    forall m :: m in s.movers ==>
      var v := s.movers[m];
      !v.at.Begun? ==> v.id in s.latest && Holds(v.at.content, v.id, s.latest[v.id])
  }

  ghost predicate Extends(a: map<Name, Id>, b: map<Name, Id>) {
    forall name :: name in a ==> name in b && b[name] == a[name]
  }

  /** Between two states: owners are only added, and of the claims that were ever a home, only previous homes go. */
  ghost predicate Steady(s: State, t: State) {
    && Extends(s.owners, t.owners)
    && (forall name :: name in s.claims && name !in t.claims && name in s.owners ==>
          s.owners[name] in s.rows && s.rows[s.owners[name]].previous == Some(name))
  }

  ghost predicate Targets(s: State) {
    TargetsPrivate(s) && TargetsHold(s) && SparesClean(s)
  }

  ghost predicate Ownership(s: State) {
    Owned(s) && Recorded(s) && PodsAtHome(s) && Targets(s)
  }

  ghost predicate Contents(s: State) {
    HomesSafe(s) && CopiesLatest(s)
  }

  /** A move holds its sandbox's one job, and the sandbox has no pod meanwhile. */
  ghost predicate Slots(s: State) {
    forall m :: m in s.movers ==>
      s.movers[m].id in s.jobs && s.jobs[s.movers[m].id] == Move(m) && s.movers[m].id !in s.pods
  }

  ghost predicate Inv(s: State) {
    Ownership(s) && Slots(s) && Contents(s)
  }

  // Each step keeps ownership, whoever runs when, and with one job a sandbox also the contents of every home.

  lemma CreateSandboxTargets(s: State, t: State, id: Id, name: Name)
    requires Ownership(s) && CreateSandbox(s, t, id, name)
    ensures Targets(t) && CopyKept(s, t)
  {
  }

  ghost predicate Safely(s: State, t: State) {
    Steady(s, t) && Slots(t) && Contents(t)
  }

  lemma CreateSandboxOwns(s: State, t: State, id: Id, name: Name)
    requires Ownership(s) && CreateSandbox(s, t, id, name)
    ensures Ownership(t) && CopyKept(s, t)
  {
    CreateSandboxTargets(s, t, id, name);
  }

  lemma CreateSandboxContents(s: State, t: State, id: Id, name: Name)
    requires Inv(s) && CreateSandbox(s, t, id, name)
    ensures Contents(t)
  {
  }

  lemma CreateSandboxHolds(s: State, t: State, id: Id, name: Name)
    requires Inv(s) && CreateSandbox(s, t, id, name)
    ensures Safely(s, t)
  {
    CreateSandboxContents(s, t, id, name);
  }

  lemma SetReservedOwns(s: State, t: State, id: Id, reserved: bool)
    requires Ownership(s) && SetReserved(s, t, id, reserved)
    ensures Ownership(t) && CopyKept(s, t)
  {
  }

  lemma SetReservedHolds(s: State, t: State, id: Id, reserved: bool)
    requires Inv(s) && SetReserved(s, t, id, reserved)
    ensures Safely(s, t)
  {
  }

  lemma EnsureHomeTargets(s: State, t: State, id: Id)
    requires Ownership(s) && EnsureHome(s, t, id)
    ensures Targets(t) && CopyKept(s, t)
  {
  }

  lemma EnsureHomeOwns(s: State, t: State, id: Id)
    requires Ownership(s) && EnsureHome(s, t, id)
    ensures Ownership(t) && CopyKept(s, t)
  {
    EnsureHomeTargets(s, t, id);
  }

  lemma EnsureHomeHolds(s: State, t: State, id: Id)
    requires Inv(s) && EnsureHome(s, t, id)
    ensures Safely(s, t)
  {
  }

  lemma WriteTargets(s: State, t: State, id: Id)
    requires Ownership(s) && Write(s, t, id)
    ensures Targets(t) && CopyKept(s, t)
  {
  }

  lemma WriteOwns(s: State, t: State, id: Id)
    requires Ownership(s) && Write(s, t, id)
    ensures Ownership(t) && CopyKept(s, t)
  {
    WriteTargets(s, t, id);
  }

  lemma WriteContents(s: State, t: State, id: Id)
    requires Inv(s) && Write(s, t, id)
    ensures Contents(t)
  {
  }

  lemma WriteHolds(s: State, t: State, id: Id)
    requires Inv(s) && Write(s, t, id)
    ensures Safely(s, t)
  {
    WriteContents(s, t, id);
  }

  lemma TakeSlotOwns(s: State, t: State, id: Id)
    requires Ownership(s) && TakeSlot(s, t, id)
    ensures Ownership(t) && CopyKept(s, t)
  {
  }

  lemma TakeSlotHolds(s: State, t: State, id: Id)
    requires Inv(s) && TakeSlot(s, t, id)
    ensures Safely(s, t)
  {
  }

  lemma DropSlotOwns(s: State, t: State, id: Id)
    requires Ownership(s) && DropSlot(s, t, id)
    ensures Ownership(t) && CopyKept(s, t)
  {
  }

  lemma DropSlotHolds(s: State, t: State, id: Id)
    requires Inv(s) && DropSlot(s, t, id)
    ensures Safely(s, t)
  {
  }

  lemma PostPodOwns(s: State, t: State, id: Id)
    requires Ownership(s) && PostPod(s, t, id)
    ensures Ownership(t) && CopyKept(s, t)
  {
  }

  lemma PostPodHolds(s: State, t: State, id: Id)
    requires Inv(s) && PostPod(s, t, id) && Booting(s, id)
    ensures Safely(s, t)
  {
  }

  lemma RemovePodOwns(s: State, t: State, id: Id)
    requires Ownership(s) && RemovePod(s, t, id)
    ensures Ownership(t) && CopyKept(s, t)
  {
  }

  lemma RemovePodHolds(s: State, t: State, id: Id)
    requires Inv(s) && RemovePod(s, t, id)
    ensures Safely(s, t)
  {
  }

  lemma CreateSpareTargets(s: State, t: State, name: Name)
    requires Ownership(s) && CreateSpare(s, t, name)
    ensures Targets(t) && CopyKept(s, t)
  {
  }

  lemma CreateSpareOwns(s: State, t: State, name: Name)
    requires Ownership(s) && CreateSpare(s, t, name)
    ensures Ownership(t) && CopyKept(s, t)
  {
    CreateSpareTargets(s, t, name);
  }

  lemma CreateSpareHolds(s: State, t: State, name: Name)
    requires Inv(s) && CreateSpare(s, t, name)
    ensures Safely(s, t)
  {
  }

  lemma PrepareOwns(s: State, t: State, id: Id, name: Name)
    requires Ownership(s) && Prepare(s, t, id, name)
    ensures Ownership(t) && CopyKept(s, t)
  {
  }

  lemma PrepareHolds(s: State, t: State, id: Id, name: Name)
    requires Inv(s) && Prepare(s, t, id, name)
    ensures Safely(s, t)
  {
  }

  lemma AssignOwns(s: State, t: State, id: Id, name: Name)
    requires Ownership(s) && Assign(s, t, id, name)
    ensures Ownership(t) && CopyKept(s, t)
  {
  }

  lemma AssignHolds(s: State, t: State, id: Id, name: Name)
    requires Inv(s) && Assign(s, t, id, name)
    ensures Safely(s, t)
  {
  }

  lemma RelabelOwns(s: State, t: State, name: Name, id: Id)
    requires Ownership(s) && Relabel(s, t, name, id)
    ensures Ownership(t) && CopyKept(s, t)
  {
  }

  lemma RelabelHolds(s: State, t: State, name: Name, id: Id)
    requires Inv(s) && Relabel(s, t, name, id)
    ensures Safely(s, t)
  {
  }

  lemma RefillOwns(s: State, t: State, doomed: set<Name>)
    requires Ownership(s) && Refill(s, t, doomed)
    ensures Ownership(t) && CopyKept(s, t)
  {
  }

  lemma RefillHolds(s: State, t: State, doomed: set<Name>)
    requires Inv(s) && Refill(s, t, doomed)
    ensures Safely(s, t)
  {
  }

  lemma RefillDeleteOwns(s: State, t: State, name: Name)
    requires Ownership(s) && RefillDelete(s, t, name)
    ensures Ownership(t) && CopyKept(s, t)
  {
  }

  lemma RefillDeleteHolds(s: State, t: State, name: Name)
    requires Inv(s) && RefillDelete(s, t, name)
    ensures Safely(s, t)
  {
  }

  lemma UnlockOwns(s: State, t: State)
    requires Ownership(s) && Unlock(s, t)
    ensures Ownership(t) && CopyKept(s, t)
  {
  }

  lemma UnlockHolds(s: State, t: State)
    requires Inv(s) && Unlock(s, t)
    ensures Safely(s, t)
  {
  }

  lemma MoveBeginSpares(s: State, t: State, m: nat, id: Id, target: Name)
    requires Ownership(s) && MoveBegin(s, t, m, id, target)
    ensures SparesClean(t)
  {
  }

  lemma MoveBeginTargets(s: State, t: State, m: nat, id: Id, target: Name)
    requires Ownership(s) && MoveBegin(s, t, m, id, target)
    ensures Targets(t) && CopyKept(s, t)
  {
    MoveBeginSpares(s, t, m, id, target);
  }

  lemma MoveBeginOwns(s: State, t: State, m: nat, id: Id, target: Name)
    requires Ownership(s) && MoveBegin(s, t, m, id, target)
    ensures Ownership(t) && CopyKept(s, t)
  {
    MoveBeginTargets(s, t, m, id, target);
  }

  lemma MoveBeginContents(s: State, t: State, m: nat, id: Id, target: Name)
    requires Inv(s) && MoveBegin(s, t, m, id, target)
    ensures Contents(t)
  {
  }

  lemma MoveBeginHolds(s: State, t: State, m: nat, id: Id, target: Name)
    requires Inv(s) && MoveBegin(s, t, m, id, target)
    ensures Safely(s, t)
  {
    MoveBeginContents(s, t, m, id, target);
  }

  lemma MoveCopyTargets(s: State, t: State, m: nat)
    requires Ownership(s) && MoveCopy(s, t, m)
    ensures Targets(t) && CopyKept(s, t)
  {
  }

  lemma MoveCopyOwns(s: State, t: State, m: nat)
    requires Ownership(s) && MoveCopy(s, t, m)
    ensures Ownership(t) && CopyKept(s, t)
  {
    MoveCopyTargets(s, t, m);
  }

  lemma MoveCopyHolds(s: State, t: State, m: nat)
    requires Inv(s) && MoveCopy(s, t, m)
    ensures Safely(s, t)
  {
  }

  lemma MoveCreateSpares(s: State, t: State, m: nat)
    requires Ownership(s) && MoveCreate(s, t, m)
    ensures SparesClean(t)
  {
  }

  lemma MoveCreateTargets(s: State, t: State, m: nat)
    requires Ownership(s) && MoveCreate(s, t, m)
    ensures Targets(t) && CopyKept(s, t)
  {
    MoveCreateSpares(s, t, m);
  }

  lemma MoveCreateOwns(s: State, t: State, m: nat)
    requires Ownership(s) && MoveCreate(s, t, m)
    ensures Ownership(t) && CopyKept(s, t)
  {
    MoveCreateTargets(s, t, m);
  }

  lemma MoveCreateContents(s: State, t: State, m: nat)
    requires Inv(s) && MoveCreate(s, t, m)
    ensures Contents(t)
  {
  }

  lemma MoveCreateHolds(s: State, t: State, m: nat)
    requires Inv(s) && MoveCreate(s, t, m)
    ensures Safely(s, t)
  {
    MoveCreateContents(s, t, m);
  }

  lemma MoveRestoreSpares(s: State, t: State, m: nat)
    requires Ownership(s) && MoveRestore(s, t, m)
    ensures SparesClean(t)
  {
  }

  lemma MoveRestoreTargets(s: State, t: State, m: nat)
    requires Ownership(s) && MoveRestore(s, t, m)
    ensures Targets(t) && CopyKept(s, t)
  {
    MoveRestoreSpares(s, t, m);
  }

  lemma MoveRestoreOwns(s: State, t: State, m: nat)
    requires Ownership(s) && MoveRestore(s, t, m)
    ensures Ownership(t) && CopyKept(s, t)
  {
    MoveRestoreTargets(s, t, m);
  }

  lemma MoveRestoreContents(s: State, t: State, m: nat)
    requires Inv(s) && MoveRestore(s, t, m)
    ensures Contents(t)
  {
  }

  lemma MoveRestoreHolds(s: State, t: State, m: nat)
    requires Inv(s) && MoveRestore(s, t, m)
    ensures Safely(s, t)
  {
    MoveRestoreContents(s, t, m);
  }

  lemma MoveSwitchTargets(s: State, t: State, m: nat)
    requires Ownership(s) && MoveSwitch(s, t, m)
    ensures Targets(t) && CopyKept(s, t)
  {
  }

  lemma MoveSwitchOwns(s: State, t: State, m: nat)
    requires Ownership(s) && MoveSwitch(s, t, m)
    ensures Ownership(t) && CopyKept(s, t)
  {
    MoveSwitchTargets(s, t, m);
  }

  lemma MoveSwitchContents(s: State, t: State, m: nat)
    requires Inv(s) && MoveSwitch(s, t, m)
    ensures Contents(t)
  {
  }

  lemma MoveSwitchHolds(s: State, t: State, m: nat)
    requires Inv(s) && MoveSwitch(s, t, m)
    ensures Safely(s, t)
  {
    MoveSwitchContents(s, t, m);
  }

  lemma MoveAbortTargets(s: State, t: State, m: nat)
    requires Ownership(s) && MoveAbort(s, t, m)
    ensures Targets(t) && CopyKept(s, t)
  {
  }

  lemma MoveAbortOwns(s: State, t: State, m: nat)
    requires Ownership(s) && MoveAbort(s, t, m)
    ensures Ownership(t) && CopyKept(s, t)
  {
    MoveAbortTargets(s, t, m);
  }

  lemma MoveAbortContents(s: State, t: State, m: nat)
    requires Inv(s) && MoveAbort(s, t, m)
    ensures Contents(t)
  {
  }

  lemma MoveAbortHolds(s: State, t: State, m: nat)
    requires Inv(s) && MoveAbort(s, t, m)
    ensures Safely(s, t)
  {
    MoveAbortContents(s, t, m);
  }

  lemma MoveCrashOwns(s: State, t: State, m: nat)
    requires Ownership(s) && MoveCrash(s, t, m)
    ensures Ownership(t) && CopyKept(s, t)
  {
  }

  lemma MoveCrashContents(s: State, t: State, m: nat)
    requires Inv(s) && MoveCrash(s, t, m)
    ensures Contents(t)
  {
  }

  lemma MoveCrashHolds(s: State, t: State, m: nat)
    requires Inv(s) && MoveCrash(s, t, m)
    ensures Safely(s, t)
  {
    MoveCrashContents(s, t, m);
  }

  lemma CleanupDeleteOwns(s: State, t: State, id: Id)
    requires Ownership(s) && CleanupDelete(s, t, id)
    ensures Ownership(t) && CopyKept(s, t)
  {
  }

  lemma CleanupDeleteHolds(s: State, t: State, id: Id)
    requires Inv(s) && CleanupDelete(s, t, id)
    ensures Safely(s, t)
  {
  }

  lemma CleanupClearOwns(s: State, t: State, id: Id)
    requires Ownership(s) && CleanupClear(s, t, id)
    ensures Ownership(t) && CopyKept(s, t)
  {
  }

  lemma CleanupClearHolds(s: State, t: State, id: Id)
    requires Inv(s) && CleanupClear(s, t, id)
    ensures Safely(s, t)
  {
  }

  lemma CreateStepKeeps(s: State, t: State)
    requires Ownership(s) && CreateStep(s, t)
    ensures Ownership(t) && CopyKept(s, t) && (Inv(s) ==> Safely(s, t))
  {
    if id, name :| CreateSandbox(s, t, id, name) {
      CreateSandboxOwns(s, t, id, name);
      if Inv(s) { CreateSandboxHolds(s, t, id, name); }
    } else if id, reserved :| SetReserved(s, t, id, reserved) {
      SetReservedOwns(s, t, id, reserved);
      if Inv(s) { SetReservedHolds(s, t, id, reserved); }
    } else if id :| EnsureHome(s, t, id) {
      EnsureHomeOwns(s, t, id);
      if Inv(s) { EnsureHomeHolds(s, t, id); }
    } else {
      var id :| Write(s, t, id);
      WriteOwns(s, t, id);
      if Inv(s) { WriteHolds(s, t, id); }
    }
  }

  lemma SlotStepKeeps(s: State, t: State)
    requires Ownership(s) && SlotStep(s, t)
    ensures Ownership(t) && CopyKept(s, t) && (Inv(s) ==> Safely(s, t))
  {
    if id :| TakeSlot(s, t, id) {
      TakeSlotOwns(s, t, id);
      if Inv(s) { TakeSlotHolds(s, t, id); }
    } else {
      var id :| DropSlot(s, t, id);
      DropSlotOwns(s, t, id);
      if Inv(s) { DropSlotHolds(s, t, id); }
    }
  }

  lemma PodStepKeeps(s: State, t: State)
    requires Ownership(s) && PodStep(s, t)
    ensures Ownership(t) && CopyKept(s, t) && (Inv(s) ==> Safely(s, t))
  {
    if id :| PostPod(s, t, id) && Booting(s, id) {
      PostPodOwns(s, t, id);
      if Inv(s) { PostPodHolds(s, t, id); }
    } else {
      var id :| RemovePod(s, t, id);
      RemovePodOwns(s, t, id);
      if Inv(s) { RemovePodHolds(s, t, id); }
    }
  }

  lemma SpareStepKeeps(s: State, t: State)
    requires Ownership(s) && SpareStep(s, t)
    ensures Ownership(t) && CopyKept(s, t) && (Inv(s) ==> Safely(s, t))
  {
    if name :| CreateSpare(s, t, name) {
      CreateSpareOwns(s, t, name);
      if Inv(s) { CreateSpareHolds(s, t, name); }
    } else if id, name :| Prepare(s, t, id, name) {
      PrepareOwns(s, t, id, name);
      if Inv(s) { PrepareHolds(s, t, id, name); }
    } else if id, name :| Assign(s, t, id, name) {
      AssignOwns(s, t, id, name);
      if Inv(s) { AssignHolds(s, t, id, name); }
    } else {
      var name, id :| Relabel(s, t, name, id);
      RelabelOwns(s, t, name, id);
      if Inv(s) { RelabelHolds(s, t, name, id); }
    }
  }

  lemma TrimStepKeeps(s: State, t: State)
    requires Ownership(s) && TrimStep(s, t)
    ensures Ownership(t) && CopyKept(s, t) && (Inv(s) ==> Safely(s, t))
  {
    if doomed :| Refill(s, t, doomed) {
      RefillOwns(s, t, doomed);
      if Inv(s) { RefillHolds(s, t, doomed); }
    } else if name :| RefillDelete(s, t, name) {
      RefillDeleteOwns(s, t, name);
      if Inv(s) { RefillDeleteHolds(s, t, name); }
    } else {
      UnlockOwns(s, t);
      if Inv(s) { UnlockHolds(s, t); }
    }
  }

  lemma CopyStepKeeps(s: State, t: State)
    requires Ownership(s) && CopyStep(s, t)
    ensures Ownership(t) && CopyKept(s, t) && (Inv(s) ==> Safely(s, t))
  {
    if m, id, target :| MoveBegin(s, t, m, id, target) {
      MoveBeginOwns(s, t, m, id, target);
      if Inv(s) { MoveBeginHolds(s, t, m, id, target); }
    } else if m :| MoveCopy(s, t, m) {
      MoveCopyOwns(s, t, m);
      if Inv(s) { MoveCopyHolds(s, t, m); }
    } else if m :| MoveCreate(s, t, m) {
      MoveCreateOwns(s, t, m);
      if Inv(s) { MoveCreateHolds(s, t, m); }
    } else {
      var m :| MoveRestore(s, t, m);
      MoveRestoreOwns(s, t, m);
      if Inv(s) { MoveRestoreHolds(s, t, m); }
    }
  }

  lemma SettleStepKeeps(s: State, t: State)
    requires Ownership(s) && SettleStep(s, t)
    ensures Ownership(t) && CopyKept(s, t) && (Inv(s) ==> Safely(s, t))
  {
    if m :| MoveSwitch(s, t, m) {
      MoveSwitchOwns(s, t, m);
      if Inv(s) { MoveSwitchHolds(s, t, m); }
    } else if m :| MoveAbort(s, t, m) {
      MoveAbortOwns(s, t, m);
      if Inv(s) { MoveAbortHolds(s, t, m); }
    } else {
      var m :| MoveCrash(s, t, m);
      MoveCrashOwns(s, t, m);
      if Inv(s) { MoveCrashHolds(s, t, m); }
    }
  }

  lemma CleanStepKeeps(s: State, t: State)
    requires Ownership(s) && CleanStep(s, t)
    ensures Ownership(t) && CopyKept(s, t) && (Inv(s) ==> Safely(s, t))
  {
    if id :| CleanupDelete(s, t, id) {
      CleanupDeleteOwns(s, t, id);
      if Inv(s) { CleanupDeleteHolds(s, t, id); }
    } else {
      var id :| CleanupClear(s, t, id);
      CleanupClearOwns(s, t, id);
      if Inv(s) { CleanupClearHolds(s, t, id); }
    }
  }

  lemma NextKeeps(s: State, t: State)
    requires Ownership(s) && Next(s, t)
    ensures Ownership(t) && CopyKept(s, t) && (Inv(s) ==> Safely(s, t))
  {
    if CreateStep(s, t) {
      CreateStepKeeps(s, t);
    } else if SlotStep(s, t) {
      SlotStepKeeps(s, t);
    } else if PodStep(s, t) {
      PodStepKeeps(s, t);
    } else if SpareStep(s, t) {
      SpareStepKeeps(s, t);
    } else if TrimStep(s, t) {
      TrimStepKeeps(s, t);
    } else if CopyStep(s, t) {
      CopyStepKeeps(s, t);
    } else if SettleStep(s, t) {
      SettleStepKeeps(s, t);
    } else {
      CleanStepKeeps(s, t);
    }
  }

  lemma StepKeeps(s: State, t: State)
    requires Inv(s) && Next(s, t)
    ensures Inv(t) && Steady(s, t)
  {
    NextKeeps(s, t);
  }

  ghost predicate Initial(s: State) {
    s == State(map[], map[], map[], map[], map[], map[], None, {}, map[])
  }

  /** A run: every interleaving of boots, refills, moves and cleanups, from an empty cluster. */
  ghost predicate Trace(states: seq<State>) {
    && |states| > 0 && Initial(states[0])
    && forall i, j :: 0 <= i < j < |states| && j == i + 1 ==> Next(states[i], states[j])
  }

  lemma {:induction false} TraceKeeps(states: seq<State>, i: nat)
    requires Trace(states) && i < |states|
    ensures Inv(states[i])
  {
    if i > 0 {
      TraceKeeps(states, i - 1);
      StepKeeps(states[i - 1], states[i]);
    }
  }

  /** At every point of every run, the claim each sandbox's row names holds its latest home, or that home was never
      written and its first claim not yet created. */
  lemma HomesNeverLost(states: seq<State>, i: nat, id: Id)
    requires Trace(states) && i < |states| && id in states[i].rows
    ensures HomeSafe(states[i], id)
  {
    TraceKeeps(states, i);
  }

  ghost predicate NobodysHome(s: State, name: Name) {
    !Mounted(s, name) && forall id :: id in s.rows ==> s.rows[id].home != name
  }

  lemma UnownedIsNobodys(s: State, name: Name)
    requires Ownership(s) && name !in s.owners
    ensures NobodysHome(s, name) && !Referenced(s, name)
  {
  }

  lemma PreviousIsNobodys(s: State, id: Id)
    requires Ownership(s) && id in s.rows && s.rows[id].previous.Some?
    ensures NobodysHome(s, s.rows[id].previous.value)
  {
  }

  /** No step deletes a mounted claim or one that any row names as its home; a claim deleted while referenced is a
      source that a committed move has left behind. */
  lemma DeletionsAreSafe(s: State, t: State, name: Name)
    requires Inv(s) && Next(s, t) && name in s.claims && name !in t.claims
    ensures NobodysHome(s, name)
    ensures Referenced(s, name) ==> exists id :: id in s.rows && s.rows[id].previous == Some(name)
  {
    StepKeeps(s, t);
    if name in s.owners {
      PreviousIsNobodys(s, s.owners[name]);
    } else {
      UnownedIsNobodys(s, name);
    }
  }

  lemma OwnersGrowAt(states: seq<State>, j: nat)
    requires Trace(states) && 0 < j < |states|
    ensures Extends(states[j - 1].owners, states[j].owners)
  {
    TraceKeeps(states, j - 1);
    StepKeeps(states[j - 1], states[j]);
  }

  lemma {:induction false} ExtendsAlong(states: seq<State>, i: nat, j: nat)
    requires i <= j < |states|
    requires forall k :: i < k <= j ==> Extends(states[k - 1].owners, states[k].owners)
    ensures Extends(states[i].owners, states[j].owners)
    decreases j
  {
    if i < j {
      ExtendsAlong(states, i, j - 1);
      assert Extends(states[j - 1].owners, states[j].owners);
    }
  }

  lemma OwnersOnlyGrow(states: seq<State>, i: nat, j: nat)
    requires Trace(states) && i <= j < |states|
    ensures Extends(states[i].owners, states[j].owners)
  {
    forall k | i < k <= j ensures Extends(states[k - 1].owners, states[k].owners) {
      OwnersGrowAt(states, k);
    }
    ExtendsAlong(states, i, j);
  }

  /** A claim that was one sandbox's home is never named by another's row, then or later: no spare is assigned twice. */
  lemma NoClaimHasTwoOwners(states: seq<State>, i: nat, j: nat, a: Id, b: Id)
    requires Trace(states) && i <= j < |states| && a in states[i].rows && b in states[j].rows
    requires Refers(states[j].rows[b], states[i].rows[a].home)
    ensures a == b
  {
    TraceKeeps(states, i);
    TraceKeeps(states, j);
    OwnersOnlyGrow(states, i, j);
  }

  /** A home that was switched away from stays recorded as the previous home until its claim is gone. */
  lemma SourceRecordedUntilGone(states: seq<State>, i: nat, j: nat, id: Id)
    requires Trace(states) && i <= j < |states| && id in states[i].rows
    requires states[i].rows[id].home in states[j].claims
    ensures id in states[j].rows && Refers(states[j].rows[id], states[i].rows[id].home)
  {
    TraceKeeps(states, i);
    TraceKeeps(states, j);
    OwnersOnlyGrow(states, i, j);
  }

  /** With one job a sandbox, a sandbox whose move is under way has no pod, and so nothing is written to its home. */
  lemma NoPodDuringAMove(states: seq<State>, i: nat, m: nat)
    requires Trace(states) && i < |states| && m in states[i].movers
    ensures states[i].movers[m].id !in states[i].pods
  {
    TraceKeeps(states, i);
  }
}

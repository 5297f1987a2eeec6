/** Placement over whole runs: boots, pod posts, releases, deletions and crashes interleaved with `reserve_node`.
    The pods a reservation counts were listed earlier than it commits; only other reservations and releases wait for
    its lock. */
module PlacementProtocol {
  import opened Options
  import opened Sums
  import opened PodDemand
  import opened Placement

  /** A boot between its reservation and the release that ends it. */
  datatype Boot = Boot(place: Place, posted: bool)

  /** The placement lock's holder, and the sandbox pods it listed. */
  datatype Holder = Holder(me: Id, seen: map<Id, Place>)

  datatype State = State(
    allocatable: map<Node, Amount>,
    other: map<Node, Amount>,        // what pods that belong to no sandbox ask for on each node
    pods: map<Id, Place>,            // active sandbox pods
    rows: map<Id, Place>,            // reservations the database lists
    boots: map<Id, Boot>,
    holder: Option<Holder>)

  datatype Step =
    | List(me: Id)
    | Commit(request: Request, fitting: set<Node>, pods: seq<Pod>, rows: seq<Reservation>, node: Node)
    | GiveUp
    | Post(id: Id)
    | Release(id: Id)
    | Crash(id: Id)
    | Remove(id: Id)
    | Hide(id: Id)                   // the sandbox is marked failed or deleting: its reservation is listed no more
    | Show(id: Id, place: Place)     // a reservation left by a crash is listed again

  function OtherOn(other: map<Node, Amount>, n: Node, r: Resource): int {
    if n in other then other[n].Of(r) else 0
  }

  function On(places: map<Id, Place>, id: Id, n: Node, r: Resource): int {
    if id in places && places[id].node == n then places[id].amount.Of(r) else 0
  }

  /** What sandbox id takes on n now, or will take when its boot posts its pod. */
  function Commitment(s: State, id: Id, n: Node, r: Resource): int {
    if id in s.pods then On(s.pods, id, n, r)
    else if id in s.boots && !s.boots[id].posted && s.boots[id].place.node == n then s.boots[id].place.amount.Of(r)
    else 0
  }

  ghost function Load(s: State, n: Node, r: Resource): int {
    OtherOn(s.other, n, r) + Sum(s.pods.Keys + s.boots.Keys, id => Commitment(s, id, n, r))
  }

  /** The promise: pods, and reservations not yet visible as pods, stay within every node. */
  ghost predicate Fits(s: State) {
    forall n, r :: n in s.allocatable ==> Load(s, n, r) <= s.allocatable[n].Of(r)
  }

  // What the two listings return.

  /** What the pods that belong to no sandbox ask for on node n. */
  function OthersUse(pods: seq<Pod>, k: nat, n: Node, r: Resource): int
    requires k <= |pods|
  {
    if k == 0 then 0
    else OthersUse(pods, k - 1, n, r)
         + (if pods[k - 1].identity.None? && pods[k - 1].node == Some(n) then PodRequests(pods[k - 1].spec).Of(r) else 0)
  }

  function PodIds(pods: seq<Pod>, k: nat): set<Id>
    requires k <= |pods|
  {
    if k == 0 then {}
    else PodIds(pods, k - 1) + (if pods[k - 1].identity.Some? then {pods[k - 1].identity.value} else {})
  }

  function RowIds(rows: seq<Reservation>, k: nat): set<Id>
    requires k <= |rows|
  {
    if k == 0 then {} else RowIds(rows, k - 1) + {rows[k - 1].id}
  }

  /** A pod as it is posted for a sandbox with this reservation. */
  ghost predicate PostedFor(spec: PodSpec, amount: Amount) {
    exists requested, overhead :: spec == SandboxPod(requested, overhead) && amount == Reserved(requested, overhead)
  }

  lemma PostedCounts(spec: PodSpec, amount: Amount)
    requires PostedFor(spec, amount)
    ensures PodRequests(spec) == amount
  {
    var requested, overhead :| spec == SandboxPod(requested, overhead) && amount == Reserved(requested, overhead);
    PostedPodMatchesReservation(requested, overhead);
  }

  /** Every sandbox pod once, in any order, among pods that belong to no sandbox. */
  ghost predicate ListsPods(pods: seq<Pod>, seen: map<Id, Place>, other: map<Node, Amount>) {
    && (forall i :: 0 <= i < |pods| && pods[i].identity.Some? ==>
          && pods[i].identity.value in seen
          && pods[i].node == Some(seen[pods[i].identity.value].node)
          && PostedFor(pods[i].spec, seen[pods[i].identity.value].amount))
    && (forall i, j :: 0 <= i < j < |pods| && pods[i].identity.Some? ==> pods[i].identity != pods[j].identity)
    && PodIds(pods, |pods|) == seen.Keys
    && (forall n, r :: OthersUse(pods, |pods|, n, r) == OtherOn(other, n, r))
  }

  ghost predicate ListsRows(list: seq<Reservation>, rows: map<Id, Place>) {
    && (forall i :: 0 <= i < |list| ==> list[i].id in rows && list[i].place == rows[list[i].id])
    && (forall i, j :: 0 <= i < j < |list| ==> list[i].id != list[j].id)
    && RowIds(list, |list|) == rows.Keys
  }

  // Steps.

  ghost predicate Enabled(s: State, step: Step) {
    match step
    case List(me) => s.holder.None? && me !in s.pods && me !in s.boots
    case Commit(request, fitting, pods, rows, node) =>
      && s.holder.Some? && s.holder.value.me == request.sandbox
      && ListsPods(pods, s.holder.value.seen, s.other) && ListsRows(rows, s.rows)
      && Amount(0, 0).Le(request.amount)
      && Decides(request, fitting, RoomOn(s.allocatable, pods, rows, request.sandbox), Placed(node))
    case GiveUp => s.holder.Some?
    case Post(id) => id in s.boots && !s.boots[id].posted
    case Release(id) => s.holder.None? && id in s.boots
    case Crash(id) => id in s.boots
    case Remove(id) => id in s.pods
    case Hide(id) => id in s.rows
    case Show(id, place) => id !in s.rows && id !in s.boots && Amount(0, 0).Le(place.amount)
  }

  function Apply(s: State, step: Step): State {
    match step
    case List(me) => s.(holder := Some(Holder(me, s.pods)))
    case Commit(request, _, _, _, node) =>
      var place := Place(node, request.amount);
      s.(rows := s.rows[request.sandbox := place], boots := s.boots[request.sandbox := Boot(place, false)], holder := None)
    case GiveUp => s.(holder := None)
    case Post(id) =>
      if id in s.boots
      then s.(pods := s.pods[id := s.boots[id].place], boots := s.boots[id := s.boots[id].(posted := true)])
      else s
    case Release(id) => s.(rows := s.rows - {id}, boots := s.boots - {id})
    case Crash(id) => s.(boots := s.boots - {id})
    case Remove(id) => s.(pods := s.pods - {id})
    case Hide(id) => s.(rows := s.rows - {id})
    case Show(id, place) => s.(rows := s.rows[id := place])
  }

  /** A sandbox may lose its listed reservation when no boot of it has yet to post its pod and no placement in progress
      listed the pods before its pod was posted. */
  ghost predicate MayHide(s: State, id: Id) {
    && (id in s.boots ==> s.boots[id].posted)
    && (s.holder.Some? && id in s.pods ==> id in s.holder.value.seen)
  }

  ghost predicate Ordered(s: State, step: Step) {
    step.Hide? ==> MayHide(s, step.id)
  }

  ghost predicate Natural(places: map<Id, Place>) {
    forall id :: id in places ==> Amount(0, 0).Le(places[id].amount)
  }

  ghost predicate BootsReserved(s: State) {
    forall id :: id in s.boots ==>
      if s.boots[id].posted then id in s.pods ==> s.pods[id] == s.boots[id].place
      else id !in s.pods && id in s.rows && s.rows[id] == s.boots[id].place
  }

  /** What a listing in progress misses is still reserved. */
  ghost predicate HolderKnows(s: State) {
    s.holder.Some? ==>
      var h := s.holder.value;
      && h.me !in s.boots && h.me !in s.pods
      && Natural(h.seen)
      && (forall id :: id in s.pods ==>
            if id in h.seen then h.seen[id] == s.pods[id] else id in s.rows && s.rows[id] == s.pods[id])
      && (forall id :: id in s.boots && !s.boots[id].posted ==> id !in h.seen)
  }

  ghost predicate Inv(s: State) {
    Natural(s.pods) && Natural(s.rows) && BootsReserved(s) && HolderKnows(s) && Fits(s)
  }

  // Sums over the listings are sums over sandboxes.

  lemma {:induction false} PodIdsAt(pods: seq<Pod>, k: nat, id: Id)
    requires k <= |pods|
    ensures id in PodIds(pods, k) <==> exists i :: 0 <= i < k && pods[i].identity == Some(id)
  {
    if k > 0 { PodIdsAt(pods, k - 1, id); }
  }

  lemma {:induction false} RowIdsAt(rows: seq<Reservation>, k: nat, id: Id)
    requires k <= |rows|
    ensures id in RowIds(rows, k) <==> exists i :: 0 <= i < k && rows[i].id == id
  {
    if k > 0 { RowIdsAt(rows, k - 1, id); }
  }

  lemma SumAdds(xs: set<Id>, x: Id, me: Id, f: Id -> int)
    requires x !in xs
    ensures Sum(xs + {x} - {me}, f) == Sum(xs - {me}, f) + (if x == me then 0 else f(x))
  {
    if x == me {
      assert xs + {x} - {me} == xs - {me};
    } else {
      SumSplit(xs + {x} - {me}, f, x);
      assert xs + {x} - {me} - {x} == xs - {me};
    }
  }

  lemma {:induction false} PodUseIsSum(
    pods: seq<Pod>, seen: map<Id, Place>, other: map<Node, Amount>, k: nat, n: Node, me: Id, r: Resource)
    requires k <= |pods| && ListsPods(pods, seen, other)
    ensures PodUse(pods, k, n, me, r)
            == OthersUse(pods, k, n, r) + Sum(PodIds(pods, k) - {me}, id => On(seen, id, n, r))
  {
    if k > 0 {
      PodUseIsSum(pods, seen, other, k - 1, n, me, r);
      var f := id => On(seen, id, n, r);
      var pod := pods[k - 1];
      if pod.identity.Some? {
        PodIdsAt(pods, k - 1, pod.identity.value);
        PostedCounts(pod.spec, seen[pod.identity.value].amount);
        SumAdds(PodIds(pods, k - 1), pod.identity.value, me, f);
      } else {
        assert PodIds(pods, k) == PodIds(pods, k - 1);
      }
    } else {
      assert PodIds(pods, 0) - {me} == {};
    }
  }

  lemma {:induction false} VisibleIsSeen(pods: seq<Pod>, seen: map<Id, Place>, other: map<Node, Amount>, k: nat)
    requires k <= |pods| && ListsPods(pods, seen, other)
    ensures Visible(pods, k).Keys == PodIds(pods, k)
    ensures forall id :: id in Visible(pods, k) ==> id in seen && Visible(pods, k)[id] == seen[id].node
  {
    if k > 0 { VisibleIsSeen(pods, seen, other, k - 1); }
  }

  function HeldOn(rows: map<Id, Place>, seen: map<Id, Place>, id: Id, n: Node, r: Resource): int {
    if id in seen && id in rows && seen[id].node == rows[id].node then 0 else On(rows, id, n, r)
  }

  lemma {:induction false} HeldIsSum(list: seq<Reservation>, rows: map<Id, Place>, seen: map<Id, Place>,
                                     visible: map<Id, Node>, k: nat, n: Node, me: Id, r: Resource)
    requires k <= |list| && ListsRows(list, rows)
    requires visible.Keys == seen.Keys && forall id :: id in seen ==> visible[id] == seen[id].node
    ensures Held(list, k, visible, n, me, r) == Sum(RowIds(list, k) - {me}, id => HeldOn(rows, seen, id, n, r))
  {
    if k > 0 {
      HeldIsSum(list, rows, seen, visible, k - 1, n, me, r);
      var f := id => HeldOn(rows, seen, id, n, r);
      RowIdsAt(list, k - 1, list[k - 1].id);
      SumAdds(RowIds(list, k - 1), list[k - 1].id, me, f);
    } else {
      assert RowIds(list, 0) - {me} == {};
    }
  }

  /** What a commit counts against node n for the sandboxes other than `me`. */
  lemma CountedIsSum(s: State, pods: seq<Pod>, list: seq<Reservation>, n: Node, r: Resource)
    requires s.holder.Some? && ListsPods(pods, s.holder.value.seen, s.other) && ListsRows(list, s.rows)
    ensures var h := s.holder.value;
      PodUse(pods, |pods|, n, h.me, r) + Held(list, |list|, Visible(pods, |pods|), n, h.me, r)
      == OtherOn(s.other, n, r) + Sum(h.seen.Keys - {h.me}, id => On(h.seen, id, n, r))
         + Sum(s.rows.Keys - {h.me}, id => HeldOn(s.rows, h.seen, id, n, r))
  {
    var h := s.holder.value;
    PodUseIsSum(pods, h.seen, s.other, |pods|, n, h.me, r);
    VisibleIsSeen(pods, h.seen, s.other, |pods|);
    HeldIsSum(list, s.rows, h.seen, Visible(pods, |pods|), |list|, n, h.me, r);
  }

  lemma CountedCovers(s: State, id: Id, n: Node, r: Resource)
    requires Natural(s.rows) && BootsReserved(s) && HolderKnows(s) && s.holder.Some?
    ensures var h := s.holder.value;
      Commitment(s, id, n, r) <= On(h.seen, id, n, r) + HeldOn(s.rows, h.seen, id, n, r)
  {
  }

  /** Everything committed on n by other sandboxes was counted, however the listing and the commit interleave. */
  lemma CommitCountsAll(s: State, n: Node, r: Resource)
    requires Inv(s) && s.holder.Some?
    ensures var h := s.holder.value;
      Sum(s.pods.Keys + s.boots.Keys, id => Commitment(s, id, n, r))
      <= Sum(h.seen.Keys - {h.me}, id => On(h.seen, id, n, r))
         + Sum(s.rows.Keys - {h.me}, id => HeldOn(s.rows, h.seen, id, n, r))
  {
    var h := s.holder.value;
    var all := s.pods.Keys + s.boots.Keys + (h.seen.Keys - {h.me}) + (s.rows.Keys - {h.me});
    var c := id => Commitment(s, id, n, r);
    var f := id => On(h.seen, id, n, r);
    var g := id => HeldOn(s.rows, h.seen, id, n, r);
    var both := id => f(id) + g(id);
    forall id ensures c(id) <= both(id) { CountedCovers(s, id, n, r); }
    SumMonotone(all, c, both);
    SumPlus(all, f, g, both);
    SumSubset(s.pods.Keys + s.boots.Keys, all, c);
    assert h.me !in all;
    SumSubset(h.seen.Keys - {h.me}, all, f);
    SumSubset(s.rows.Keys - {h.me}, all, g);
  }

  // Each step keeps the invariant.

  /** Less commitment everywhere means less load. */
  lemma LoadShrinks(s: State, t: State, n: Node, r: Resource)
    requires s.other == t.other
    requires forall id :: Commitment(t, id, n, r) <= Commitment(s, id, n, r)
    ensures Load(t, n, r) <= Load(s, n, r)
  {
    var all := s.pods.Keys + s.boots.Keys + t.pods.Keys + t.boots.Keys;
    var before := id => Commitment(s, id, n, r);
    var after := id => Commitment(t, id, n, r);
    SumMonotone(all, after, before);
    SumSubset(s.pods.Keys + s.boots.Keys, all, before);
    SumSubset(t.pods.Keys + t.boots.Keys, all, after);
  }

  lemma FitsShrinks(s: State, t: State)
    requires Fits(s) && s.other == t.other && s.allocatable == t.allocatable
    requires forall id, n, r :: Commitment(t, id, n, r) <= Commitment(s, id, n, r)
    ensures Fits(t)
  {
    forall n, r | n in t.allocatable ensures Load(t, n, r) <= t.allocatable[n].Of(r) { LoadShrinks(s, t, n, r); }
  }

  lemma NewBootLoad(s: State, t: State, me: Id, place: Place, n: Node, r: Resource)
    requires me !in s.pods && me !in s.boots
    requires t.pods == s.pods && t.other == s.other && t.boots == s.boots[me := Boot(place, false)]
    ensures Load(t, n, r) == Load(s, n, r) + (if n == place.node then place.amount.Of(r) else 0)
  {
    var before := id => Commitment(s, id, n, r);
    var after := id => Commitment(t, id, n, r);
    var ids := s.pods.Keys + s.boots.Keys;
    assert t.pods.Keys + t.boots.Keys == ids + {me};
    SumSplit(ids + {me}, after, me);
    assert ids + {me} - {me} == ids;
    SumMonotone(ids, before, after);
    SumMonotone(ids, after, before);
  }

  lemma CommitFits(s: State, step: Step)
    requires Inv(s) && step.Commit? && Enabled(s, step)
    ensures Fits(Apply(s, step))
  {
    var t := Apply(s, step);
    forall n, r | n in t.allocatable ensures Load(t, n, r) <= t.allocatable[n].Of(r) {
      NewBootLoad(s, t, step.request.sandbox, Place(step.node, step.request.amount), n, r);
      if n == step.node {
        CountedIsSum(s, step.pods, step.rows, n, r);
        CommitCountsAll(s, n, r);
        var room := RoomOn(s.allocatable, step.pods, step.rows, step.request.sandbox);
        assert step.request.amount.Le(room[n]);
        assert room[n].Of(r) == RoomOf(s.allocatable[n], step.pods, step.rows, n, step.request.sandbox, r);
      }
    }
  }

  lemma StepKeepsBoots(s: State, step: Step)
    requires Natural(s.pods) && Natural(s.rows) && BootsReserved(s) && HolderKnows(s)
    requires Enabled(s, step) && Ordered(s, step)
    ensures var t := Apply(s, step); Natural(t.pods) && Natural(t.rows) && BootsReserved(t)
  {
  }

  lemma StepKeepsHolder(s: State, step: Step)
    requires Natural(s.pods) && BootsReserved(s) && HolderKnows(s)
    requires Enabled(s, step) && Ordered(s, step)
    ensures HolderKnows(Apply(s, step))
  {
  }

  lemma StepCommitsLess(s: State, step: Step, id: Id, n: Node, r: Resource)
    requires Natural(s.pods) && Natural(s.rows) && BootsReserved(s)
    requires Enabled(s, step) && !step.Commit?
    ensures Commitment(Apply(s, step), id, n, r) <= Commitment(s, id, n, r)
  {
  }

  lemma StepKeeps(s: State, step: Step)
    requires Inv(s) && Enabled(s, step) && Ordered(s, step)
    ensures Inv(Apply(s, step))
  {
    StepKeepsBoots(s, step);
    StepKeepsHolder(s, step);
    if step.Commit? {
      CommitFits(s, step);
    } else {
      var t := Apply(s, step);
      forall id, n, r ensures Commitment(t, id, n, r) <= Commitment(s, id, n, r) {
        StepCommitsLess(s, step, id, n, r);
      }
      FitsShrinks(s, t);
    }
  }

  /** Runs of steps, each enabled where it happens. */
  ghost predicate Runs(s: State, steps: seq<Step>, t: State)
    decreases |steps|
  {
    if steps == [] then s == t
    else Enabled(s, steps[0]) && Runs(Apply(s, steps[0]), steps[1..], t)
  }

  ghost predicate AllOrdered(s: State, steps: seq<Step>)
    decreases |steps|
  {
    steps == [] || (Ordered(s, steps[0]) && AllOrdered(Apply(s, steps[0]), steps[1..]))
  }

  /** Nothing placed yet, and the other pods fit. */
  ghost predicate Initial(s: State) {
    && s.pods == map[] && s.rows == map[] && s.boots == map[] && s.holder == None
    && forall n, r :: n in s.allocatable ==> OtherOn(s.other, n, r) <= s.allocatable[n].Of(r)
  }

  lemma {:induction false} RunKeeps(s: State, steps: seq<Step>, t: State)
    requires Inv(s) && Runs(s, steps, t) && AllOrdered(s, steps)
    ensures Inv(t)
    decreases |steps|
  {
    if steps != [] {
      StepKeeps(s, steps[0]);
      RunKeeps(Apply(s, steps[0]), steps[1..], t);
    }
  }

  /** No interleaving overfills a node, as long as no sandbox is marked failed or deleting before its boot has posted its
      pod, or while a placement is in progress that has not seen that pod. */
  lemma NodesNeverOverfilled(s: State, steps: seq<Step>, t: State)
    requires Initial(s) && Runs(s, steps, t) && AllOrdered(s, steps)
    ensures Fits(t)
  {
    forall n, r | n in s.allocatable ensures Load(s, n, r) <= s.allocatable[n].Of(r) {
      assert s.pods.Keys + s.boots.Keys == {};
    }
    RunKeeps(s, steps, t);
  }

  /** The condition is exact: marking a sandbox keeps what placement relies on if and only if it holds. */
  lemma MarkingKeepsExactly(s: State, id: Id)
    requires Inv(s) && Enabled(s, Hide(id))
    ensures Inv(Apply(s, Hide(id))) <==> MayHide(s, id)
  {
    if MayHide(s, id) {
      StepKeeps(s, Hide(id));
    }
  }

  // What goes wrong otherwise. A boot job that outlives its deadline marks its sandbox failed while its thread still
  // waits for the home volume, or while a placement that listed the pods before its post has yet to list reservations.

  /** What a placement in progress no longer counts once a sandbox is marked. */
  function Missed(s: State, id: Id, n: Node, r: Resource): int {
    if s.holder.Some? && id in s.holder.value.seen then 0 else Commitment(s, id, n, r)
  }

  /** Every listed reservation is a boot's that is under way or has its pod, and every pod listed is still there. */
  ghost predicate NothingStale(s: State) {
    && (forall id :: id in s.rows ==>
          id in s.boots && s.rows[id] == s.boots[id].place && (s.boots[id].posted ==> id in s.pods))
    && (s.holder.Some? ==> s.holder.value.seen.Keys <= s.pods.Keys)
  }

  lemma CountedAfterHiding(s: State, id: Id, x: Id, n: Node, r: Resource)
    requires BootsReserved(s) && HolderKnows(s) && NothingStale(s) && s.holder.Some? && id in s.rows
    ensures On(s.holder.value.seen, x, n, r) + HeldOn(s.rows - {id}, s.holder.value.seen, x, n, r)
            == Commitment(s, x, n, r) - (if x == id then Missed(s, id, n, r) else 0)
  {
  }

  lemma HiddenSum(s: State, id: Id, ids: set<Id>, n: Node, r: Resource)
    requires BootsReserved(s) && HolderKnows(s) && NothingStale(s) && s.holder.Some? && id in s.rows && id in ids
    ensures Sum(ids, x => On(s.holder.value.seen, x, n, r)) + Sum(ids, x => HeldOn(s.rows - {id}, s.holder.value.seen, x, n, r))
            == Sum(ids, x => Commitment(s, x, n, r)) - Missed(s, id, n, r)
  {
    var c := x => Commitment(s, x, n, r);
    var f := x => On(s.holder.value.seen, x, n, r);
    var g := x => HeldOn(s.rows - {id}, s.holder.value.seen, x, n, r);
    var gap := x => if x == id then Missed(s, id, n, r) else 0;
    var counted := x => f(x) + g(x);
    SumPlus(ids, f, g, counted);
    forall x ensures c(x) == counted(x) + gap(x) { CountedAfterHiding(s, id, x, n, r); }
    SumPlus(ids, counted, gap, c);
    SumSubset({id}, ids, gap);
    SumSplit({id}, gap, id);
  }

  /** With nothing stale, marking a sandbox makes a node look emptier to a placement in progress by exactly what that
      placement has not seen of it. */
  lemma HiddenBootFreesRoom(s: State, id: Id, pods: seq<Pod>, rows: seq<Reservation>, n: Node, r: Resource)
    requires Inv(s) && NothingStale(s) && s.holder.Some? && id in s.rows && n in s.allocatable
    requires ListsPods(pods, s.holder.value.seen, s.other) && ListsRows(rows, s.rows - {id})
    ensures RoomOf(s.allocatable[n], pods, rows, n, s.holder.value.me, r)
            == s.allocatable[n].Of(r) - Load(s, n, r) + Missed(s, id, n, r)
  {
    var h := s.(rows := s.rows - {id});
    var me, seen := s.holder.value.me, s.holder.value.seen;
    CountedIsSum(h, pods, rows, n, r);
    var ids := s.pods.Keys + s.boots.Keys;
    SumSubset(seen.Keys - {me}, ids, x => On(seen, x, n, r));
    SumSubset(h.rows.Keys - {me}, ids, x => HeldOn(s.rows - {id}, seen, x, n, r));
    HiddenSum(s, id, ids, n, r);
  }

  /** A request pinned to one fitting node is placed there exactly when it fits in its room. */
  lemma PinnedPlaced(request: Request, n: Node, room: map<Node, Amount>)
    requires n in room && Pinned(request) == Some(n) && !Conflicts(request)
    ensures Decides(request, {n}, room, Placed(n)) <==> request.amount.Le(room[n])
  {
    assert Eligible(request, {n}, room) == if request.amount.Le(room[n]) then {n} else {};
  }

  lemma LeByResource(a: Amount, b: Amount)
    ensures a.Le(b) <==> forall r :: a.Of(r) <= b.Of(r)
  {
    assert a.Of(Cpu) == a.cpu && a.Of(Memory) == a.memory && b.Of(Cpu) == b.cpu && b.Of(Memory) == b.memory;
  }

  /** A sandbox is marked while a placement is in progress: the room of a node fits a request exactly when the request
      fits beside everything but what the placement has not seen of that sandbox. */
  lemma HiddenRoom(s: State, id: Id, amount: Amount, pods: seq<Pod>, rows: seq<Reservation>, n: Node)
    requires Inv(s) && NothingStale(s) && s.holder.Some? && id in s.rows && n in s.allocatable
    requires ListsPods(pods, s.holder.value.seen, s.other) && ListsRows(rows, s.rows - {id})
    ensures amount.Le(RoomOn(s.allocatable, pods, rows, s.holder.value.me)[n]) <==>
            forall r :: Load(s, n, r) + amount.Of(r) <= s.allocatable[n].Of(r) + Missed(s, id, n, r)
  {
    var room := RoomOn(s.allocatable, pods, rows, s.holder.value.me)[n];
    LeByResource(amount, room);
    forall r ensures room.Of(r) == s.allocatable[n].Of(r) - Load(s, n, r) + Missed(s, id, n, r) {
      HiddenBootFreesRoom(s, id, pods, rows, n, r);
    }
  }

  lemma CommitEnabled(t: State, request: Request, pods: seq<Pod>, rows: seq<Reservation>, n: Node)
    requires t.holder.Some? && t.holder.value.me == request.sandbox && Amount(0, 0).Le(request.amount)
    requires ListsPods(pods, t.holder.value.seen, t.other) && ListsRows(rows, t.rows)
    ensures Enabled(t, Commit(request, {n}, pods, rows, n)) <==>
            Decides(request, {n}, RoomOn(t.allocatable, pods, rows, request.sandbox), Placed(n))
  {
  }

  /** The placement is then accepted exactly when its request fits beside everything but what it has not seen. */
  lemma HiddenBootAccepts(s: State, id: Id, request: Request, pods: seq<Pod>, rows: seq<Reservation>, n: Node)
    requires Inv(s) && NothingStale(s) && s.holder.Some? && s.holder.value.me == request.sandbox && id in s.rows
    requires n in s.allocatable && Pinned(request) == Some(n) && !Conflicts(request) && Amount(0, 0).Le(request.amount)
    requires ListsPods(pods, s.holder.value.seen, s.other) && ListsRows(rows, s.rows - {id})
    ensures Enabled(Apply(s, Hide(id)), Commit(request, {n}, pods, rows, n)) <==>
            forall r :: Load(s, n, r) + request.amount.Of(r) <= s.allocatable[n].Of(r) + Missed(s, id, n, r)
  {
    CommitEnabled(Apply(s, Hide(id)), request, pods, rows, n);
    PinnedPlaced(request, n, RoomOn(s.allocatable, pods, rows, request.sandbox));
    HiddenRoom(s, id, request.amount, pods, rows, n);
  }

  /** And the node is then overfilled exactly when the request does not fit beside everything. */
  lemma HiddenBootOverfills(s: State, id: Id, request: Request, pods: seq<Pod>, rows: seq<Reservation>, n: Node)
    requires Inv(s) && s.holder.Some? && s.holder.value.me == request.sandbox && n in s.allocatable
    ensures Fits(Apply(Apply(s, Hide(id)), Commit(request, {n}, pods, rows, n))) <==>
            forall r :: Load(s, n, r) + request.amount.Of(r) <= s.allocatable[n].Of(r)
  {
    AcceptedLoad(s, Apply(s, Hide(id)), Commit(request, {n}, pods, rows, n));
  }

  lemma AcceptedLoad(s: State, t: State, commit: Step)
    requires Fits(s) && commit.Commit? && commit.node in s.allocatable
    requires commit.request.sandbox !in s.pods && commit.request.sandbox !in s.boots
    requires t.pods == s.pods && t.boots == s.boots && t.other == s.other && t.allocatable == s.allocatable
    ensures Fits(Apply(t, commit)) <==>
      forall r :: Load(s, commit.node, r) + commit.request.amount.Of(r) <= s.allocatable[commit.node].Of(r)
  {
    var u := Apply(t, commit);
    forall n, r
      ensures Load(u, n, r) == Load(s, n, r) + (if n == commit.node then commit.request.amount.Of(r) else 0)
    {
      NewBootLoad(s, u, commit.request.sandbox, Place(commit.node, commit.request.amount), n, r);
    }
  }

  // Two runs that overfill a node.

  function OneNode(): State {
    State(map["a" := Amount(1000, 1000)], map[], map[], map[], map[], None)
  }

  function Ask(id: Id): Step {
    Commit(Request(id, Amount(600, 600), Some("a"), None), {"a"}, [], [], "a")
  }

  function Booting(id: Id): State {
    Apply(Apply(OneNode(), List(id)), Ask(id))
  }

  lemma OneNodeEmpty()
    ensures Initial(OneNode()) && Inv(OneNode()) && Load(OneNode(), "a", Cpu) == Load(OneNode(), "a", Memory) == 0
  {
    assert OneNode().pods.Keys + OneNode().boots.Keys == {};
  }

  lemma FirstAccepted(id: Id)
    ensures Enabled(OneNode(), List(id)) && Enabled(Apply(OneNode(), List(id)), Ask(id))
  {
    PinnedPlaced(Ask(id).request, "a", RoomOn(OneNode().allocatable, [], [], id));
  }

  lemma OneBoot(id: Id)
    ensures Inv(Booting(id)) && Load(Booting(id), "a", Cpu) == 600 && Load(Booting(id), "a", Memory) == 600
  {
    OneNodeEmpty();
    FirstAccepted(id);
    var locked := Apply(OneNode(), List(id));
    StepKeeps(OneNode(), List(id));
    StepKeeps(locked, Ask(id));
    NewBootLoad(OneNode(), Booting(id), id, Place("a", Amount(600, 600)), "a", Cpu);
    NewBootLoad(OneNode(), Booting(id), id, Place("a", Amount(600, 600)), "a", Memory);
  }

  /** Where the two runs meet: a placement of y that has seen no pod, and x marked meanwhile. */
  lemma SecondAccepted(s: State)
    requires Inv(s) && NothingStale(s) && s.allocatable == OneNode().allocatable && s.other == map[]
    requires s.holder == Some(Holder("y", map[])) && s.rows == map["x" := Place("a", Amount(600, 600))]
    requires forall r :: Load(s, "a", r) == Commitment(s, "x", "a", r) == 600
    ensures Enabled(Apply(s, Hide("x")), Ask("y")) && !Fits(Apply(Apply(s, Hide("x")), Ask("y")))
  {
    assert s.rows - {"x"} == map[];
    HiddenBootAccepts(s, "x", Ask("y").request, [], [], "a");
    HiddenBootOverfills(s, "x", Ask("y").request, [], [], "a");
    assert Load(s, "a", Cpu) + Ask("y").request.amount.Of(Cpu) > s.allocatable["a"].Of(Cpu);
  }

  function Waiting(): State {
    Apply(Booting("x"), List("y"))
  }

  lemma WaitingFits()
    ensures Enabled(Booting("x"), List("y")) && Inv(Waiting()) && NothingStale(Waiting())
    ensures forall r :: Load(Waiting(), "a", r) == Commitment(Waiting(), "x", "a", r) == 600
  {
    OneBoot("x");
    StepKeeps(Booting("x"), List("y"));
    SameLoad(Booting("x"), Waiting());
  }

  lemma PostedFits()
    ensures var s := Apply(Waiting(), Post("x"));
      && Enabled(Waiting(), Post("x")) && Inv(s) && NothingStale(s)
      && forall r :: Load(s, "a", r) == Commitment(s, "x", "a", r) == 600
  {
    WaitingFits();
    StepKeeps(Waiting(), Post("x"));
    SameLoad(Waiting(), Apply(Waiting(), Post("x")));
  }

  lemma TwoSteps(s: State, a: Step, b: Step)
    requires Enabled(s, a) && Enabled(Apply(s, a), b)
    ensures Runs(s, [a, b], Apply(Apply(s, a), b))
  {
    RunsLast(Apply(s, a), b);
    assert [a, b][1..] == [b];
  }

  lemma TailBefore(t: State)
    requires t == Apply(Apply(Waiting(), Hide("x")), Ask("y"))
    ensures Runs(Booting("x"), [Hide("x"), List("y"), Ask("y")], t) && !Fits(t)
  {
    WaitingFits();
    SecondAccepted(Waiting());
    var hidden, tail := Apply(Booting("x"), Hide("x")), [Hide("x"), List("y"), Ask("y")];
    assert Apply(hidden, List("y")) == Apply(Waiting(), Hide("x"));
    TwoSteps(hidden, List("y"), Ask("y"));
    assert tail[1..] == [List("y"), Ask("y")];
    RunsFirst(Booting("x"), tail, t);
  }

  lemma TailAfter(t: State)
    requires t == Apply(Apply(Apply(Waiting(), Post("x")), Hide("x")), Ask("y"))
    ensures Runs(Waiting(), [Post("x"), Hide("x"), Ask("y")], t) && !Fits(t)
  {
    PostedFits();
    var posted, tail := Apply(Waiting(), Post("x")), [Post("x"), Hide("x"), Ask("y")];
    SecondAccepted(posted);
    TwoSteps(posted, Hide("x"), Ask("y"));
    assert tail[1..] == [Hide("x"), Ask("y")];
    RunsFirst(Waiting(), tail, t);
  }

  /** x reserves, is marked failed, and y is let in before x posts its pod. */
  lemma MarkingBeforeThePostOverfills() returns (steps: seq<Step>, t: State)
    ensures steps == [List("x"), Ask("x"), Hide("x"), List("y"), Ask("y")]
    ensures Initial(OneNode()) && Runs(OneNode(), steps, t) && !Fits(t)
  {
    steps := [List("x"), Ask("x"), Hide("x"), List("y"), Ask("y")];
    t := Apply(Apply(Waiting(), Hide("x")), Ask("y"));
    TailBefore(t);
    assert steps[2..] == [Hide("x"), List("y"), Ask("y")];
    FromTheStart(steps, t);
  }

  /** x reserves, y lists the pods, x posts its pod and is marked failed, and y, which lists reservations now, sees
      neither. */
  lemma MarkingAfterThePostOverfills() returns (steps: seq<Step>, t: State)
    ensures steps == [List("x"), Ask("x"), List("y"), Post("x"), Hide("x"), Ask("y")]
    ensures Initial(OneNode()) && Runs(OneNode(), steps, t) && !Fits(t)
  {
    steps := [List("x"), Ask("x"), List("y"), Post("x"), Hide("x"), Ask("y")];
    t := Apply(Apply(Apply(Waiting(), Post("x")), Hide("x")), Ask("y"));
    TailAfter(t);
    WaitingFits();
    assert steps[2..][1..] == [Post("x"), Hide("x"), Ask("y")];
    RunsFirst(Booting("x"), steps[2..], t);
    FromTheStart(steps, t);
  }

  lemma FromTheStart(steps: seq<Step>, t: State)
    requires |steps| >= 2 && steps[0] == List("x") && steps[1] == Ask("x") && Runs(Booting("x"), steps[2..], t)
    ensures Initial(OneNode()) && Runs(OneNode(), steps, t)
  {
    OneNodeEmpty();
    FirstAccepted("x");
    assert steps[1..][1..] == steps[2..];
    RunsFirst(Apply(OneNode(), List("x")), steps[1..], t);
    RunsFirst(OneNode(), steps, t);
  }

  lemma SameLoad(s: State, t: State)
    requires s.other == t.other && forall id, n, r :: Commitment(s, id, n, r) == Commitment(t, id, n, r)
    ensures forall n, r :: Load(s, n, r) == Load(t, n, r)
  {
    forall n, r ensures Load(s, n, r) == Load(t, n, r) {
      LoadShrinks(s, t, n, r);
      LoadShrinks(t, s, n, r);
    }
  }

  lemma RunsLast(s: State, step: Step)
    requires Enabled(s, step)
    ensures Runs(s, [step], Apply(s, step))
  {
    assert [step][1..] == [];
  }

  lemma RunsFirst(s: State, steps: seq<Step>, t: State)
    requires steps != [] && Enabled(s, steps[0]) && Runs(Apply(s, steps[0]), steps[1..], t)
    ensures Runs(s, steps, t)
  {
  }
}

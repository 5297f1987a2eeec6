/** `reserve_node`: the room left on each node, and the node a sandbox gets. */
module Placement {
  import opened Options
  import opened Sums
  import opened PodDemand
  import Text

  type Id = string
  type Node = string

  /** An active pod. `identity` is its zoo.dev/sandbox label when it is in the sandbox namespace. */
  datatype Pod = Pod(identity: Option<Id>, node: Option<Node>, spec: PodSpec)
  datatype Place = Place(node: Node, amount: Amount)
  datatype Reservation = Reservation(id: Id, place: Place)
  datatype Request = Request(sandbox: Id, amount: Amount, persisted: Option<Node>, selected: Option<Node>)
  datatype Outcome = Placed(node: Node) | Conflict | NoCapacity

  /** The sandboxes the first k pods belong to, with their nodes; a later pod replaces an earlier one. */
  function Visible(pods: seq<Pod>, k: nat): map<Id, Node>
    requires k <= |pods|
  {
    if k == 0 then map[]
    else
      var before, pod := Visible(pods, k - 1), pods[k - 1];
      if pod.identity.Some? && pod.node.Some? then before[pod.identity.value := pod.node.value] else before
  }

  function PodUseOf(pod: Pod, n: Node, me: Id, r: Resource): int {
    if pod.node == Some(n) && pod.identity != Some(me) then PodRequests(pod.spec).Of(r) else 0
  }

  /** What the first k pods, `me`'s own aside, take on node n. */
  function PodUse(pods: seq<Pod>, k: nat, n: Node, me: Id, r: Resource): int
    requires k <= |pods|
  {
    if k == 0 then 0 else PodUse(pods, k - 1, n, me, r) + PodUseOf(pods[k - 1], n, me, r)
  }

  function HeldBy(row: Reservation, visible: map<Id, Node>, n: Node, me: Id, r: Resource): int {
    if row.id == me || (row.id in visible && visible[row.id] == row.place.node) || row.place.node != n then 0
    else row.place.amount.Of(r)
  }

  /** What the first k reservations, `me`'s own aside, hold on node n without a pod there yet. */
  function Held(rows: seq<Reservation>, k: nat, visible: map<Id, Node>, n: Node, me: Id, r: Resource): int
    requires k <= |rows|
  {
    if k == 0 then 0 else Held(rows, k - 1, visible, n, me, r) + HeldBy(rows[k - 1], visible, n, me, r)
  }

  function RoomOf(allocatable: Amount, pods: seq<Pod>, rows: seq<Reservation>, n: Node, me: Id, r: Resource): int {
    allocatable.Of(r) - PodUse(pods, |pods|, n, me, r) - Held(rows, |rows|, Visible(pods, |pods|), n, me, r)
  }

  function Room(allocatable: Amount, pods: seq<Pod>, rows: seq<Reservation>, n: Node, me: Id): Amount {
    Amount(RoomOf(allocatable, pods, rows, n, me, Cpu), RoomOf(allocatable, pods, rows, n, me, Memory))
  }

  function Pinned(request: Request): Option<Node> {
    if request.persisted.Some? then request.persisted else request.selected
  }

  function Eligible(request: Request, fitting: set<Node>, room: map<Node, Amount>): set<Node> {
    set n | n in room
      && (Pinned(request).None? || Pinned(request) == Some(n))
      && n in fitting
      && request.amount.Le(room[n])
  }

  /** More free memory wins, then more free CPU. */
  predicate MoreRoom(a: Amount, b: Amount) {
    a.memory > b.memory || (a.memory == b.memory && a.cpu > b.cpu)
  }

  /** Node a is preferred to node b; equal room is settled by name. */
  predicate Preferred(room: map<Node, Amount>, a: Node, b: Node)
    requires a in room && b in room
  {
    MoreRoom(room[a], room[b]) || (room[a] == room[b] && Text.Less(a, b))
  }

  predicate Conflicts(request: Request) {
    request.persisted.Some? && request.selected.Some? && request.persisted != request.selected
  }

  ghost predicate Decides(request: Request, fitting: set<Node>, room: map<Node, Amount>, outcome: Outcome) {
    match outcome
    case Conflict => Conflicts(request)
    case NoCapacity => !Conflicts(request) && Eligible(request, fitting, room) == {}
    case Placed(n) =>
      && !Conflicts(request)
      && n in Eligible(request, fitting, room)
      && forall m :: m in Eligible(request, fitting, room) && m != n ==> Preferred(room, n, m)
  }

  ghost function RoomOn(
    allocatable: map<Node, Amount>, pods: seq<Pod>, rows: seq<Reservation>, me: Id): map<Node, Amount>
  {
    map n | n in allocatable :: Room(allocatable[n], pods, rows, n, me)
  }

  /** Exactly one outcome fits: the decision does not depend on the order nodes are listed in. */
  lemma DecisionUnique(request: Request, fitting: set<Node>, room: map<Node, Amount>, a: Outcome, b: Outcome)
    requires Decides(request, fitting, room, a) && Decides(request, fitting, room, b)
    ensures a == b
  {
    if a.Placed? && b.Placed? && a.node != b.node {
      Text.LessStrict(a.node, b.node);
    }
  }

  // The room, without the loops that count it.

  function Asked(pods: seq<Pod>, i: int, r: Resource): int {
    if 0 <= i < |pods| then PodRequests(pods[i].spec).Of(r) else 0
  }

  function Promised(rows: seq<Reservation>, i: int, r: Resource): int {
    if 0 <= i < |rows| then rows[i].place.amount.Of(r) else 0
  }

  /** The listed pods on node n that are not `me`'s. */
  ghost function PodsOn(pods: seq<Pod>, k: nat, n: Node, me: Id): set<int>
    requires k <= |pods|
  {
    set i | 0 <= i < k && pods[i].node == Some(n) && pods[i].identity != Some(me)
  }

  lemma {:induction false} PodUseCounts(pods: seq<Pod>, k: nat, n: Node, me: Id, r: Resource)
    requires k <= |pods|
    ensures PodUse(pods, k, n, me, r) == Sum(PodsOn(pods, k, n, me), i => Asked(pods, i, r))
  {
    if k > 0 {
      PodUseCounts(pods, k - 1, n, me, r);
      var f := i => Asked(pods, i, r);
      var on, before := PodsOn(pods, k, n, me), PodsOn(pods, k - 1, n, me);
      if pods[k - 1].node == Some(n) && pods[k - 1].identity != Some(me) {
        SumSplit(on, f, k - 1);
        assert on - {k - 1} == before;
      } else {
        assert on == before;
      }
    } else {
      assert PodsOn(pods, 0, n, me) == {};
    }
  }

  /** The last of the first k pods of sandbox id with a node is on node n. */
  ghost predicate ShownOn(pods: seq<Pod>, k: nat, id: Id, n: Node)
    requires k <= |pods|
  {
    exists i :: 0 <= i < k && pods[i].identity == Some(id) && pods[i].node == Some(n) &&
      forall j :: i < j < k && pods[j].identity == Some(id) ==> pods[j].node.None?
  }

  lemma {:induction false} VisibleIsLast(pods: seq<Pod>, k: nat, id: Id, n: Node)
    requires k <= |pods|
    ensures (id in Visible(pods, k) && Visible(pods, k)[id] == n) <==> ShownOn(pods, k, id, n)
  {
    if k > 0 {
      VisibleIsLast(pods, k - 1, id, n);
      var pod := pods[k - 1];
      if pod.identity == Some(id) && pod.node.Some? {
        if ShownOn(pods, k, id, n) {
          var i :| 0 <= i < k && pods[i].identity == Some(id) && pods[i].node == Some(n) &&
            forall j :: i < j < k && pods[j].identity == Some(id) ==> pods[j].node.None?;
          assert i == k - 1;
        }
      } else {
        ShownStays(pods, k, id, n);
      }
    }
  }

  lemma ShownStays(pods: seq<Pod>, k: nat, id: Id, n: Node)
    requires 0 < k <= |pods| && !(pods[k - 1].identity == Some(id) && pods[k - 1].node.Some?)
    ensures ShownOn(pods, k, id, n) <==> ShownOn(pods, k - 1, id, n)
  {
  }

  /** The reservations of others for node n that no pod shows there yet. */
  ghost function RowsOn(rows: seq<Reservation>, k: nat, pods: seq<Pod>, n: Node, me: Id): set<int>
    requires k <= |rows|
  {
    set i | 0 <= i < k && rows[i].id != me && rows[i].place.node == n && !ShownOn(pods, |pods|, rows[i].id, n)
  }

  lemma HeldByCounts(row: Reservation, pods: seq<Pod>, n: Node, me: Id, r: Resource)
    ensures HeldBy(row, Visible(pods, |pods|), n, me, r)
            == if row.id != me && row.place.node == n && !ShownOn(pods, |pods|, row.id, n) then row.place.amount.Of(r) else 0
  {
    VisibleIsLast(pods, |pods|, row.id, n);
  }

  lemma {:induction false} HeldCounts(rows: seq<Reservation>, k: nat, pods: seq<Pod>, n: Node, me: Id, r: Resource)
    requires k <= |rows|
    ensures Held(rows, k, Visible(pods, |pods|), n, me, r)
            == Sum(RowsOn(rows, k, pods, n, me), i => Promised(rows, i, r))
  {
    if k > 0 {
      HeldCounts(rows, k - 1, pods, n, me, r);
      var f := i => Promised(rows, i, r);
      var on, before, row := RowsOn(rows, k, pods, n, me), RowsOn(rows, k - 1, pods, n, me), rows[k - 1];
      HeldByCounts(row, pods, n, me, r);
      if row.id != me && row.place.node == n && !ShownOn(pods, |pods|, row.id, n) {
        SumSplit(on, f, k - 1);
        assert on - {k - 1} == before;
      } else {
        assert on == before;
      }
    } else {
      assert RowsOn(rows, 0, pods, n, me) == {};
    }
  }

  /** A node's room is what it can allocate, less what every listed pod on it asks for, whoever's it is but `me`'s, and
      less every reservation of another sandbox there that no pod shows yet. */
  lemma RoomIsWhatIsLeft(allocatable: map<Node, Amount>, pods: seq<Pod>, rows: seq<Reservation>, me: Id, n: Node, r: Resource)
    requires n in allocatable
    ensures RoomOn(allocatable, pods, rows, me)[n].Of(r)
            == allocatable[n].Of(r)
               - Sum(PodsOn(pods, |pods|, n, me), i => Asked(pods, i, r))
               - Sum(RowsOn(rows, |rows|, pods, n, me), i => Promised(rows, i, r))
  {
    PodUseCounts(pods, |pods|, n, me, r);
    HeldCounts(rows, |rows|, pods, n, me, r);
  }

  /** A node the request may take: no pin names another, it fits, and both resources have room. */
  ghost predicate MayTake(request: Request, fitting: set<Node>, room: map<Node, Amount>, n: Node) {
    && n in room && n in fitting
    && (request.persisted.Some? ==> n == request.persisted.value)
    && (request.selected.Some? ==> n == request.selected.value)
    && request.amount.cpu <= room[n].cpu && request.amount.memory <= room[n].memory
  }

  /** What each outcome means: pins that disagree; no node to take; or one that no other such node surpasses in memory,
      then in CPU, then by an earlier name. */
  lemma DecisionMeans(request: Request, fitting: set<Node>, room: map<Node, Amount>, outcome: Outcome)
    requires Decides(request, fitting, room, outcome)
    ensures outcome.Conflict? <==>
            exists a, b :: request.persisted == Some(a) && request.selected == Some(b) && a != b
    ensures outcome.NoCapacity? ==> forall n :: !MayTake(request, fitting, room, n)
    ensures outcome.Placed? ==>
      && MayTake(request, fitting, room, outcome.node)
      && forall m :: MayTake(request, fitting, room, m) && m != outcome.node ==>
           var best, other := room[outcome.node], room[m];
           || other.memory < best.memory
           || (other.memory == best.memory && other.cpu < best.cpu)
           || (other == best && Text.Less(outcome.node, m))
  {
    if !Conflicts(request) {
      forall n ensures MayTake(request, fitting, room, n) <==> n in Eligible(request, fitting, room) {}
    } else {
      assert request.persisted == Some(request.persisted.value) && request.selected == Some(request.selected.value);
    }
  }

  ghost predicate Reduced(a: Amount, b: Amount, cpu: int, memory: int) {
    a.cpu == b.cpu - cpu && a.memory == b.memory - memory
  }

  method CountPods(allocatable: map<Node, Amount>, pods: seq<Pod>, me: Id)
    returns (capacity: map<Node, Amount>, visible: map<Id, Node>)
    ensures visible == Visible(pods, |pods|)
    ensures capacity.Keys == allocatable.Keys
    ensures forall n :: n in allocatable ==>
      Reduced(capacity[n], allocatable[n], PodUse(pods, |pods|, n, me, Cpu), PodUse(pods, |pods|, n, me, Memory))
  {
    capacity, visible := allocatable, map[];
    for i := 0 to |pods|
      invariant visible == Visible(pods, i)
      invariant capacity.Keys == allocatable.Keys
      invariant forall n :: n in allocatable ==>
        Reduced(capacity[n], allocatable[n], PodUse(pods, i, n, me, Cpu), PodUse(pods, i, n, me, Memory))
    {
      var pod := pods[i];
      ghost var before := capacity;
      if pod.identity.Some? && pod.node.Some? {
        visible := visible[pod.identity.value := pod.node.value];
      }
      if pod.identity != Some(me) && pod.node.Some? && pod.node.value in capacity {
        var n := pod.node.value;
        var usage := CountPodRequests(pod.spec);
        capacity := capacity[n := Amount(capacity[n].cpu - usage.cpu, capacity[n].memory - usage.memory)];
      }
      assert forall n :: n in allocatable ==>
        Reduced(capacity[n], before[n], PodUseOf(pod, n, me, Cpu), PodUseOf(pod, n, me, Memory));
    }
  }

  method CountReservations(start: map<Node, Amount>, rows: seq<Reservation>, visible: map<Id, Node>, me: Id)
    returns (capacity: map<Node, Amount>)
    ensures capacity.Keys == start.Keys
    ensures forall n :: n in start ==>
      Reduced(capacity[n], start[n], Held(rows, |rows|, visible, n, me, Cpu), Held(rows, |rows|, visible, n, me, Memory))
  {
    capacity := start;
    for i := 0 to |rows|
      invariant capacity.Keys == start.Keys
      invariant forall n :: n in start ==>
        Reduced(capacity[n], start[n], Held(rows, i, visible, n, me, Cpu), Held(rows, i, visible, n, me, Memory))
    {
      var row := rows[i];
      var n := row.place.node;
      ghost var before := capacity;
      if row.id != me && !(row.id in visible && visible[row.id] == n) && n in capacity {
        var amount := row.place.amount;
        capacity := capacity[n := Amount(capacity[n].cpu - amount.cpu, capacity[n].memory - amount.memory)];
      }
      assert forall m :: m in start ==>
        Reduced(capacity[m], before[m], HeldBy(row, visible, m, me, Cpu), HeldBy(row, visible, m, me, Memory));
    }
  }

  /** `max` over names in ascending order keeps the first of the largest. */
  method Choose(names: seq<Node>, room: map<Node, Amount>) returns (best: Node)
    requires names != [] && Text.Ascending(names)
    requires forall n :: n in names ==> n in room
    ensures best in names
    ensures forall m :: m in names && m != best ==> Preferred(room, best, m)
  {
    var at := 0;
    for i := 1 to |names|
      invariant 0 <= at < i
      invariant forall j :: 0 <= j < at ==> MoreRoom(room[names[at]], room[names[j]])
      invariant forall j :: at < j < i ==> !MoreRoom(room[names[j]], room[names[at]])
    {
      if MoreRoom(room[names[i]], room[names[at]]) { at := i; }
    }
    best := names[at];
  }

  method ReserveNode(request: Request, fitting: set<Node>, allocatable: map<Node, Amount>,
                     pods: seq<Pod>, rows: seq<Reservation>)
    returns (outcome: Outcome)
    ensures Decides(request, fitting, RoomOn(allocatable, pods, rows, request.sandbox), outcome)
  {
    if Conflicts(request) { return Conflict; }
    var start, visible := CountPods(allocatable, pods, request.sandbox);
    var room := CountReservations(start, rows, visible, request.sandbox);
    assert room == RoomOn(allocatable, pods, rows, request.sandbox);
    var eligible := Eligible(request, fitting, room);
    if eligible == {} { return NoCapacity; }
    var best := Choose(Text.Sorted(eligible), room);
    return Placed(best);
  }
}

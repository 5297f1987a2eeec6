/** How much a pod asks of its node: the one-pass count of `pod_requests` against the startup sequence it stands for. */
module PodDemand {
  import opened Options
  import opened Sums

  /** A container and its `resource_requests`: whole millicores and bytes. `always` marks a sidecar. */
  datatype Container = Container(cpu: nat, memory: nat, always: bool) {
    function Asks(r: Resource): int { if r.Cpu? then cpu else memory }
  }

  datatype PodLevel = PodLevel(cpu: Option<nat>, memory: Option<nat>) {
    function Of(r: Resource): Option<nat> { if r.Cpu? then cpu else memory }
  }

  datatype PodSpec = PodSpec(
    containers: seq<Container>, initContainers: seq<Container>, overhead: Amount, podLevel: PodLevel)

  // The startup sequence. Phase k < |initContainers| runs init container k beside the sidecars started before it;
  // the last phase runs every sidecar and every regular container.

  function Sidecars(inits: seq<Container>): seq<Container> {
    if inits == [] then []
    else Sidecars(inits[..|inits| - 1]) + (if inits[|inits| - 1].always then [inits[|inits| - 1]] else [])
  }

  function Running(spec: PodSpec, phase: nat): seq<Container>
    requires phase <= |spec.initContainers|
  {
    if phase < |spec.initContainers| then Sidecars(spec.initContainers[..phase]) + [spec.initContainers[phase]]
    else Sidecars(spec.initContainers) + spec.containers
  }

  function Demand(running: seq<Container>, r: Resource): int {
    if running == [] then 0 else Demand(running[..|running| - 1], r) + running[|running| - 1].Asks(r)
  }

  // The one-pass count, as running totals over the first i init containers.

  function Max(a: int, b: int): int { if a < b then b else a }

  function SidecarTotal(inits: seq<Container>, i: nat, r: Resource): int
    requires i <= |inits|
  {
    if i == 0 then 0
    else SidecarTotal(inits, i - 1, r) + (if inits[i - 1].always then inits[i - 1].Asks(r) else 0)
  }

  /** The running maximum, starting from nothing. */
  function Highest(inits: seq<Container>, i: nat, r: Resource): (most: int)
    requires i <= |inits|
    ensures 0 <= most
  {
    if i == 0 then 0
    else Max(Highest(inits, i - 1, r), SidecarTotal(inits, i - 1, r) + inits[i - 1].Asks(r))
  }

  function OnePass(spec: PodSpec, r: Resource): int {
    var inits := spec.initContainers;
    Max(Demand(spec.containers, r) + SidecarTotal(inits, |inits|, r), Highest(inits, |inits|, r))
  }

  function PodRequest(spec: PodSpec, r: Resource): int {
    (if spec.podLevel.Of(r).Some? then spec.podLevel.Of(r).value else OnePass(spec, r)) + spec.overhead.Of(r)
  }

  function PodRequests(spec: PodSpec): Amount {
    Amount(PodRequest(spec, Cpu), PodRequest(spec, Memory))
  }

  lemma DemandGrows(running: seq<Container>, c: Container, r: Resource)
    ensures Demand(running + [c], r) == Demand(running, r) + c.Asks(r)
  {
    assert (running + [c])[..|running|] == running;
  }

  lemma {:induction false} DemandJoins(a: seq<Container>, b: seq<Container>, r: Resource)
    ensures Demand(a + b, r) == Demand(a, r) + Demand(b, r)
  {
    if b == [] {
      assert a + b == a;
    } else {
      DemandJoins(a, b[..|b| - 1], r);
      assert (a + b)[..|a + b| - 1] == a + b[..|b| - 1];
    }
  }

  lemma {:induction false} DemandNatural(running: seq<Container>, r: Resource)
    ensures 0 <= Demand(running, r)
  {
    if running != [] { DemandNatural(running[..|running| - 1], r); }
  }

  lemma SidecarsGrow(inits: seq<Container>, i: nat)
    requires i < |inits|
    ensures inits[i].always ==> Sidecars(inits[..i + 1]) == Sidecars(inits[..i]) + [inits[i]]
    ensures !inits[i].always ==> Sidecars(inits[..i + 1]) == Sidecars(inits[..i])
  {
    assert inits[..i + 1][..i] == inits[..i];
    assert Sidecars(inits[..i]) + [] == Sidecars(inits[..i]);
  }

  lemma {:induction false} SidecarTotalIsDemand(inits: seq<Container>, i: nat, r: Resource)
    requires i <= |inits|
    ensures SidecarTotal(inits, i, r) == Demand(Sidecars(inits[..i]), r)
  {
    if i > 0 {
      SidecarTotalIsDemand(inits, i - 1, r);
      SidecarsGrow(inits, i - 1);
      DemandGrows(Sidecars(inits[..i - 1]), inits[i - 1], r);
    }
  }

  /** Phase i asks for the sidecars started before it and its own container. */
  lemma InitPhase(spec: PodSpec, i: nat, r: Resource)
    requires i < |spec.initContainers|
    ensures var inits := spec.initContainers;
      Demand(Running(spec, i), r) == SidecarTotal(inits, i, r) + inits[i].Asks(r)
    ensures 0 <= Demand(Running(spec, i), r)
  {
    var inits := spec.initContainers;
    SidecarTotalIsDemand(inits, i, r);
    DemandGrows(Sidecars(inits[..i]), inits[i], r);
    DemandNatural(Running(spec, i), r);
  }

  lemma LastPhase(spec: PodSpec, r: Resource)
    ensures var n := |spec.initContainers|;
      && Demand(Running(spec, n), r) == SidecarTotal(spec.initContainers, n, r) + Demand(spec.containers, r)
      && 0 <= Demand(Running(spec, n), r)
  {
    SidecarTotalIsDemand(spec.initContainers, |spec.initContainers|, r);
    assert spec.initContainers[..|spec.initContainers|] == spec.initContainers;
    DemandJoins(Sidecars(spec.initContainers), spec.containers, r);
    DemandNatural(Running(spec, |spec.initContainers|), r);
  }

  lemma {:induction false} HighestBounds(inits: seq<Container>, i: nat, k: nat, r: Resource)
    requires k < i <= |inits|
    ensures SidecarTotal(inits, k, r) + inits[k].Asks(r) <= Highest(inits, i, r)
  {
    if k < i - 1 { HighestBounds(inits, i - 1, k, r); }
  }

  lemma {:induction false} HighestReached(inits: seq<Container>, i: nat, r: Resource) returns (reached: nat)
    requires 0 < i <= |inits|
    ensures reached < i
    ensures Highest(inits, i, r) == Max(0, SidecarTotal(inits, reached, r) + inits[reached].Asks(r))
  {
    reached := i - 1;
    if i > 1 && SidecarTotal(inits, i - 1, r) + inits[i - 1].Asks(r) < Highest(inits, i - 1, r) {
      reached := HighestReached(inits, i - 1, r);
    }
  }

  /** No phase of the startup sequence asks for more than the one-pass count. */
  lemma NoPhaseExceeds(spec: PodSpec, k: nat, r: Resource)
    requires k <= |spec.initContainers|
    ensures Demand(Running(spec, k), r) <= OnePass(spec, r)
  {
    if k < |spec.initContainers| {
      InitPhase(spec, k, r);
      HighestBounds(spec.initContainers, |spec.initContainers|, k, r);
    } else {
      LastPhase(spec, r);
    }
  }

  /** Some phase asks for exactly the one-pass count. */
  lemma SomePhaseReaches(spec: PodSpec, r: Resource) returns (k: nat)
    ensures k <= |spec.initContainers| && Demand(Running(spec, k), r) == OnePass(spec, r)
  {
    var n := |spec.initContainers|;
    k := n;
    LastPhase(spec, r);
    if Demand(Running(spec, n), r) < Highest(spec.initContainers, n, r) {
      k := HighestReached(spec.initContainers, n, r);
      InitPhase(spec, k, r);
    }
  }

  /** The one-pass count is the peak of the startup sequence. */
  lemma OnePassIsPeak(spec: PodSpec, r: Resource)
    ensures forall k: nat :: k <= |spec.initContainers| ==> Demand(Running(spec, k), r) <= OnePass(spec, r)
    ensures exists k: nat :: k <= |spec.initContainers| && Demand(Running(spec, k), r) == OnePass(spec, r)
  {
    forall k: nat | k <= |spec.initContainers| ensures Demand(Running(spec, k), r) <= OnePass(spec, r) {
      NoPhaseExceeds(spec, k, r);
    }
    var k := SomePhaseReaches(spec, r);
  }

  /** A pod-level request decides alone for its resource, whatever the containers ask for; overhead is always added. */
  lemma PodLevelDecides(spec: PodSpec, r: Resource)
    ensures forall amount :: spec.podLevel.Of(r) == Some(amount) ==> PodRequests(spec).Of(r) == amount + spec.overhead.Of(r)
    ensures spec.podLevel.Of(r).None? ==>
      && (forall k :: 0 <= k <= |spec.initContainers| ==>
            Demand(Running(spec, k), r) <= PodRequests(spec).Of(r) - spec.overhead.Of(r))
      && (exists k :: 0 <= k <= |spec.initContainers| &&
            Demand(Running(spec, k), r) == PodRequests(spec).Of(r) - spec.overhead.Of(r))
  {
    OnePassIsPeak(spec, r);
  }

  method CountRegular(containers: seq<Container>) returns (regular: Amount)
    ensures forall r :: regular.Of(r) == Demand(containers, r)
  {
    var cpu, memory := 0, 0;
    for i := 0 to |containers|
      invariant cpu == Demand(containers[..i], Cpu) && memory == Demand(containers[..i], Memory)
    {
      assert containers[..i + 1][..i] == containers[..i];
      cpu, memory := cpu + containers[i].cpu, memory + containers[i].memory;
    }
    assert containers[..|containers|] == containers;
    regular := Amount(cpu, memory);
  }

  /** The init-container loop for one resource. */
  method CountInits(inits: seq<Container>, r: Resource) returns (sidecars: int, initial: int)
    ensures sidecars == SidecarTotal(inits, |inits|, r)
    ensures initial == Highest(inits, |inits|, r)
  {
    sidecars, initial := 0, 0;
    for i := 0 to |inits|
      invariant sidecars == SidecarTotal(inits, i, r)
      invariant initial == Highest(inits, i, r)
    {
      var requested := inits[i].Asks(r);
      if inits[i].always {
        sidecars := sidecars + requested;
        requested := sidecars;
      } else {
        requested := requested + sidecars;
      }
      initial := Max(initial, requested);
    }
  }

  method CountPodRequest(spec: PodSpec, regular: Amount, r: Resource) returns (total: int)
    requires regular.Of(r) == Demand(spec.containers, r)
    ensures total == PodRequest(spec, r)
  {
    var sidecars, initial := CountInits(spec.initContainers, r);
    var level := spec.podLevel.Of(r);
    total := (if level.Some? then level.value else Max(regular.Of(r) + sidecars, initial)) + spec.overhead.Of(r);
  }

  /** `pod_requests`. */
  method CountPodRequests(spec: PodSpec) returns (total: Amount)
    ensures total == PodRequests(spec)
  {
    var regular := CountRegular(spec.containers);
    var cpu := CountPodRequest(spec, regular, Cpu);
    var memory := CountPodRequest(spec, regular, Memory);
    total := Amount(cpu, memory);
  }

  // Rounding: quantities are real numbers of cores and bytes; requests round up, room rounds down.

  type Quantity = x: real | x >= 0.0 witness 0.0
  datatype Quantities = Quantities(cpu: Quantity, memory: Quantity)

  function Ceil(x: Quantity): (r: nat)
    ensures r as real - 1.0 < x <= r as real
  {
    -(0.0 - x as real).Floor
  }

  function ResourceRequests(q: Quantities): Amount {
    Amount(Ceil(q.cpu * 1000.0), Ceil(q.memory))
  }

  /** The pod `sandbox_pod` posts, with the runtime class's overhead added at admission: a home-seeding init
      container and the sandbox container, both with the same requests. */
  function SandboxPod(requested: Quantities, overhead: Quantities): PodSpec {
    var container := Container(Ceil(requested.cpu * 1000.0), Ceil(requested.memory), false);
    PodSpec([container], [container], ResourceRequests(overhead), PodLevel(None, None))
  }

  /** What `reserve_node` writes down for a sandbox. */
  function Reserved(requested: Quantities, overhead: Quantities): Amount {
    Amount(ResourceRequests(requested).cpu + ResourceRequests(overhead).cpu,
           ResourceRequests(requested).memory + ResourceRequests(overhead).memory)
  }

  /** A reservation covers what the sandbox and its runtime's overhead ask for together, and exceeds it by less than two
      units of each resource. */
  lemma ReservationCovers(requested: Quantities, overhead: Quantities)
    ensures var cpu := (requested.cpu as real + overhead.cpu as real) * 1000.0;
      cpu <= Reserved(requested, overhead).cpu as real < cpu + 2.0
    ensures var memory := requested.memory as real + overhead.memory as real;
      memory <= Reserved(requested, overhead).memory as real < memory + 2.0
  {
  }

  lemma TwinContainersCount(c: Container, spec: PodSpec, r: Resource)
    requires !c.always && spec.containers == [c] && spec.initContainers == [c]
    ensures OnePass(spec, r) == c.Asks(r)
  {
    assert [c][..0] == [];
    assert Demand([c], r) == c.Asks(r);
    assert SidecarTotal([c], 1, r) == 0 && Highest([c], 1, r) == c.Asks(r);
  }

  /** The posted pod counts for exactly what was reserved for it. */
  lemma PostedPodMatchesReservation(requested: Quantities, overhead: Quantities)
    ensures PodRequests(SandboxPod(requested, overhead)) == Reserved(requested, overhead)
  {
    var spec := SandboxPod(requested, overhead);
    TwinContainersCount(spec.containers[0], spec, Cpu);
    TwinContainersCount(spec.containers[0], spec, Memory);
  }

  function TotalReal(qs: seq<Quantities>): Quantities {
    if qs == [] then Quantities(0.0, 0.0)
    else
      var rest := TotalReal(qs[1..]);
      Quantities(qs[0].cpu + rest.cpu, qs[0].memory + rest.memory)
  }

  function TotalCounted(qs: seq<Quantities>, r: Resource): int {
    if qs == [] then 0 else ResourceRequests(qs[0]).Of(r) + TotalCounted(qs[1..], r)
  }

  lemma {:induction false} CountedCoversReal(qs: seq<Quantities>)
    ensures TotalReal(qs).cpu * 1000.0 <= TotalCounted(qs, Cpu) as real
    ensures TotalReal(qs).memory <= TotalCounted(qs, Memory) as real
  {
    if qs != [] { CountedCoversReal(qs[1..]); }
  }

  /** Rounding requests up and room down is safe: what fits in the rounded numbers fits in the real ones. */
  lemma RoundingIsConservative(qs: seq<Quantities>, allocatable: Quantities)
    requires TotalCounted(qs, Cpu) <= (allocatable.cpu * 1000.0).Floor
    requires TotalCounted(qs, Memory) <= allocatable.memory.Floor
    ensures TotalReal(qs).cpu <= allocatable.cpu && TotalReal(qs).memory <= allocatable.memory
  {
    CountedCoversReal(qs);
  }
}

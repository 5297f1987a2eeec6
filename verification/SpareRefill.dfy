/** `refill_spare_volumes`: every node that can run sandboxes ends with exactly the configured number of spare homes,
    and no claim a sandbox refers to or a pod mounts is deleted. */
module SpareRefill {
  import opened Options

  type Id = string
  type Node = string

  /** A claim's name: one the cluster already had, or one made with a new unique suffix. */
  datatype Name = Given(text: string) | Made(serial: nat)

  /** `tag` and `node` are the spare-node label and annotation, `spareHome` the component label, `owner` the sandbox
      label. `untouched`: no selected node, volume or data source. `suited`: the storage class, access mode, volume
      mode and size of a spare. */
  datatype Claim = Claim(
    tag: Option<string>, node: Option<Node>, spareHome: bool, owner: Option<Id>,
    untouched: bool, suited: bool, pending: bool, deleting: bool)

  /** What a refill reads first: claims that rows refer to, with their sandbox, and claims that pods mount. `hash` is
      the spare-node label of a node. */
  datatype View = View(hash: Node -> string, references: map<Name, Id>, mounted: set<Name>) {
    predicate Protects(name: Name) { name in references || name in mounted }
  }

  predicate Available(name: Name, c: Claim, n: Node, v: View) {
    && !v.Protects(name) && !c.deleting
    && c.spareHome && c.tag == Some(v.hash(n)) && c.node == Some(n) && c.owner.None?
    && c.untouched && c.suited && c.pending
  }

  /** An available spare is a claim that no row or pod has and that is still as it was created for the node. */
  lemma AvailableIsAsCreated(name: Name, c: Claim, n: Node, v: View)
    ensures Available(name, c, n, v) <==> !v.Protects(name) && c == Claim(Some(v.hash(n)), Some(n), true, None, true, true, true, false)
  {
  }

  function AvailableOn(claims: map<Name, Claim>, n: Node, v: View): set<Name> {
    set name | name in claims && Available(name, claims[name], n, v)
  }

  /** What a sandbox refers to or a pod mounts is as it was. */
  ghost predicate Untouched(before: map<Name, Claim>, after: map<Name, Claim>, v: View) {
    forall name :: name in before && v.Protects(name) ==> name in after && after[name] == before[name]
  }

  /** Nothing that a sandbox refers to or a pod mounts was deleted: at most its owner and component labels changed. */
  ghost predicate Spared(before: map<Name, Claim>, after: map<Name, Claim>, v: View) {
    forall name :: name in before && v.Protects(name) ==>
      && name in after
      && after[name] == before[name].(owner := after[name].owner, spareHome := after[name].spareHome)
  }

  /** Every listed claim that a row refers to carries its sandbox's label. */
  ghost predicate Helped(listing: seq<Name>, claims: map<Name, Claim>, v: View) {
    forall name :: name in listing && name in v.references && name in claims && !claims[name].deleting ==>
      claims[name].owner == Some(v.references[name]) && !claims[name].spareHome
  }

  ghost predicate SameElsewhere(before: map<Name, Claim>, after: map<Name, Claim>, n: Node, v: View) {
    forall m :: m != n ==> AvailableOn(after, m, v) == AvailableOn(before, m, v)
  }

  function Spare(n: Node, v: View): Claim {
    Claim(Some(v.hash(n)), Some(n), true, None, true, true, true, false)
  }

  /** The label selector lists every claim with a spare-node label once. */
  ghost predicate Lists(listing: seq<Name>, claims: map<Name, Claim>) {
    && Distinct(listing)
    && (forall name :: name in listing <==> name in claims && claims[name].tag.Some?)
  }

  ghost predicate Distinct(names: seq<Name>) {
    forall i, j :: 0 <= i < j < |names| ==> names[i] != names[j]
  }

  function Names(names: seq<Name>): set<Name> {
    set name | name in names
  }

  lemma {:induction false} DistinctCount(names: seq<Name>)
    requires Distinct(names)
    ensures |Names(names)| == |names|
  {
    if names != [] {
      DistinctCount(names[1..]);
      assert Names(names) == {names[0]} + Names(names[1..]);
    }
  }

  /** Deleting available claims takes exactly them from their node. */
  lemma DeletingAvailable(before: map<Name, Claim>, after: map<Name, Claim>, gone: set<Name>, n: Node, v: View)
    requires gone <= AvailableOn(before, n, v) && after.Keys == before.Keys
    requires forall name :: name in before ==>
      after[name] == if name in gone then before[name].(deleting := true) else before[name]
    ensures AvailableOn(after, n, v) == AvailableOn(before, n, v) - gone
    ensures SameElsewhere(before, after, n, v) && Untouched(before, after, v)
  {
    forall name | name in gone ensures name in before && before[name].node == Some(n) {
      assert name in AvailableOn(before, n, v);
    }
  }

  lemma CreatingSpare(before: map<Name, Claim>, name: Name, n: Node, v: View)
    requires name !in before && !v.Protects(name)
    ensures var after := before[name := Spare(n, v)];
      && AvailableOn(after, n, v) == AvailableOn(before, n, v) + {name}
      && SameElsewhere(before, after, n, v) && Untouched(before, after, v)
  {
  }

  /** Whether a listed claim stands in the way of a refill: a row refers to it and it cannot be made its sandbox's. */
  predicate Blocks(name: Name, c: Claim, v: View) {
    name in v.references && !c.deleting &&
    !(c.node.Some? && c.node.value != "" && c.tag == Some(v.hash(c.node.value)) &&
      (c.owner.None? || c.owner.value == v.references[name]))
  }

  /** A claim that a refill removes: nobody's, and no available spare of an eligible node. */
  predicate Useless(name: Name, c: Claim, nodes: set<Node>, v: View) {
    !v.Protects(name) && forall n :: n in nodes ==> !Available(name, c, n, v)
  }

  /** Every claim seen that is useless is being deleted. */
  ghost predicate Swept(seen: seq<Name>, before: map<Name, Claim>, claims: map<Name, Claim>, nodes: set<Node>, v: View) {
    forall name :: name in seen && name in before && name in claims && Useless(name, before[name], nodes, v) ==>
      claims[name].deleting
  }

  ghost predicate OthersSame(seen: seq<Name>, before: map<Name, Claim>, claims: map<Name, Claim>) {
    forall name :: name in before && name !in seen ==> name in claims && claims[name] == before[name]
  }

  /** What one judgement does. */
  ghost predicate Judged(
    was: map<Name, Claim>, now: map<Name, Claim>, name: Name, nodes: set<Node>, keep: Option<Node>, v: View)
  {
    && name in was && name in now && now == was[name := now[name]] && now[name].tag == was[name].tag
    && Spared(was, now, v) && Helped([name], now, v)
    && (keep.Some? ==> keep.value in nodes)
    && (forall n :: n in nodes ==> (Available(name, now[name], n, v) <==> keep == Some(n)))
  }

  /** And what becomes of the claim: removed if useless, as available as it was, and no other claim touched. */
  ghost predicate Fated(was: map<Name, Claim>, now: map<Name, Claim>, name: Name, nodes: set<Node>, v: View) {
    && name in was && name in now && now == was[name := now[name]]
    && (Useless(name, was[name], nodes, v) ==> now[name].deleting)
    && (forall n :: n in nodes ==> (Available(name, now[name], n, v) <==> Available(name, was[name], n, v)))
  }

  ghost predicate SameAvailable(before: map<Name, Claim>, claims: map<Name, Claim>, nodes: set<Node>, v: View) {
    forall n :: n in nodes ==> AvailableOn(claims, n, v) == AvailableOn(before, n, v)
  }

  ghost predicate NoneBlocks(seen: seq<Name>, before: map<Name, Claim>, v: View) {
    forall name :: name in seen && name in before ==> !Blocks(name, before[name], v)
  }

  /** The fates of the claims seen so far. */
  ghost predicate Fates(before: map<Name, Claim>, claims: map<Name, Claim>, seen: seq<Name>, nodes: set<Node>, v: View) {
    OthersSame(seen, before, claims) && Swept(seen, before, claims, nodes, v) && SameAvailable(before, claims, nodes, v)
  }

  lemma FatesGrow(before: map<Name, Claim>, was: map<Name, Claim>, now: map<Name, Claim>, seen: seq<Name>, name: Name,
                  nodes: set<Node>, v: View)
    requires Fates(before, was, seen, nodes, v) && Fated(was, now, name, nodes, v) && name in before && name !in seen
    ensures Fates(before, now, seen + [name], nodes, v)
  {
    assert was[name] == before[name];
    forall n | n in nodes ensures AvailableOn(now, n, v) == AvailableOn(before, n, v) {
      assert AvailableOn(now, n, v) == AvailableOn(was, n, v);
    }
  }

  /** Since the listing was judged, only available spares were trimmed and new ones made. */
  ghost predicate OnlyTrims(sorted: map<Name, Claim>, claims: map<Name, Claim>) {
    forall name :: name in sorted ==>
      && name in claims
      && (claims[name] == sorted[name] || (sorted[name].tag.Some? && claims[name] == sorted[name].(deleting := true)))
  }

  lemma TrimsKeepFates(before: map<Name, Claim>, sorted: map<Name, Claim>, claims: map<Name, Claim>, listing: seq<Name>,
                       nodes: set<Node>, v: View)
    requires Lists(listing, before) && Fates(before, sorted, listing, nodes, v) && OnlyTrims(sorted, claims)
    requires forall name :: name in before ==> name in sorted && sorted[name].tag == before[name].tag
    ensures OthersSame(listing, before, claims) && Swept(listing, before, claims, nodes, v)
  {
  }

  /** A node keeps the spares it has: none goes while there are too few, and none is made while there are enough. */
  ghost predicate Thrifty(had: set<Name>, has: set<Name>, spares: nat) {
    (|had| <= spares ==> had <= has) && (|had| >= spares ==> has <= had)
  }

  /** A node whose turn has been: exactly `spares`, and no waste. */
  ghost predicate Settled(sorted: map<Name, Claim>, claims: map<Name, Claim>, n: Node, v: View, spares: nat) {
    && |AvailableOn(claims, n, v)| == spares
    && Thrifty(AvailableOn(sorted, n, v), AvailableOn(claims, n, v), spares)
  }

  ghost predicate AllSettled(sorted: map<Name, Claim>, claims: map<Name, Claim>, nodes: seq<Node>, v: View, spares: nat) {
    forall n :: n in nodes ==> Settled(sorted, claims, n, v, spares)
  }

  ghost predicate Unsettled(sorted: map<Name, Claim>, claims: map<Name, Claim>, nodes: seq<Node>, v: View) {
    forall n :: n in nodes ==> AvailableOn(claims, n, v) == AvailableOn(sorted, n, v)
  }

  /** One node's turn leaves the nodes before it settled and the nodes after it as they were. */
  lemma TurnSettles(sorted: map<Name, Claim>, was: map<Name, Claim>, now: map<Name, Claim>, nodes: seq<Node>, i: nat, v: View,
                    spares: nat)
    requires i < |nodes| && forall k, j :: 0 <= k < j < |nodes| ==> nodes[k] != nodes[j]
    requires AllSettled(sorted, was, nodes[..i], v, spares) && Unsettled(sorted, was, nodes[i..], v)
    requires SameElsewhere(was, now, nodes[i], v) && Settled(was, now, nodes[i], v, spares)
    ensures AllSettled(sorted, now, nodes[..i + 1], v, spares) && Unsettled(sorted, now, nodes[i + 1..], v)
  {
    assert nodes[..i + 1] == nodes[..i] + [nodes[i]] && nodes[i..] == [nodes[i]] + nodes[i + 1..];
    assert nodes[i] in nodes[i..];
  }

  /** Of the claims seen so far, exactly the available ones are on the node's list. */
  ghost predicate Kept(names: seq<Name>, seen: seq<Name>, claims: map<Name, Claim>, n: Node, v: View) {
    && Distinct(names)
    && forall name :: name in names <==> name in seen && name in claims && Available(name, claims[name], n, v)
  }

  /** The listing judged up to `seen`. */
  ghost predicate Progress(before: map<Name, Claim>, claims: map<Name, Claim>, seen: seq<Name>,
                           nodes: set<Node>, available: map<Node, seq<Name>>, v: View)
  {
    && claims.Keys == before.Keys && Spared(before, claims, v) && Helped(seen, claims, v)
    && (forall name :: name in before ==> claims[name].tag == before[name].tag)
    && available.Keys == nodes && forall n :: n in nodes ==> Kept(available[n], seen, claims, n, v)
  }

  lemma KeptGrows(names: seq<Name>, seen: seq<Name>, was: map<Name, Claim>, now: map<Name, Claim>, name: Name,
                  n: Node, v: View)
    requires Kept(names, seen, was, n, v) && name !in seen
    requires name in was && name in now && now == was[name := now[name]]
    ensures Kept(if Available(name, now[name], n, v) then names + [name] else names, seen + [name], now, n, v)
  {
  }

  lemma JudgedProgress(before: map<Name, Claim>, was: map<Name, Claim>, now: map<Name, Claim>, seen: seq<Name>,
                       name: Name, nodes: set<Node>, available: map<Node, seq<Name>>, keep: Option<Node>, v: View)
    requires Progress(before, was, seen, nodes, available, v) && name !in seen
    requires Judged(was, now, name, nodes, keep, v)
    ensures Progress(before, now, seen + [name], nodes,
                     if keep.Some? then available[keep.value := available[keep.value] + [name]] else available, v)
  {
    forall n | n in nodes ensures Kept(if keep == Some(n) then available[n] + [name] else available[n],
                                       seen + [name], now, n, v)
    {
      KeptGrows(available[n], seen, was, now, name, n, v);
    }
    HelpedGrows(was, now, seen, name, v);
    SparedOn(before, was, now, v);
  }

  lemma HelpedGrows(was: map<Name, Claim>, now: map<Name, Claim>, seen: seq<Name>, name: Name, v: View)
    requires Helped(seen, was, v) && Helped([name], now, v)
    requires name in was && name in now && now == was[name := now[name]]
    ensures Helped(seen + [name], now, v)
  {
    assert name in [name];
  }

  lemma SparedOn(before: map<Name, Claim>, was: map<Name, Claim>, now: map<Name, Claim>, v: View)
    requires Spared(before, was, v) && Spared(was, now, v)
    ensures Spared(before, now, v)
  {
  }

  lemma OwnedJudged(was: map<Name, Claim>, name: Name, nodes: set<Node>, v: View)
    requires name in was && name in v.references && !was[name].deleting
    ensures var now := was[name := was[name].(owner := Some(v.references[name]), spareHome := false)];
            Judged(was, now, name, nodes, None, v) && Fated(was, now, name, nodes, v)
  {
  }

  lemma LeftJudged(was: map<Name, Claim>, name: Name, nodes: set<Node>, v: View)
    requires name in was && (was[name].deleting || (name in v.mounted && name !in v.references))
    ensures Judged(was, was, name, nodes, None, v) && Fated(was, was, name, nodes, v)
  {
  }

  lemma KeptJudged(was: map<Name, Claim>, name: Name, n: Node, nodes: set<Node>, v: View)
    requires name in was && n in nodes && Available(name, was[name], n, v)
    ensures Judged(was, was, name, nodes, Some(n), v) && Fated(was, was, name, nodes, v)
  {
  }

  lemma DeletedJudged(was: map<Name, Claim>, name: Name, nodes: set<Node>, v: View)
    requires name in was && Useless(name, was[name], nodes, v)
    ensures var now := was[name := was[name].(deleting := true)];
            Judged(was, now, name, nodes, None, v) && Fated(was, now, name, nodes, v)
  {
  }

  /** When the whole listing is judged, the lists are the available claims. */
  lemma AllJudged(before: map<Name, Claim>, claims: map<Name, Claim>, listing: seq<Name>,
                  nodes: set<Node>, available: map<Node, seq<Name>>, v: View)
    requires Lists(listing, before) && Progress(before, claims, listing, nodes, available, v)
    ensures forall n :: n in nodes ==> Distinct(available[n]) && Names(available[n]) == AvailableOn(claims, n, v)
  {
    forall n | n in nodes ensures Distinct(available[n]) && Names(available[n]) == AvailableOn(claims, n, v) {
      assert Kept(available[n], listing, claims, n, v);
    }
  }

  class Cluster {
    var claims: map<Name, Claim>
    var made: nat
    const spares: nat

    /** New names are new: none is in the cluster, a row or a pod already. */
    ghost predicate Valid(v: View)
      reads this
    {
      forall k: nat :: Made(k) in claims || v.Protects(Made(k)) ==> k < made
    }

    method Delete(name: Name)
      requires name in claims
      modifies this`claims
      ensures claims == old(claims)[name := old(claims)[name].(deleting := true)]
    {
      claims := claims[name := claims[name].(deleting := true)];
    }

    method CreateSpare(n: Node, v: View)
      requires Valid(v)
      modifies this
      ensures Valid(v) && claims == old(claims)[Made(old(made)) := Spare(n, v)]
    {
      claims := claims[Made(made) := Spare(n, v)];
      made := made + 1;
    }

    /** `own_spare_claim`: relabels a claim for its owner, or reports that it changed hands. */
    method Own(name: Name, sandbox: Id, n: Node, v: View) returns (ok: bool)
      requires name in claims
      modifies this`claims
      ensures ok <==> var c := old(claims)[name];
        !c.deleting && c.tag == Some(v.hash(n)) && c.node == Some(n) && (c.owner.None? || c.owner == Some(sandbox))
      ensures claims ==
        if ok then old(claims)[name := old(claims)[name].(owner := Some(sandbox), spareHome := false)] else old(claims)
    {
      var c := claims[name];
      if c.deleting || c.tag != Some(v.hash(n)) || c.node != Some(n) || (c.owner.Some? && c.owner.value != sandbox) {
        return false;
      }
      claims := claims[name := c.(owner := Some(sandbox), spareHome := false)];
      return true;
    }

    /** Deletes all but the first `spares` of a node's available claims. */
    method Trim(n: Node, names: seq<Name>, v: View)
      requires Valid(v) && Distinct(names) && Names(names) == AvailableOn(claims, n, v) && spares <= |names|
      modifies this`claims
      ensures Valid(v) && Untouched(old(claims), claims, v) && SameElsewhere(old(claims), claims, n, v)
      ensures AvailableOn(claims, n, v) == Names(names[..spares]) && OnlyTrims(old(claims), claims)
    {
      ghost var before := claims;
      for i := spares to |names|
        invariant claims.Keys == before.Keys
        invariant forall name :: name in before ==>
          claims[name] == if name in names[spares..i] then before[name].(deleting := true) else before[name]
      {
        assert names[i] in Names(names);
        Delete(names[i]);
        assert names[spares..i + 1] == names[spares..i] + [names[i]];
      }
      ghost var gone := Names(names[spares..]);
      assert names == names[..spares] + names[spares..];
      DeletingAvailable(before, claims, gone, n, v);
      assert Names(names) - gone == Names(names[..spares]);
    }

    /** Creates a node's missing spares. */
    method Grow(n: Node, count: nat, v: View)
      requires Valid(v)
      modifies this
      ensures Valid(v) && Untouched(old(claims), claims, v) && SameElsewhere(old(claims), claims, n, v)
      ensures |AvailableOn(claims, n, v)| == |AvailableOn(old(claims), n, v)| + count
      ensures AvailableOn(old(claims), n, v) <= AvailableOn(claims, n, v) && OnlyTrims(old(claims), claims)
    {
      for i := 0 to count
        invariant Valid(v) && Untouched(old(claims), claims, v) && SameElsewhere(old(claims), claims, n, v)
        invariant |AvailableOn(claims, n, v)| == |AvailableOn(old(claims), n, v)| + i
        invariant AvailableOn(old(claims), n, v) <= AvailableOn(claims, n, v) && OnlyTrims(old(claims), claims)
      {
        CreatingSpare(claims, Made(made), n, v);
        CreateSpare(n, v);
      }
    }

    /** One node's turn: it ends with exactly `spares` available claims. */
    method Settle(n: Node, names: seq<Name>, v: View)
      requires Valid(v) && Distinct(names) && Names(names) == AvailableOn(claims, n, v)
      modifies this
      ensures Valid(v) && Untouched(old(claims), claims, v) && SameElsewhere(old(claims), claims, n, v)
      ensures |AvailableOn(claims, n, v)| == spares && OnlyTrims(old(claims), claims)
      ensures Thrifty(AvailableOn(old(claims), n, v), AvailableOn(claims, n, v), spares)
    {
      DistinctCount(names);
      if spares <= |names| {
        Trim(n, names, v);
        DistinctCount(names[..spares]);
      } else {
        Grow(n, spares - |names|, v);
      }
    }

    /** One listed claim: helped if a row refers to it, left alone if mounted or going, kept if it is an available
        spare of a node in use, and deleted otherwise. */
    method Judge(name: Name, nodes: set<Node>, v: View) returns (ok: bool, keep: Option<Node>)
      requires Valid(v) && name in claims
      modifies this`claims
      ensures Valid(v) && Spared(old(claims), claims, v)
      ensures ok <==> !Blocks(name, old(claims)[name], v)
      ensures ok ==> Judged(old(claims), claims, name, nodes, keep, v) && Fated(old(claims), claims, name, nodes, v)
    {
      var c := claims[name];
      ok, keep := true, None;
      if name in v.references {
        if !c.deleting {
          if c.node.None? || c.node.value == "" { return false, None; }
          OwnedJudged(claims, name, nodes, v);
          ok := Own(name, v.references[name], c.node.value, v);
        } else {
          LeftJudged(claims, name, nodes, v);
        }
      } else if name in v.mounted || c.deleting {
        LeftJudged(claims, name, nodes, v);
      } else if c.node.Some? && c.node.value in nodes && Available(name, c, c.node.value, v) {
        KeptJudged(claims, name, c.node.value, nodes, v);
        keep := c.node;
      } else {
        DeletedJudged(claims, name, nodes, v);
        Delete(name);
      }
    }

    method Sort(nodes: set<Node>, listing: seq<Name>, v: View) returns (ok: bool, available: map<Node, seq<Name>>)
      requires Valid(v) && Lists(listing, claims)
      modifies this`claims
      ensures Valid(v) && Spared(old(claims), claims, v)
      ensures ok <==> NoneBlocks(listing, old(claims), v)
      ensures ok ==> Helped(listing, claims, v) && available.Keys == nodes
      ensures ok ==> Fates(old(claims), claims, listing, nodes, v)
      ensures ok ==> forall name :: name in old(claims) ==> name in claims && claims[name].tag == old(claims)[name].tag
      ensures ok ==> forall n :: n in nodes ==>
        Distinct(available[n]) && Names(available[n]) == AvailableOn(claims, n, v)
    {
      ok, available := true, map n | n in nodes :: [];
      ghost var before := claims;
      for i := 0 to |listing|
        invariant Valid(v) && Progress(before, claims, listing[..i], nodes, available, v)
        invariant NoneBlocks(listing[..i], before, v) && Fates(before, claims, listing[..i], nodes, v)
      {
        var name := listing[i];
        assert name !in listing[..i] && listing[..i + 1] == listing[..i] + [name];
        assert name in listing;
        ghost var was := claims;
        var keep;
        ok, keep := Judge(name, nodes, v);
        if !ok { return; }
        FatesGrow(before, was, claims, listing[..i], name, nodes, v);
        JudgedProgress(before, was, claims, listing[..i], name, nodes, available, keep, v);
        if keep.Some? {
          available := available[keep.value := available[keep.value] + [name]];
        }
      }
      assert listing[..|listing|] == listing;
      AllJudged(before, claims, listing, nodes, available, v);
    }

    /** `refill_spare_volumes`, given what it read under the placement lock; false when an owned claim changed hands. */
    method Refill(nodes: seq<Node>, listing: seq<Name>, v: View) returns (ok: bool)
      requires Valid(v) && Lists(listing, claims)
      requires forall i, j :: 0 <= i < j < |nodes| ==> nodes[i] != nodes[j]
      modifies this
      ensures Spared(old(claims), claims, v)
      ensures ok <==> NoneBlocks(listing, old(claims), v)
      ensures ok ==> Helped(listing, claims, v)
      ensures ok ==> AllSettled(old(claims), claims, nodes, v, spares)
      ensures ok ==> Swept(listing, old(claims), claims, (set n | n in nodes), v)
      ensures ok ==> OthersSame(listing, old(claims), claims)
    {
      var available;
      ok, available := Sort((set n | n in nodes), listing, v);
      if !ok { return; }
      ghost var sorted := claims;
      SettleAll(nodes, available, v);
      TrimsKeepFates(old(claims), sorted, claims, listing, (set n | n in nodes), v);
    }

    /** Every node's turn. */
    method SettleAll(nodes: seq<Node>, available: map<Node, seq<Name>>, v: View)
      requires Valid(v) && forall i, j :: 0 <= i < j < |nodes| ==> nodes[i] != nodes[j]
      requires forall n :: n in nodes ==>
        n in available && Distinct(available[n]) && Names(available[n]) == AvailableOn(claims, n, v)
      modifies this
      ensures Valid(v) && Untouched(old(claims), claims, v) && OnlyTrims(old(claims), claims)
      ensures AllSettled(old(claims), claims, nodes, v, spares)
    {
      for i := 0 to |nodes|
        invariant Valid(v) && Untouched(old(claims), claims, v) && OnlyTrims(old(claims), claims)
        invariant AllSettled(old(claims), claims, nodes[..i], v, spares) && Unsettled(old(claims), claims, nodes[i..], v)
      {
        assert nodes[i] in nodes[i..];
        ghost var was := claims;
        Settle(nodes[i], available[nodes[i]], v);
        TurnSettles(old(claims), was, claims, nodes, i, v, spares);
      }
      assert nodes[..|nodes|] == nodes;
    }
  }
}

/** The process-local request cache: an ordered table of loaded values, the generation it is in, and eviction. */
module RequestCache {
  import opened Options

  type Workspace = string

  const TTL := 30
  const MAX_ENTRIES := 10000

  /** What is looked up; `scope` is the workspace an identity names, as a membership's does. */
  datatype Key = Key(kind: string, identity: string, scope: Option<Workspace>)

  /** A loaded value: the workspace it belongs to, its own row, and what its loader read through the cache. */
  datatype Value = Value(workspace: Option<Workspace>, data: string, inner: Option<string>)

  datatype Entry = Entry(key: Key, value: Value, expires: int)

  predicate Distinct(entries: seq<Entry>) {
    forall i, j :: 0 <= i < j < |entries| ==> entries[i].key != entries[j].key
  }

  predicate Belongs(e: Entry, workspace: Workspace) {
    e.value.workspace.None? || e.value.workspace.value == workspace
  }

  /** The entries a notice from one workspace leaves, in order. */
  function Unaffected(entries: seq<Entry>, workspace: Workspace): (r: seq<Entry>)
    ensures forall e :: e in r <==> e in entries && !Belongs(e, workspace)
    ensures |r| <= |entries|
  {
    if entries == [] then []
    else
      var last := |entries| - 1;
      Unaffected(entries[..last], workspace) + if Belongs(entries[last], workspace) then [] else [entries[last]]
  }

  lemma {:induction false} UnaffectedDistinct(entries: seq<Entry>, workspace: Workspace)
    requires Distinct(entries)
    ensures Distinct(Unaffected(entries, workspace))
  {
    if entries != [] {
      var last := |entries| - 1;
      UnaffectedDistinct(entries[..last], workspace);
      forall e | e in Unaffected(entries[..last], workspace) ensures e.key != entries[last].key {
        assert e in entries[..last];
      }
    }
  }

  /** The position of a key, or the table's length. */
  function Position(entries: seq<Entry>, key: Key): (i: nat)
    ensures i <= |entries|
    ensures i < |entries| ==> entries[i].key == key
    ensures i == |entries| ==> forall e :: e in entries ==> e.key != key
  {
    if entries == [] then 0
    else
      var last := |entries| - 1;
      var i := Position(entries[..last], key);
      if i < last then i else if entries[last].key == key then last else last + 1
  }

  /** Removes a key's entry, if it has one. */
  function Popped(entries: seq<Entry>, key: Key): (r: seq<Entry>)
    ensures |r| <= |entries|
    ensures forall e :: e in r ==> e in entries
  {
    var i := Position(entries, key);
    if i < |entries| then entries[..i] + entries[i + 1..] else entries
  }

  lemma PoppedGone(entries: seq<Entry>, key: Key)
    requires Distinct(entries)
    ensures Distinct(Popped(entries, key))
    ensures forall e :: e in entries && e.key != key ==> e in Popped(entries, key)
    ensures forall e :: e in Popped(entries, key) ==> e.key != key
  {
  }

  lemma PoppedShrinks(entries: seq<Entry>, e: Entry)
    requires e in entries
    ensures |Popped(entries, e.key)| == |entries| - 1
  {
  }

  lemma PoppedAt(a: seq<Entry>, e: Entry, b: seq<Entry>)
    requires Distinct(a + [e] + b)
    ensures Popped(a + [e] + b, e.key) == a + b && Distinct(a + b)
  {
    var all := a + [e] + b;
    assert all[|a|] == e;
    var i := Position(all, e.key);
    assert i < |all| by {
      assert e in all;
    }
    assert i == |a|;
    assert Popped(all, e.key) == a + b;
    PoppedGone(all, e.key);
  }

  /** The first `i` of `items` have been looked at. */
  ghost predicate Swept(items: seq<Entry>, i: nat, workspace: Workspace, entries: seq<Entry>)
    requires i <= |items|
  {
    Distinct(entries) && |entries| <= |items| && entries == Unaffected(items[..i], workspace) + items[i..]
  }

  lemma SweepNext(items: seq<Entry>, i: nat, workspace: Workspace, entries: seq<Entry>)
    requires i < |items| && Swept(items, i, workspace, entries)
    ensures Belongs(items[i], workspace) ==> Swept(items, i + 1, workspace, Popped(entries, items[i].key))
    ensures !Belongs(items[i], workspace) ==> Swept(items, i + 1, workspace, entries)
  {
    var kept, rest := Unaffected(items[..i], workspace), items[i + 1..];
    assert items[..i + 1][..i] == items[..i];
    assert entries == kept + [items[i]] + rest;
    if Belongs(items[i], workspace) {
      PoppedAt(kept, items[i], rest);
    }
  }

  /** Sets one key, in its place if it has one and last otherwise, and drops the first entry of an overfull table. */
  function Stored(entries: seq<Entry>, e: Entry): (r: seq<Entry>)
    ensures forall x :: x in r ==> x in entries || x == e
    ensures |entries| <= MAX_ENTRIES ==> |r| <= MAX_ENTRIES
  {
    var i := Position(entries, e.key);
    var table := if i < |entries| then entries[i := e] else entries + [e];
    if |table| > MAX_ENTRIES then table[1..] else table
  }

  /** What is stored is there, and nothing else goes but the key's old entry and, from a full table, the first. */
  lemma StoredHolds(entries: seq<Entry>, e: Entry)
    requires Distinct(entries) && |entries| <= MAX_ENTRIES
    ensures e in Stored(entries, e)
    ensures (forall x :: x in entries ==> x.key != e.key) ==> Stored(entries, e)[|Stored(entries, e)| - 1] == e
    ensures forall x :: x in entries && x.key != e.key && x != entries[0] ==> x in Stored(entries, e)
    ensures |entries| < MAX_ENTRIES ==> forall x :: x in entries && x.key != e.key ==> x in Stored(entries, e)
  {
    var i := Position(entries, e.key);
    var table := if i < |entries| then entries[i := e] else entries + [e];
    forall x | x in entries && x.key != e.key ensures x in table && (x != entries[0] ==> x in table[1..]) {
      var k :| 0 <= k < |entries| && entries[k] == x;
      assert table[k] == x;
      assert k > 0 ==> table[1..][k - 1] == x;
    }
    assert table[if i < |entries| then i else |entries|] == e;
  }

  lemma StoredDistinct(entries: seq<Entry>, e: Entry)
    requires Distinct(entries)
    ensures Distinct(Stored(entries, e))
  {
  }

  class Cache {
    var entries: seq<Entry>
    var generation: nat
    var ready: bool

    ghost predicate Valid()
      reads this
    {
      Distinct(entries) && |entries| <= MAX_ENTRIES
    }

    constructor ()
      ensures Valid() && entries == [] && generation == 0 && !ready
    {
      entries, generation, ready := [], 0, false;
    }

    method Invalidate(workspace: Option<Workspace>)
      requires Valid()
      modifies this`entries, this`generation
      ensures Valid() && generation == old(generation) + 1
      ensures entries == if workspace.None? then [] else Unaffected(old(entries), workspace.value)
    {
      generation := generation + 1;
      if workspace.None? {
        entries := [];
        return;
      }
      var items := entries;
      for i := 0 to |items|
        invariant generation == old(generation) + 1
        invariant Swept(items, i, workspace.value, entries)
      {
        SweepNext(items, i, workspace.value, entries);
        if Belongs(items[i], workspace.value) {
          entries := Popped(entries, items[i].key);
        }
      }
      assert items[..|items|] == items;
    }

    /** The first half of `get`: an entry that has not expired, or the generation to load in. */
    method Lookup(key: Key, now: int) returns (hit: Option<Value>, started: nat)
      requires Valid()
      modifies this`entries
      ensures Valid() && started == generation
      ensures hit.Some? <==> ready && exists e :: e in old(entries) && e.key == key && e.expires > now
      ensures hit.Some? ==>
        exists e :: e in old(entries) && e.key == key && e.value == hit.value && entries == Popped(old(entries), key) + [e]
      ensures hit.None? ==> entries == if ready then Popped(old(entries), key) else old(entries)
    {
      hit, started := None, generation;
      if ready {
        PoppedGone(entries, key);
        var i := Position(entries, key);
        if i < |entries| && entries[i].expires > now {
          hit := Some(entries[i].value);
          entries := Popped(entries, key) + [entries[i]];
        } else {
          entries := Popped(entries, key);
        }
      }
    }

    /** The second half of `get`: keeps a loaded value if nothing was invalidated meanwhile. */
    method Store(key: Key, value: Option<Value>, started: nat, now: int)
      requires Valid()
      modifies this`entries
      ensures Valid()
      ensures entries == if started == generation && ready && value.Some?
                         then Stored(old(entries), Entry(key, value.value, now + TTL)) else old(entries)
    {
      if started == generation && ready && value.Some? {
        var e := Entry(key, value.value, now + TTL);
        StoredDistinct(entries, e);
        entries := Stored(entries, e);
      }
    }
  }
}

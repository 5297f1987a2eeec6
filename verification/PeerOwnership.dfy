/** Which gateway peer serves a resource: the peer whose hash with the resource is highest. */
module PeerOwnership {
  import opened Options
  import Text

  /** The canonical forms of the addresses that have one. */
  function Canonical(addresses: seq<string>, canon: string -> Option<string>): set<string> {
    set a | a in addresses && canon(a).Some? :: canon(a).value
  }

  /** `better` beats `peer`: a higher hash, or the same hash and an earlier address. */
  predicate Beats(score: string -> nat, better: string, peer: string) {
    score(better) > score(peer) || (score(better) == score(peer) && Text.Less(better, peer))
  }

  ghost predicate IsOwner(peers: set<string>, score: string -> nat, owner: string) {
    owner in peers && forall p :: p in peers && p != owner ==> Beats(score, owner, p)
  }

  datatype Choice = Peer(owner: string) | MissingIdentity | BadPeers

  /** The distinct peers in order, unless an address is refused or there is none. */
  method NormalizePeers(addresses: seq<string>, canon: string -> Option<string>) returns (r: Option<seq<string>>)
    ensures r.None? <==> addresses == [] || exists a :: a in addresses && canon(a).None?
    ensures r.Some? ==> r.value == Text.Sorted(Canonical(addresses, canon)) && r.value != []
  {
    var peers := {};
    for i := 0 to |addresses|
      invariant peers == Canonical(addresses[..i], canon)
      invariant forall a :: a in addresses[..i] ==> canon(a).Some?
      invariant i > 0 ==> peers != {}
    {
      if canon(addresses[i]).None? {
        return None;
      }
      assert addresses[..i + 1] == addresses[..i] + [addresses[i]];
      peers := peers + {canon(addresses[i]).value};
    }
    assert addresses[..|addresses|] == addresses;
    if peers == {} {
      return None;
    }
    return Some(Text.Sorted(peers));
  }

  /** The first of the highest, in a list in address order. */
  method First(peers: seq<string>, score: string -> nat) returns (best: nat)
    requires Text.Ascending(peers) && peers != []
    ensures best < |peers| && forall j :: 0 <= j < |peers| && j != best ==> Beats(score, peers[best], peers[j])
  {
    best := 0;
    for i := 1 to |peers|
      invariant best < i
      invariant forall j :: 0 <= j < i && j != best ==> Beats(score, peers[best], peers[j])
    {
      if score(peers[i]) > score(peers[best]) {
        best := i;
      }
    }
  }

  /** The peer that serves a resource. */
  method PeerOwner(addresses: seq<string>, canon: string -> Option<string>, score: string -> nat, identity: string)
    returns (r: Choice)
    ensures r.MissingIdentity? <==> identity == ""
    ensures r.BadPeers? <==> identity != "" && (addresses == [] || exists a :: a in addresses && canon(a).None?)
    ensures r.Peer? ==> IsOwner(Canonical(addresses, canon), score, r.owner)
  {
    if identity == "" {
      return MissingIdentity;
    }
    var normal := NormalizePeers(addresses, canon);
    if normal.None? {
      return BadPeers;
    }
    var best := First(normal.value, score);
    return Peer(normal.value[best]);
  }

  lemma OwnerUnique(peers: set<string>, score: string -> nat, a: string, b: string)
    requires IsOwner(peers, score, a) && IsOwner(peers, score, b)
    ensures a == b
  {
    Text.LessStrict(a, b);
  }

  /** Two lists with the same peers, in any order and with any repetition or spelling, choose the same one. */
  lemma SamePeersSameOwner(xs: seq<string>, ys: seq<string>, canon: string -> Option<string>, score: string -> nat,
                           a: string, b: string)
    requires Canonical(xs, canon) == Canonical(ys, canon)
    requires IsOwner(Canonical(xs, canon), score, a) && IsOwner(Canonical(ys, canon), score, b)
    ensures a == b
  {
    OwnerUnique(Canonical(xs, canon), score, a, b);
  }

  /** Adding a peer moves a resource only to that peer. */
  lemma AddingMovesToNew(peers: set<string>, added: string, score: string -> nat, before: string, after: string)
    requires IsOwner(peers, score, before) && IsOwner(peers + {added}, score, after)
    ensures after == added || after == before
  {
    if after != added {
      OwnerUnique(peers, score, before, after);
    }
  }

  /** Removing a peer moves a resource exactly when the peer owned it. */
  lemma RemovingMovesOwned(peers: set<string>, removed: string, score: string -> nat, before: string, after: string)
    requires IsOwner(peers, score, before) && IsOwner(peers - {removed}, score, after)
    ensures after != before <==> before == removed
  {
    if before != removed {
      OwnerUnique(peers - {removed}, score, before, after);
    }
  }
}

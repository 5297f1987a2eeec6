/** Home snapshots in object storage: an archive stream cut into numbered parts, and the parts put together again. */
module SnapshotParts {
  import opened Options
  import Text

  type Byte = b: int | 0 <= b < 256

  const PART := 0x4000_0000

  // Part names.

  function Digit(d: int): char
    requires 0 <= d < 10
  {
    '0' + d as char
  }

  /** Decimal, padded with zeros to a width. */
  function Digits(n: nat, width: nat): string
    decreases n + width
  {
    if n == 0 && width == 0 then ""
    else Digits(n / 10, if width == 0 then 0 else width - 1) + [Digit(n % 10)]
  }

  function Number(n: nat): string {
    Digits(n, 4)
  }

  function Key(prefix: string, n: nat): string {
    prefix + Number(n)
  }

  lemma {:induction false} DigitsInjective(m: nat, n: nat, width: nat)
    requires Digits(m, width) == Digits(n, width)
    ensures m == n
    decreases m + width
  {
    if m != 0 || width != 0 {
      var w := if width == 0 then 0 else width - 1;
      var a, b := Digits(m, width), Digits(n, width);
      assert a[..|a| - 1] == Digits(m / 10, w) && a[|a| - 1] == Digit(m % 10);
      assert b[..|b| - 1] == Digits(n / 10, w) && b[|b| - 1] == Digit(n % 10);
      DigitsInjective(m / 10, n / 10, w);
    }
  }

  function Pow10(width: nat): nat {
    if width == 0 then 1 else 10 * Pow10(width - 1)
  }

  lemma {:induction false} DigitsLength(n: nat, width: nat)
    requires n < Pow10(width)
    ensures |Digits(n, width)| == width
  {
    if width != 0 {
      DigitsLength(n / 10, width - 1);
    }
  }

  lemma {:induction false} LessLast(a: string, x: char, b: string, y: char)
    requires |a| == |b|
    ensures Text.Less(a + [x], b + [y]) <==> Text.Less(a, b) || (a == b && x < y)
  {
    if a == [] {
    } else {
      assert (a + [x])[1..] == a[1..] + [x] && (b + [y])[1..] == b[1..] + [y];
      LessLast(a[1..], x, b[1..], y);
      assert a == [a[0]] + a[1..] && b == [b[0]] + b[1..];
    }
  }

  /** Numbers that fit the width are ordered as their texts. */
  lemma {:induction false} DigitsOrdered(m: nat, n: nat, width: nat)
    requires m < n < Pow10(width)
    ensures Text.Less(Digits(m, width), Digits(n, width))
  {
    var w := width - 1;
    DigitsLength(m / 10, w);
    DigitsLength(n / 10, w);
    LessLast(Digits(m / 10, w), Digit(m % 10), Digits(n / 10, w), Digit(n % 10));
    if m / 10 < n / 10 {
      DigitsOrdered(m / 10, n / 10, w);
    }
  }

  lemma KeyInjective(prefix: string, m: nat, n: nat)
    requires Key(prefix, m) == Key(prefix, n)
    ensures m == n
  {
    assert Key(prefix, m)[|prefix|..] == Number(m) && Key(prefix, n)[|prefix|..] == Number(n);
    DigitsInjective(m, n, 4);
  }

  lemma {:induction false} LessPrefixed(prefix: string, a: string, b: string)
    ensures Text.Less(prefix + a, prefix + b) <==> Text.Less(a, b)
  {
    if prefix == [] {
      assert prefix + a == a && prefix + b == b;
    } else {
      LessPrefixed(prefix[1..], a, b);
      assert (prefix + a)[1..] == prefix[1..] + a && (prefix + b)[1..] == prefix[1..] + b;
    }
  }

  /** The names of the first `n` parts, in number order. */
  function Names(prefix: string, n: nat): (r: seq<string>)
    ensures |r| == n
  {
    if n == 0 then [] else Names(prefix, n - 1) + [Key(prefix, n - 1)]
  }

  lemma {:induction false} NamesAt(prefix: string, n: nat, i: nat)
    requires i < n
    ensures Names(prefix, n)[i] == Key(prefix, i)
    decreases n
  {
    if i < n - 1 {
      NamesAt(prefix, n - 1, i);
    }
  }

  lemma KeysOrdered(prefix: string, m: nat, n: nat)
    requires m < n < 10000
    ensures Text.Less(Key(prefix, m), Key(prefix, n))
  {
    assert Pow10(4) == 10000 by { assert Pow10(2) == 100; }
    DigitsOrdered(m, n, 4);
    LessPrefixed(prefix, Number(m), Number(n));
  }

  lemma KeysDisordered(prefix: string)
    ensures Text.Less(Key(prefix, 10000), Key(prefix, 9999)) && !Text.Less(Key(prefix, 9999), Key(prefix, 10000))
  {
    assert Digits(9, 1) == "9" && Digits(99, 2) == "99" && Digits(999, 3) == "999" && Digits(9999, 4) == "9999";
    assert Digits(1, 0) == "1" && Digits(10, 1) == "10" && Digits(100, 2) == "100" && Digits(1000, 3) == "1000" &&
           Digits(10000, 4) == "10000";
    LessPrefixed(prefix, Number(10000), Number(9999));
    Text.LessStrict(Key(prefix, 9999), Key(prefix, 10000));
  }

  /** Sorting the names puts them in number order exactly up to the ten thousandth. */
  lemma SortedNames(prefix: string, n: nat, keys: set<string>)
    requires forall k :: k in keys <==> k in Names(prefix, n)
    ensures Text.Sorted(keys) == Names(prefix, n) <==> n <= 10000
  {
    var names := Names(prefix, n);
    if n <= 10000 {
      forall i, j | 0 <= i < j < n ensures Text.Less(names[i], names[j]) {
        NamesAt(prefix, n, i);
        NamesAt(prefix, n, j);
        KeysOrdered(prefix, i, j);
      }
      Text.AscendingUnique(Text.Sorted(keys), names);
    } else {
      KeysDisordered(prefix);
      NamesAt(prefix, n, 9999);
      NamesAt(prefix, n, 10000);
      assert !Text.Less(names[9999], names[10000]);
    }
  }

  // Objects.

  type Store = map<string, seq<Byte>>

  /** The objects that uploading the first `k` parts in turn leaves. */
  function Uploaded(prefix: string, parts: seq<seq<Byte>>, k: nat): Store
    requires k <= |parts|
  {
    if k == 0 then map[] else Uploaded(prefix, parts, k - 1)[Key(prefix, k - 1) := parts[k - 1]]
  }

  lemma NewName(prefix: string, k: nat)
    ensures Key(prefix, k) !in Names(prefix, k)
  {
    var names := Names(prefix, k);
    if Key(prefix, k) in names {
      var i :| 0 <= i < k && names[i] == Key(prefix, k);
      NamesAt(prefix, k, i);
      KeyInjective(prefix, i, k);
    }
  }

  ghost predicate Lists(store: Store, names: seq<string>) {
    |store| == |names| && forall x :: x in store <==> x in names
  }

  lemma ListsNext(store: Store, names: seq<string>, name: string, part: seq<Byte>)
    requires Lists(store, names) && name !in names
    ensures Lists(store[name := part], names + [name])
  {
    assert store[name := part].Keys == store.Keys + {name};
  }

  lemma {:induction false} UploadedNames(prefix: string, parts: seq<seq<Byte>>, k: nat)
    requires k <= |parts|
    ensures Lists(Uploaded(prefix, parts, k), Names(prefix, k))
  {
    if k > 0 {
      UploadedNames(prefix, parts, k - 1);
      NewName(prefix, k - 1);
      ListsNext(Uploaded(prefix, parts, k - 1), Names(prefix, k - 1), Key(prefix, k - 1), parts[k - 1]);
    }
  }

  lemma {:induction false} UploadedAt(prefix: string, parts: seq<seq<Byte>>, k: nat, i: nat)
    requires i < k <= |parts|
    ensures Key(prefix, i) in Uploaded(prefix, parts, k) && Uploaded(prefix, parts, k)[Key(prefix, i)] == parts[i]
    decreases k
  {
    if i < k - 1 {
      UploadedAt(prefix, parts, k - 1, i);
      if Key(prefix, i) == Key(prefix, k - 1) {
        KeyInjective(prefix, i, k - 1);
      }
    }
  }

  /** The first `k` parts, end to end. */
  function Flat(parts: seq<seq<Byte>>, k: nat): seq<Byte>
    requires k <= |parts|
  {
    if k == 0 then [] else Flat(parts, k - 1) + parts[k - 1]
  }

  lemma {:induction false} FlatPrefix(parts: seq<seq<Byte>>, more: seq<seq<Byte>>, k: nat)
    requires k <= |parts| && parts <= more
    ensures Flat(parts, k) == Flat(more, k)
  {
    if k > 0 {
      FlatPrefix(parts, more, k - 1);
    }
  }

  lemma {:induction false} UploadedPrefix(prefix: string, parts: seq<seq<Byte>>, more: seq<seq<Byte>>, k: nat)
    requires k <= |parts| && parts <= more
    ensures Uploaded(prefix, parts, k) == Uploaded(prefix, more, k)
  {
    if k > 0 {
      UploadedPrefix(prefix, parts, more, k - 1);
    }
  }

  // Taking a snapshot.

  /** The parts of an archive: each is full but the last, which is not empty. */
  ghost predicate Cut(parts: seq<seq<Byte>>, data: seq<Byte>) {
    && Flat(parts, |parts|) == data
    && (forall i :: 0 <= i < |parts| ==> 0 < |parts[i]| <= PART)
    && (forall i :: 0 <= i < |parts| - 1 ==> |parts[i]| == PART)
  }

  lemma {:induction false} FullLength(parts: seq<seq<Byte>>, k: nat)
    requires k <= |parts| && forall i :: 0 <= i < k ==> |parts[i]| == PART
    ensures |Flat(parts, k)| == k * PART
  {
    if k > 0 {
      FullLength(parts, k - 1);
    }
  }

  /** How many parts an archive takes. */
  lemma CutCount(parts: seq<seq<Byte>>, data: seq<Byte>)
    requires Cut(parts, data)
    ensures parts == [] <==> data == []
    ensures parts != [] ==> (|parts| - 1) * PART < |data| <= |parts| * PART
  {
    if parts != [] {
      FullLength(parts, |parts| - 1);
    }
  }

  /** The full parts uploaded so far, and the part being written. */
  ghost predicate Writing(prefix: string, store: Store, parts: seq<seq<Byte>>, part: seq<Byte>, data: seq<Byte>) {
    && store == Uploaded(prefix, parts, |parts|)
    && Flat(parts, |parts|) + part == data && |part| < PART
    && (forall i :: 0 <= i < |parts| ==> |parts[i]| == PART)
  }

  lemma UploadNext(prefix: string, store: Store, parts: seq<seq<Byte>>, part: seq<Byte>)
    requires store == Uploaded(prefix, parts, |parts|)
    ensures store[Key(prefix, |parts|) := part] == Uploaded(prefix, parts + [part], |parts| + 1)
    ensures Flat(parts + [part], |parts| + 1) == Flat(parts, |parts|) + part
  {
    FlatPrefix(parts, parts + [part], |parts|);
    UploadedPrefix(prefix, parts, parts + [part], |parts|);
  }

  /** Adds bytes to the part being written. */
  lemma WriteMore(prefix: string, store: Store, parts: seq<seq<Byte>>, part: seq<Byte>, data: seq<Byte>, more: seq<Byte>)
    requires Writing(prefix, store, parts, part, data) && |part| + |more| <= PART
    ensures |part| + |more| < PART ==> Writing(prefix, store, parts, part + more, data + more)
    ensures |part| + |more| == PART ==>
              Writing(prefix, store[Key(prefix, |parts|) := part + more], parts + [part + more], [], data + more)
  {
    UploadNext(prefix, store, parts, part + more);
    assert Flat(parts, |parts|) + (part + more) == data + more;
  }

  /** Cuts one chunk of the stream. */
  method Write(prefix: string, store: Store, index: nat, part: seq<Byte>, chunk: seq<Byte>,
               ghost parts: seq<seq<Byte>>, ghost data: seq<Byte>)
    returns (store': Store, index': nat, part': seq<Byte>, ghost parts': seq<seq<Byte>>)
    requires Writing(prefix, store, parts, part, data) && index == |parts|
    ensures Writing(prefix, store', parts', part', data + chunk) && index' == |parts'|
  {
    store', index', part', parts' := store, index, part, parts;
    var left := chunk;
    ghost var done := data;
    while left != []
      invariant Writing(prefix, store', parts', part', done) && index' == |parts'|
      invariant done + left == data + chunk
      decreases |left|
    {
      var count := if |left| < PART - |part'| then |left| else PART - |part'|;
      WriteMore(prefix, store', parts', part', done, left[..count]);
      part' := part' + left[..count];
      assert done + left == done + left[..count] + left[count..];
      done, left := done + left[..count], left[count..];
      if |part'| == PART {
        store' := store'[Key(prefix, index') := part'];
        parts' := parts' + [part'];
        index', part' := index' + 1, [];
      }
    }
    assert done == data + chunk;
  }

  /** Relays the stream's chunks into numbered parts; a stream that fails leaves no object behind. */
  method Snapshot(prefix: string, chunks: seq<seq<Byte>>, ok: bool) returns (store: Store, ghost parts: seq<seq<Byte>>)
    ensures !ok ==> store == map[]
    ensures ok ==> store == Uploaded(prefix, parts, |parts|) && Cut(parts, Flat(chunks, |chunks|))
  {
    store, parts := map[], [];
    var index, part := 0, [];
    for i := 0 to |chunks|
      invariant Writing(prefix, store, parts, part, Flat(chunks, i)) && index == |parts|
    {
      store, index, part, parts := Write(prefix, store, index, part, chunks[i], parts, Flat(chunks, i));
    }
    if part != [] {
      UploadNext(prefix, store, parts, part);
      store := store[Key(prefix, index) := part];
      parts := parts + [part];
    }
    if !ok {
      store := map[];
    }
  }

  // Restoring it.

  datatype Restored = Home(data: seq<Byte>) | Gone | Incomplete

  /** The first `k` objects of a list, end to end. */
  function Joined(store: Store, keys: seq<string>, k: nat): seq<Byte>
    requires k <= |keys| && forall i :: 0 <= i < |keys| ==> keys[i] in store
  {
    if k == 0 then [] else Joined(store, keys, k - 1) + store[keys[k - 1]]
  }

  method Restore(prefix: string, store: Store) returns (r: Restored)
    ensures r.Gone? <==> store == map[]
    ensures r.Incomplete? <==> store != map[] && Text.Sorted(store.Keys) != Names(prefix, |store|)
    ensures r.Home? ==> r.data == Joined(store, Text.Sorted(store.Keys), |store|)
  {
    var keys := Text.Sorted(store.Keys);
    if keys == [] {
      return Gone;
    }
    assert store != map[] by { assert keys[0] in store; }
    if keys != Names(prefix, |keys|) {
      return Incomplete;
    }
    assert forall i :: 0 <= i < |keys| ==> keys[i] in keys;
    var data := Download(store, keys);
    return Home(data);
  }

  method Download(store: Store, keys: seq<string>) returns (data: seq<Byte>)
    requires forall i :: 0 <= i < |keys| ==> keys[i] in store
    ensures data == Joined(store, keys, |keys|)
  {
    data := [];
    for i := 0 to |keys|
      invariant data == Joined(store, keys, i)
    {
      data := data + store[keys[i]];
    }
  }

  lemma {:induction false} JoinedIsFlat(store: Store, keys: seq<string>, parts: seq<seq<Byte>>, k: nat)
    requires k <= |keys| == |parts| && forall i :: 0 <= i < |keys| ==> keys[i] in store && store[keys[i]] == parts[i]
    ensures Joined(store, keys, k) == Flat(parts, k)
  {
    if k > 0 {
      JoinedIsFlat(store, keys, parts, k - 1);
    }
  }

  lemma UploadedJoins(prefix: string, parts: seq<seq<Byte>>, keys: seq<string>)
    requires keys == Names(prefix, |parts|)
    ensures var store := Uploaded(prefix, parts, |parts|);
            && (forall i :: 0 <= i < |keys| ==> keys[i] in store)
            && Joined(store, keys, |keys|) == Flat(parts, |parts|)
  {
    var store := Uploaded(prefix, parts, |parts|);
    forall i | 0 <= i < |keys| ensures keys[i] in store && store[keys[i]] == parts[i] {
      UploadedAt(prefix, parts, |parts|, i);
      NamesAt(prefix, |parts|, i);
    }
    JoinedIsFlat(store, keys, parts, |keys|);
  }

  /** What is restored from a snapshot of a stream: the stream, if it is not empty and fits ten thousand parts; of an
      empty one nothing is found, and a longer one is refused. */
  method RoundTrip(prefix: string, chunks: seq<seq<Byte>>) returns (r: Restored, ghost parts: seq<seq<Byte>>)
    ensures Cut(parts, Flat(chunks, |chunks|))
    ensures r.Gone? <==> Flat(chunks, |chunks|) == []
    ensures r.Incomplete? <==> |Flat(chunks, |chunks|)| > 10000 * PART
    ensures r.Home? ==> r.data == Flat(chunks, |chunks|)
  {
    var store: Store;
    store, parts := Snapshot(prefix, chunks, true);
    UploadedNames(prefix, parts, |parts|);
    SortedNames(prefix, |parts|, store.Keys);
    CutCount(parts, Flat(chunks, |chunks|));
    r := Restore(prefix, store);
    if r.Home? {
      UploadedJoins(prefix, parts, Names(prefix, |parts|));
    }
  }
}

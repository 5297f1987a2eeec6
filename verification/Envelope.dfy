/** Envelope encryption: data keys wrapped by the current setting, values sealed with data keys, and rotation. */
module Envelope {
  import opened Options
  import Text

  type Id = string
  type Key = string

  /** An authenticated ciphertext: it opens with the key that sealed it and with no other. */
  datatype Cipher = Cipher(key: Key, nonce: nat, data: string)

  function Open(key: Key, c: Cipher): Option<string> {
    if c.key == key then Some(c.data) else None
  }

  /** What wraps new data keys, the local keys of before, and the KMS keys this API may still use. */
  datatype Settings = Settings(kms: Option<string>, secret: Key, previous: seq<Key>, reach: set<string>)

  /** A wrapped data key names what wrapped it. */
  datatype Wrapped = Local(c: Cipher) | Kms(name: string, c: Cipher)

  datatype Row = Row(scope: string, wrapped: Wrapped)

  /** A stored value: the data key it is sealed with, and what was sealed. */
  datatype Stored = Stored(id: Id, c: Cipher, plain: string)

  function LocalKeys(s: Settings): seq<Key> {
    [s.secret] + s.previous
  }

  function Wrap(s: Settings, dataKey: Key, nonce: nat): Wrapped {
    if s.kms.None? then Local(Cipher(s.secret, nonce, dataKey)) else Kms(s.kms.value, Cipher(s.kms.value, nonce, dataKey))
  }

  function Unwrap(s: Settings, w: Wrapped): Option<Key> {
    match w
    case Local(c) => if c.key in LocalKeys(s) then Some(c.data) else None
    case Kms(name, c) => if name in s.reach then Open(name, c) else None
  }

  /** What is wrapped under a setting opens under it, if the API may use the KMS key it names. */
  lemma WrapOpens(s: Settings, dataKey: Key, nonce: nat)
    ensures Unwrap(s, Wrap(s, dataKey, nonce)) ==
            if s.kms.None? || s.kms.value in s.reach then Some(dataKey) else None
  {
  }

  /** The setting with nothing of before. */
  function Alone(s: Settings): Settings {
    Settings(s.kms, s.secret, [], if s.kms.None? then {} else {s.kms.value})
  }

  /** Tries each local key in turn. */
  method TryKeys(keys: seq<Key>, c: Cipher) returns (r: Option<string>)
    ensures r == if c.key in keys then Some(c.data) else None
  {
    for i := 0 to |keys|
      invariant c.key !in keys[..i]
    {
      assert keys[..i + 1] == keys[..i] + [keys[i]];
      if Open(keys[i], c).Some? {
        return Open(keys[i], c);
      }
    }
    assert keys[..|keys|] == keys;
    return None;
  }

  method UnwrapKey(s: Settings, w: Wrapped) returns (r: Option<Key>)
    ensures r == Unwrap(s, w)
  {
    match w
    case Local(c) => r := TryKeys(LocalKeys(s), c);
    case Kms(name, c) => r := if name in s.reach then Open(name, c) else None;
  }

  /** Every row opens to its data key. */
  ghost predicate Opens(s: Settings, rows: map<Id, Row>, truth: map<Id, Key>) {
    forall id :: id in rows ==> id in truth && Unwrap(s, rows[id].wrapped) == Some(truth[id])
  }

  ghost predicate Lists(ids: seq<Id>, rows: map<Id, Row>) {
    && (forall i, j :: 0 <= i < j < |ids| ==> ids[i] != ids[j])
    && (forall id :: id in ids <==> id in rows)
  }

  /** A process with nothing in its cache can read a stored value. */
  predicate Readable(s: Settings, rows: map<Id, Row>, v: Stored) {
    v.id in rows && var key := Unwrap(s, rows[v.id].wrapped); key.Some? && Open(key.value, v.c) == Some(v.plain)
  }

  ghost predicate Sealed(rows: map<Id, Row>, truth: map<Id, Key>, v: Stored) {
    v.id in rows && v.id in truth && v.c.key == truth[v.id] && v.c.data == v.plain
  }

  ghost predicate AllSealed(rows: map<Id, Row>, truth: map<Id, Key>, stored: set<Stored>) {
    forall v :: v in stored ==> Sealed(rows, truth, v)
  }

  /** One data key a scope. */
  ghost predicate Scoped(rows: map<Id, Row>) {
    forall a, b :: a in rows && b in rows && rows[a].scope == rows[b].scope ==> a == b
  }

  /** The KMS key that wraps can be used to unwrap. */
  predicate Usable(s: Settings) {
    s.kms.Some? ==> s.kms.value in s.reach
  }

  lemma Added(s: Settings, rows: map<Id, Row>, truth: map<Id, Key>, stored: set<Stored>, id: Id, scope: string, key: Key,
              nonce: nat)
    requires Usable(s) && Opens(s, rows, truth) && Scoped(rows) && AllSealed(rows, truth, stored) && id !in rows
    requires forall k :: k in rows ==> rows[k].scope != scope
    ensures var rows', truth' := rows[id := Row(scope, Wrap(s, key, nonce))], truth[id := key];
            Opens(s, rows', truth') && Scoped(rows') && AllSealed(rows', truth', stored)
  {
    WrapOpens(s, key, nonce);
  }

  lemma Rewrapped(s: Settings, rows: map<Id, Row>, truth: map<Id, Key>, stored: set<Stored>, id: Id, nonce: nat)
    requires Usable(s) && Opens(s, rows, truth) && Scoped(rows) && AllSealed(rows, truth, stored) && id in rows
    ensures var rows' := rows[id := Row(rows[id].scope, Wrap(s, truth[id], nonce))];
            Opens(s, rows', truth) && Scoped(rows') && AllSealed(rows', truth, stored)
  {
    WrapOpens(s, truth[id], nonce);
  }

  /** The first `i` of `ids` open under the current setting alone. */
  ghost predicate Renewed(s: Settings, rows: map<Id, Row>, truth: map<Id, Key>, ids: seq<Id>, i: nat)
    requires i <= |ids|
  {
    forall j :: 0 <= j < i ==>
      ids[j] in rows && ids[j] in truth && Unwrap(Alone(s), rows[ids[j]].wrapped) == Some(truth[ids[j]])
  }

  lemma RenewedNext(s: Settings, rows: map<Id, Row>, truth: map<Id, Key>, ids: seq<Id>, i: nat, nonce: nat)
    requires i < |ids| && Renewed(s, rows, truth, ids, i) && ids[i] in rows && ids[i] in truth
    ensures Renewed(s, rows[ids[i] := Row(rows[ids[i]].scope, Wrap(s, truth[ids[i]], nonce))], truth, ids, i + 1)
  {
    WrapOpens(Alone(s), truth[ids[i]], nonce);
  }

  lemma RenewedAll(s: Settings, rows: map<Id, Row>, truth: map<Id, Key>, ids: seq<Id>)
    requires Renewed(s, rows, truth, ids, |ids|) && forall id :: id in rows ==> id in ids
    ensures Opens(Alone(s), rows, truth)
  {
    forall id | id in rows ensures id in truth && Unwrap(Alone(s), rows[id].wrapped) == Some(truth[id]) {
      var j :| 0 <= j < |ids| && ids[j] == id;
    }
  }

  /** After a change of settings a stored value is readable exactly when what wrapped its data key is still there: the
      local key among the current and previous ones, or the KMS key within reach. */
  lemma ReadableExactly(before: Settings, next: Settings, rows: map<Id, Row>, truth: map<Id, Key>, v: Stored)
    requires Opens(before, rows, truth) && Sealed(rows, truth, v)
    ensures Readable(before, rows, v)
    ensures Readable(next, rows, v) <==>
            match rows[v.id].wrapped
            case Local(c) => c.key in LocalKeys(next)
            case Kms(name, _) => name in next.reach
  {
    assert Unwrap(before, rows[v.id].wrapped) == Some(truth[v.id]);
  }

  /** Once every data key opens under the current setting alone, whatever else was configured may go. */
  lemma OldKeysMayGo(s: Settings, next: Settings, rows: map<Id, Row>, truth: map<Id, Key>, v: Stored)
    requires Opens(Alone(s), rows, truth) && Sealed(rows, truth, v)
    requires next.secret == s.secret && (s.kms.Some? ==> s.kms.value in next.reach)
    ensures Readable(next, rows, v)
  {
    ReadableExactly(Alone(s), next, rows, truth, v);
  }

  // Tokens as text.

  const ENVELOPE := "zk1:"

  function Token(id: Id, sealed: string): string {
    ENVELOPE + id + [':'] + sealed
  }

  /** The data key's id and the sealed part. */
  function Split(token: string): (Id, string)
    requires |token| >= |ENVELOPE|
  {
    Text.Partition(token[|ENVELOPE|..], ':')
  }

  lemma TokenRoundTrip(id: Id, sealed: string)
    requires ':' !in id
    ensures Split(Token(id, sealed)) == (id, sealed)
  {
    assert Token(id, sealed)[|ENVELOPE|..] == id + [':'] + sealed;
    Text.PartitionJoins(id, ':', sealed);
  }

  function WrappedText(provider: string, place: string, cipher: string): string {
    provider + [':'] + (place + [':'] + cipher)
  }

  /** What a KMS wrapped comes apart as it was put together, whatever colons its ciphertext holds. */
  lemma WrappedTextRoundTrip(provider: string, place: string, cipher: string)
    requires ':' !in provider && ':' !in place
    ensures var (p, rest) := Text.Partition(WrappedText(provider, place, cipher), ':');
            p == provider && Text.Partition(rest, ':') == (place, cipher)
  {
    Text.PartitionJoins(provider, ':', place + [':'] + cipher);
    Text.PartitionJoins(place, ':', cipher);
  }

  /** What happens over the life of an installation; `own` is false for what another process does. */
  datatype Op =
    | Encrypt(scope: string, plain: string, newId: Id, newKey: Key, nonce: nat, own: bool)
    | Decrypt(id: Id, c: Cipher)
    | Rotate(nonce: nat, own: bool)
    | Reconfigure(next: Settings)

  class Keyring {
    var rows: map<Id, Row>
    var cache: map<Id, Key>
    var settings: Settings
    ghost var truth: map<Id, Key>
    ghost var stored: set<Stored>

    /** The current setting can wrap and open; every row and every cached key is the row's data key; every stored
        value is sealed with its row's data key. */
    ghost predicate Valid()
      reads this
    {
      && Usable(settings) && Opens(settings, rows, truth) && Scoped(rows)
      && (forall id :: id in cache ==> id in rows && cache[id] == truth[id])
      && AllSealed(rows, truth, stored)
    }

    constructor (settings: Settings)
      requires Usable(settings)
      ensures Valid() && this.settings == settings && rows == map[] && stored == {}
    {
      this.settings := settings;
      rows, cache, truth, stored := map[], map[], map[], {};
    }

    /** A scope's data key, made if there is none; `own` tells whether this process asks, and so remembers it. */
    method DataKey(scope: string, newId: Id, newKey: Key, nonce: nat, own: bool) returns (id: Id, key: Key)
      requires Valid() && newId !in rows
      modifies this
      ensures Valid() && stored == old(stored) && settings == old(settings)
      ensures id in rows && rows[id].scope == scope && key == truth[id]
      ensures forall k :: k in old(rows) ==> k in rows && rows[k] == old(rows)[k] && truth[k] == old(truth)[k]
      ensures (exists k :: k in old(rows) && old(rows)[k].scope == scope) ==> rows == old(rows)
      ensures (forall k :: k in old(rows) ==> old(rows)[k].scope != scope) ==>
                id == newId && key == newKey && rows == old(rows)[newId := Row(scope, Wrap(settings, newKey, nonce))]
    {
      if exists k :: k in rows && rows[k].scope == scope {
        id :| id in rows && rows[id].scope == scope;
      } else {
        id := newId;
        Added(settings, rows, truth, stored, id, scope, newKey, nonce);
        rows := rows[id := Row(scope, Wrap(settings, newKey, nonce))];
        truth := truth[id := newKey];
      }
      key := KeyOf(id, own);
    }

    method KeyOf(id: Id, own: bool) returns (key: Key)
      requires Valid() && id in rows
      modifies this`cache
      ensures Valid() && key == truth[id]
      ensures cache == if own then old(cache)[id := key] else old(cache)
    {
      if own && id in cache {
        return cache[id];
      }
      var k := UnwrapKey(settings, rows[id].wrapped);
      key := k.value;
      if own {
        cache := cache[id := key];
      }
    }

    method Encrypt(scope: string, plain: string, newId: Id, newKey: Key, nonce: nat, own: bool) returns (v: Stored)
      requires Valid() && newId !in rows
      modifies this
      ensures Valid() && v.plain == plain && stored == old(stored) + {v}
      ensures v.id in rows && rows[v.id].scope == scope && v.c == Cipher(truth[v.id], nonce, plain)
      ensures (forall k :: k in old(rows) ==> old(rows)[k].scope != scope) ==> v.id == newId && truth[v.id] == newKey
      ensures forall k :: k in old(rows) ==> k in rows && rows[k] == old(rows)[k] && truth[k] == old(truth)[k]
    {
      var id, key := DataKey(scope, newId, newKey, nonce, own);
      v := Stored(id, Cipher(key, nonce, plain), plain);
      stored := stored + {v};
    }

    /** None for a token of no known data key, or not sealed with it; a stored value always opens to its plain text. */
    method Decrypt(id: Id, c: Cipher) returns (plain: Option<string>)
      requires Valid()
      modifies this`cache
      ensures Valid()
      ensures plain == if id in rows then Open(truth[id], c) else None
      ensures forall v :: v in stored && v.id == id && v.c == c ==> plain == Some(v.plain)
    {
      if id !in rows {
        return None;
      }
      var key := KeyOf(id, true);
      return Open(key, c);
    }

    /** Rewraps every data key under the current setting; the data keys, and so the stored values, stay the same, and
        nothing but the current setting is needed any more. */
    method Rotate(ids: seq<Id>, nonce: nat, own: bool) returns (count: nat)
      requires Valid() && Lists(ids, rows)
      modifies this
      ensures Valid() && count == |ids| && truth == old(truth) && stored == old(stored) && settings == old(settings)
      ensures rows.Keys == old(rows).Keys
      ensures Opens(Alone(settings), rows, truth) && (own ==> cache == map[])
    {
      count := 0;
      for i := 0 to |ids|
        invariant Valid() && count == i && truth == old(truth) && stored == old(stored) && settings == old(settings)
        invariant rows.Keys == old(rows).Keys
        invariant Renewed(settings, rows, truth, ids, i)
        invariant own ==> forall id :: id in cache ==> id in ids[i..]
      {
        assert ids[i] in rows;
        RenewedNext(settings, rows, truth, ids, i, nonce);
        Rewrap(ids[i], nonce, own);
        count := count + 1;
      }
      RenewedAll(settings, rows, truth, ids);
    }

    method Rewrap(id: Id, nonce: nat, own: bool)
      requires Valid() && id in rows
      modifies this`rows, this`cache
      ensures Valid() && rows == old(rows)[id := Row(old(rows)[id].scope, Wrap(settings, truth[id], nonce))]
      ensures cache == if own then old(cache) - {id} else old(cache)
    {
      var key := UnwrapKey(settings, rows[id].wrapped);
      Rewrapped(settings, rows, truth, stored, id, nonce);
      rows := rows[id := rows[id].(wrapped := Wrap(settings, key.value, nonce))];
      if own {
        cache := cache - {id};
      }
    }

    /** New settings, under which what was wrapped before still opens. */
    method Reconfigure(next: Settings)
      requires Valid() && Usable(next)
      requires forall id :: id in rows ==> Unwrap(next, rows[id].wrapped).Some?
      modifies this
      ensures Valid() && settings == next && rows == old(rows) && stored == old(stored) && truth == old(truth)
    {
      settings := next;
      cache := map[];
    }

    /** Whether a change of settings keeps what wrapped the rows. */
    predicate Keeps(next: Settings)
      reads this
    {
      && Usable(next)
      && (forall id :: id in rows ==> Unwrap(next, rows[id].wrapped).Some?)
    }

    /** Through any operations and any settings that keep the old keys available, every value ever stored stays
        readable, even by a process that has just started. */
    method Run(ops: seq<Op>)
      requires Valid()
      modifies this
      ensures Valid() && old(stored) <= stored
      ensures forall v :: v in stored ==> Readable(settings, rows, v)
    {
      for i := 0 to |ops|
        invariant Valid() && old(stored) <= stored
      {
        match ops[i] {
          case Encrypt(scope, plain, newId, newKey, nonce, own) =>
            if newId !in rows {
              var _ := Encrypt(scope, plain, newId, newKey, nonce, own);
            }
          case Decrypt(id, c) => var _ := Decrypt(id, c);
          case Rotate(nonce, own) =>
            var ids := Text.Sorted(rows.Keys);
            SortedLists(rows);
            var _ := Rotate(ids, nonce, own);
          case Reconfigure(next) =>
            if Keeps(next) {
              Reconfigure(next);
            }
        }
      }
      forall v | v in stored ensures Readable(settings, rows, v) {
        ReadableExactly(settings, settings, rows, truth, v);
      }
    }
  }

  lemma SortedLists(rows: map<Id, Row>)
    ensures Lists(Text.Sorted(rows.Keys), rows)
  {
    var ids := Text.Sorted(rows.Keys);
    forall i, j | 0 <= i < j < |ids| ensures ids[i] != ids[j] {
      Text.LessStrict(ids[i], ids[j]);
    }
  }
}

/** The registry's table of names and its two indexes (`tla-registry/src/indexes.rs`). */
module NameTable {
  import opened Common
  import opened RegistryTypes

  type Key = string

  /** Each bucket lists its keys in insertion order; removal moves the last key into the gap. */
  type Index = map<AccountId, seq<Key>>

  datatype Table = Table(subs: map<Key, Sub>, byOwner: Index, byTla: Index, claimed: set<Key>)

  function KeyOf(tla: AccountId, name: string): Key {
    name + "." + tla
  }

  function Bucket(index: Index, id: AccountId): seq<Key> {
    if id in index then index[id] else []
  }

  function IndexAdd(index: Index, id: AccountId, key: Key): Index {
    var keys := Bucket(index, id);
    index[id := if key in keys then keys else keys + [key]]
  }

  function Position(keys: seq<Key>, key: Key): (i: nat)
    requires key in keys
    ensures i < |keys| && keys[i] == key
  {
    if keys[0] == key then 0 else 1 + Position(keys[1..], key)
  }

  function SwapRemove(keys: seq<Key>, key: Key): seq<Key> {
    if key !in keys then keys
    else
      var last := |keys| - 1;
      keys[Position(keys, key) := keys[last]][..last]
  }

  function IndexRemove(index: Index, id: AccountId, key: Key): Index {
    if id !in index then index
    else
      var keys := SwapRemove(index[id], key);
      if keys == [] then index - {id} else index[id := keys]
  }

  function Insert(l: Table, key: Key, sub: Sub): Table {
    l.(subs := l.subs[key := sub], byOwner := IndexAdd(l.byOwner, sub.owner, key), byTla := IndexAdd(l.byTla, sub.tla, key))
  }

  function Remove(l: Table, key: Key): Table {
    if key !in l.subs then l
    else
      var sub := l.subs[key];
      Table(l.subs - {key}, IndexRemove(l.byOwner, sub.owner, key), IndexRemove(l.byTla, sub.tla, key), l.claimed - {key})
  }

  function Reassign(l: Table, key: Key, owner: AccountId, payout: AccountId): Table
    requires key in l.subs
  {
    var sub := l.subs[key];
    var moved := l.(subs := l.subs[key := sub.(owner := owner, payout := payout)]);
    if sub.owner == owner then moved
    else moved.(byOwner := IndexAdd(IndexRemove(l.byOwner, sub.owner, key), owner, key))
  }

  // ---------------------------------------------------------------- what the indexes mean

  predicate Lists(index: Index, id: AccountId, key: Key) {
    id in index && key in index[id]
  }

  /** No bucket is empty and none lists a key twice. */
  ghost predicate Tidy(index: Index) {
    forall id :: id in index ==> index[id] != [] && Distinct(index[id])
  }

  /** Both indexes list exactly the names of each owner and of each top-level account. */
  ghost predicate Indexed(l: Table) {
    && Tidy(l.byOwner) && Tidy(l.byTla)
    && (forall id, key :: Lists(l.byOwner, id, key) <==> key in l.subs && l.subs[key].owner == id)
    && (forall id, key :: Lists(l.byTla, id, key) <==> key in l.subs && l.subs[key].tla == id)
  }

  lemma AddLists(index: Index, id: AccountId, key: Key)
    requires Tidy(index)
    ensures Tidy(IndexAdd(index, id, key))
    ensures forall i, k :: Lists(IndexAdd(index, id, key), i, k) <==> Lists(index, i, k) || (i == id && k == key)
    ensures !Lists(index, id, key) ==> |Bucket(IndexAdd(index, id, key), id)| == |Bucket(index, id)| + 1
    ensures forall i :: i != id ==> Bucket(IndexAdd(index, id, key), i) == Bucket(index, i)
  {
  }

  lemma SwapRemoves(keys: seq<Key>, key: Key)
    requires Distinct(keys) && key in keys
    ensures Distinct(SwapRemove(keys, key))
    ensures |SwapRemove(keys, key)| == |keys| - 1
    ensures forall k :: k in SwapRemove(keys, key) <==> k in keys && k != key
  {
    var last, p := |keys| - 1, Position(keys, key);
    var out := SwapRemove(keys, key);
    assert forall i :: 0 <= i < last ==> out[i] == if i == p then keys[last] else keys[i];
    forall k | k in keys && k != key
      ensures k in out
    {
      var i :| 0 <= i < |keys| && keys[i] == k;
      assert out[if i == last then p else i] == k;
    }
  }

  lemma RemoveUnlists(index: Index, id: AccountId, key: Key)
    requires Tidy(index) && Lists(index, id, key)
    ensures Tidy(IndexRemove(index, id, key))
    ensures forall i, k :: Lists(IndexRemove(index, id, key), i, k) <==> Lists(index, i, k) && !(i == id && k == key)
    ensures |Bucket(IndexRemove(index, id, key), id)| == |Bucket(index, id)| - 1
    ensures forall i :: i != id ==> Bucket(IndexRemove(index, id, key), i) == Bucket(index, i)
  {
    SwapRemoves(index[id], key);
  }

  lemma InsertIndexes(l: Table, key: Key, sub: Sub)
    requires Indexed(l) && key !in l.subs
    ensures Indexed(Insert(l, key, sub))
    ensures |Bucket(Insert(l, key, sub).byTla, sub.tla)| == |Bucket(l.byTla, sub.tla)| + 1
    ensures forall t :: t != sub.tla ==> Bucket(Insert(l, key, sub).byTla, t) == Bucket(l.byTla, t)
  {
    assert !Lists(l.byTla, sub.tla, key) && !Lists(l.byOwner, sub.owner, key);
    AddLists(l.byOwner, sub.owner, key);
    AddLists(l.byTla, sub.tla, key);
  }

  lemma RemoveIndexes(l: Table, key: Key)
    requires Indexed(l) && key in l.subs
    ensures Indexed(Remove(l, key))
    ensures |Bucket(Remove(l, key).byTla, l.subs[key].tla)| == |Bucket(l.byTla, l.subs[key].tla)| - 1
    ensures forall t :: t != l.subs[key].tla ==> Bucket(Remove(l, key).byTla, t) == Bucket(l.byTla, t)
  {
    var sub := l.subs[key];
    assert Lists(l.byTla, sub.tla, key) && Lists(l.byOwner, sub.owner, key);
    RemoveUnlists(l.byOwner, sub.owner, key);
    RemoveUnlists(l.byTla, sub.tla, key);
  }

  lemma ReassignIndexes(l: Table, key: Key, owner: AccountId, payout: AccountId)
    requires Indexed(l) && key in l.subs
    ensures Indexed(Reassign(l, key, owner, payout))
  {
    var sub := l.subs[key];
    if sub.owner != owner {
      assert Lists(l.byOwner, sub.owner, key);
      RemoveUnlists(l.byOwner, sub.owner, key);
      AddLists(IndexRemove(l.byOwner, sub.owner, key), owner, key);
    }
  }

  /** Rewriting an entry's terms, but not its owner or top-level account, leaves the indexes exact. */
  lemma AmendIndexes(l: Table, key: Key, sub: Sub)
    requires Indexed(l) && key in l.subs && sub.owner == l.subs[key].owner && sub.tla == l.subs[key].tla
    ensures Indexed(l.(subs := l.subs[key := sub]))
  {
  }

  // ---------------------------------------------------------------- names and keys

  predicate IsSeparator(c: char) {
    c == '-' || c == '_'
  }

  predicate ValidName(name: string) {
    && 1 <= |name| <= 60
    && (forall i :: 0 <= i < |name| ==> 'a' <= name[i] <= 'z' || '0' <= name[i] <= '9' || IsSeparator(name[i]))
    && !IsSeparator(name[0]) && !IsSeparator(name[|name| - 1])
    && (forall i :: 0 <= i < |name| - 1 ==> !(IsSeparator(name[i]) && IsSeparator(name[i + 1])))
  }

  predicate MintableName(tla: AccountId, name: string) {
    ValidName(name) && |name| >= 2 && |name| + 1 + |tla| <= 64
  }

  lemma NoDotBefore(tla: AccountId, name: string)
    requires ValidName(name)
    ensures forall i :: 0 <= i < |name| ==> KeyOf(tla, name)[i] != '.'
  {
    forall i | 0 <= i < |name|
      ensures KeyOf(tla, name)[i] != '.'
    {
      assert KeyOf(tla, name)[i] == name[i];
    }
  }

  /** A key names one name under one top-level account only. */
  lemma KeysAreDistinct(tla: AccountId, name: string, tla': AccountId, name': string)
    requires ValidName(name) && ValidName(name') && KeyOf(tla, name) == KeyOf(tla', name')
    ensures tla == tla' && name == name'
  {
    var k := KeyOf(tla, name);
    assert k[|name|] == '.' && KeyOf(tla', name')[|name'|] == '.';
    NoDotBefore(tla, name);
    NoDotBefore(tla', name');
    assert |name| == |name'|;
    assert name == k[..|name|] && name' == k[..|name'|];
    assert tla == k[|name| + 1..] && tla' == k[|name'| + 1..];
  }
}

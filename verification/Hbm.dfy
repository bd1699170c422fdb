/** The engine-owned pool: a byte-capped LRU set (`HBMTier` in src/acr/replay.py). */
module Hbm {
  import opened Base
  import opened Trace

  predicate Holds(blocks: seq<Item>, k: Key) { exists i :: 0 <= i < |blocks| && blocks[i].key == k }

  ghost predicate UniqueItems(blocks: seq<Item>) {
    forall i, j :: 0 <= i < j < |blocks| ==> blocks[i].key != blocks[j].key
  }

  /** The blocks whose key is not in `ks`, in order. */
  function Rest(blocks: seq<Item>, ks: set<Key>): seq<Item> {
    if blocks == [] then []
    else if blocks[0].key in ks then Rest(blocks[1..], ks)
    else [blocks[0]] + Rest(blocks[1..], ks)
  }

  /** The stored block of a key, else the new one. */
  function Stored(blocks: seq<Item>, item: Item): (r: Item)
    ensures r.key == item.key
  {
    if blocks == [] then item
    else if blocks[0].key == item.key then blocks[0] else Stored(blocks[1..], item)
  }

  /** Put one block at the recent end; a block that is there keeps the size it was stored with. */
  function Place(blocks: seq<Item>, item: Item): seq<Item> {
    Rest(blocks, {item.key}) + [Stored(blocks, item)]
  }

  function Fill(blocks: seq<Item>, items: seq<Item>): seq<Item>
    decreases |items|
  {
    if items == [] then blocks else Fill(Place(blocks, items[0]), items[1..])
  }

  /** What stays when unprotected blocks are dropped, oldest first, until `over` bytes are gone. */
  function Shed(blocks: seq<Item>, protected: set<Key>, over: int): seq<Item> {
    if over <= 0 || blocks == [] then blocks
    else if blocks[0].key in protected then [blocks[0]] + Shed(blocks[1..], protected, over)
    else Shed(blocks[1..], protected, over - blocks[0].nbytes)
  }

  /** The keys that are dropped. */
  function ShedKeys(blocks: seq<Item>, protected: set<Key>, over: int): seq<Key> {
    if over <= 0 || blocks == [] then []
    else if blocks[0].key in protected then ShedKeys(blocks[1..], protected, over)
    else [blocks[0].key] + ShedKeys(blocks[1..], protected, over - blocks[0].nbytes)
  }

  /** The keys of the blocks that are not protected, oldest first. */
  function Unprotected(blocks: seq<Item>, protected: set<Key>): seq<Key> {
    if blocks == [] then []
    else if blocks[0].key in protected then Unprotected(blocks[1..], protected)
    else [blocks[0].key] + Unprotected(blocks[1..], protected)
  }

  /** The held blocks of the keys, in the order of the keys. */
  function Held(blocks: seq<Item>, keys: seq<Key>): seq<Item> {
    if keys == [] then []
    else if Holds(blocks, keys[0]) then [Stored(blocks, Item(keys[0], 0))] + Held(blocks, keys[1..])
    else Held(blocks, keys[1..])
  }

  class HBMTier {
    const capacity: nat
    var blocks: seq<Item>
    var used: int

    ghost predicate Valid()
      reads this
    {
      UniqueItems(blocks) && used == ItemBytes(blocks)
    }

    constructor (capacity: nat)
      ensures Valid() && this.capacity == capacity && blocks == []
    {
      this.capacity, blocks, used := capacity, [], 0;
    }

    method Locate(k: Key) returns (i: nat)
      ensures i <= |blocks| && (i < |blocks| ==> blocks[i].key == k)
      ensures forall j :: 0 <= j < i ==> blocks[j].key != k
    {
      i := 0;
      while i < |blocks| && blocks[i].key != k
        invariant i <= |blocks| && forall j :: 0 <= j < i ==> blocks[j].key != k
      {
        i := i + 1;
      }
    }

    /** `touch`: the blocks of the keys that are held are filled in anew, at the sizes they are held with. */
    method Touch(keys: seq<Key>)
      requires Valid()
      modifies this
      ensures Valid() && used == old(used)
      ensures blocks == Fill(old(blocks), Held(old(blocks), keys))
      ensures KeySet(ItemKeys(blocks)) == old(KeySet(ItemKeys(blocks)))
    {
      for n := 0 to |keys|
        invariant Valid() && used == old(used) && KeySet(ItemKeys(blocks)) == old(KeySet(ItemKeys(blocks)))
        invariant Fill(blocks, Held(blocks, keys[n..])) == Fill(old(blocks), Held(old(blocks), keys))
      {
        assert keys[n..][1..] == keys[n + 1..];
        var i := Locate(keys[n]);
        if i < |blocks| {
          ghost var before := blocks;
          TouchOne(blocks, keys[n..], i);
          MoveToEnd(blocks, i);
          blocks := blocks[..i] + blocks[i + 1..] + [blocks[i]];
          forall k
            ensures k in KeySet(ItemKeys(blocks)) <==> k in KeySet(ItemKeys(before))
          {
            SameKeys(before, i, k);
          }
        }
      }
    }

    /** Fill, then drop the least recently used unprotected blocks until the pool fits. */
    method Store(items: seq<Item>, protected: set<Key>) returns (evicted: seq<Key>)
      requires Valid()
      modifies this
      ensures Valid()
      ensures var filled := Fill(old(blocks), items);
              var over := ItemBytes(filled) - capacity;
              blocks == Shed(filled, protected, over) && evicted == ShedKeys(filled, protected, over)
    {
      FillUp(items);
      if used <= capacity { return []; }
      evicted := DropOldest(protected);
    }

    method FillUp(items: seq<Item>)
      requires Valid()
      modifies this
      ensures Valid() && blocks == Fill(old(blocks), items)
    {
      for n := 0 to |items|
        invariant Valid() && Fill(blocks, items[n..]) == Fill(old(blocks), items)
      {
        assert items[n..][1..] == items[n + 1..];
        var i := Locate(items[n].key);
        if i < |blocks| {
          MoveToEnd(blocks, i);
          PlaceHeld(blocks, items[n], i);
          blocks := blocks[..i] + blocks[i + 1..] + [blocks[i]];
        } else {
          PlaceNew(blocks, items[n]);
          ItemBytesConcat(blocks, [items[n]]);
          blocks := blocks + [items[n]];
          used := used + items[n].nbytes;
        }
      }
    }

    /** One pass over the unprotected blocks, oldest first. */
    method DropOldest(protected: set<Key>) returns (evicted: seq<Key>)
      requires Valid()
      modifies this
      ensures Valid()
      ensures blocks == Shed(old(blocks), protected, old(used) - capacity)
      ensures evicted == ShedKeys(old(blocks), protected, old(used) - capacity)
    {
      evicted := [];
      var victims := Unprotected(blocks, protected);
      var n := 0;
      assert victims[0..] == victims;
      while n < |victims| && used > capacity
        invariant n <= |victims| && Valid() && victims[n..] == Unprotected(blocks, protected)
        invariant Shed(blocks, protected, used - capacity) == Shed(old(blocks), protected, old(used) - capacity)
        invariant evicted + ShedKeys(blocks, protected, used - capacity)
               == ShedKeys(old(blocks), protected, old(used) - capacity)
      {
        var i := Locate(victims[n]);
        assert victims[n..][1..] == victims[n + 1..] && victims[n..][0] == victims[n];
        FirstVictim(blocks, protected, used - capacity, i);
        evicted := evicted + [victims[n]];
        used := used - blocks[i].nbytes;
        blocks := blocks[..i] + blocks[i + 1..];
        n := n + 1;
      }
      if used > capacity { NothingToShed(blocks, protected, used - capacity); }
      assert evicted + [] == evicted;
    }
  }

  // ---- lemmas about the recency list ----------------------------------------

  lemma {:induction false} RestNone(blocks: seq<Item>, k: Key)
    requires !Holds(blocks, k)
    ensures Rest(blocks, {k}) == blocks
  {
    if blocks != [] { RestNone(blocks[1..], k); }
  }

  lemma {:induction false} RestOne(blocks: seq<Item>, k: Key, i: nat)
    requires i < |blocks| && forall j :: 0 <= j < |blocks| ==> (blocks[j].key == k <==> j == i)
    ensures Rest(blocks, {k}) == blocks[..i] + blocks[i + 1..]
  {
    if i == 0 {
      RestNone(blocks[1..], k);
      assert blocks[..0] + blocks[1..] == blocks[1..];
    } else {
      RestOne(blocks[1..], k, i - 1);
      assert blocks[..i] + blocks[i + 1..] == [blocks[0]] + (blocks[1..][..i - 1] + blocks[1..][i..]);
    }
  }

  lemma {:induction false} StoredIs(blocks: seq<Item>, item: Item, l: nat)
    requires UniqueItems(blocks) && l < |blocks| && blocks[l].key == item.key
    ensures Stored(blocks, item) == blocks[l]
  {
    if l > 0 { StoredIs(blocks[1..], item, l - 1); }
  }

  lemma {:induction false} StoredNew(blocks: seq<Item>, item: Item)
    requires !Holds(blocks, item.key)
    ensures Stored(blocks, item) == item
  {
    if blocks != [] {
      assert blocks[0].key != item.key;
      forall i | 0 <= i < |blocks[1..]|
        ensures blocks[1..][i].key != item.key
      {
        assert blocks[i + 1].key != item.key;
      }
      StoredNew(blocks[1..], item);
    }
  }

  lemma PlaceHeld(blocks: seq<Item>, item: Item, i: nat)
    requires UniqueItems(blocks) && i < |blocks| && blocks[i].key == item.key
    ensures Place(blocks, item) == blocks[..i] + blocks[i + 1..] + [blocks[i]]
  {
    RestOne(blocks, item.key, i);
    StoredIs(blocks, item, i);
  }

  lemma PlaceNew(blocks: seq<Item>, item: Item)
    requires !Holds(blocks, item.key)
    ensures Place(blocks, item) == blocks + [item]
  {
    RestNone(blocks, item.key);
    StoredNew(blocks, item);
  }

  lemma {:induction false} MoveToEnd(blocks: seq<Item>, i: nat)
    requires UniqueItems(blocks) && i < |blocks|
    ensures UniqueItems(blocks[..i] + blocks[i + 1..] + [blocks[i]])
    ensures ItemBytes(blocks[..i] + blocks[i + 1..] + [blocks[i]]) == ItemBytes(blocks)
  {
    BytesWithout(blocks, i);
    ItemBytesConcat(blocks[..i] + blocks[i + 1..], [blocks[i]]);
  }

  lemma {:induction false} BytesWithout(blocks: seq<Item>, i: nat)
    requires i < |blocks|
    ensures ItemBytes(blocks[..i] + blocks[i + 1..]) == ItemBytes(blocks) - blocks[i].nbytes
  {
    ItemBytesConcat(blocks[..i], blocks[i + 1..]);
    ItemBytesConcat(blocks[..i], blocks[i..]);
    assert blocks == blocks[..i] + blocks[i..] && blocks[i..][1..] == blocks[i + 1..];
  }

  lemma SameKeys(blocks: seq<Item>, i: nat, k: Key)
    requires i < |blocks|
    ensures k in ItemKeys(blocks[..i] + blocks[i + 1..] + [blocks[i]]) <==> k in ItemKeys(blocks)
  {
    var moved := blocks[..i] + blocks[i + 1..] + [blocks[i]];
    if k in ItemKeys(blocks) {
      var j :| 0 <= j < |blocks| && blocks[j].key == k;
      assert moved[if j < i then j else if j == i then |blocks| - 1 else j - 1] == blocks[j];
      assert k == ItemKeys(moved)[if j < i then j else if j == i then |blocks| - 1 else j - 1];
    }
    if k in ItemKeys(moved) {
      var j :| 0 <= j < |moved| && moved[j].key == k;
      assert blocks[if j < i then j else if j == |blocks| - 1 then i else j + 1] == moved[j];
      assert k == ItemKeys(blocks)[if j < i then j else if j == |blocks| - 1 then i else j + 1];
    }
  }

  lemma MovedStored(blocks: seq<Item>, i: nat, item: Item)
    requires UniqueItems(blocks) && i < |blocks|
    ensures var moved := blocks[..i] + blocks[i + 1..] + [blocks[i]];
            Holds(moved, item.key) == Holds(blocks, item.key) && Stored(moved, item) == Stored(blocks, item)
  {
    var moved := blocks[..i] + blocks[i + 1..] + [blocks[i]];
    MoveToEnd(blocks, i);
    if Holds(blocks, item.key) {
      var j :| 0 <= j < |blocks| && blocks[j].key == item.key;
      var l := if j < i then j else if j == i then |blocks| - 1 else j - 1;
      assert moved[l] == blocks[j];
      StoredIs(blocks, item, j);
      StoredIs(moved, item, l);
    } else {
      forall l | 0 <= l < |moved|
        ensures moved[l].key != item.key
      {
        assert moved[l] == blocks[if l < i then l else if l == |blocks| - 1 then i else l + 1];
      }
      StoredNew(blocks, item);
      StoredNew(moved, item);
    }
  }

  lemma {:induction false} MovedHeld(blocks: seq<Item>, i: nat, keys: seq<Key>)
    requires UniqueItems(blocks) && i < |blocks|
    ensures Held(blocks[..i] + blocks[i + 1..] + [blocks[i]], keys) == Held(blocks, keys)
  {
    if keys != [] {
      MovedStored(blocks, i, Item(keys[0], 0));
      MovedHeld(blocks, i, keys[1..]);
    }
  }

  /** Moving the first of the keys to the end is one step of filling. */
  lemma TouchOne(blocks: seq<Item>, keys: seq<Key>, i: nat)
    requires UniqueItems(blocks) && i < |blocks| && keys != [] && blocks[i].key == keys[0]
    ensures var moved := blocks[..i] + blocks[i + 1..] + [blocks[i]];
            Fill(moved, Held(moved, keys[1..])) == Fill(blocks, Held(blocks, keys))
  {
    var held := Held(blocks, keys);
    StoredIs(blocks, Item(keys[0], 0), i);
    assert held == [blocks[i]] + Held(blocks, keys[1..]) && held[1..] == Held(blocks, keys[1..]);
    PlaceHeld(blocks, blocks[i], i);
    MovedHeld(blocks, i, keys[1..]);
  }

  /** Dropping the first unprotected block is one step of `Shed`. */
  lemma FirstVictim(blocks: seq<Item>, protected: set<Key>, over: int, i: nat)
    requires UniqueItems(blocks) && over > 0 && Unprotected(blocks, protected) != []
    requires i <= |blocks| && (i < |blocks| ==> blocks[i].key == Unprotected(blocks, protected)[0])
    requires forall j :: 0 <= j < i ==> blocks[j].key != Unprotected(blocks, protected)[0]
    ensures i < |blocks|
    ensures var r := blocks[..i] + blocks[i + 1..];
            && UniqueItems(r) && ItemBytes(r) == ItemBytes(blocks) - blocks[i].nbytes
            && Unprotected(r, protected) == Unprotected(blocks, protected)[1..]
            && Shed(r, protected, over - blocks[i].nbytes) == Shed(blocks, protected, over)
            && [blocks[i].key] + ShedKeys(r, protected, over - blocks[i].nbytes) == ShedKeys(blocks, protected, over)
  {
    UnprotectedHeld(blocks, protected);
    assert Unprotected(blocks, protected)[0] in Unprotected(blocks, protected);
    BytesWithout(blocks, i);
    BeforeVictim(blocks, protected, i);
    ShedStep(blocks, protected, over, i);
  }

  lemma {:induction false} BeforeVictim(blocks: seq<Item>, protected: set<Key>, i: nat)
    requires Unprotected(blocks, protected) != [] && i < |blocks| && blocks[i].key == Unprotected(blocks, protected)[0]
    requires forall j :: 0 <= j < i ==> blocks[j].key != Unprotected(blocks, protected)[0]
    ensures forall j :: 0 <= j < i ==> blocks[j].key in protected
    ensures blocks[i].key !in protected
  {
    UnprotectedHeld(blocks, protected);
    if blocks[0].key in protected {
      BeforeVictim(blocks[1..], protected, i - 1);
      forall j | 0 <= j < i
        ensures blocks[j].key in protected
      {
        if j > 0 { assert blocks[1..][j - 1] == blocks[j]; }
      }
    }
  }

  lemma {:induction false} ShedStep(blocks: seq<Item>, protected: set<Key>, over: int, i: nat)
    requires over > 0 && i < |blocks| && blocks[i].key !in protected
    requires forall j :: 0 <= j < i ==> blocks[j].key in protected
    ensures var r, less := blocks[..i] + blocks[i + 1..], over - blocks[i].nbytes;
            && Unprotected(blocks, protected) == [blocks[i].key] + Unprotected(r, protected)
            && Shed(blocks, protected, over) == blocks[..i] + Shed(blocks[i + 1..], protected, less)
            && Shed(r, protected, less) == Shed(blocks, protected, over)
            && ShedKeys(blocks, protected, over) == [blocks[i].key] + ShedKeys(r, protected, less)
  {
    var r := blocks[..i] + blocks[i + 1..];
    if i == 0 {
      assert r == blocks[1..];
    } else {
      ShedStep(blocks[1..], protected, over, i - 1);
      assert blocks[1..][i..] == blocks[i + 1..];
      assert r[1..] == blocks[1..][..i - 1] + blocks[1..][i..] && r[0] == blocks[0];
      assert blocks[..i] == [blocks[0]] + blocks[1..][..i - 1];
    }
  }

  lemma {:induction false} UnprotectedHeld(blocks: seq<Item>, protected: set<Key>)
    ensures forall k :: k in Unprotected(blocks, protected) ==> k !in protected && Holds(blocks, k)
  {
    if blocks != [] {
      UnprotectedHeld(blocks[1..], protected);
      forall k | k in Unprotected(blocks, protected)
        ensures k !in protected && Holds(blocks, k)
      {
        if k in Unprotected(blocks[1..], protected) {
          var i :| 0 <= i < |blocks[1..]| && blocks[1..][i].key == k;
          assert blocks[i + 1].key == k;
        } else {
          assert blocks[0].key == k;
        }
      }
    }
  }

  lemma {:induction false} NothingToShed(blocks: seq<Item>, protected: set<Key>, over: int)
    requires Unprotected(blocks, protected) == []
    ensures Shed(blocks, protected, over) == blocks && ShedKeys(blocks, protected, over) == []
  {
    if blocks != [] && over > 0 {
      assert blocks[0].key in protected;
      NothingToShed(blocks[1..], protected, over);
    }
  }
}

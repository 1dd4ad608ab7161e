/** The dictionary behind configuration files: parallel arrays of keys, values and cached
    hashes, searched slot by slot, that grow by doubling. */
module IniDict {
  import opened Ts

  const MIN_SIZE: nat := 128

  type Value = Option<string>

  /** One index of the three arrays. */
  datatype Slot = Free | Used(key: string, val: Value)

  predicate Has(s: Slot, key: string) {
    s.Used? && s.key == key
  }

  /** The slot of a key, or the number of slots. */
  function Find(slots: seq<Slot>, key: string): (i: nat)
    ensures i <= |slots| && (i < |slots| ==> Has(slots[i], key))
    ensures forall j :: 0 <= j < i ==> !Has(slots[j], key)
  {
    if slots == [] || Has(slots[0], key) then 0 else 1 + Find(slots[1..], key)
  }

  function FirstFree(slots: seq<Slot>): (i: nat)
    ensures i <= |slots| && (i < |slots| ==> slots[i].Free?)
    ensures forall j :: 0 <= j < i ==> slots[j].Used?
  {
    if slots == [] || slots[0].Free? then 0 else 1 + FirstFree(slots[1..])
  }

  function Frees(n: nat): (s: seq<Slot>)
    ensures |s| == n && forall i :: 0 <= i < n ==> s[i] == Free
  {
    seq(n, i => Free)
  }

  function Doubled(slots: seq<Slot>): seq<Slot> {
    slots + Frees(|slots|)
  }

  /** `dictionary_set` */
  function Put(slots: seq<Slot>, key: string, val: Value): (r: seq<Slot>)
    requires slots != []
    ensures r != []
  {
    var i := Find(slots, key);
    if i < |slots| then slots[i := Used(key, val)]
    else
      var grown := if FirstFree(slots) == |slots| then Doubled(slots) else slots;
      if FirstFree(grown) == |grown| then grown else grown[FirstFree(grown) := Used(key, val)]
  }

  /** `dictionary_unset` */
  function Drop(slots: seq<Slot>, key: string): (r: seq<Slot>)
    ensures |r| == |slots|
  {
    var i := Find(slots, key);
    if i < |slots| then slots[i := Free] else slots
  }

  /** `dictionary_get` */
  function Get(slots: seq<Slot>, key: string, def: Value): Value {
    var i := Find(slots, key);
    if i < |slots| then slots[i].val else def
  }

  /** The number of slots in use. */
  function Count(slots: seq<Slot>): nat {
    if slots == [] then 0 else Count(slots[..|slots| - 1]) + if slots[|slots| - 1].Used? then 1 else 0
  }

  predicate Distinct(slots: seq<Slot>) {
    forall i, j :: 0 <= i < j < |slots| && slots[i].Used? && slots[j].Used? ==> slots[i].key != slots[j].key
  }

  /** The partial map that the slots stand for. */
  function Keys(slots: seq<Slot>): set<string> {
    set i | 0 <= i < |slots| && slots[i].Used? :: slots[i].key
  }

  function MapOf(slots: seq<Slot>): map<string, Value> {
    map k | k in Keys(slots) :: Get(slots, k, None)
  }

  function SlotOf(key: Option<string>, val: Value): Slot {
    if key == None then Free else Used(key.value, val)
  }

  // ---- The arrays

  /** `mem_double` */
  method MemDouble<T>(a: array<T>, zero: T) returns (b: array<T>)
    ensures fresh(b) && b.Length == 2 * a.Length
    ensures forall i :: 0 <= i < b.Length ==> b[i] == if i < a.Length then a[i] else zero
  {
    b := new T[2 * a.Length](_ => zero);
    for i := 0 to a.Length
      invariant forall j :: 0 <= j < b.Length ==> b[j] == if j < i then a[j] else zero
    {
      b[i] := a[i];
    }
  }

  class Dictionary {
    const hashOf: string -> nat
    var size: nat
    var n: nat
    var key: array<Option<string>>
    var val: array<Value>
    var hash: array<nat>

    /** Sizes agree, `n` counts the slots in use, keys are distinct and hashes are theirs. */
    ghost predicate Valid()
      reads this, key, val, hash
    {
      && 0 < size == key.Length == val.Length == hash.Length
      && key != val
      && (forall i :: 0 <= i < size ==>
            if key[i] == None then val[i] == None && hash[i] == 0 else hash[i] == hashOf(key[i].value))
      && Distinct(Slots())
      && n == Count(Slots())
    }

    ghost function Slots(): (s: seq<Slot>)
      requires key.Length == val.Length
      reads this, key, val
      ensures |s| == key.Length
      ensures forall i :: 0 <= i < |s| ==> s[i] == SlotOf(key[i], val[i])
    {
      var keys, vals := key[..], val[..];
      seq(|keys|, i requires 0 <= i < |keys| => SlotOf(keys[i], vals[i]))
    }

    /** `dictionary_new` */
    constructor (hashOf: string -> nat, size: nat)
      ensures Valid() && this.hashOf == hashOf && fresh(key) && fresh(val) && fresh(hash)
      ensures Slots() == Frees(if size < MIN_SIZE then MIN_SIZE else size)
    {
      var room := if size < MIN_SIZE then MIN_SIZE else size;
      this.hashOf, this.size, n := hashOf, room, 0;
      key, val, hash := new Option<string>[room](_ => None), new Value[room](_ => None), new nat[room](_ => 0);
      new;
      assert Slots() == Frees(room);
      NoneUsed(Slots());
    }

    /** The search by hash and key. */
    method Search(k: string) returns (i: nat)
      requires Valid()
      ensures i == Find(Slots(), k)
    {
      var h := hashOf(k);
      i := 0;
      while i < size
        invariant i <= size && forall j :: 0 <= j < i ==> !Has(Slots()[j], k)
      {
        if key[i] != None && h == hash[i] && k == key[i].value {
          break;
        }
        i := i + 1;
      }
      FindIs(Slots(), k, i);
    }

    /** `dictionary_get` */
    method Lookup(k: string, def: Value) returns (v: Value)
      requires Valid()
      ensures v == if k in MapOf(Slots()) then MapOf(Slots())[k] else def
    {
      var i := Search(k);
      KeysHave(Slots(), k);
      v := if i < size then val[i] else def;
    }

    /** The loop that looks for an empty slot. */
    method SearchFree() returns (i: nat)
      requires Valid()
      ensures i == FirstFree(Slots())
    {
      i := 0;
      while i < size
        invariant i <= size && forall j :: 0 <= j < i ==> key[j] != None
      {
        if key[i] == None {
          break;
        }
        i := i + 1;
      }
      FirstFreeIs(Slots(), i);
    }

    /** The reallocation that doubles the arrays. */
    method Grow()
      requires Valid()
      modifies this
      ensures Valid() && n == old(n) && Slots() == Doubled(old(Slots()))
      ensures fresh(key) && fresh(val) && fresh(hash)
    {
      ghost var before := Slots();
      CountDoubled(before);
      var key2 := MemDouble(key, None);
      var val2 := MemDouble(val, None);
      var hash2 := MemDouble(hash, 0);
      key, val, hash, size := key2, val2, hash2, 2 * size;
      assert Slots() == Doubled(before);
    }

    /** An index of the three arrays is written. */
    method Write(i: nat, k: string, v: Value)
      requires Valid() && i < size && (Find(Slots(), k) == i || (Slots()[i].Free? && Find(Slots(), k) == size))
      modifies this`n, key, val, hash
      ensures Valid() && Slots() == old(Slots())[i := Used(k, v)]
    {
      hide Distinct, Count;
      ghost var before := Slots();
      CountUpdate(before, i, Used(k, v));
      DistinctUpdate(before, i, k, v);
      if key[i] == None {
        n := n + 1;
      }
      key[i], val[i], hash[i] := Some(k), v, hashOf(k);
      assert Slots() == before[i := Used(k, v)];
    }

    /** `dictionary_set` */
    method Set(k: string, v: Value)
      requires Valid()
      modifies this, key, val, hash
      ensures Valid() && Slots() == Put(old(Slots()), k, v)
      ensures (key == old(key) && val == old(val) && hash == old(hash)) || (fresh(key) && fresh(val) && fresh(hash))
    {
      hide Distinct, Count, Find, FirstFree, Doubled;
      ghost var before := Slots();
      FindNone(before, k);
      CountFull(before);
      if n > 0 {
        var i := Search(k);
        if i < size {
          Write(i, k, v);
          return;
        }
      }
      if n == size {
        Grow();
        DoubledHasRoom(before, k);
      }
      var i := SearchFree();
      Write(i, k, v);
    }

    /** `dictionary_unset` */
    method Unset(k: string)
      requires Valid()
      modifies this`n, key, val, hash
      ensures Valid() && Slots() == Drop(old(Slots()), k)
    {
      hide Distinct, Count, Find;
      ghost var before := Slots();
      DropDistinct(before, k);
      var i := Search(k);
      if i < size {
        CountUpdate(before, i, Free);
        key[i], val[i], hash[i] := None, None, 0;
        assert Slots() == before[i := Free];
        n := n - 1;
      }
    }
  }

  // ---- Slots and maps

  lemma FindIs(slots: seq<Slot>, key: string, i: nat)
    requires i <= |slots| && (i < |slots| ==> Has(slots[i], key))
    requires forall j :: 0 <= j < i ==> !Has(slots[j], key)
    ensures Find(slots, key) == i
  {
  }

  lemma KeysHave(slots: seq<Slot>, key: string)
    ensures key in MapOf(slots) <==> Find(slots, key) < |slots|
    ensures key in MapOf(slots) ==> MapOf(slots)[key] == slots[Find(slots, key)].val
  {
    if Find(slots, key) < |slots| {
      assert slots[Find(slots, key)].key == key;
    }
  }

  lemma {:induction false} NoneUsed(slots: seq<Slot>)
    requires forall i :: 0 <= i < |slots| ==> slots[i] == Free
    ensures Count(slots) == 0
  {
    if slots != [] {
      NoneUsed(slots[..|slots| - 1]);
    }
  }

  lemma FirstFreeIs(slots: seq<Slot>, i: nat)
    requires i <= |slots| && (i < |slots| ==> slots[i].Free?)
    requires forall j :: 0 <= j < i ==> slots[j].Used?
    ensures FirstFree(slots) == i
  {
  }

  lemma {:induction false} CountUpdate(slots: seq<Slot>, i: nat, s: Slot)
    requires i < |slots|
    ensures Count(slots[i := s]) == Count(slots) - (if slots[i].Used? then 1 else 0) + (if s.Used? then 1 else 0)
  {
    var last := |slots| - 1;
    if i < last {
      CountUpdate(slots[..last], i, s);
      assert slots[i := s][..last] == slots[..last][i := s];
    } else {
      assert slots[i := s][..last] == slots[..last];
    }
  }

  /** The number of slots in use reaches the size exactly when no slot is free. */
  lemma {:induction false} CountFull(slots: seq<Slot>)
    ensures Count(slots) <= |slots|
    ensures Count(slots) == |slots| <==> FirstFree(slots) == |slots|
  {
    if slots != [] {
      var last := |slots| - 1;
      CountFull(slots[..last]);
      if FirstFree(slots[..last]) == last {
        FirstFreeIs(slots, if slots[last].Free? then last else |slots|);
      } else {
        FirstFreeIs(slots, FirstFree(slots[..last]));
      }
    }
  }

  lemma {:induction false} CountDoubled(slots: seq<Slot>)
    ensures Count(Doubled(slots)) == Count(slots)
    ensures Distinct(slots) ==> Distinct(Doubled(slots))
  {
    CountConcat(slots, Frees(|slots|));
    NoneUsed(Frees(|slots|));
  }

  lemma {:induction false} CountConcat(a: seq<Slot>, b: seq<Slot>)
    ensures Count(a + b) == Count(a) + Count(b)
  {
    if b == [] {
      assert a + b == a;
    } else {
      CountConcat(a, b[..|b| - 1]);
      assert (a + b)[..|a + b| - 1] == a + b[..|b| - 1];
    }
  }

  /** With no slot in use there is nothing to find. */
  lemma {:induction false} FindNone(slots: seq<Slot>, key: string)
    ensures Count(slots) == 0 ==> Find(slots, key) == |slots|
  {
    if slots != [] {
      var last := |slots| - 1;
      FindNone(slots[..last], key);
      if Count(slots) == 0 {
        FindIs(slots, key, |slots|);
      }
    }
  }

  lemma DistinctUpdate(slots: seq<Slot>, i: nat, key: string, val: Value)
    requires Distinct(slots) && i < |slots|
    requires Find(slots, key) == i || (slots[i].Free? && Find(slots, key) == |slots|)
    ensures Distinct(slots[i := Used(key, val)])
  {
    forall j | 0 <= j < |slots| && j != i ensures !Has(slots[j], key) {
    }
  }

  lemma DoubledHasRoom(slots: seq<Slot>, key: string)
    requires slots != [] && FirstFree(slots) == |slots| && Find(slots, key) == |slots|
    ensures FirstFree(Doubled(slots)) == |slots| && Find(Doubled(slots), key) == |Doubled(slots)|
    ensures |slots| < |Doubled(slots)| && Doubled(slots)[|slots|] == Free
  {
    FirstFreeIs(Doubled(slots), |slots|);
    FindIs(Doubled(slots), key, |Doubled(slots)|);
  }

  // ---- The slots refine a partial map

  lemma KeysIs(slots: seq<Slot>, key: string)
    ensures key in Keys(slots) <==> Find(slots, key) < |slots|
  {
    if Find(slots, key) < |slots| {
      assert slots[Find(slots, key)].key == key;
    }
  }

  /** Where a key is found after a slot has been written. */
  lemma FindWritten(slots: seq<Slot>, i: nat, key: string, val: Value, other: string)
    requires Distinct(slots) && i < |slots|
    requires Find(slots, key) == i || (slots[i].Free? && Find(slots, key) == |slots|)
    ensures Find(slots[i := Used(key, val)], other) == if other == key then i else Find(slots, other)
  {
    FindIs(slots[i := Used(key, val)], other, if other == key then i else Find(slots, other));
  }

  lemma PutIs(slots: seq<Slot>, key: string, val: Value)
    requires slots != [] && Distinct(slots)
    ensures Distinct(Put(slots, key, val))
    ensures MapOf(Put(slots, key, val)) == MapOf(slots)[key := val]
  {
    var grown := if Find(slots, key) == |slots| && FirstFree(slots) == |slots| then Doubled(slots) else slots;
    if grown != slots {
      DoubledHasRoom(slots, key);
      DoubledSame(slots);
    }
    var i := if Find(slots, key) < |slots| then Find(slots, key) else FirstFree(grown);
    var put := Put(slots, key, val);
    assert put == grown[i := Used(key, val)];
    DistinctUpdate(grown, i, key, val);
    WrittenMap(grown, i, key, val);
  }

  /** Where a key is put: its own slot, or else the first free one; the slots double exactly when
      the key is new and all of them are in use.  All others keep what they hold. */
  lemma PutAt(slots: seq<Slot>, key: string, val: Value) returns (i: nat)
    requires slots != []
    ensures var put := Put(slots, key, val);
            && |put| == (if forall j :: 0 <= j < |slots| ==> slots[j].Used? && slots[j].key != key then 2 * |slots|
                         else |slots|)
            && i < |put| && put[i] == Used(key, val)
            && (forall j :: 0 <= j < |put| && j != i ==> put[j] == if j < |slots| then slots[j] else Free)
            && if i < |slots| && slots[i].Used? then slots[i].key == key
               else forall j :: 0 <= j < i ==> j < |slots| && slots[j].Used? && slots[j].key != key
  {
    i := Find(slots, key);
    if i == |slots| {
      i := FirstFree(slots);
      if i == |slots| {
        DoubledHasRoom(slots, key);
      }
    }
  }

  lemma WrittenAt(slots: seq<Slot>, i: nat, key: string, val: Value, k: string)
    requires Distinct(slots) && i < |slots|
    requires Find(slots, key) == i || (slots[i].Free? && Find(slots, key) == |slots|)
    ensures var put := slots[i := Used(key, val)];
            && (k in Keys(put) <==> k == key || k in Keys(slots))
            && (k in Keys(put) ==> Get(put, k, None) == if k == key then val else Get(slots, k, None))
  {
    KeysIs(slots[i := Used(key, val)], k);
    KeysIs(slots, k);
    FindWritten(slots, i, key, val, k);
  }

  lemma WrittenMap(slots: seq<Slot>, i: nat, key: string, val: Value)
    requires Distinct(slots) && i < |slots|
    requires Find(slots, key) == i || (slots[i].Free? && Find(slots, key) == |slots|)
    ensures MapOf(slots[i := Used(key, val)]) == MapOf(slots)[key := val]
  {
    hide Keys, Get, Find, Distinct;
    var put := slots[i := Used(key, val)];
    forall k ensures k in Keys(put) <==> k == key || k in Keys(slots)
             ensures k in Keys(put) ==> Get(put, k, None) == if k == key then val else Get(slots, k, None)
    {
      WrittenAt(slots, i, key, val, k);
    }
    assert MapOf(put).Keys == MapOf(slots)[key := val].Keys;
  }

  lemma DoubledSame(slots: seq<Slot>)
    requires Distinct(slots)
    ensures Distinct(Doubled(slots)) && MapOf(Doubled(slots)) == MapOf(slots)
  {
    forall k ensures k in Keys(Doubled(slots)) <==> k in Keys(slots)
             ensures k in Keys(slots) ==> Get(Doubled(slots), k, None) == Get(slots, k, None)
    {
      KeysIs(slots, k);
      KeysIs(Doubled(slots), k);
      FindIs(Doubled(slots), k, if Find(slots, k) < |slots| then Find(slots, k) else |Doubled(slots)|);
    }
    assert MapOf(Doubled(slots)).Keys == MapOf(slots).Keys;
  }

  lemma DropAt(slots: seq<Slot>, key: string, k: string)
    requires Distinct(slots)
    ensures var dropped := Drop(slots, key);
            && (k in Keys(dropped) <==> k != key && k in Keys(slots))
            && (k in Keys(dropped) ==> Get(dropped, k, None) == Get(slots, k, None))
  {
    hide Keys;
    KeysIs(slots, k);
    KeysIs(Drop(slots, key), k);
    FindIs(Drop(slots, key), k, if k == key then |slots| else Find(slots, k));
  }

  lemma DropDistinct(slots: seq<Slot>, key: string)
    requires Distinct(slots)
    ensures Distinct(Drop(slots, key))
  {
    hide Find;
  }

  lemma DropIs(slots: seq<Slot>, key: string)
    requires Distinct(slots)
    ensures Distinct(Drop(slots, key)) && MapOf(Drop(slots, key)) == MapOf(slots) - {key}
  {
    hide Keys, Get, Drop, Distinct;
    var dropped := Drop(slots, key);
    DropDistinct(slots, key);
    forall k ensures k in Keys(dropped) <==> k != key && k in Keys(slots)
             ensures k in Keys(dropped) ==> Get(dropped, k, None) == Get(slots, k, None)
    {
      DropAt(slots, key, k);
    }
    assert MapOf(dropped).Keys == (MapOf(slots) - {key}).Keys;
  }

  datatype Op = Set(key: string, val: Value) | Unset(key: string)

  function RunSlots(size: nat, ops: seq<Op>): (slots: seq<Slot>)
    ensures slots != []
  {
    if ops == [] then Frees(if size < MIN_SIZE then MIN_SIZE else size)
    else
      var before := RunSlots(size, ops[..|ops| - 1]);
      match ops[|ops| - 1]
      case Set(key, val) => Put(before, key, val)
      case Unset(key) => Drop(before, key)
  }

  function RunMap(ops: seq<Op>): map<string, Value> {
    if ops == [] then map[]
    else
      var before := RunMap(ops[..|ops| - 1]);
      match ops[|ops| - 1]
      case Set(key, val) => before[key := val]
      case Unset(key) => before - {key}
  }

  /** Refinement: after any sequence of sets and unsets, whatever the initial size and the hash
      function, a lookup answers as a partial map would, with NULL values kept apart from
      absent keys. */
  lemma {:induction false} SlotsRefineMap(size: nat, ops: seq<Op>, key: string, def: Value)
    ensures var slots, m := RunSlots(size, ops), RunMap(ops);
            Distinct(slots) && MapOf(slots) == m && Get(slots, key, def) == if key in m then m[key] else def
  {
    if ops == [] {
      assert Keys(RunSlots(size, ops)) == {};
    } else {
      SlotsRefineMap(size, ops[..|ops| - 1], key, def);
      var before := RunSlots(size, ops[..|ops| - 1]);
      match ops[|ops| - 1]
      case Set(k, val) => PutIs(before, k, val);
      case Unset(k) => DropIs(before, k);
    }
    KeysHave(RunSlots(size, ops), key);
  }
}

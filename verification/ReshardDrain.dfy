/** One error-free pass of the key-preserving reshard dance, with its real loop bounds
    (internal/controller/cluster_reshard.go). */
module ReshardDrain {
  /** A key with the hash slot it belongs to. */
  datatype Key = Key(slot: int, name: string)

  type Store = map<Key, string>

  function SlotKeys(store: Store, slot: int): set<Key> {
    set k | k in store && k.slot == slot
  }

  function RangeKeys(store: Store, start: int, end: int): set<Key> {
    set k | k in store && start <= k.slot <= end
  }

  function Min(a: int, b: int): int {
    if a <= b then a else b
  }

  /** SlotsNeedingDrain, in ascending order. */
  function SlotsToDrain(store: Store, start: int, end: int): seq<int>
    decreases end + 1 - start
  {
    if start > end then []
    else if SlotKeys(store, start) != {} then [start] + SlotsToDrain(store, start + 1, end)
    else SlotsToDrain(store, start + 1, end)
  }

  lemma {:induction false} SlotsToDrainAre(store: Store, start: int, end: int, slot: int)
    ensures slot in SlotsToDrain(store, start, end) <==> start <= slot <= end && SlotKeys(store, slot) != {}
    decreases end + 1 - start
  {
    if start <= end { SlotsToDrainAre(store, start + 1, end, slot); }
  }

  lemma {:induction false} NothingToDrain(store: Store, start: int, end: int)
    ensures SlotsToDrain(store, start, end) == [] <==> RangeKeys(store, start, end) == {}
  {
    var slots := SlotsToDrain(store, start, end);
    if k :| k in RangeKeys(store, start, end) {
      SlotsToDrainAre(store, start, end, k.slot);
      assert k in SlotKeys(store, k.slot);
    } else if slots != [] {
      SlotsToDrainAre(store, start, end, slots[0]);
      var k :| k in SlotKeys(store, slots[0]);
    }
  }

  /** What a drain may do to the two nodes: take keys off the source and put them, value and all,
      on the destination. */
  ghost predicate Carried(src: Store, dst: Store, src': Store, dst': Store, keys: set<Key>) {
    && keys <= src.Keys && src' == src - keys
    && dst' == dst + (map k | k in keys :: src[k])
  }

  lemma {:induction false} CarriedOn(src: Store, dst: Store, src1: Store, dst1: Store, src2: Store, dst2: Store, a: set<Key>, b: set<Key>)
    requires Carried(src, dst, src1, dst1, a) && Carried(src1, dst1, src2, dst2, b)
    ensures a !! b && Carried(src, dst, src2, dst2, a + b)
  {
  }

  lemma {:induction false} SlotKeysLeft(src: Store, keys: set<Key>, slot: int)
    ensures SlotKeys(src - keys, slot) == SlotKeys(src, slot) - keys
  {
  }

  lemma {:induction false} BatchAdds(slotKeys: set<Key>, keys: set<Key>, some: set<Key>)
    requires keys <= slotKeys && some <= slotKeys - keys
    ensures keys + some <= slotKeys && |keys + some| == |keys| + |some|
    ensures slotKeys - keys == {} ==> keys + some == slotKeys
  {
    assert keys !! some;
  }

  /** Every key of those slots. */
  ghost predicate TakesAll(src: Store, slots: seq<int>, keys: set<Key>) {
    forall k <- src :: k.slot in slots ==> k in keys
  }

  ghost predicate OnlyFrom(keys: set<Key>, slots: seq<int>) {
    forall k <- keys :: k.slot in slots
  }

  lemma {:induction false} NextSlot(src: Store, keys: set<Key>, some: set<Key>, done: seq<int>, slot: int)
    requires OnlyFrom(keys, done) && some <= SlotKeys(src - keys, slot)
    ensures OnlyFrom(keys + some, done + [slot]) && |keys + some| == |keys| + |some|
    ensures TakesAll(src, done, keys) && some == SlotKeys(src - keys, slot) ==> TakesAll(src, done + [slot], keys + some)
  {
    assert keys !! some;
    SlotKeysLeft(src, keys, slot);
  }

  class Dance {
    var src: Store
    var dst: Store
    var flipped: bool

    constructor (src: Store, dst: Store)
      ensures this.src == src && this.dst == dst && !flipped
    {
      this.src, this.dst, this.flipped := src, dst, false;
    }

    /** CLUSTER GETKEYSINSLOT: any `count` of the slot's keys, or all of them if fewer. */
    method GetKeysInSlot(slot: int, count: nat) returns (keys: set<Key>)
      ensures keys <= SlotKeys(src, slot)
      ensures |keys| == Min(count, |SlotKeys(src, slot)|)
    {
      keys := {};
      var rest := SlotKeys(src, slot);
      while |keys| < count && rest != {}
        invariant keys !! rest && keys + rest == SlotKeys(src, slot) && |keys| <= count
        decreases |rest|
      {
        var k :| k in rest;
        keys, rest := keys + {k}, rest - {k};
      }
      assert |keys + rest| == |keys| + |rest|;
    }

    /** MIGRATE ... REPLACE KEYS. */
    method MigrateKeys(keys: set<Key>)
      requires keys <= src.Keys
      modifies this`src, this`dst
      ensures Carried(old(src), old(dst), src, dst, keys)
    {
      dst := dst + (map k | k in keys :: src[k]);
      src := src - keys;
    }

    /** One turn of the drain: fetch a batch and migrate it, if there is any. */
    method MigrateBatch(slot: int, batch: int) returns (count: nat, ghost keys: set<Key>)
      requires batch > 0
      modifies this`src, this`dst
      ensures Carried(old(src), old(dst), src, dst, keys) && keys <= SlotKeys(old(src), slot)
      ensures count == |keys| <= batch && (count == 0 ==> SlotKeys(old(src), slot) == {})
    {
      var some := GetKeysInSlot(slot, batch);
      if |some| > 0 {
        MigrateKeys(some);
      }
      count, keys := |some|, some;
    }

    /** Drains one slot until it is empty or the pass has moved enough. */
    method DrainSlot(slot: int, batch: int, maxKeys: int, soFar: int) returns (moved: int, ghost keys: set<Key>)
      requires batch > 0 && 0 <= soFar < maxKeys
      modifies this`src, this`dst
      ensures Carried(old(src), old(dst), src, dst, keys) && keys <= SlotKeys(old(src), slot)
      ensures moved == soFar + |keys| && moved <= maxKeys - 1 + batch
      ensures moved < maxKeys ==> keys == SlotKeys(old(src), slot)
    {
      moved, keys := soFar, {};
      while moved < maxKeys
        invariant Carried(old(src), old(dst), src, dst, keys) && keys <= SlotKeys(old(src), slot)
        invariant moved == soFar + |keys| && moved <= maxKeys - 1 + batch
        decreases maxKeys - moved
      {
        ghost var src1, dst1 := src, dst;
        var count, some := MigrateBatch(slot, batch);
        CarriedOn(old(src), old(dst), src1, dst1, src, dst, keys, some);
        SlotKeysLeft(old(src), keys, slot);
        BatchAdds(SlotKeys(old(src), slot), keys, some);
        keys := keys + some;
        if count == 0 {
          break;
        }
        moved := moved + count;
      }
    }

    /** Drains the slots in turn until the pass has moved enough. */
    method DrainSlots(slots: seq<int>, batch: int, maxKeys: int) returns (moved: int, ghost keys: set<Key>)
      requires batch > 0 && maxKeys > 0
      modifies this`src, this`dst
      ensures Carried(old(src), old(dst), src, dst, keys) && OnlyFrom(keys, slots)
      ensures moved == |keys| && moved <= maxKeys - 1 + batch
      ensures moved < maxKeys ==> TakesAll(old(src), slots, keys)
    {
      moved, keys := 0, {};
      for i := 0 to |slots|
        invariant Carried(old(src), old(dst), src, dst, keys) && OnlyFrom(keys, slots[..i])
        invariant moved == |keys| && moved < maxKeys && TakesAll(old(src), slots[..i], keys)
      {
        ghost var src1, dst1, before := src, dst, keys;
        ghost var some;
        moved, some := DrainSlot(slots[i], batch, maxKeys, moved);
        CarriedOn(old(src), old(dst), src1, dst1, src, dst, before, some);
        NextSlot(old(src), before, some, slots[..i], slots[i]);
        keys := before + some;
        assert slots[..i + 1] == slots[..i] + [slots[i]];
        if moved >= maxKeys {
          break;
        }
      }
      assert slots[..|slots|] == slots;
    }

    /** One pass of reshardViaDance in which no command fails and no client writes. */
    method Pass(start: int, end: int, batchSetting: int, maxKeysSetting: int)
      returns (done: bool, moved: int, ghost keys: set<Key>)
      modifies this
      ensures Carried(old(src), old(dst), src, dst, keys) && keys <= RangeKeys(old(src), start, end)
      ensures done <==> RangeKeys(old(src), start, end) == {}
      ensures flipped == (old(flipped) || done)
      ensures var batch, maxKeys := Effective(batchSetting, 128), Effective(maxKeysSetting, 2000);
              var pending := |RangeKeys(old(src), start, end)|;
              moved == |keys| && Min(maxKeys, pending) <= moved <= Min(pending, maxKeys - 1 + batch)
    {
      var batch := if batchSetting <= 0 then 128 else batchSetting;
      var maxKeys := if maxKeysSetting <= 0 then 2000 else maxKeysSetting;
      var toDrain := SlotsToDrain(src, start, end);
      NothingToDrain(src, start, end);
      if |toDrain| == 0 {
        flipped := true;
        return true, 0, {};
      }
      done := false;
      moved, keys := DrainSlots(toDrain, batch, maxKeys);
      forall k | k in keys ensures k in RangeKeys(old(src), start, end) {
        SlotsToDrainAre(old(src), start, end, k.slot);
      }
      SizeBound(keys, RangeKeys(old(src), start, end));
      if moved < maxKeys {
        forall k | k in RangeKeys(old(src), start, end) ensures k in keys {
          SlotsToDrainAre(old(src), start, end, k.slot);
          assert k in SlotKeys(old(src), k.slot);
        }
        assert keys == RangeKeys(old(src), start, end);
      }
    }

    /** Undisturbed passes, resumed until one reports the flip: it comes within one pass more than
        the keys need at maxKeys a pass, and by then every key of the range, with its value, is on
        the destination and every other key is where it was. */
    method DrainCompletely(start: int, end: int, batchSetting: int, maxKeysSetting: int) returns (passes: nat)
      modifies this
      ensures flipped && Carried(old(src), old(dst), src, dst, RangeKeys(old(src), start, end))
      ensures passes <= CeilDiv(|RangeKeys(old(src), start, end)|, Effective(maxKeysSetting, 2000)) + 1
    {
      ghost var all, maxKeys := RangeKeys(src, start, end), Effective(maxKeysSetting, 2000);
      ghost var keys: set<Key> := {};
      passes := 0;
      var done := false;
      while !done
        invariant Carried(old(src), old(dst), src, dst, keys) && keys <= all && (done ==> flipped && keys == all)
        invariant !done ==> passes + CeilDiv(|all - keys|, maxKeys) <= CeilDiv(|all|, maxKeys)
        invariant done ==> passes <= CeilDiv(|all|, maxKeys) + 1
        decreases if done then 0 else 1, |all - keys|
      {
        ghost var src1, dst1, before := src, dst, keys;
        assert RangeKeys(src, start, end) == all - keys;
        ghost var some;
        var moved;
        done, moved, some := Pass(start, end, batchSetting, maxKeysSetting);
        CarriedOn(old(src), old(dst), src1, dst1, src, dst, before, some);
        keys := before + some;
        OnePassLess(all, before, some, maxKeys);
        passes := passes + 1;
      }
    }
  }

  function Effective(setting: int, default: int): int {
    if setting <= 0 then default else setting
  }

  function CeilDiv(a: int, b: int): int
    requires a >= 0 && b > 0
    decreases a
  {
    if a == 0 then 0 else if a <= b then 1 else 1 + CeilDiv(a - b, b)
  }

  lemma {:induction false} CeilMonotone(a: int, c: int, b: int)
    requires 0 <= a <= c && b > 0
    ensures 0 <= CeilDiv(a, b) <= CeilDiv(c, b)
    decreases c
  {
    if c > b && a > b { CeilMonotone(a - b, c - b, b); } else if c > b { CeilMonotone(0, c - b, b); }
  }

  /** A pass that moves at least min(b, a) of a keys saves a pass. */
  lemma {:induction false} CeilStep(a: int, m: int, b: int)
    requires 0 <= m <= a && b > 0 && m >= Min(a, b)
    ensures a > 0 ==> CeilDiv(a - m, b) + 1 <= CeilDiv(a, b)
  {
    if a > b { CeilMonotone(a - m, a - b, b); }
  }

  lemma {:induction false} OnePassLess(all: set<Key>, before: set<Key>, some: set<Key>, b: int)
    requires before <= all && some <= all - before && b > 0 && |some| >= Min(b, |all - before|)
    ensures all - before != {} ==>
              && |all - (before + some)| < |all - before|
              && CeilDiv(|all - (before + some)|, b) + 1 <= CeilDiv(|all - before|, b)
  {
    var rest := all - before;
    assert all - (before + some) == rest - some;
    assert rest == (rest - some) + some;
    CeilStep(|rest|, |some|, b);
  }

  lemma {:induction false} SizeBound(s: set<Key>, t: set<Key>)
    requires s <= t
    ensures |s| <= |t|
  {
    assert t == s + (t - s);
  }
}

// Weak pointers: an object and the pointers to it hold one shared block, which knows whether the
// object still exists and counts its holders.
module SafePointers {
  class SharedData {
    var target: Object?
    var refCounter: int

    // Who has joined and not detached, and whether delete has been called on the block.
    ghost var holders: set<SharedDataHolder>
    ghost var released: bool

    // The count is exact; the block is released exactly when nobody holds it.
    ghost predicate Exact()
      reads this, holders
    {
      && refCounter == |holders|
      && (released <==> holders == {})
      && forall h :: h in holders ==> h.sharedData == this
    }

    constructor ()
      ensures target == null && refCounter == 0 && !released && holders == {}
    {
      target, refCounter, released, holders := null, 0, false, {};
    }
  }

  class SharedDataHolder {
    var sharedData: SharedData?

    constructor ()
      ensures sharedData == null
    {
      sharedData := null;
    }

    // Joining no block is allowed, and leaves the holder without one.
    method Join(b: SharedData?)
      requires sharedData == null
      modifies `sharedData, (if b != null then {b} else {})`refCounter, (if b != null then {b} else {})`holders
      ensures sharedData == b
      ensures b != null ==> b.refCounter == old(b.refCounter) + 1 && b.holders == old(b.holders) + {this}
    {
      sharedData := b;
      if sharedData != null {
        sharedData.refCounter := sharedData.refCounter + 1;
        sharedData.holders := sharedData.holders + {this};
      }
    }

    method Detach()
      modifies `sharedData, (if sharedData != null then {sharedData} else {})`refCounter,
               (if sharedData != null then {sharedData} else {})`holders,
               (if sharedData != null then {sharedData} else {})`released
      ensures sharedData == null
      ensures var b := old(sharedData); b != null ==>
                && b.refCounter == old(b.refCounter) - 1 && b.holders == old(b.holders) - {this}
                && b.released == (old(b.released) || b.refCounter == 0)
    {
      if sharedData != null {
        sharedData.refCounter := sharedData.refCounter - 1;
        sharedData.holders := sharedData.holders - {this};
        if sharedData.refCounter == 0 {
          sharedData.released := true;
        }
        sharedData := null;
      }
    }
  }

  // All the blocks, objects and pointers there have been, the destroyed ones included.
  class Memory {
    ghost var blocks: set<SharedData>
    ghost var holders: set<SharedDataHolder>
    ghost var objects: set<Object>
    ghost var pointers: set<SafeObjectPointer>

    constructor ()
      ensures Valid() && blocks == {} && holders == {} && objects == {} && pointers == {}
    {
      blocks, holders, objects, pointers := {}, {}, {}, {};
    }

    ghost predicate AllExact()
      reads this, blocks, holders
    {
      forall b :: b in blocks ==> b.holders <= holders && b.Exact()
    }

    ghost predicate AllJoined()
      reads this, blocks, holders
    {
      forall h :: h in holders && h.sharedData != null ==> h.sharedData in blocks && h in h.sharedData.holders
    }

    ghost predicate AllObjects()
      reads this, objects, blocks, holders
    {
      forall o :: o in objects ==>
        && o.memory == this && o.holder in holders
        && o.block in blocks
        && o.holder.sharedData == (if o.alive then o.block else null)
        && o.block.target == (if o.alive then o else null)
    }

    ghost predicate AllPointers()
      reads this, pointers, holders
    {
      forall p :: p in pointers ==>
        && p.memory == this && p.holder in holders
        && (p.target != null ==> p.target in objects)
        && p.holder.sharedData == (if p.alive && p.target != null then p.target.block else null)
    }

    // Every object has a block and a holder of its own, every pointer a holder of its own.
    ghost predicate OwnParts()
      reads this
    {
      && (forall o, q :: o in objects && q in objects && o != q ==> o.holder != q.holder && o.block != q.block)
      && (forall p, q :: p in pointers && q in pointers && p != q ==> p.holder != q.holder)
      && (forall o, p :: o in objects && p in pointers ==> o.holder != p.holder)
    }

    ghost predicate Valid()
      reads this, blocks, holders, objects, pointers
    {
      OwnParts() && AllExact() && AllJoined() && AllObjects() && AllPointers()
    }

    lemma PartsOf(p: SafeObjectPointer)
      requires AllPointers() && p in pointers
      ensures p.memory == this && p.holder in holders
      ensures p.target != null ==> p.target in objects
      ensures p.holder.sharedData == (if p.alive && p.target != null then p.target.block else null)
    {
    }

    lemma BlockOf(h: SharedDataHolder)
      requires AllExact() && AllJoined() && h in holders && h.sharedData != null
      ensures var b := h.sharedData;
        && b in blocks && h in b.holders && !b.released && b.refCounter == |b.holders| && |b.holders - {h}| == |b.holders| - 1
    {
      assert h.sharedData.Exact();
    }

    lemma PartsOfObject(o: Object)
      requires AllObjects() && o in objects && o.alive
      ensures o.memory == this && o.holder in holders && o.block in blocks
      ensures o.holder.sharedData == o.block && o.block.target == o
    {
    }

    lemma Outside(h: SharedDataHolder, b: SharedData)
      requires AllExact() && b in blocks && h.sharedData != b
      ensures h !in b.holders
    {
      assert b.Exact();
    }

    lemma OwnBlocks(o: Object, q: Object)
      requires OwnParts() && {o, q} <= objects && o != q
      ensures o.block != q.block
    {
    }

    lemma OwnHolders(p: SafeObjectPointer, q: SafeObjectPointer)
      requires OwnParts() && {p, q} <= pointers && p != q
      ensures p.holder != q.holder
    {
    }

    ghost method AddObject(o: Object)
      requires Valid() && o.memory == this && o !in objects && o.holder !in holders && o.block !in blocks
      requires o.alive && o.holder.sharedData == o.block
      requires o.block.target == o && o.block.holders == {o.holder} && o.block.Exact()
      modifies this
      ensures Valid() && objects == old(objects) + {o} && pointers == old(pointers)
      ensures blocks == old(blocks) + {o.block} && holders == old(holders) + {o.holder}
    {
      blocks := blocks + {o.block};
      holders := holders + {o.holder};
      objects := objects + {o};
    }

    ghost method AddPointer(p: SafeObjectPointer)
      requires Valid() && p.memory == this && p !in pointers && p.holder !in holders
      requires p.alive && p.target == null && p.holder.sharedData == null
      modifies this
      ensures Valid() && objects == old(objects) && pointers == old(pointers) + {p}
      ensures blocks == old(blocks) && holders == old(holders) + {p.holder}
    {
      holders := holders + {p.holder};
      pointers := pointers + {p};
    }
  }

  // A holder joins or leaves a block.
  datatype Move = Move(memory: Memory, holder: SharedDataHolder, block: SharedData)

  // Nothing else has changed in the blocks and holders.
  twostate predicate Moved(x: Move)
    reads x.memory, x.memory.blocks, x.memory.holders
  {
    var m, h, b := x.memory, x.holder, x.block;
    && m.holders == old(m.holders) && m.blocks == old(m.blocks) && h in m.holders && b in m.blocks
    && (forall y :: y in m.holders && y != h ==> y.sharedData == old(y.sharedData))
    && (forall y :: y in m.blocks && y != b ==>
          y.refCounter == old(y.refCounter) && y.released == old(y.released) && y.holders == old(y.holders))
    && if h.sharedData == b then old(h.sharedData) == null && b.holders == old(b.holders) + {h}
       else old(h.sharedData) == b && h.sharedData == null && b.holders == old(b.holders) - {h}
  }

  twostate lemma MovedKeeps(x: Move)
    requires Moved(x) && old(x.memory.AllExact()) && old(x.memory.AllJoined())
    requires x.block.refCounter == |x.block.holders| && (x.block.released <==> x.block.holders == {})
    ensures x.memory.AllExact() && x.memory.AllJoined()
  {
  }

  class Object {
    const holder: SharedDataHolder
    ghost const memory: Memory
    ghost const block: SharedData

    // Whether the destructor has not run yet.
    ghost var alive: bool

    constructor (ghost memory: Memory)
      requires memory.Valid()
      modifies memory
      ensures memory.Valid() && fresh(this) && this.memory == memory && alive
      ensures memory.objects == old(memory.objects) + {this} && memory.pointers == old(memory.pointers)
      ensures fresh(block) && fresh(holder) && block.refCounter == 1
      ensures memory.blocks == old(memory.blocks) + {block} && memory.holders == old(memory.holders) + {holder}
    {
      var sharedData := new SharedData();
      var h := new SharedDataHolder();
      holder := h;
      this.memory := memory;
      block := sharedData;
      alive := true;
      new;
      hide Memory.Valid;
      sharedData.target := this;
      holder.Join(sharedData);
      assert memory.Valid() && block.Exact() by {
        assert block.holders == {holder};
      }
      hide SharedData.Exact;
      memory.AddObject(this);
    }

    // The destructor.
    method Delete()
      requires memory.Valid() && this in memory.objects && alive
      modifies `alive, block, holder`sharedData
      ensures memory.Valid() && !alive
      ensures block.refCounter == old(block.refCounter) - 1 && block.released == (block.refCounter == 0)
    {
      hide Memory.AllExact, Memory.AllJoined, SharedData.Exact;
      memory.PartsOfObject(this);
      memory.BlockOf(holder);
      holder.sharedData.target := null;
      alive := false;
      holder.Detach();
      MovedKeeps(Move(memory, holder, block));
    }
  }

  lemma SameCount<T>(s: set<T>, x: T, y: T)
    requires x in s && y !in s
    ensures |s - {x} + {y}| == |s| && s != {} && s - {x} + {y} != {}
  {
    assert y in s - {x} + {y};
  }

  class SafeObjectPointer {
    const holder: SharedDataHolder
    ghost const memory: Memory

    // The object last assigned, which may be gone by now.
    ghost var target: Object?
    ghost var alive: bool

    constructor (ghost memory: Memory, o: Object?)
      requires memory.Valid() && (o != null ==> o in memory.objects && o.alive)
      modifies memory, (if o != null then {o.block} else {})`refCounter, (if o != null then {o.block} else {})`holders
      ensures memory.Valid() && fresh(this) && fresh(holder) && this.memory == memory && alive && target == o
      ensures memory.pointers == old(memory.pointers) + {this} && memory.objects == old(memory.objects)
      ensures memory.blocks == old(memory.blocks) && memory.holders == old(memory.holders) + {holder}
      ensures o != null ==> o.block.refCounter == old(o.block.refCounter) + 1
    {
      var h := new SharedDataHolder();
      holder := h;
      this.memory := memory;
      target := null;
      alive := true;
      new;
      memory.AddPointer(this);
      if o != null {
        Attach(o);
      }
    }

    // No other object and no other pointer has changed.
    twostate predicate OnlyThisMoved()
      reads this, holder, memory, memory.objects, memory.pointers, memory.holders, memory.blocks
    {
      && memory.objects == old(memory.objects) && memory.pointers == old(memory.pointers)
      && memory.holders == old(memory.holders) && memory.blocks == old(memory.blocks)
      && (forall h :: h in memory.holders ==> h != holder ==> h.sharedData == old(h.sharedData))
      && (forall b :: b in memory.blocks ==> b.target == old(b.target))
      && (forall o :: o in memory.objects ==> o.alive == old(o.alive))
      && (forall p :: p in memory.pointers && p != this ==> p.alive == old(p.alive) && p.target == old(p.target))
      && this in memory.pointers && (target != null ==> target in memory.objects)
      && holder.sharedData == (if alive && target != null then target.block else null)
    }

    twostate lemma OnlyThisMovedKeeps()
      requires memory.OwnParts() && OnlyThisMoved() && old(memory.AllObjects()) && old(memory.AllPointers())
      ensures memory.AllObjects() && memory.AllPointers()
    {
    }

    method Attach(o: Object)
      requires memory.Valid() && this in memory.pointers && alive && target == null
      requires o in memory.objects && o.alive
      modifies `target, holder`sharedData, o.block`refCounter, o.block`holders
      ensures memory.Valid() && target == o && o.block.refCounter == old(o.block.refCounter) + 1
    {
      hide Memory.AllExact, Memory.AllJoined, Memory.AllObjects, Memory.AllPointers, Memory.OwnParts, SharedData.Exact;
      memory.PartsOf(this);
      memory.PartsOfObject(o);
      memory.BlockOf(o.holder);
      memory.Outside(holder, o.block);
      holder.Join(o.holder.sharedData);
      target := o;
      MovedKeeps(Move(memory, holder, o.block));
      OnlyThisMovedKeeps();
    }

    // The copy reads through other, which must lead to a living object.
    constructor Copy(other: SafeObjectPointer)
      requires other.memory.Valid() && other in other.memory.pointers && other.alive
      requires other.target != null && other.target.alive
      modifies other.memory, other.target.block`refCounter, other.target.block`holders
      ensures memory == other.memory && memory.Valid() && fresh(this) && fresh(holder) && alive && target == other.target
      ensures memory.pointers == old(other.memory.pointers) + {this} && memory.objects == old(other.memory.objects)
      ensures memory.blocks == old(other.memory.blocks) && memory.holders == old(other.memory.holders) + {holder}
      ensures target.block.refCounter == old(other.target.block.refCounter) + 1
    {
      var h := new SharedDataHolder();
      holder := h;
      memory := other.memory;
      target := null;
      alive := true;
      new;
      memory.AddPointer(this);
      Attach(other.holder.sharedData.target);
    }

    // The object, if it still exists.
    method Data() returns (o: Object?)
      requires memory.Valid() && this in memory.pointers && alive
      ensures o == if target != null && target.alive then target else null
    {
      o := if holder.sharedData != null then holder.sharedData.target else null;
    }

    // The destructor; a pointer that holds no block has nothing to let go of.
    method Delete()
      requires memory.Valid() && this in memory.pointers && alive
      modifies `alive, holder`sharedData
      modifies if target != null then {target.block} else {}
      ensures memory.Valid() && !alive
      ensures target != null ==> target.block.refCounter == old(target.block.refCounter) - 1 &&
                                 target.block.released == (target.block.refCounter == 0)
    {
      hide Memory.AllExact, Memory.AllJoined, Memory.AllObjects, Memory.AllPointers, SharedData.Exact;
      ghost var b := holder.sharedData;
      memory.PartsOf(this);
      if b != null {
        memory.BlockOf(holder);
      }
      alive := false;
      holder.Detach();
      if b != null {
        MovedKeeps(Move(memory, holder, b));
      }
      OnlyThisMovedKeeps();
    }

    // The holders change places; the counts stay.
    method Swap(other: SafeObjectPointer)
      requires memory.Valid() && {this, other} <= memory.pointers && alive && other.alive && this != other && other.target != null
      modifies `target, holder`sharedData, other`target, other.holder`sharedData
      modifies (if target != null then {target.block} else {})`holders, other.target.block`holders
      ensures memory.Valid() && target == old(other.target) && other.target == old(target)
    {
      hide Memory.AllExact, Memory.AllObjects, Memory.AllPointers, Memory.AllJoined, Memory.OwnParts, HoldersSwapped;
      memory.PartsOf(this);
      memory.PartsOf(other);
      memory.OwnHolders(this, other);
      SwapHolders(other);
      target, other.target := other.target, target;
      assert TargetsSwapped(other);
      hide TargetsSwapped;
      SwapKeepsExact(other);
      SwapKeepsJoined(other);
      SwapKeepsLinks(other);
    }

    method SwapHolders(other: SafeObjectPointer)
      requires holder != other.holder && {holder, other.holder} <= memory.holders && other.holder.sharedData != null
      requires memory.AllJoined()
      modifies holder`sharedData, other.holder`sharedData
      modifies (if holder.sharedData != null then {holder.sharedData} else {})`holders, other.holder.sharedData`holders
      ensures HoldersSwapped(other)
      ensures holder.sharedData == old(other.holder.sharedData) && other.holder.sharedData == old(holder.sharedData)
    {
      var a, b := holder.sharedData, other.holder.sharedData;
      holder.sharedData, other.holder.sharedData := b, a;
      if a != b {
        if a != null {
          a.holders := a.holders - {holder} + {other.holder};
        }
        b.holders := b.holders - {other.holder} + {holder};
      }
    }

    // The blocks have the two holders the other way round.
    twostate predicate HoldersSwapped(other: SafeObjectPointer)
      reads holder, other.holder, memory, memory.holders, memory.blocks
    {
      var a, b := old(holder.sharedData), old(other.holder.sharedData);
      && holder.sharedData == b && other.holder.sharedData == a
      && holder != other.holder && {holder, other.holder} <= memory.holders
      && memory.holders == old(memory.holders) && memory.blocks == old(memory.blocks)
      && (forall h :: h in memory.holders && h != holder && h != other.holder ==> h.sharedData == old(h.sharedData))
      && (forall x :: x in memory.blocks ==>
            && x.refCounter == old(x.refCounter) && x.released == old(x.released)
            && x.holders == if a != b && x == a then old(x.holders) - {holder} + {other.holder}
                            else if a != b && x == b then old(x.holders) - {other.holder} + {holder}
                            else old(x.holders))
    }

    // The two pointers have each other's targets, and nothing else has changed.
    twostate predicate TargetsSwapped(other: SafeObjectPointer)
      reads this, other, holder, other.holder, memory, memory.holders, memory.blocks, memory.pointers, memory.objects
    {
      && holder.sharedData == old(other.holder.sharedData) && other.holder.sharedData == old(holder.sharedData)
      && target == old(other.target) && other.target == old(target) && alive && other.alive && old(alive && other.alive)
      && memory.holders == old(memory.holders) && memory.blocks == old(memory.blocks) && {this, other} <= memory.pointers
      && memory.pointers == old(memory.pointers) && memory.objects == old(memory.objects)
      && (forall h :: h in memory.holders && h != holder && h != other.holder ==> h.sharedData == old(h.sharedData))
      && (forall p :: p in memory.pointers && p != this && p != other ==> p.target == old(p.target) && p.alive == old(p.alive))
      && (forall o :: o in memory.objects ==> o.alive == old(o.alive))
      && (forall x :: x in memory.blocks ==> x.target == old(x.target))
    }

    twostate lemma SwapKeepsExact(other: SafeObjectPointer)
      requires HoldersSwapped(other) && old(memory.AllExact()) && old(memory.AllJoined())
      ensures memory.AllExact()
    {
      var a, b := old(holder.sharedData), old(other.holder.sharedData);
      forall x | x in memory.blocks ensures x.holders <= memory.holders && x.Exact() {
        assert old(x.Exact());
        if a != b && x == a {
          SameCount(old(x.holders), holder, other.holder);
        } else if a != b && x == b {
          SameCount(old(x.holders), other.holder, holder);
        }
      }
    }

    twostate lemma SwapKeepsJoined(other: SafeObjectPointer)
      requires HoldersSwapped(other) && old(memory.AllJoined())
      ensures memory.AllJoined()
    {
    }

    twostate lemma SwapKeepsLinks(other: SafeObjectPointer)
      requires memory.OwnParts() && TargetsSwapped(other) && old(memory.AllObjects()) && old(memory.AllPointers())
      ensures memory.AllObjects() && memory.AllPointers()
    {
    }

    // Copy and swap: the old block goes with the copy at the end. The new target's block has one holder
    // more and the old one's has one less; of the copy a destroyed pointer remains in the memory.
    method Assign(other: SafeObjectPointer)
      requires memory.Valid() && this in memory.pointers && alive
      requires other in memory.pointers && other.alive
      requires this != other ==> other.target != null && other.target.alive
      modifies memory, `target, holder`sharedData
      modifies if target != null then {target.block} else {}, if other.target != null then {other.target.block} else {}
      ensures memory.Valid() && alive && target == old(other.target)
      ensures memory.objects == old(memory.objects) && memory.blocks == old(memory.blocks)
      ensures old(memory.pointers) <= memory.pointers && old(memory.holders) <= memory.holders
      ensures forall p :: p in memory.pointers - old(memory.pointers) ==> fresh(p) && !p.alive
      ensures target != null ==>
                target.block.refCounter == old(other.target.block.refCounter) + if old(target) == target then 0 else 1
      ensures old(target) != null && old(target) != target ==>
                && old(target).block.refCounter == old(target.block.refCounter) - 1
                && old(target).block.released == (old(target).block.refCounter == 0)
    {
      hide Memory.AllExact, Memory.AllJoined, Memory.AllObjects, Memory.AllPointers, Memory.OwnParts;
      memory.PartsOf(this);
      memory.PartsOf(other);
      if this != other {
        if target != null && target != other.target {
          memory.OwnBlocks(target, other.target);
        }
        var copy := new SafeObjectPointer.Copy(other);
        Swap(copy);
        copy.Delete();
      }
    }
  }

  // ----- what holds of all blocks and pointers at any time -----

  ghost function HoldersOf(m: Memory, b: SharedData): set<SharedDataHolder>
    reads m, m.holders
  {
    set h | h in m.holders && h.sharedData == b
  }

  // The counter is the number of holders joined to the block, and the block is released exactly
  // when the last of them has gone.
  lemma CounterIsExact(m: Memory, b: SharedData)
    requires m.Valid() && b in m.blocks
    ensures b.refCounter == |HoldersOf(m, b)|
    ensures b.released <==> HoldersOf(m, b) == {}
  {
    assert b.Exact();
    assert HoldersOf(m, b) == b.holders;
  }

  // An object that lives and a pointer that is in use never hold a released block, and the block of
  // a pointer leads to the pointer's target exactly as long as that lives.
  lemma NoReleasedBlockInUse(m: Memory, o: Object, p: SafeObjectPointer)
    requires m.Valid() && o in m.objects && p in m.pointers
    ensures o.alive ==> !o.block.released && o.block.target == o
    ensures p.alive && p.target == o ==> !o.block.released && p.holder.sharedData == o.block
    ensures p.alive && p.target == o ==> (p.holder.sharedData.target == o <==> o.alive)
  {
    assert o.block.Exact();
    assert o.alive ==> o.holder in o.block.holders;
    assert p.alive && p.target == o ==> p.holder in o.block.holders;
  }

  // An object with two pointers to it, one of which was made for nothing and assigned.
  method Pointed() returns (o: Object, p: SafeObjectPointer, q: SafeObjectPointer)
    ensures p.memory == q.memory == o.memory && o.memory.Valid() && o in o.memory.objects && {p, q} <= o.memory.pointers
    ensures p != q && p.holder != q.holder && p.alive && q.alive && o.alive && p.target == q.target == o
    ensures o.block.refCounter == 3
    ensures fresh(o) && fresh(o.block) && fresh(o.holder) && fresh(p) && fresh(p.holder) && fresh(q) && fresh(q.holder)
  {
    hide Memory.Valid;
    var memory := new Memory();
    o := new Object(memory);
    p := new SafeObjectPointer(memory, null);
    q := new SafeObjectPointer(memory, o);
    p.Assign(q);
  }

  // Both lead to the object until it is destroyed, and its block goes with the second of them.
  method Lifetime() returns (during: bool, after: bool)
    ensures during && !after
  {
    hide Memory.Valid;
    var o, p, q := Pointed();
    var seen := p.Data();
    o.Delete();
    var left := p.Data();
    p.Delete();
    assert o.block.refCounter == 1 && !o.block.released;
    q.Delete();
    assert o.block.refCounter == 0 && o.block.released;
    during, after := seen != null, left != null;
  }
}

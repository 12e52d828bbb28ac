/** Buffer handles. A `Buffer` is one handle; all clones of it share one
    `BufferRef` cell, whose `count` is the number of live handles. When the
    last handle is dropped the cell is dropped, and that enqueues the
    buffer's tag into the cleaner the cell was created with. */
module Buffers {
  import Resources

  /** The shared cell. `holders` is the set of handles that still own it. */
  class BufferRef {
    const id: Resources.u64
    const cleaner: Resources.ResourceCleaner
    var count: nat
    ghost var holders: set<Buffer>

    ghost predicate Valid()
      reads this, holders
    {
      count == |holders| &&
      forall h :: h in holders ==> h.cell == this && h.id == id && h.live
    }

    /** A cell nobody owns yet; `Buffer.New` registers its first owner. */
    constructor (id: Resources.u64, cleaner: Resources.ResourceCleaner)
      ensures this.id == id && this.cleaner == cleaner
      ensures count == 0 && holders == {}
    {
      this.id := id;
      this.cleaner := cleaner;
      count := 0;
      holders := {};
    }

    /** Runs when the last owner is gone: hands the buffer's id to the cleaner. */
    method Drop()
      requires count == 0
      modifies cleaner
      ensures cleaner.toClean == old(cleaner.toClean) + {Resources.Buffer(id)}
    {
      cleaner.Add(Resources.Buffer(id));
    }
  }

  class Buffer {
    const id: Resources.u64
    const cell: BufferRef
    /** False once this handle has been dropped. */
    var live: bool

    ghost predicate Valid()
      reads this, cell, cell.holders
    {
      live && this in cell.holders && cell.Valid()
    }

    /** A new handle owning a new cell; the cleaner is not touched. */
    constructor New(id: Resources.u64, cleaner: Resources.ResourceCleaner)
      ensures Valid() && fresh(cell)
      ensures this.id == id && Id() == id && cell.id == id && cell.cleaner == cleaner
      ensures cell.count == 1 && cell.holders == {this}
      ensures unchanged(cleaner)
    {
      this.id := id;
      cell := new BufferRef(id, cleaner);
      live := true;
      new;
      cell.count := 1;
      cell.holders := {this};
    }

    /** One more handle of an existing cell. */
    constructor Share(from: Buffer)
      ensures id == from.id && cell == from.cell && live
    {
      id := from.id;
      cell := from.cell;
      live := true;
    }

    function Id(): Resources.u64
    {
      id
    }

    /** Handles compare by id alone, whatever cell they hold. */
    predicate Eq(other: Buffer)
    {
      Id() == other.Id()
    }

    /** A new handle to the same cell: one more owner, nothing enqueued. */
    method Clone() returns (c: Buffer)
      requires Valid()
      modifies cell
      ensures fresh(c) && c.Valid() && Valid()
      ensures c.cell == cell && c.id == id && c.Eq(this)
      ensures cell.count == old(cell.count) + 1 && cell.holders == old(cell.holders) + {c}
      ensures unchanged(cell.cleaner)
    {
      c := new Buffer.Share(this);
      cell.count := cell.count + 1;
      cell.holders := cell.holders + {c};
    }

    /** Gives up this handle. The cell loses one owner; if it was the last,
        the cell is dropped and exactly the tag `Buffer(id)` is enqueued,
        otherwise the cleaner is left as it was. */
    method Drop()
      requires Valid()
      modifies this, cell, cell.cleaner
      ensures !live && cell.Valid()
      ensures cell.holders == old(cell.holders) - {this}
      ensures cell.count == old(cell.count) - 1
      ensures cell.cleaner.toClean ==
        if old(cell.count) == 1 then old(cell.cleaner.toClean) + {Resources.Buffer(id)}
        else old(cell.cleaner.toClean)
    {
      assert |cell.holders - {this}| == |cell.holders| - 1;
      live := false;
      cell.holders := cell.holders - {this};
      cell.count := cell.count - 1;
      if cell.count == 0 {
        cell.Drop();
      }
    }
  }

  /** All live handles of one cell, however many clones were made, compare
      equal and carry the id the cell enqueues when it is dropped. */
  lemma ClonesAreEqual(cell: BufferRef, h1: Buffer, h2: Buffer)
    requires cell.Valid() && h1 in cell.holders && h2 in cell.holders
    ensures h1.Eq(h2) && h1.Id() == h2.Id() == cell.id
  {
  }

  /** Handle equality is an equivalence relation. */
  lemma EqIsEquivalence(a: Buffer, b: Buffer, c: Buffer)
    ensures a.Eq(a)
    ensures a.Eq(b) ==> b.Eq(a)
    ensures a.Eq(b) && b.Eq(c) ==> a.Eq(c)
  {
  }

  /** Two buffers built separately with the same id compare equal. */
  method AreEquals() returns (equal: bool)
    ensures equal
  {
    var cleaner := new Resources.ResourceCleaner();
    var b1 := new Buffer.New(0, cleaner);
    var b2 := new Buffer.New(0, cleaner);
    equal := b1.Eq(b2);
  }

  /** Creating a buffer enqueues nothing; dropping its only handle enqueues one tag. */
  method IsCleanedAfterDrop() returns (beforeDrop: nat, afterDrop: nat)
    ensures beforeDrop == 0 && afterDrop == 1
  {
    var cleaner := new Resources.ResourceCleaner();
    var buffer := new Buffer.New(0, cleaner);
    beforeDrop := cleaner.Len();
    buffer.Drop();
    afterDrop := cleaner.Len();
  }

  /** A buffer cloned `clones` times into a fresh cleaner: dropping all
      handles but one leaves the cleaner empty, and dropping the last one
      leaves exactly one pending tag, `Buffer(id)`. */
  method LastDropEnqueuesOnce(id: Resources.u64, clones: nat)
    returns (beforeLast: nat, afterLast: nat, tagPending: bool)
    ensures beforeLast == 0 && afterLast == 1 && tagPending
  {
    var cleaner := new Resources.ResourceCleaner();
    var b := new Buffer.New(id, cleaner);
    var cell := b.cell;
    var handles := [b];
    while |handles| <= clones
      invariant 1 <= |handles| <= clones + 1 && handles[0] == b
      invariant b.Valid() && cell.count == |handles|
      invariant forall j :: 0 <= j < |handles| ==> handles[j].cell == cell && handles[j] in cell.holders
      invariant forall j, l :: 0 <= j < l < |handles| ==> handles[j] != handles[l]
      invariant cleaner.toClean == {}
      decreases clones + 1 - |handles|
    {
      var c := b.Clone();
      handles := handles + [c];
    }
    var i := 0;
    while i < clones
      invariant 0 <= i <= clones && |handles| == clones + 1
      invariant cell.Valid() && cell.count == |handles| - i
      invariant forall j :: 0 <= j < |handles| ==> handles[j].cell == cell
      invariant forall j :: i <= j < |handles| ==> handles[j] in cell.holders
      invariant forall j, l :: 0 <= j < l < |handles| ==> handles[j] != handles[l]
      invariant cleaner.toClean == {}
    {
      handles[i].Drop();
      i := i + 1;
    }
    beforeLast := cleaner.Len();
    handles[clones].Drop();
    afterLast := cleaner.Len();
    tagPending := Resources.Buffer(id) in cleaner.toClean;
  }
}

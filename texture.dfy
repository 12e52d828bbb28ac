/** Texture handles, which follow the same ownership scheme as buffers:
    every clone of a `Texture` shares one `TextureRef` cell, and dropping the
    last one enqueues the texture's tag into the cell's cleaner. */
module Textures {
  import Resources
  import Buffers

  datatype TextureFormat = SRgba8 | Rgba32 | R8 | Depth16

  datatype TextureFilter = Linear | Nearest

  /** The shared cell. `holders` is the set of handles that still own it. */
  class TextureRef {
    const id: Resources.u64
    const cleaner: Resources.ResourceCleaner
    var count: nat
    ghost var holders: set<Texture>

    ghost predicate Valid()
      reads this, holders
    {
      count == |holders| &&
      forall h :: h in holders ==> h.cell == this && h.id == id && h.live
    }

    /** A cell nobody owns yet; `Texture.New` registers its first owner. */
    constructor (id: Resources.u64, cleaner: Resources.ResourceCleaner)
      ensures this.id == id && this.cleaner == cleaner
      ensures count == 0 && holders == {}
    {
      this.id := id;
      this.cleaner := cleaner;
      count := 0;
      holders := {};
    }

    /** Runs when the last owner is gone: hands the texture's id to the cleaner. */
    method Drop()
      requires count == 0
      modifies cleaner
      ensures cleaner.toClean == old(cleaner.toClean) + {Resources.Texture(id)}
    {
      cleaner.Add(Resources.Texture(id));
    }
  }

  class Texture {
    const id: Resources.u64
    const cell: TextureRef
    /** False once this handle has been dropped. */
    var live: bool

    ghost predicate Valid()
      reads this, cell, cell.holders
    {
      live && this in cell.holders && cell.Valid()
    }

    /** A new handle owning a new cell; the cleaner is not touched. */
    constructor New(id: Resources.u64, cleaner: Resources.ResourceCleaner)
      ensures Valid() && fresh(cell)
      ensures this.id == id && Id() == id && cell.id == id && cell.cleaner == cleaner
      ensures cell.count == 1 && cell.holders == {this}
      ensures unchanged(cleaner)
    {
      this.id := id;
      cell := new TextureRef(id, cleaner);
      live := true;
      new;
      cell.count := 1;
      cell.holders := {this};
    }

    /** One more handle of an existing cell. */
    constructor Share(from: Texture)
      ensures id == from.id && cell == from.cell && live
    {
      id := from.id;
      cell := from.cell;
      live := true;
    }

    function Id(): Resources.u64
    {
      id
    }

    /** A new handle to the same cell: one more owner, nothing enqueued. */
    method Clone() returns (c: Texture)
      requires Valid()
      modifies cell
      ensures fresh(c) && c.Valid() && Valid()
      ensures c.cell == cell && c.id == id
      ensures cell.count == old(cell.count) + 1 && cell.holders == old(cell.holders) + {c}
      ensures unchanged(cell.cleaner)
    {
      c := new Texture.Share(this);
      cell.count := cell.count + 1;
      cell.holders := cell.holders + {c};
    }

    /** Gives up this handle. The cell loses one owner; if it was the last,
        the cell is dropped and exactly the tag `Texture(id)` is enqueued,
        otherwise the cleaner is left as it was. */
    method Drop()
      requires Valid()
      modifies this, cell, cell.cleaner
      ensures !live && cell.Valid()
      ensures cell.holders == old(cell.holders) - {this}
      ensures cell.count == old(cell.count) - 1
      ensures cell.cleaner.toClean ==
        if old(cell.count) == 1 then old(cell.cleaner.toClean) + {Resources.Texture(id)}
        else old(cell.cleaner.toClean)
    {
      assert |cell.holders - {this}| == |cell.holders| - 1;
      live := false;
      cell.holders := cell.holders - {this};
      cell.count := cell.count - 1;
      if cell.count == 0 {
        cell.Drop();
      }
    }
  }

  /** All live handles of one cell carry the cell's id, the id it enqueues. */
  lemma ClonesShareId(cell: TextureRef, h1: Texture, h2: Texture)
    requires cell.Valid() && h1 in cell.holders && h2 in cell.holders
    ensures h1.Id() == h2.Id() == cell.id
  {
  }

  /** Dropping a clone while the original lives enqueues nothing; dropping
      the original afterwards enqueues `Texture(id)` and nothing else. */
  method CloneThenDropBoth(id: Resources.u64)
    returns (afterClone: nat, afterFirst: nat, afterLast: nat, tagPending: bool)
    ensures afterClone == 0 && afterFirst == 0 && afterLast == 1 && tagPending
  {
    var cleaner := new Resources.ResourceCleaner();
    var t := new Texture.New(id, cleaner);
    var c := t.Clone();
    afterClone := cleaner.Len();
    c.Drop();
    afterFirst := cleaner.Len();
    t.Drop();
    afterLast := cleaner.Len();
    tagPending := Resources.Texture(id) in cleaner.toClean;
  }

  /** A buffer and a texture with the same numeric id, both fully dropped
      into one cleaner, leave two distinct pending tags. */
  method SameIdBufferAndTexture(id: Resources.u64)
    returns (n: nat, bufferPending: bool, texturePending: bool)
    ensures n == 2 && bufferPending && texturePending
  {
    var cleaner := new Resources.ResourceCleaner();
    var b := new Buffers.Buffer.New(id, cleaner);
    var t := new Texture.New(id, cleaner);
    b.Drop();
    t.Drop();
    n := cleaner.Len();
    bufferPending := Resources.Buffer(id) in cleaner.toClean;
    texturePending := Resources.Texture(id) in cleaner.toClean;
  }
}

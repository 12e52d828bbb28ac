# sgfx resource lifecycle and vertex layout, modelled in Dafny

This project models two parts of the sgfx GPU abstraction layer.

The first part is the resource-lifecycle bookkeeping. A `ResourceCleaner` is
a set of resource tags waiting to be released, and every clone of a cleaner
shares that one set. `Buffer` and `Texture` are cloneable handles. All clones
of a handle share one reference-counted cell. When the last handle of a cell
is dropped, the cell's `Drop` adds exactly one tag, `Buffer(id)` or
`Texture(id)`, to the cleaner.

The second part is the vertex layout description. The twelve `VertexFormat`
variants have a component count, a byte width and a normalization flag.
`VertexInfo` is a builder that collects `VertexAttr` entries in order and
holds a step mode.

Files and modules:

- `vertex.dfy`, module `VertexLayout`: pure datatypes and functions, as in
  `src/vertex.rs`. The builder methods of `VertexInfo` take `self` and return
  it, so they become functions on a datatype value. `LayoutOf` and
  `FromLayout` are a reference view of the formats: the scalar kind, the
  component count and the `Norm` flag that each name spells out. They are
  proved to match the formats one to one.
- `resource.dfy`, module `Resources`: the `Resource` tag datatype and the
  `ResourceCleaner` class. Its field `toClean: set<Resource>` is the shared
  set. A Rust clone of a cleaner is another reference to the same Dafny object.
- `buffer.dfy`, module `Buffers`: the class `BufferRef` is the `Arc`'d cell.
  Its `count` is the number of strong references, and its ghost `holders` is
  the set of live handles. The class `Buffer` is one handle, and its `live`
  flag turns false when the handle is dropped. `Buffer.Drop` is the `Arc`
  release. It calls `BufferRef.Drop`, which is the `Drop` impl, when the
  count reaches zero.
- `texture.dfy`, module `Textures`: the same scheme for textures, plus the
  `TextureFormat` and `TextureFilter` enums.

Rust's `u64` and `u32` are modelled as newtypes. `size()` and `bytes()` return a 32-bit
`i32` newtype, so the verifier checks that `size() * 4` cannot overflow.
`len()` returns a `nat`.

Handles compare by id alone (`src/buffer.rs:33-37`), whichever cell they
hold. The test `are_equals` expects two separately built buffers with id 0 to
compare equal, and `Buffer.Eq` does the same.

## Model

| member | source | states |
|---|---|---|
| VertexLayout.VertexFormat.Size | src/vertex.rs:18-33 | the component count is between 1 and 4 and equals the count the format's name spells out |
| VertexLayout.VertexFormat.Bytes | src/vertex.rs:35-42 | the byte width is between 1 and 16 and equals the component count times the scalar width (1 for `UInt8*`, 4 for `Float32*`) |
| VertexLayout.VertexFormat.Normalized | src/vertex.rs:44-50 | the format is normalized exactly when its name carries `Norm`; a normalized format uses one byte per component |
| VertexLayout.ScalarBytes | src/vertex.rs:38-40 | one scalar takes either 1 or 4 bytes; which kind takes which is fixed only by its body (8-bit integer 1, 32-bit float 4), and the contract of `Bytes` ties it to the formats |
| VertexLayout.VertexFormat.LayoutOf | src/vertex.rs:2-15 | every format names 1 to 4 components, and only 8-bit integer formats are marked normalized |
| VertexLayout.VertexFormat.FromLayout | src/vertex.rs:2-15 | a layout names a format exactly when it has 1 to 4 components and is not a normalized float |
| VertexLayout.LayoutIdentifiesFormat | src/vertex.rs:2-15 | `FromLayout(l) == Some(f)` holds if and only if `f.LayoutOf() == l`, so formats and well-formed layouts correspond one to one |
| VertexLayout.UInt8BytesMatchSize | src/vertex.rs:106-122 | for each of the eight `UInt8*` formats, normalized or not, `Bytes() == Size()` |
| VertexLayout.Float32BytesAreSizeTimesFour | src/vertex.rs:124-131 | for each of the four `Float32*` formats, `Bytes() == Size() * 4` |
| VertexLayout.FormatsPartition | src/vertex.rs:35-42 | every format is in exactly one of the `UInt8*` and `Float32*` families, and the `UInt8*` family is the 8-bit kind |
| VertexLayout.NormalizedExactlyNormFormats | src/vertex.rs:133-147 | `Normalized()` is true exactly for the four `*Norm` formats and false for every float and every non-`Norm` integer format |
| VertexLayout.Float32x3Facts | src/vertex.rs:18-50 | `Float32x3` has size 3, takes 12 bytes and is not normalized |
| VertexLayout.VertexAttr.New | src/vertex.rs:59-66 | the attribute holds the given location and format |
| VertexLayout.VertexStepMode.Default | src/vertex.rs:74-78 | the default step mode is `Vertex` |
| VertexLayout.VertexInfo.New | src/vertex.rs:86-89 | a new `VertexInfo` has no attributes and step mode `Vertex` |
| VertexLayout.VertexInfo.Attr | src/vertex.rs:91-94 | exactly one attribute `{location, format}` is appended at the end; the earlier attributes keep their order and the step mode is unchanged |
| VertexLayout.VertexInfo.StepMode | src/vertex.rs:96-99 | the step mode becomes the given one and the attributes are untouched |
| VertexLayout.AttrChainAppendsInOrder | src/vertex.rs:91-94 | a chain of `attr` calls appends exactly the supplied attributes, in the supplied order, and keeps the step mode |
| VertexLayout.StepModeCommutesWithAttr | src/vertex.rs:91-99 | setting the step mode before or after an `attr` call gives the same `VertexInfo` |
| Resources.KindOf | src/resource.rs:5-11 | each tag has exactly the kind of its variant |
| Resources.TagEquality | src/resource.rs:5-11 | two tags are equal if and only if their kinds and ids are both equal |
| Resources.BufferIsNotTexture | src/resource.rs:5-11 | `Buffer(n)` and `Texture(n)` are different tags |
| Resources.InsertLen | src/resource.rs:19-21 | inserting a tag that is already present keeps the set's size; inserting a new one raises it by exactly 1 |
| Resources.ResourceCleaner.constructor | src/resource.rs:13-16 | a default cleaner has no pending tags |
| Resources.ResourceCleaner.Add | src/resource.rs:19-21 | the new pending set is the old one plus the tag, so no tag is removed; the length grows by 1 only if the tag was not already pending |
| Resources.ResourceCleaner.Reset | src/resource.rs:23-25 | the pending set is empty afterwards, whatever it held before |
| Resources.ResourceCleaner.Len | src/resource.rs:27-29 | returns the number of pending tags, which is 0 exactly when none is pending, and changes nothing |
| Resources.BufferTagsMembers | src/resource.rs:56-59 | after adding `Buffer(n)` for each id in a list, a tag is pending if and only if it is a `Buffer` whose id is in the list |
| Resources.DistinctBufferTagsLen | src/resource.rs:56-60 | adding `Buffer(n)` for n distinct ids leaves exactly n pending tags |
| Resources.DoNotAddResourceTwice | src/resource.rs:37-53 | a fresh cleaner has length 0, then 1 after adding `Buffer(0)`, and still 1 after adding it again |
| Resources.ClearList | src/resource.rs:55-63 | adding five distinct buffer ids gives length 5, and `reset` then gives length 0 |
| Buffers.BufferRef.constructor | src/buffer.rs:5-8 | a cell stores the given id and cleaner and has no owner yet |
| Buffers.BufferRef.Drop | src/buffer.rs:10-14 | dropping the cell adds exactly `Buffer(id)` to its cleaner |
| Buffers.Buffer.New | src/buffer.rs:22-26 | a new handle has the given id and a fresh cell with that id and cleaner, the cell has one owner, and the cleaner is unchanged |
| Buffers.Buffer.Share | src/buffer.rs:16-20 | a copied handle has the same id and the same cell as the handle it copies |
| Buffers.Buffer.Clone | src/buffer.rs:16-20 | a clone shares the cell and has the same id, so it compares equal; the cell has one more owner and the cleaner is unchanged |
| Buffers.Buffer.Drop | src/buffer.rs:10-20 | the handle stops owning the cell and the count drops by 1; the cleaner gains exactly `Buffer(id)` if this was the last owner and is unchanged otherwise |
| Buffers.ClonesAreEqual | src/buffer.rs:28-37 | any two live handles of one cell, however many clones were made, compare equal, and `id()` of each is the id its cell enqueues |
| Buffers.EqIsEquivalence | src/buffer.rs:33-37 | handle equality is reflexive, symmetric and transitive |
| Buffers.AreEquals | src/buffer.rs:50-56 | two buffers built separately with id 0 compare equal |
| Buffers.IsCleanedAfterDrop | src/buffer.rs:65-71 | creating a buffer leaves a fresh cleaner at length 0, and dropping its only handle brings it to 1 |
| Buffers.LastDropEnqueuesOnce | src/buffer.rs:10-20 | for any id and any number of clones, dropping all handles but one leaves the cleaner empty, and dropping the last leaves exactly `{Buffer(id)}` |
| Textures.TextureRef.constructor | src/texture.rs:18-21 | a cell stores the given id and cleaner and has no owner yet |
| Textures.TextureRef.Drop | src/texture.rs:23-27 | dropping the cell adds exactly `Texture(id)`, with the cell's id, to its cleaner |
| Textures.Texture.New | src/texture.rs:29-33 | a new handle has the given id and a fresh cell with one owner, and the cleaner is unchanged |
| Textures.Texture.Share | src/texture.rs:29-33 | a copied handle has the same id and the same cell as the handle it copies |
| Textures.Texture.Clone | src/texture.rs:29-33 | a clone shares the cell; the cell has one more owner and the cleaner is unchanged |
| Textures.Texture.Drop | src/texture.rs:23-33 | the count drops by 1; the cleaner gains exactly `Texture(id)` on the last drop and is unchanged otherwise |
| Textures.ClonesShareId | src/texture.rs:18-33 | any two live handles of one cell carry the same id, the id the cell enqueues (its `Texture(id)` tag) |
| Textures.CloneThenDropBoth | src/texture.rs:23-33 | cloning and then dropping the clone leaves the cleaner empty; dropping the original then leaves exactly `{Texture(id)}` |
| Textures.SameIdBufferAndTexture | src/texture.rs:23-27 | a buffer and a texture with the same id, both fully dropped into one cleaner, leave the two distinct tags `Buffer(id)` and `Texture(id)` |

## Left out

- `src/backend.rs`: the `Backend` trait has no bodies apart from the default `limits()`. It relies on types that are not part of this model (`Limits`, `Commands`, `PipelineOptions`, `TextureInfo`, ...). All of it is foreign GPU work, and `set_dpi` takes an `f64`.
- Concurrency: `Arc`'s atomic count and the `parking_lot::RwLock` around the cleaner's set are modelled as a sequential counter and a plain set field.
- Rust's ownership rules: move semantics stop a dropped handle from being used again. The model states this as a precondition. `Clone` and `Drop` require `Valid()`, which includes `live`.
- `Arc::new` starts the strong count at 1. The model builds the cell with no owner, and `Buffer.New` / `Texture.New` register the first handle right after. The cell constructors and `BufferRef.Drop` / `TextureRef.Drop` are meant to be called only from `Buffer.New` / `Buffer.Drop` and their texture equivalents. In Rust the cell types are private to their files, but Dafny cannot enforce that. A caller of the model could build a cell and drop it with no handle ever having existed, which enqueues its tag.
- `Debug` for `Buffer` (`src/buffer.rs:39-43`) only formats a string.
- The test `are_not_equals` (`src/buffer.rs:58-63`) is not marked `#[test]` and contradicts `PartialEq` and `are_equals`, so it is not encoded.
- Draining the cleaner, and any policy on reusing ids: the cleaner has no drain operation, and the code promises nothing about ids.
- The texture constructor, `Texture::id()` and any `PartialEq` for `Texture` come after line 34 of `src/texture.rs`, which is not part of this model. `Texture.New` and `Texture.Id` copy `Buffer`'s shape. No equality is modelled for textures.
- `Pipeline` and `RenderTexture` handles: only their tags exist in the source files modelled here, so only the tags are modelled.

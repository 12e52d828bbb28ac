/** Resource tags and the shared set of tags waiting to be released by the
    backend. Every clone of a cleaner refers to the same set, so a cleaner is
    one heap object that all its holders reference. */
module Resources {

  newtype u64 = x: int | 0 <= x < 0x1_0000_0000_0000_0000

  /** A GPU-side object, identified by its kind and its numeric id. */
  datatype Resource =
    | Buffer(id: u64)
    | Texture(id: u64)
    | Pipeline(id: u64)
    | RenderTexture(id: u64)

  datatype ResourceKind = BufferKind | TextureKind | PipelineKind | RenderTextureKind

  function KindOf(r: Resource): (k: ResourceKind)
    ensures k.BufferKind? <==> r.Buffer?
    ensures k.TextureKind? <==> r.Texture?
    ensures k.PipelineKind? <==> r.Pipeline?
  {
    match r
    case Buffer(_) => BufferKind
    case Texture(_) => TextureKind
    case Pipeline(_) => PipelineKind
    case RenderTexture(_) => RenderTextureKind
  }

  /** Two tags are equal exactly when they agree on both kind and id. */
  lemma TagEquality(a: Resource, b: Resource)
    ensures a == b <==> KindOf(a) == KindOf(b) && a.id == b.id
  {
  }

  lemma BufferIsNotTexture(n: u64)
    ensures Buffer(n) != Texture(n)
  {
  }

  /** How many tags a set holds after one insertion. */
  lemma InsertLen(s: set<Resource>, r: Resource)
    ensures |s + {r}| == if r in s then |s| else |s| + 1
  {
    if r in s {
      assert s + {r} == s;
    } else {
      assert (s + {r}) - {r} == s;
    }
  }

  class ResourceCleaner {
    /** The tags enqueued since the last reset. */
    var toClean: set<Resource>

    /** A default cleaner holds nothing. */
    constructor ()
      ensures toClean == {}
    {
      toClean := {};
    }

    /** Enqueues a tag; enqueuing one that is already pending changes nothing. */
    method Add(resource: Resource)
      modifies this
      ensures toClean == old(toClean) + {resource}
      ensures |toClean| == if resource in old(toClean) then old(|toClean|) else old(|toClean|) + 1
    {
      InsertLen(toClean, resource);
      toClean := toClean + {resource};
    }

    /** Forgets every pending tag. */
    method Reset()
      modifies this
      ensures toClean == {}
    {
      toClean := {};
    }

    /** The number of pending tags. Reading it changes nothing. */
    method Len() returns (n: nat)
      ensures n == |toClean|
      ensures n == 0 <==> toClean == {}
    {
      n := |toClean|;
    }
  }

  /** The tags a cleaner holds after `Buffer(id)` was added for each id, in order. */
  function BufferTags(ids: seq<u64>): set<Resource>
  {
    if ids == [] then {} else BufferTags(ids[..|ids| - 1]) + {Buffer(ids[|ids| - 1])}
  }

  lemma {:induction false} BufferTagsMembers(ids: seq<u64>, r: Resource)
    ensures r in BufferTags(ids) <==> r.Buffer? && r.id in ids
  {
    if ids != [] {
      var prefix := ids[..|ids| - 1];
      BufferTagsMembers(prefix, r);
      assert ids == prefix + [ids[|ids| - 1]];
    }
  }

  predicate Distinct(ids: seq<u64>)
  {
    forall i, j :: 0 <= i < j < |ids| ==> ids[i] != ids[j]
  }

  /** Adding `Buffer(id)` for n distinct ids leaves exactly n pending tags. */
  lemma {:induction false} DistinctBufferTagsLen(ids: seq<u64>)
    requires Distinct(ids)
    ensures |BufferTags(ids)| == |ids|
  {
    if ids != [] {
      var prefix := ids[..|ids| - 1];
      var last := ids[|ids| - 1];
      DistinctBufferTagsLen(prefix);
      BufferTagsMembers(prefix, Buffer(last));
      InsertLen(BufferTags(prefix), Buffer(last));
    }
  }

  /** A fresh cleaner has length zero, adding a tag gives length one, and
      adding the same tag again leaves the length at one. */
  method DoNotAddResourceTwice() returns (initial: nat, afterFirst: nat, afterSecond: nat)
    ensures initial == 0 && afterFirst == 1 && afterSecond == 1
  {
    var cleaner := new ResourceCleaner();
    initial := cleaner.Len();
    cleaner.Add(Buffer(0));
    afterFirst := cleaner.Len();
    cleaner.Add(Buffer(0));
    afterSecond := cleaner.Len();
  }

  /** Five distinct buffer ids give five pending tags, and a reset clears them. */
  method ClearList() returns (afterAdds: nat, afterReset: nat)
    ensures afterAdds == 5 && afterReset == 0
  {
    var cleaner := new ResourceCleaner();
    var ids: seq<u64> := [0, 1, 2, 3, 4];
    for i := 0 to |ids|
      invariant cleaner.toClean == BufferTags(ids[..i])
    {
      cleaner.Add(Buffer(ids[i]));
      assert ids[..i + 1][..i] == ids[..i];
    }
    assert ids[..|ids|] == ids;
    DistinctBufferTagsLen(ids);
    afterAdds := cleaner.Len();
    cleaner.Reset();
    afterReset := cleaner.Len();
  }
}

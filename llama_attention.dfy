/** The cache-facing part of the Llama 3.2 attention forward pass
    (llama32.py, llama_attention_forward, lines 186-247): how the fused qkv
    projection is split into head groups, and which cache update protocol the
    layer invokes. The tensor arithmetic (rotary embedding, scaled dot-product
    attention, output projection) is not part of this model. */
module LlamaAttention {
  import opened KvSelection

  /** The last argument of the compress update call (line 229). */
  const CompressUpdateArg: nat := 256

  /** One call of `past_key_value.update` made by a layer: the plain protocol
      (line 231) or the compress protocol (lines 224-229), which also passes
      the query, the mask, the group count and whether the cache has room for
      the new tokens. */
  datatype UpdateCall =
    | PlainUpdate(layerIdx: nat)
    | CompressUpdate(layerIdx: nat, enoughRoom: bool, arg: nat)

  /** The update protocol a layer uses with a cache of kind `k`: the compress
      protocol exactly when the cache is a DynamicCompressCache (line 201). */
  function UpdateCallFor(h: KvHierarchy, k: CacheKind, layerIdx: nat, enoughRoom: bool): (r: UpdateCall)
    ensures r.CompressUpdate? <==> IsInstance(h, k, CompressClass)
    ensures r.layerIdx == layerIdx
    ensures r.CompressUpdate? ==> r.enoughRoom == enoughRoom && r.arg == 256
  {
    if IsInstance(h, k, CompressClass) then CompressUpdate(layerIdx, enoughRoom, CompressUpdateArg)
    else PlainUpdate(layerIdx)
  }

  /** A key/value cache object shared by all decoder layers of one forward
      pass. Its class never changes; what its update method does to the
      stored tensors (and the eviction of the compress classes) lies outside
      this model, so the object records the update calls it receives. */
  class SessionCache {
    const kind: CacheKind
    var updates: seq<UpdateCall>

    /** `from_legacy_cache` building a fresh cache object of a Dynamic class. */
    constructor (k: CacheKind)
      requires k.IsDynamic()
      ensures kind == k && updates == []
    {
      kind := k;
      updates := [];
    }

    /** `update(key_states, value_states, layer_idx, None)` (line 231). */
    method Update(layerIdx: nat)
      modifies this
      ensures updates == old(updates) + [PlainUpdate(layerIdx)]
    {
      updates := updates + [PlainUpdate(layerIdx)];
    }

    /** The compress class's `update` (lines 226-229). */
    method UpdateCompressed(layerIdx: nat, enoughRoom: bool, arg: nat)
      modifies this
      ensures updates == old(updates) + [CompressUpdate(layerIdx, enoughRoom, arg)]
    {
      updates := updates + [CompressUpdate(layerIdx, enoughRoom, arg)];
    }
  }

  /** `qkv.split([num_heads, num_kv_heads, num_kv_heads], dim=1)` on the head
      axis of the projection (lines 204-208). The precondition is the shape
      the view at line 204 demands, which the fused projection's width
      provides. */
  function SplitQkv<T>(heads: seq<T>, numHeads: nat, numKvHeads: nat): (r: (seq<T>, seq<T>, seq<T>))
    requires |heads| == numHeads + 2 * numKvHeads
    ensures |r.0| == numHeads && |r.1| == numKvHeads && |r.2| == numKvHeads
    ensures r.0 + r.1 + r.2 == heads
  {
    (heads[..numHeads], heads[numHeads..numHeads + numKvHeads], heads[numHeads + numKvHeads..])
  }

  /** Query, key and value groups are the only way to split the projection
      with these sizes: any three groups of the right sizes that concatenate
      to the projection are the split. */
  lemma SplitQkvUnique<T>(heads: seq<T>, numHeads: nat, numKvHeads: nat, q: seq<T>, k: seq<T>, v: seq<T>)
    requires |q| == numHeads && |k| == numKvHeads && |v| == numKvHeads
    requires q + k + v == heads
    ensures SplitQkv(heads, numHeads, numKvHeads) == (q, k, v)
  {
  }

  /** The cache-facing effect of one attention layer: split the projection
      and, when there is a cache, invoke the update protocol its class calls
      for. The layer hands back the same cache object (line 247). */
  method AttentionForward<T>(h: KvHierarchy, cache: SessionCache?, layerIdx: nat, enoughRoom: bool,
                             heads: seq<T>, numHeads: nat, numKvHeads: nat)
    returns (q: seq<T>, k: seq<T>, v: seq<T>, present: SessionCache?)
    requires |heads| == numHeads + 2 * numKvHeads
    modifies cache
    ensures (q, k, v) == SplitQkv(heads, numHeads, numKvHeads)
    ensures present == cache
    ensures cache != null ==>
              cache.updates == old(cache.updates) + [UpdateCallFor(h, cache.kind, layerIdx, enoughRoom)]
  {
    var split := SplitQkv(heads, numHeads, numKvHeads);
    q, k, v := split.0, split.1, split.2;
    DispatchUpdate(h, cache, layerIdx, enoughRoom);
    present := cache;
  }

  /** Lines 201 and 221-232: with a cache, call the compress update when the
      cache is a DynamicCompressCache and the plain update otherwise. */
  method DispatchUpdate(h: KvHierarchy, cache: SessionCache?, layerIdx: nat, enoughRoom: bool)
    modifies cache
    ensures cache != null ==>
              cache.updates == old(cache.updates) + [UpdateCallFor(h, cache.kind, layerIdx, enoughRoom)]
  {
    var useCompressKv := cache != null && IsInstance(h, cache.kind, CompressClass);
    if cache != null {
      if useCompressKv {
        cache.UpdateCompressed(layerIdx, enoughRoom, CompressUpdateArg);
      } else {
        cache.Update(layerIdx);
      }
    }
  }

  /** The update calls the layers 0 .. n-1 of one forward pass make, in order. */
  function LayerUpdates(h: KvHierarchy, k: CacheKind, n: nat, enoughRoom: nat -> bool): (r: seq<UpdateCall>)
    ensures |r| == n
    // call i is layer i's call, with that layer's room verdict
    ensures forall i :: 0 <= i < n ==> r[i] == UpdateCallFor(h, k, i, enoughRoom(i))
  {
    if n == 0 then [] else LayerUpdates(h, k, n - 1, enoughRoom) + [UpdateCallFor(h, k, n - 1, enoughRoom(n - 1))]
  }

  /** Every layer of a forward pass updates the shared cache with the same
      protocol, and layer i updates slot i: the representation cannot differ
      between layers. A corollary of the element-wise contract of
      `LayerUpdates` and of `UpdateCallFor`. */
  lemma LayersShareOneProtocol(h: KvHierarchy, k: CacheKind, n: nat, enoughRoom: nat -> bool, i: nat)
    requires i < n
    ensures LayerUpdates(h, k, n, enoughRoom)[i].layerIdx == i
    ensures LayerUpdates(h, k, n, enoughRoom)[i].CompressUpdate? <==> IsInstance(h, k, CompressClass)
  {
  }
}

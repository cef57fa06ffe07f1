/** The bookkeeping of the Llama 3.2 model forward pass (llama32.py,
    llama_model_forward, lines 57-183): the checks and defaults before the
    decoder layers run, the loop over the layers, and the output tuple. */
module LlamaForward {
  import opened Wrappers
  import opened KvSelection
  import opened LlamaAttention

  /** The ways the prologue fails. */
  datatype ForwardError =
    | InputsMissing    // neither input_ids nor inputs_embeds: `inputs.device` on None (line 82)
    | NoLayers         // no decoder layer: `self.layers[0]` raises IndexError (line 84)
    | InputsConflict   // both given: invalidInputError (lines 110-112)
    | NoSeqLength      // a legacy tuple has no get_seq_length (line 118)

  /** What the prologue settles before the layers run. */
  datatype Prologue = Prologue(
    useCache: bool,
    cache: CacheKind,
    cachePosition: seq<int>,
    positionIds: seq<int>)

  /** `torch.arange(start, stop)`: the integers from start up to, not
      including, stop. */
  function Arange(start: int, stop: int): (r: seq<int>)
    decreases stop - start
    ensures |r| == if start < stop then stop - start else 0
    ensures forall i :: 0 <= i < |r| ==> r[i] == start + i
  {
    if start >= stop then [] else [start] + Arange(start + 1, stop)
  }

  /** Two consecutive ranges form one: the positions of one call followed by
      those of the next call, which starts where the first ended, are the
      positions of one call over all the tokens. */
  lemma {:induction false} ArangeConcat(a: int, b: int, c: int)
    requires a <= b <= c
    ensures Arange(a, c) == Arange(a, b) + Arange(b, c)
    decreases b - a
  {
    if a < b {
      ArangeConcat(a + 1, b, c);
    }
  }

  /** The number of tokens the cache holds after selection: 0 for no cache
      and for a cache built from None, otherwise `pastSeen`, the value of
      get_seq_length (a conversion keeps the stored tokens). */
  function SeenTokens(past: CacheKind, pastSeen: nat): (r: nat)
    ensures past == NoCache ==> r == 0
    ensures past != NoCache ==> r == pastSeen
  {
    if past == NoCache then 0 else pastSeen
  }

  /** Lines 81-123. `past` is the incoming cache and `pastSeen` its
      get_seq_length; `numLayers` is the number of decoder layers;
      `newTokens` is the sequence length of the input; `cachePosition` and
      `positionIds` are the optional arguments. */
  function ForwardPrologue(h: KvHierarchy, f: Flags, past: CacheKind, pastSeen: nat, numLayers: nat,
                           hasInputIds: bool, hasInputsEmbeds: bool, newTokens: nat,
                           cachePosition: Option<seq<int>>, positionIds: Option<seq<int>>)
    : (r: Result<Prologue, ForwardError>)
    // exactly one input form, or the call fails
    ensures r.Ok? ==> hasInputIds != hasInputsEmbeds
    ensures !hasInputIds && !hasInputsEmbeds ==> r == Err(InputsMissing)
    // line 84 reads the first layer before the inputs are checked against each other
    ensures (hasInputIds || hasInputsEmbeds) && numLayers == 0 ==> r == Err(NoLayers)
    ensures hasInputIds && hasInputsEmbeds && numLayers > 0 ==> r == Err(InputsConflict)
    // the only other failure: a legacy tuple kept without use_cache, and no positions given
    ensures r == Err(NoSeqLength) <==>
              hasInputIds != hasInputsEmbeds && numLayers > 0 && cachePosition.None? && !UseCache(f) && past == Legacy
    // every other call succeeds
    ensures r.Ok? <==>
              hasInputIds != hasInputsEmbeds && numLayers > 0 && !(cachePosition.None? && !UseCache(f) && past == Legacy)
    ensures r.Ok? ==> r.value.useCache == UseCache(f) && r.value.cache == SelectCache(h, f, past)
    // given positions are used as they are
    ensures r.Ok? && cachePosition.Some? ==> r.value.cachePosition == cachePosition.value
    ensures r.Ok? && positionIds.Some? ==> r.value.positionIds == positionIds.value
  {
    if !hasInputIds && !hasInputsEmbeds then Err(InputsMissing)
    else if numLayers == 0 then Err(NoLayers)
    else
      var cache := SelectCache(h, f, past);
      if hasInputIds && hasInputsEmbeds then Err(InputsConflict)
      else if cachePosition.None? && cache == Legacy then Err(NoSeqLength)
      else
        var seen := SeenTokens(past, pastSeen);
        var positions := if cachePosition.Some? then cachePosition.value else Arange(seen, seen + newTokens);
        Ok(Prologue(UseCache(f), cache, positions, positionIds.GetOr(positions)))
  }

  /** Without given positions, the cache positions are the newTokens
      consecutive integers that follow the tokens already seen (0 with no
      cache), and the position ids default to the same values. */
  lemma PositionsFollowSeenTokens(h: KvHierarchy, f: Flags, past: CacheKind, pastSeen: nat, numLayers: nat,
                                  hasInputIds: bool, hasInputsEmbeds: bool, newTokens: nat,
                                  positionIds: Option<seq<int>>)
    requires hasInputIds != hasInputsEmbeds && numLayers > 0
    requires UseCache(f) || past != Legacy
    ensures var r := ForwardPrologue(h, f, past, pastSeen, numLayers, hasInputIds, hasInputsEmbeds, newTokens, None, positionIds);
            && r.Ok?
            && |r.value.cachePosition| == newTokens
            && (forall i :: 0 <= i < newTokens ==> r.value.cachePosition[i] == SeenTokens(past, pastSeen) + i)
            && (past == NoCache ==> r.value.cachePosition == Arange(0, newTokens))
            && (positionIds.None? ==> r.value.positionIds == r.value.cachePosition)
  {
  }

  /** Drops the absent entries of a tuple, keeping the order of the others
      (`tuple(v for v in ... if v is not None)`). */
  function Compact<T>(xs: seq<Option<T>>): (r: seq<T>)
    ensures |r| == Present(xs) <= |xs|
    ensures (forall i :: 0 <= i < |xs| ==> xs[i].Some?) ==> |r| == |xs|
  {
    if xs == [] then [] else (if xs[0].Some? then [xs[0].value] else []) + Compact(xs[1..])
  }

  /** The number of present entries. */
  function Present<T>(xs: seq<Option<T>>): (n: nat)
    ensures n <= |xs|
    ensures (forall i :: 0 <= i < |xs| ==> xs[i].Some?) ==> n == |xs|
  {
    if xs == [] then 0 else (if xs[0].Some? then 1 else 0) + Present(xs[1..])
  }

  /** The present entry at index i lands right after the present entries
      before it: the result holds the present values, in their order, and
      (its length being the number of present entries) nothing else. */
  lemma {:induction false} CompactAt<T>(xs: seq<Option<T>>, i: nat)
    requires i < |xs| && xs[i].Some?
    ensures Present(xs[..i]) < |Compact(xs)|
    ensures Compact(xs)[Present(xs[..i])] == xs[i].value
  {
    if i > 0 {
      CompactAt(xs[1..], i - 1);
      assert xs[..i][1..] == xs[1..][..i - 1];
      assert xs[..i][0] == xs[0];
    }
  }

  /** Compacting a concatenation compacts each part, in order. */
  lemma {:induction false} CompactAppend<T>(a: seq<Option<T>>, b: seq<Option<T>>)
    ensures Compact(a + b) == Compact(a) + Compact(b)
  {
    if a == [] {
      assert a + b == b;
    } else {
      var head := if a[0].Some? then [a[0].value] else [];
      assert (a + b)[0] == a[0];
      assert (a + b)[1..] == a[1..] + b;
      calc {
        Compact(a + b);
        head + Compact(a[1..] + b);
        { CompactAppend(a[1..], b); }
        head + (Compact(a[1..]) + Compact(b));
        (head + Compact(a[1..])) + Compact(b);
      }
    }
  }

  /** One entry of the decoder layer's result tuple. The attention weights
      entry holds None: the attention forward never computes weights
      (line 234). */
  datatype LayerOutput<H> = LayerHidden(h: H) | LayerWeights | LayerCache(c: SessionCache?)

  /** The result tuple of one decoder layer: its hidden state, the attention
      weights when requested, the cache when use_cache holds. */
  function DecoderLayerOutputs<H>(hidden: H, outputAttentions: bool, useCache: bool, present: SessionCache?)
    : (r: seq<LayerOutput<H>>)
    ensures |r| == 1 + (if outputAttentions then 1 else 0) + (if useCache then 1 else 0)
    ensures r[0] == LayerHidden(hidden)
    ensures outputAttentions ==> r[1] == LayerWeights
    // line 162 reads the cache from index 2 with weights and from index 1 without
    ensures useCache ==> r[if outputAttentions then 2 else 1] == LayerCache(present)
  {
    var a := [Some(LayerHidden(hidden))];
    var b := [if outputAttentions then Some(LayerWeights) else None];
    var c := [if useCache then Some(LayerCache(present)) else None];
    CompactAppend(a, b);
    CompactAppend(a + b, c);
    Compact(a + b + c)
  }

  /** The hidden state after the first n layers. */
  function Run<H>(layer: (nat, H) -> H, input: H, n: nat): H {
    if n == 0 then input else layer(n - 1, Run(layer, input, n - 1))
  }

  /** The inputs of the first n layers, in order. */
  function Trajectory<H>(layer: (nat, H) -> H, input: H, n: nat): (r: seq<H>)
    ensures |r| == n
  {
    if n == 0 then [] else Trajectory(layer, input, n - 1) + [Run(layer, input, n - 1)]
  }

  /** Entry i of the collected hidden states is the input of layer i. */
  lemma {:induction false} TrajectoryAt<H>(layer: (nat, H) -> H, input: H, n: nat, i: nat)
    requires i < n
    ensures Trajectory(layer, input, n)[i] == Run(layer, input, i)
  {
    if i < n - 1 {
      TrajectoryAt(layer, input, n - 1, i);
    }
  }

  /** Lines 145-162 for layer i: its attention updates the shared cache,
      and the hidden state and the cache are read back from the layer's
      result tuple. */
  method DecoderLayerStep<H>(h: KvHierarchy, cache: SessionCache?, i: nat, layer: (nat, H) -> H, hidden: H,
                             outputAttentions: bool, useCache: bool, enoughRoom: bool)
    returns (next: H, present: SessionCache?)
    modifies cache
    ensures next == layer(i, hidden)
    ensures useCache ==> present == cache
    ensures cache != null ==> cache.updates == old(cache.updates) + [UpdateCallFor(h, cache.kind, i, enoughRoom)]
  {
    DispatchUpdate(h, cache, i, enoughRoom);
    var outputs := DecoderLayerOutputs(layer(i, hidden), outputAttentions, useCache, cache);
    next := outputs[0].h;
    present := null;
    if useCache {
      present := outputs[if outputAttentions then 2 else 1].c;
    }
  }

  /** The decoder loop and what follows it (lines 139-173). Each layer is the
      opaque `layer` on hidden states plus its attention's update of the
      shared cache; `norm` is the final normalisation and `enoughRoom` the
      verdict of is_enough_kv_cache_room_4_36 for each layer. Every layer
      updates a present cache, with or without use_cache. */
  method DecoderLayers<H>(h: KvHierarchy, numLayers: nat, layer: (nat, H) -> H, norm: H -> H, input: H,
                          cache: SessionCache?, useCache: bool, outputHiddenStates: bool,
                          outputAttentions: bool, enoughRoom: nat -> bool)
    returns (hidden: H, allHidden: Option<seq<H>>, allAttentions: Option<nat>, nextCache: SessionCache?)
    modifies cache
    ensures hidden == norm(Run(layer, input, numLayers))
    // the input of every layer, then the normalised output
    ensures allHidden == if outputHiddenStates then Some(Trajectory(layer, input, numLayers) + [hidden]) else None
    // one (None) weights entry per layer
    ensures allAttentions == if outputAttentions then Some(numLayers) else None
    // the cache is handed on only with use_cache, and only if some layer ran
    ensures nextCache == if useCache && numLayers > 0 then cache else null
    ensures cache != null ==> cache.updates == old(cache.updates) + LayerUpdates(h, cache.kind, numLayers, enoughRoom)
  {
    hidden := input;
    var hiddens: seq<H> := [];
    var attentions: nat := 0;
    var nextDecoderCache: SessionCache? := null;
    var i := 0;
    while i < numLayers
      invariant 0 <= i <= numLayers
      invariant hidden == Run(layer, input, i)
      invariant hiddens == if outputHiddenStates then Trajectory(layer, input, i) else []
      invariant attentions == if outputAttentions then i else 0
      invariant nextDecoderCache == if useCache && i > 0 then cache else null
      invariant cache != null ==> cache.updates == old(cache.updates) + LayerUpdates(h, cache.kind, i, enoughRoom)
    {
      if outputHiddenStates {
        hiddens := hiddens + [hidden];
      }
      var next, present := DecoderLayerStep(h, cache, i, layer, hidden, outputAttentions, useCache, enoughRoom(i));
      hidden := next;
      if useCache {
        nextDecoderCache := present;
      }
      if outputAttentions {
        attentions := attentions + 1;
      }
      i := i + 1;
    }
    hidden := norm(hidden);
    allHidden := if outputHiddenStates then Some(hiddens + [hidden]) else None;
    allAttentions := if outputAttentions then Some(attentions) else None;
    nextCache := if useCache then nextDecoderCache else null;
  }

  /** One entry of the tuple the forward pass returns without return_dict. */
  datatype OutputItem<H> =
    | LastHidden(h: H)
    | NextCache(c: SessionCache)
    | AllHidden(hs: seq<H>)
    | AllAttentions(count: nat)

  /** Lines 176-177: the last hidden state, the next cache, all hidden states
      and all attentions, with the absent ones left out and the order kept
      (`OutputTupleFiltersAbsent` proves it is the filter of line 176). */
  function OutputTuple<H>(hidden: H, nextCache: SessionCache?, allHidden: Option<seq<H>>,
                          allAttentions: Option<nat>): (r: seq<OutputItem<H>>)
    ensures |r| == 1 + (if nextCache != null then 1 else 0) + (if allHidden.Some? then 1 else 0)
                     + (if allAttentions.Some? then 1 else 0)
    ensures r[0] == LastHidden(hidden)
    // the cache, when present, comes right after the hidden state, and only there
    ensures nextCache != null ==> r[1] == NextCache(nextCache)
    ensures forall j :: 0 <= j < |r| && r[j].NextCache? ==> j == 1 && nextCache != null
  {
    [LastHidden(hidden)]
    + ((if nextCache != null then [NextCache(nextCache)] else [])
       + ((if allHidden.Some? then [AllHidden(allHidden.value)] else [])
          + (if allAttentions.Some? then [AllAttentions(allAttentions.value)] else [])))
  }

  /** The entry in front is kept when present, then the rest is compacted. */
  lemma CompactCons<T>(x: Option<T>, xs: seq<Option<T>>)
    ensures Compact([x] + xs) == (if x.Some? then [x.value] else []) + Compact(xs)
  {
    assert ([x] + xs)[1..] == xs;
  }

  /** The tuple is the four values with the None entries dropped. */
  lemma OutputTupleFiltersAbsent<H>(hidden: H, nextCache: SessionCache?, allHidden: Option<seq<H>>,
                                    allAttentions: Option<nat>)
    ensures OutputTuple(hidden, nextCache, allHidden, allAttentions) ==
              Compact([Some(LastHidden(hidden)),
                       if nextCache == null then None else Some(NextCache(nextCache)),
                       if allHidden.None? then None else Some(AllHidden(allHidden.value)),
                       if allAttentions.None? then None else Some(AllAttentions(allAttentions.value))])
  {
    var a: Option<OutputItem<H>> := Some(LastHidden(hidden));
    var b := if nextCache == null then None else Some(NextCache(nextCache));
    var c := if allHidden.None? then None else Some(AllHidden(allHidden.value));
    var d := if allAttentions.None? then None else Some(AllAttentions(allAttentions.value));
    CompactCons(d, []);
    CompactCons(c, [d]);
    CompactCons(b, [c, d]);
    CompactCons(a, [b, c, d]);
    assert [d] + [] == [d] && [c] + [d] == [c, d] && [b] + [c, d] == [b, c, d] && [a] + [b, c, d] == [a, b, c, d];
    var td := if d.Some? then [d.value] else [];
    assert td + [] == td;
  }

  /** Lines 139-177 over one cache object: the layers update it, and it is
      handed back, right after the hidden state, when use_cache holds and
      some layer ran. */
  method LayersAndOutput<H>(h: KvHierarchy, cache: SessionCache?, useCache: bool,
                            numLayers: nat, layer: (nat, H) -> H, norm: H -> H, input: H,
                            outputHiddenStates: bool, outputAttentions: bool, enoughRoom: nat -> bool)
    returns (out: seq<OutputItem<H>>)
    modifies cache
    ensures |out| >= 1 && out[0] == LastHidden(norm(Run(layer, input, numLayers)))
    ensures useCache && numLayers > 0 && cache != null ==> |out| >= 2 && out[1] == NextCache(cache)
    ensures !(useCache && numLayers > 0 && cache != null) ==> forall j :: 0 <= j < |out| ==> !out[j].NextCache?
    ensures cache != null ==> cache.updates == old(cache.updates) + LayerUpdates(h, cache.kind, numLayers, enoughRoom)
    // the whole tuple: with output_hidden_states every layer's input then the
    // final state, with output_attentions one (None) entry per layer
    ensures var hid := norm(Run(layer, input, numLayers));
            out == OutputTuple(hid, if useCache && numLayers > 0 then cache else null,
                               if outputHiddenStates then Some(Trajectory(layer, input, numLayers) + [hid]) else None,
                               if outputAttentions then Some(numLayers) else None)
  {
    var hidden, allHidden, allAttentions, nextCache :=
      DecoderLayers(h, numLayers, layer, norm, input, cache, useCache, outputHiddenStates, outputAttentions, enoughRoom);
    out := OutputTuple(hidden, nextCache, allHidden, allAttentions);
  }

  /** Lines 128-177 after the prologue: the layers run over the cache object
      the selection settled on, and their results are packed. When the
      selection kept the incoming object (`keep`), the layers update the
      caller's object in place; when a branch of lines 91-104 rebuilt it
      with from_legacy_cache, they update a fresh object of the `selected`
      kind, even one of the same kind as before. */
  method RunLayers<H>(h: KvHierarchy, past: CacheKind, pastCache: SessionCache?, selected: CacheKind, keep: bool,
                      useCache: bool, numLayers: nat, layer: (nat, H) -> H, norm: H -> H, input: H,
                      outputHiddenStates: bool, outputAttentions: bool, enoughRoom: nat -> bool)
    returns (out: seq<OutputItem<H>>)
    requires past.IsDynamic() <==> pastCache != null
    requires pastCache != null ==> pastCache.kind == past
    requires keep ==> selected == past
    requires !keep ==> selected.IsDynamic()
    modifies pastCache
    ensures |out| >= 1 && out[0] == LastHidden(norm(Run(layer, input, numLayers)))
    // the cache handed back is the selected one, holding the layers' updates
    ensures useCache && numLayers > 0 && selected.IsDynamic() ==>
              && |out| >= 2 && out[1].NextCache? && out[1].c.kind == selected
              && (keep ==> out[1].c == pastCache)
              && (!keep ==> fresh(out[1].c) && out[1].c.updates == LayerUpdates(h, selected, numLayers, enoughRoom))
    ensures !(useCache && numLayers > 0 && selected.IsDynamic()) ==> forall j :: 0 <= j < |out| ==> !out[j].NextCache?
    // a kept cache object is updated in place; a rebuilt one is left alone
    ensures pastCache != null && keep ==>
              pastCache.updates == old(pastCache.updates) + LayerUpdates(h, past, numLayers, enoughRoom)
    ensures pastCache != null && !keep ==> pastCache.updates == old(pastCache.updates)
    // the whole tuple, around the cache handed back
    ensures var hid := norm(Run(layer, input, numLayers));
            out == OutputTuple(hid, if useCache && numLayers > 0 && selected.IsDynamic() then out[1].c else null,
                               if outputHiddenStates then Some(Trajectory(layer, input, numLayers) + [hid]) else None,
                               if outputAttentions then Some(numLayers) else None)
  {
    if keep {
      out := LayersAndOutput(h, pastCache, useCache, numLayers, layer, norm, input,
                             outputHiddenStates, outputAttentions, enoughRoom);
    } else {
      var cache := new SessionCache(selected);
      out := LayersAndOutput(h, cache, useCache, numLayers, layer, norm, input,
                             outputHiddenStates, outputAttentions, enoughRoom);
    }
  }

  /** Lines 81-177 end to end, without return_dict. `pastCache` is the
      incoming cache object when `past` is one of the Dynamic kinds. */
  method ModelForward<H>(h: KvHierarchy, f: Flags, past: CacheKind, pastCache: SessionCache?, pastSeen: nat,
                         hasInputIds: bool, hasInputsEmbeds: bool, newTokens: nat,
                         cachePosition: Option<seq<int>>, positionIds: Option<seq<int>>,
                         numLayers: nat, layer: (nat, H) -> H, norm: H -> H, input: H,
                         outputHiddenStates: bool, outputAttentions: bool, enoughRoom: nat -> bool)
    returns (r: Result<seq<OutputItem<H>>, ForwardError>)
    requires past.IsDynamic() <==> pastCache != null
    requires pastCache != null ==> pastCache.kind == past
    // a legacy tuple kept without use_cache but with positions fails at line 125, outside this model
    requires !(past == Legacy && !UseCache(f) && cachePosition.Some?)
    modifies pastCache
    ensures var p := ForwardPrologue(h, f, past, pastSeen, numLayers, hasInputIds, hasInputsEmbeds, newTokens,
                                     cachePosition, positionIds);
            && (r.Err? <==> p.Err?)
            && (r.Err? ==> r.error == p.error)
    ensures r.Ok? ==> |r.value| >= 1 && r.value[0] == LastHidden(norm(Run(layer, input, numLayers)))
    // the cache handed back is the selected one, and it holds the layers' updates
    ensures r.Ok? && UseCache(f) ==>
              && |r.value| >= 2 && r.value[1].NextCache?
              && r.value[1].c.kind == SelectCache(h, f, past)
              && (ChooseConversion(h, f, past) == Keep ==> r.value[1].c == pastCache)
              && (ChooseConversion(h, f, past) != Keep ==>
                    fresh(r.value[1].c) && r.value[1].c.updates == LayerUpdates(h, r.value[1].c.kind, numLayers, enoughRoom))
    ensures r.Ok? && !UseCache(f) ==> forall j :: 0 <= j < |r.value| ==> !r.value[j].NextCache?
    // a kept cache object is updated in place; a rebuilt one, or a failed call, leaves it alone
    ensures pastCache != null && r.Ok? && ChooseConversion(h, f, past) == Keep ==>
              pastCache.updates == old(pastCache.updates) + LayerUpdates(h, past, numLayers, enoughRoom)
    ensures pastCache != null && (r.Err? || ChooseConversion(h, f, past) != Keep) ==>
              pastCache.updates == old(pastCache.updates)
    // the whole tuple: hidden state, cache, all hidden states, all attentions, each when present
    ensures r.Ok? ==>
              var hid := norm(Run(layer, input, numLayers));
              r.value == OutputTuple(hid, if UseCache(f) then r.value[1].c else null,
                                     if outputHiddenStates then Some(Trajectory(layer, input, numLayers) + [hid]) else None,
                                     if outputAttentions then Some(numLayers) else None)
  {
    var prologue := ForwardPrologue(h, f, past, pastSeen, numLayers, hasInputIds, hasInputsEmbeds, newTokens,
                                    cachePosition, positionIds);
    if prologue.Err? {
      return Err(prologue.error);
    }
    var keep := ChooseConversion(h, f, past) == Keep;
    var out := RunLayers(h, past, pastCache, prologue.value.cache, keep, prologue.value.useCache, numLayers, layer,
                         norm, input, outputHiddenStates, outputAttentions, enoughRoom);
    r := Ok(out);
  }
}

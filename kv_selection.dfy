/** The choice of key/value cache representation at the start of the Llama 3.2
    model forward pass (llama32.py, llama_model_forward, lines 78-104).

    The cache is modelled by its runtime kind only. The heuristics that decide
    about quantization and compression are boolean inputs, and the subclass
    relations between the cache classes, which live outside this model, are a
    parameter of every isinstance test. */
module KvSelection {
  import opened Wrappers

  /** What `past_key_values` holds: Python None, a legacy tuple of per-layer
      tensors, or an object of one of the four Dynamic*Cache classes. */
  datatype CacheKind = NoCache | Legacy | Normal | Fp8 | Compress | CompressFp8 {
    /** True for the four Dynamic*Cache classes. */
    predicate IsDynamic() {
      !NoCache? && !Legacy?
    }
  }

  /** The three classes the forward pass tests with isinstance:
      DynamicNormalCache, DynamicFp8Cache and DynamicCompressCache. */
  datatype CacheClass = NormalClass | Fp8Class | CompressClass

  /** The subclass relations between the cache classes. Each flag says whether
      the first class named derives from the second. */
  datatype KvHierarchy = KvHierarchy(
    compressFp8IsCompress: bool,
    compressFp8IsFp8: bool,
    fp8IsNormal: bool,
    compressIsNormal: bool)

  /** DynamicCompressFp8Cache deriving from both DynamicCompressCache and
      DynamicFp8Cache, and Normal, Fp8 and Compress being unrelated siblings. */
  const MixinHierarchy := KvHierarchy(true, true, false, false)

  /** isinstance(cache, cls) under the hierarchy `h`. A None or a legacy tuple
      is an instance of none of the three classes. */
  predicate IsInstance(h: KvHierarchy, k: CacheKind, c: CacheClass)
    // only the Dynamic caches are instances of anything
    ensures IsInstance(h, k, c) ==> k.IsDynamic()
    // each class's own objects are its instances
    ensures (k == Normal && c == NormalClass) || (k == Fp8 && c == Fp8Class) || (k == Compress && c == CompressClass) ==>
              IsInstance(h, k, c)
    // a DynamicNormalCache belongs to its class and to no other
    ensures k == Normal ==> (IsInstance(h, k, c) <==> c == NormalClass)
    // the two subclass relations of DynamicCompressFp8Cache are its two memberships
    ensures k == CompressFp8 && c == CompressClass ==> (IsInstance(h, k, c) <==> h.compressFp8IsCompress)
    ensures k == CompressFp8 && c == Fp8Class ==> (IsInstance(h, k, c) <==> h.compressFp8IsFp8)
  {
    match c
    case CompressClass =>
      k == Compress || (k == CompressFp8 && h.compressFp8IsCompress)
    case Fp8Class =>
      k == Fp8 || (k == CompressFp8 && h.compressFp8IsFp8)
    case NormalClass =>
      || k == Normal
      || (k == Fp8 && h.fp8IsNormal)
      || (k == Compress && h.compressIsNormal)
      || (k == CompressFp8 && ((h.compressFp8IsCompress && h.compressIsNormal) || (h.compressFp8IsFp8 && h.fp8IsNormal)))
  }

  /** The inputs of the selection. `useCacheArg` is the `use_cache` argument
      (None when not passed), `configUseCache` the model configuration's
      default, `onXpu` whether the input lives on an "xpu" device,
      `quantizeKv` the verdict of use_quantize_kv_cache, `compressHeuristic`
      the verdict of should_use_compresskv, `hidden2048` whether the
      configured hidden size is 2048 (the 1B model). */
  datatype Flags = Flags(
    useCacheArg: Option<bool>,
    configUseCache: bool,
    onXpu: bool,
    quantizeKv: bool,
    compressHeuristic: bool,
    hidden2048: bool)

  /** `use_cache` after lines 78 and 82. */
  function UseCache(f: Flags): (r: bool)
    ensures f.onXpu ==> r
    ensures !f.onXpu ==> r == f.useCacheArg.GetOr(f.configUseCache)
  {
    f.onXpu || f.useCacheArg.GetOr(f.configUseCache)
  }

  /** `use_compresskv` after lines 87-90. */
  function UseCompressKv(h: KvHierarchy, f: Flags, past: CacheKind): (r: bool)
    ensures f.hidden2048 ==> !r
    ensures !f.hidden2048 && IsInstance(h, past, CompressClass) ==> r
    ensures !f.hidden2048 && f.compressHeuristic ==> r
    ensures r ==> f.compressHeuristic || IsInstance(h, past, CompressClass)
  {
    (f.compressHeuristic || IsInstance(h, past, CompressClass)) && !f.hidden2048
  }

  /** Which branch of lines 91-104 runs: the cache is kept, or rebuilt with
      from_legacy_cache as one of the four Dynamic*Cache classes. */
  datatype Conversion = Keep | ToCompressFp8 | ToCompress | ToFp8 | ToNormal

  function ChooseConversion(h: KvHierarchy, f: Flags, past: CacheKind): (r: Conversion)
    ensures r != Keep ==> UseCache(f)
    // each branch converts only a cache that is not already of the class it builds
    ensures r == ToCompressFp8 || r == ToCompress ==>
              UseCompressKv(h, f, past) && !IsInstance(h, past, CompressClass) && (r == ToCompressFp8 <==> f.quantizeKv)
    ensures r == ToFp8 ==> f.quantizeKv && !IsInstance(h, past, Fp8Class)
    ensures r == ToNormal ==> !f.quantizeKv && !UseCompressKv(h, f, past) && !IsInstance(h, past, NormalClass)
    // the cache is kept exactly without use_cache, or when it is already an
    // instance of every class the flags ask for
    ensures r == Keep <==>
              || !UseCache(f)
              || (if UseCompressKv(h, f, past)
                  then IsInstance(h, past, CompressClass) && (f.quantizeKv ==> IsInstance(h, past, Fp8Class))
                  else if f.quantizeKv then IsInstance(h, past, Fp8Class)
                  else IsInstance(h, past, NormalClass))
  {
    var useCompress := UseCompressKv(h, f, past);
    if !UseCache(f) then Keep
    else if useCompress && !IsInstance(h, past, CompressClass) then
      (if f.quantizeKv then ToCompressFp8 else ToCompress)
    else if f.quantizeKv && !IsInstance(h, past, Fp8Class) then ToFp8
    else if !f.quantizeKv && !useCompress && !IsInstance(h, past, NormalClass) then ToNormal
    else Keep
  }

  /** The kind of the cache after the conversion `c`. */
  function Converted(past: CacheKind, c: Conversion): CacheKind {
    match c
    case Keep => past
    case ToCompressFp8 => CompressFp8
    case ToCompress => Compress
    case ToFp8 => Fp8
    case ToNormal => Normal
  }

  /** The kind of `past_key_values` after line 104. */
  function SelectCache(h: KvHierarchy, f: Flags, past: CacheKind): (r: CacheKind)
    // without use_cache the incoming object is handed on as it is
    ensures !UseCache(f) ==> r == past
    // with use_cache, a None or a legacy tuple never survives
    ensures UseCache(f) ==> r.IsDynamic()
    // compression wanted but not present: a compress cache, quantized iff quantizeKv
    ensures UseCache(f) && UseCompressKv(h, f, past) && !IsInstance(h, past, CompressClass) ==>
              r == (if f.quantizeKv then CompressFp8 else Compress)
    // otherwise, with quantization, an Fp8 cache is kept and anything else becomes Fp8
    ensures UseCache(f) && !(UseCompressKv(h, f, past) && !IsInstance(h, past, CompressClass)) && f.quantizeKv ==>
              r == (if IsInstance(h, past, Fp8Class) then past else Fp8)
    // without quantization or compression, a Normal cache is kept and anything else becomes Normal
    ensures UseCache(f) && !f.quantizeKv && !UseCompressKv(h, f, past) ==>
              r == (if IsInstance(h, past, NormalClass) then past else Normal)
    // a compress cache that meets compression without quantization is kept
    ensures UseCache(f) && UseCompressKv(h, f, past) && IsInstance(h, past, CompressClass) && !f.quantizeKv ==>
              r == past
  {
    Converted(past, ChooseConversion(h, f, past))
  }

  /** Line 90 switches compression off for the 1B model even when the
      incoming cache is a compress cache; the later branches then rebuild it
      as an Fp8 or a Normal cache, unless it already is an instance of the
      class they test. */
  lemma Hidden2048ReconvertsCompressCache(h: KvHierarchy, f: Flags)
    requires UseCache(f) && f.hidden2048
    ensures !UseCompressKv(h, f, Compress)
    ensures SelectCache(h, f, Compress) ==
              if f.quantizeKv then Fp8 else if h.compressIsNormal then Compress else Normal
  {
  }

  /** A plain compress cache that meets quantization is rebuilt as an Fp8
      cache (line 97), even though `use_compresskv` holds for it (line 88):
      the compressed representation is lost. */
  lemma QuantizeTurnsCompressIntoFp8(h: KvHierarchy, f: Flags)
    requires UseCache(f) && f.quantizeKv
    ensures SelectCache(h, f, Compress) == Fp8
    ensures !f.hidden2048 ==> UseCompressKv(h, f, Compress)
  {
  }

  /** A quantized compress cache stays as it is, whatever the heuristics say,
      provided the class derives from both Compress and Fp8. */
  lemma CompressFp8StaysCompressed(h: KvHierarchy, f: Flags)
    requires h.compressFp8IsCompress && h.compressFp8IsFp8
    requires !f.hidden2048
    ensures ChooseConversion(h, f, CompressFp8) == Keep
    ensures SelectCache(h, f, CompressFp8) == CompressFp8
  {
  }

  /** Without the link from DynamicCompressFp8Cache to DynamicCompressCache,
      a CompressFp8 cache met with compression and quantization is not an
      instance line 92 accepts, so line 94 rebuilds it, again as a
      CompressFp8 cache: a conversion whose result has the incoming kind. */
  lemma CompressFp8RebuiltAsItself(h: KvHierarchy, f: Flags)
    requires !h.compressFp8IsCompress
    requires UseCache(f) && f.compressHeuristic && !f.hidden2048 && f.quantizeKv
    ensures ChooseConversion(h, f, CompressFp8) == ToCompressFp8
    ensures SelectCache(h, f, CompressFp8) == CompressFp8
  {
  }

  /** An Fp8 cache met with quantization off and no compression is kept only
      when DynamicFp8Cache derives from DynamicNormalCache (line 102). */
  lemma Fp8WithoutQuantizeKeptOnlyIfNormal(h: KvHierarchy, f: Flags)
    requires UseCache(f) && !f.quantizeKv && !UseCompressKv(h, f, Fp8)
    ensures SelectCache(h, f, Fp8) == if h.fp8IsNormal then Fp8 else Normal
  {
  }

  /** Running the selection again on its own output, with the same flags,
      converts again exactly when the incoming cache was a plain compress
      cache that met quantization while the heuristic asked for compression:
      line 97 makes it Fp8 and line 92 then makes it CompressFp8. Every other
      cache is left alone by the second run. */
  lemma SecondSelectionConvertsIff(h: KvHierarchy, f: Flags, past: CacheKind)
    requires h.compressFp8IsCompress && h.compressFp8IsFp8
    ensures ChooseConversion(h, f, SelectCache(h, f, past)) != Keep <==>
              past == Compress && UseCache(f) && f.quantizeKv && f.compressHeuristic && !f.hidden2048
  {
  }

  /** With the flags fixed, the selection settles after at most two runs: the
      third run never converts. */
  lemma SelectionSettlesAfterTwoRuns(h: KvHierarchy, f: Flags, past: CacheKind)
    requires h.compressFp8IsCompress && h.compressFp8IsFp8
    ensures ChooseConversion(h, f, SelectCache(h, f, SelectCache(h, f, past))) == Keep
  {
  }

  /** A compress cache that owed its compression to being a compress cache
      (line 88), not to the heuristic, loses it for good under quantization:
      line 97 rebuilds it as Fp8, and the next run keeps that Fp8 cache,
      since line 92 no longer asks for compression. */
  lemma CompressionLostWithoutHeuristic(h: KvHierarchy, f: Flags)
    requires UseCache(f) && f.quantizeKv && !f.compressHeuristic && !f.hidden2048
    ensures UseCompressKv(h, f, Compress)
    ensures SelectCache(h, f, Compress) == Fp8
    ensures !UseCompressKv(h, f, Fp8)
    ensures ChooseConversion(h, f, Fp8) == Keep
  {
  }

  /** With use_cache and quantization, the selection never yields a plain
      compress cache. */
  lemma QuantizeNeverLeavesPlainCompress(h: KvHierarchy, f: Flags, past: CacheKind)
    requires UseCache(f) && f.quantizeKv
    ensures SelectCache(h, f, past) != Compress
  {
  }

  /** Without DynamicCompressFp8Cache deriving from DynamicCompressCache, the
      selection rebuilds its own CompressFp8 output on every call (line 92). */
  lemma IdempotenceNeedsCompressFp8IsCompress(h: KvHierarchy, f: Flags)
    requires !h.compressFp8IsCompress
    requires UseCache(f) && f.quantizeKv && f.compressHeuristic && !f.hidden2048
    ensures SelectCache(h, f, NoCache) == CompressFp8
    ensures ChooseConversion(h, f, CompressFp8) == ToCompressFp8
  {
  }

  /** Without DynamicCompressFp8Cache deriving from DynamicFp8Cache, the
      selection turns its own CompressFp8 output into an Fp8 cache (line 97). */
  lemma IdempotenceNeedsCompressFp8IsFp8(h: KvHierarchy, f: Flags)
    requires h.compressFp8IsCompress && !h.compressFp8IsFp8
    requires UseCache(f) && f.quantizeKv && f.compressHeuristic && !f.hidden2048
    ensures SelectCache(h, f, NoCache) == CompressFp8
    ensures SelectCache(h, f, CompressFp8) == Fp8
  {
  }

  /** Under the mixin hierarchy and with use_cache, the selected cache is a
      compress cache exactly when compression was decided and the incoming
      cache is not a plain compress cache meeting quantization, or when a
      quantized compress cache meets the 1B model with quantization on (it is
      kept although compression was switched off). */
  lemma CompressKindAgreesWithDecision(f: Flags, past: CacheKind)
    requires UseCache(f)
    ensures IsInstance(MixinHierarchy, SelectCache(MixinHierarchy, f, past), CompressClass) <==>
              || (UseCompressKv(MixinHierarchy, f, past) && !(past == Compress && f.quantizeKv))
              || (f.hidden2048 && past == CompressFp8 && f.quantizeKv)
  {
  }
}

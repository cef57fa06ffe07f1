# Llama 3.2 cache bookkeeping and QLoRA fine-tuning helpers, in Dafny

This project models two pieces of decision logic of the IPEX-LLM repository.

**The Llama 3.2 forward pass** (`llama32.py`):

- `llama_model_forward` chooses the key/value cache representation once per call. The choices are none, legacy tuple, DynamicNormalCache, DynamicFp8Cache, DynamicCompressCache and DynamicCompressFp8Cache.
- It rejects calls that give both or neither of `input_ids` and `inputs_embeds`.
- It derives `cache_position` and `position_ids`.
- It runs the decoder layers over one shared cache object, collecting hidden states and attention entries.
- It packs the output tuple without the absent entries.
- `llama_attention_forward` splits the fused qkv projection into head groups. It calls either the plain or the compress update protocol of the cache.

**The Alpaca QLoRA fine-tuning script** (`alpaca_qlora_finetuning_cpu.py`):

- `get_int_from_env`: a first-match lookup over the process environment.
- The EOS and labels post-processing of the inner `tokenize`.
- The label masking of `generate_and_tokenize_prompt`.
- The world size, DDP flag, device index and gradient accumulation arithmetic of `train`, together with what `train` writes into `os.environ`.

**Files**

| file | module | contents |
|---|---|---|
| `wrappers.dfy` | `Wrappers` | `Option` and `Result` |
| `kv_selection.dfy` | `KvSelection` | cache-kind selection (lines 78-104) |
| `llama_attention.dfy` | `LlamaAttention` | the `SessionCache` class; the qkv split and update dispatch (lines 198-247) |
| `llama_forward.dfy` | `LlamaForward` | prologue checks and positions; the decoder loop; the output tuple |
| `env_ints.dfy` | `PyInt` | Python's `int()` and `str()` on decimal strings |
| `env_ints.dfy` | `EnvInts` | the `Environ` class (`os.environ`); `get_int_from_env` |
| `prompt_labels.dfy` | `PromptLabels` | `tokenize` post-processing; label masking |
| `train_setup.dfy` | `TrainSetup` | distributed setup arithmetic |

**Cache classes.** The cache classes live in `ipex_llm.transformers.kv`, which is not part of this model. Their subclass relations decide every `isinstance` test, so they are an explicit parameter `KvHierarchy` with four flags:

- Is CompressFp8 a Compress?
- Is CompressFp8 an Fp8?
- Is Fp8 a Normal?
- Is Compress a Normal?

**External verdicts.** The verdicts of `use_quantize_kv_cache`, `should_use_compresskv` and `is_enough_kv_cache_room_4_36`, the device type and the hidden size are plain inputs.

**Cache object.** A cache object is a `SessionCache`. It keeps its kind and records the update calls the layers make.

**Mutating code becomes methods.** Code that mutates state is written as methods, each proved against a specification function:

- the decoder loop and each of its steps;
- the forward pass end to end, which converts or keeps the caller's cache object;
- the update calls on the cache;
- `tokenize`'s appends;
- the loop of `get_int_from_env`;
- `train`'s writes to `os.environ`.

**Where the documentation and the code disagree**, the model follows the code:

- The docstring of `get_int_from_env` promises the first *positive* value. The code accepts 0 (line 60). `EnvInts.FirstNonNegativeWins` states the code's rule.
- A compress cache does not always stay compressed, even when DynamicCompressFp8Cache derives from both DynamicCompressCache and DynamicFp8Cache:
  - With `use_cache` and quantization on, line 97 rebuilds a plain DynamicCompressCache as DynamicFp8Cache, although `use_compresskv` holds for it below hidden size 2048 (lines 88-90).
  - If should_use_compresskv also says yes, running the selection again rebuilds that cache as DynamicCompressFp8Cache (line 92). So the selection is not idempotent on that input.
  - If should_use_compresskv says no, `use_compresskv` held only because the cache was a compress cache. The second run sees an Fp8 cache and keeps it (line 97), so compression is lost for good (`KvSelection.CompressionLostWithoutHeuristic`).
  - `KvSelection.SecondSelectionConvertsIff` characterises exactly when a second run converts again.
  - `KvSelection.SelectionSettlesAfterTwoRuns` proves that a third run never converts.
  - Without the two subclass relations, idempotence fails on the selection's own CompressFp8 output (`IdempotenceNeedsCompressFp8IsCompress`, `IdempotenceNeedsCompressFp8IsFp8`).
- On the 1B model (hidden size 2048), line 90 switches compression off even for an incoming compress cache. The later branches can then rebuild it as Fp8 or Normal.

## Model

| member | source | states |
|---|---|---|
| KvSelection.UseCache | python/llm/src/ipex_llm/transformers/models/llama32.py:78-82 | on an xpu device use_cache is true whatever the argument; otherwise it is the argument, or the configuration's default when none is passed |
| KvSelection.IsInstance | python/llm/src/ipex_llm/transformers/models/llama32.py:88-102 | only Dynamic caches are instances; each class's own objects are its instances; a Normal cache belongs to no other class; CompressFp8 is a Compress or an Fp8 exactly by the two subclass relations |
| KvSelection.UseCompressKv | python/llm/src/ipex_llm/transformers/models/llama32.py:87-90 | compression is off for hidden size 2048 even for a compress cache; below it, the heuristic alone or an incoming compress cache turns it on; it is on only if one of them asks for it |
| KvSelection.ChooseConversion | python/llm/src/ipex_llm/transformers/models/llama32.py:91-104 | a conversion happens only with use_cache, and each branch converts only a cache not already of the class it builds (compress quantized iff quantization); the cache is kept exactly without use_cache or when it is already an instance of every class the flags ask for (compress and, with quantization, Fp8; else Fp8 with quantization; else Normal) |
| KvSelection.SelectCache | python/llm/src/ipex_llm/transformers/models/llama32.py:91-104 | without use_cache the incoming cache is returned unchanged; with use_cache the result is one of the four Dynamic caches (None and legacy never survive); compression wanted but missing gives CompressFp8 with quantization and Compress without; otherwise quantization keeps an Fp8 instance and makes anything else Fp8; without quantization or compression a Normal instance is kept and anything else becomes Normal; a compress cache meeting compression without quantization is kept |
| KvSelection.Hidden2048ReconvertsCompressCache | python/llm/src/ipex_llm/transformers/models/llama32.py:87-104 | for hidden size 2048 a compress cache loses compression and becomes Fp8 with quantization, and Normal without unless Compress derives from Normal |
| KvSelection.QuantizeTurnsCompressIntoFp8 | python/llm/src/ipex_llm/transformers/models/llama32.py:88-98 | with use_cache and quantization, a plain compress cache becomes Fp8, although use_compresskv holds for it |
| KvSelection.CompressFp8StaysCompressed | python/llm/src/ipex_llm/transformers/models/llama32.py:91-104 | if CompressFp8 derives from both Compress and Fp8, a CompressFp8 cache is kept whatever the other flags, for any hidden size other than 2048 |
| KvSelection.CompressFp8RebuiltAsItself | python/llm/src/ipex_llm/transformers/models/llama32.py:91-94 | if CompressFp8 does not derive from Compress, a CompressFp8 cache met with compression and quantization is rebuilt (line 94), and the result has its incoming kind |
| KvSelection.Fp8WithoutQuantizeKeptOnlyIfNormal | python/llm/src/ipex_llm/transformers/models/llama32.py:99-104 | without quantization or compression, an Fp8 cache is kept exactly when Fp8 derives from Normal, and is rebuilt as Normal otherwise |
| KvSelection.SecondSelectionConvertsIff | python/llm/src/ipex_llm/transformers/models/llama32.py:91-104 | assuming CompressFp8 derives from both Compress and Fp8: a second run on the selection's own output converts again iff the input was a plain compress cache with use_cache, quantization, the compress heuristic and a hidden size other than 2048 |
| KvSelection.SelectionSettlesAfterTwoRuns | python/llm/src/ipex_llm/transformers/models/llama32.py:91-104 | under the same assumption, a third run with the same flags never converts |
| KvSelection.QuantizeNeverLeavesPlainCompress | python/llm/src/ipex_llm/transformers/models/llama32.py:91-98 | with use_cache and quantization the selection never yields a plain compress cache |
| KvSelection.CompressionLostWithoutHeuristic | python/llm/src/ipex_llm/transformers/models/llama32.py:87-98 | a plain compress cache compressed only because it is one (line 88) becomes Fp8 under quantization (line 97), and the next run keeps it as Fp8: compression is lost for good |
| KvSelection.IdempotenceNeedsCompressFp8IsCompress | python/llm/src/ipex_llm/transformers/models/llama32.py:92-94 | if CompressFp8 does not derive from Compress, the selection rebuilds its own CompressFp8 output |
| KvSelection.IdempotenceNeedsCompressFp8IsFp8 | python/llm/src/ipex_llm/transformers/models/llama32.py:92-98 | if CompressFp8 derives from Compress but not from Fp8, the selection turns its own CompressFp8 output into Fp8 |
| KvSelection.CompressKindAgreesWithDecision | python/llm/src/ipex_llm/transformers/models/llama32.py:87-104 | under the mixin hierarchy with use_cache, the result is a compress cache iff compression was decided and the input is not a plain compress cache meeting quantization, or a CompressFp8 cache meets hidden size 2048 with quantization |
| LlamaAttention.UpdateCallFor | python/llm/src/ipex_llm/transformers/models/llama32.py:201-232 | a layer uses the compress update protocol iff the cache is an instance of DynamicCompressCache; it passes its own layer index, and for compress it passes the room verdict and 256 |
| LlamaAttention.SessionCache.constructor | python/llm/src/ipex_llm/transformers/models/llama32.py:94-104 | from_legacy_cache builds a Dynamic cache of the chosen kind that has received no updates |
| LlamaAttention.SessionCache.Update | python/llm/src/ipex_llm/transformers/models/llama32.py:231-232 | a plain update call for the layer is appended to the cache's record and nothing else changes |
| LlamaAttention.SessionCache.UpdateCompressed | python/llm/src/ipex_llm/transformers/models/llama32.py:226-229 | a compress update call with the room verdict and argument is appended to the record |
| LlamaAttention.SplitQkv | python/llm/src/ipex_llm/transformers/models/llama32.py:204-208 | the groups have num_heads, num_kv_heads and num_kv_heads heads, and together they are the projection in order |
| LlamaAttention.SplitQkvUnique | python/llm/src/ipex_llm/transformers/models/llama32.py:204-208 | any three groups of those sizes that concatenate to the projection are the split |
| LlamaAttention.AttentionForward | python/llm/src/ipex_llm/transformers/models/llama32.py:198-247 | the layer returns the split groups, which stand in for the attention output, and the same cache object; the cache has received exactly one update call, of the protocol its class calls for |
| LlamaAttention.DispatchUpdate | python/llm/src/ipex_llm/transformers/models/llama32.py:221-232 | with a cache, exactly one update of the protocol its class calls for is recorded; without a cache nothing happens |
| LlamaAttention.LayerUpdates | python/llm/src/ipex_llm/transformers/models/llama32.py:144-157 | the record of n layers has n calls, extends the record of n - 1 layers, and its last call is layer n - 1's protocol call |
| LlamaAttention.LayersShareOneProtocol | python/llm/src/ipex_llm/transformers/models/llama32.py:144-157 | in one forward pass, layer i updates slot i, and every layer uses the compress protocol iff the shared cache is a compress cache (a corollary of `LayerUpdates`) |
| LlamaForward.Arange | python/llm/src/ipex_llm/transformers/models/llama32.py:119-121 | the range has stop - start elements (none if empty) and element i is start + i |
| LlamaForward.ArangeConcat | python/llm/src/ipex_llm/transformers/models/llama32.py:117-121 | the positions of two consecutive calls, the second starting where the first ended, are those of one call over all the tokens |
| LlamaForward.SeenTokens | python/llm/src/ipex_llm/transformers/models/llama32.py:118 | no cache has seen 0 tokens; any other cache has seen get_seq_length tokens |
| LlamaForward.ForwardPrologue | python/llm/src/ipex_llm/transformers/models/llama32.py:81-123 | the call succeeds iff exactly one of input_ids and inputs_embeds is given, the model has a decoder layer, and it is not a legacy tuple kept without use_cache and without cache_position; neither input fails at line 82, no layer at line 84, both inputs at line 110, that legacy case at line 118; on success the cache is the selected one and given positions are used unchanged |
| LlamaForward.PositionsFollowSeenTokens | python/llm/src/ipex_llm/transformers/models/llama32.py:117-123 | without cache_position the positions are the new-token count of consecutive integers after the seen tokens (from 0 without a cache), and position_ids default to them |
| LlamaForward.Compact | python/llm/src/ipex_llm/transformers/models/llama32.py:176-177 | the result has one entry per present entry, so nothing else, and never more entries than the tuple |
| LlamaForward.CompactAt | python/llm/src/ipex_llm/transformers/models/llama32.py:176-177 | the present entry at index i is the result's entry right after the present entries before i: the present values, in order |
| LlamaForward.CompactAppend | python/llm/src/ipex_llm/transformers/models/llama32.py:176-177 | filtering a concatenation filters each part in order |
| LlamaForward.DecoderLayerOutputs | python/llm/src/ipex_llm/transformers/models/llama32.py:159-165 | a layer's tuple holds the hidden state first, the (None) weights when requested, and the cache at index 2 with weights and 1 without, as line 162 reads it |
| LlamaForward.TrajectoryAt | python/llm/src/ipex_llm/transformers/models/llama32.py:144-146 | entry i of the collected hidden states is the input of layer i |
| LlamaForward.DecoderLayerStep | python/llm/src/ipex_llm/transformers/models/llama32.py:145-162 | layer i's hidden state is the layer applied to its input; the cache read back from the layer's tuple is the shared object; that object received exactly one update call, layer i's |
| LlamaForward.DecoderLayers | python/llm/src/ipex_llm/transformers/models/llama32.py:139-173 | the result is the normalised output of all layers; all_hidden_states is every layer's input then the final state; one weights entry per layer; the cache is handed on only with use_cache after at least one layer; the cache received exactly the layers' update calls in order |
| LlamaForward.OutputTuple | python/llm/src/ipex_llm/transformers/models/llama32.py:175-177 | the tuple has one entry per present value; the hidden state comes first; a present cache sits at index 1, and no other index ever holds a cache |
| LlamaForward.OutputTupleFiltersAbsent | python/llm/src/ipex_llm/transformers/models/llama32.py:176-177 | the tuple is exactly the four values (hidden state, next cache, all hidden states, all attentions) with the absent ones dropped, order kept |
| LlamaForward.LayersAndOutput | python/llm/src/ipex_llm/transformers/models/llama32.py:139-177 | over one cache object: the tuple is the normalised output of all layers, then the object exactly when use_cache holds and some layer ran; with output_hidden_states the tuple then holds every layer's input followed by the final state, and with output_attentions one (None) weights entry per layer, in line 176's order; the object received the layers' update calls in order |
| LlamaForward.RunLayers | python/llm/src/ipex_llm/transformers/models/llama32.py:128-177 | the whole tuple as `LayersAndOutput` states it, around the cache handed back; that cache has the selected kind: the caller's object, updated in place, when the selection kept it; a fresh object holding only this pass's updates when a branch rebuilt it, even as the same kind, with the caller's object left alone |
| LlamaForward.ModelForward | python/llm/src/ipex_llm/transformers/models/llama32.py:81-177 | fails exactly as the prologue does; otherwise the tuple is the normalised output of all layers, then the next cache with use_cache, then with output_hidden_states every layer's input followed by the final state, and with output_attentions one (None) weights entry per layer, in line 176's order; the next cache is the selected kind: the caller's object updated in place when no branch of lines 91-104 ran, a fresh object holding only this pass's updates when one did; a rebuilt or failed call leaves the caller's object alone |
| PyInt.ParseInt | python/llm/example/CPU/QLoRA-FineTuning/alpaca-qlora/alpaca_qlora_finetuning_cpu.py:59 | int() accepts exactly one or more ASCII digits, optionally after one sign; the value is the digits' value, negated after a minus sign |
| PyInt.IntToString | python/llm/example/CPU/QLoRA-FineTuning/alpaca-qlora/alpaca_qlora_finetuning_cpu.py:142-151 | str() writes a minus sign exactly for negative numbers, then decimal digits |
| PyInt.DigitsRoundTrip | python/llm/example/CPU/QLoRA-FineTuning/alpaca-qlora/alpaca_qlora_finetuning_cpu.py:142-151 | the decimal digits of a natural number read back as that number |
| PyInt.StrIntRoundTrip | python/llm/example/CPU/QLoRA-FineTuning/alpaca-qlora/alpaca_qlora_finetuning_cpu.py:142-151 | int(str(n)) == n for every integer n, so what train writes into the environment reads back unchanged |
| EnvInts.IntArg | python/llm/example/CPU/QLoRA-FineTuning/alpaca-qlora/alpaca_qlora_finetuning_cpu.py:59-62 | int() succeeds exactly when the string parses, with the parsed value; otherwise ValueError |
| EnvInts.EnvInt | python/llm/example/CPU/QLoRA-FineTuning/alpaca-qlora/alpaca_qlora_finetuning_cpu.py:59 | an unset key reads as the given fallback; a set key reads as int() of its value, ValueError included |
| EnvInts.EnvLookup | python/llm/example/CPU/QLoRA-FineTuning/alpaca-qlora/alpaca_qlora_finetuning_cpu.py:56-62 | a negative result can only come from the default |
| EnvInts.SkippedPrefixIgnored | python/llm/example/CPU/QLoRA-FineTuning/alpaca-qlora/alpaca_qlora_finetuning_cpu.py:58-61 | keys that are unset or negative at the front of the list do not change the result |
| EnvInts.FirstNonNegativeWins | python/llm/example/CPU/QLoRA-FineTuning/alpaca-qlora/alpaca_qlora_finetuning_cpu.py:56-61 | the first key in list order whose value is at least 0, including 0, gives the result |
| EnvInts.DefaultWhenAllSkipped | python/llm/example/CPU/QLoRA-FineTuning/alpaca-qlora/alpaca_qlora_finetuning_cpu.py:58-62 | when every key is unset or negative the result is int(default) |
| EnvInts.UnparsableValueFails | python/llm/example/CPU/QLoRA-FineTuning/alpaca-qlora/alpaca_qlora_finetuning_cpu.py:59 | a value int() rejects, met before any usable one, raises ValueError with that value |
| EnvInts.GetIntFromEnv | python/llm/example/CPU/QLoRA-FineTuning/alpaca-qlora/alpaca_qlora_finetuning_cpu.py:56-62 | the loop with early returns yields the first-match lookup over the environment |
| PromptLabels.Tokenized | python/llm/example/CPU/QLoRA-FineTuning/alpaca-qlora/alpaca_qlora_finetuning_cpu.py:210-230 | empty tokenizer output raises IndexError (iff); labels equal input_ids; ids and mask stay the same length, at most cutoff_len, and keep the tokenizer's output as prefix; one EOS with mask 1 is appended iff the last id is not EOS, there is room, and add_eos_token holds; otherwise the ids are unchanged |
| PromptLabels.Tokenize | python/llm/example/CPU/QLoRA-FineTuning/alpaca-qlora/alpaca_qlora_finetuning_cpu.py:220-228 | the in-place appends and the labels copy produce exactly the specified encoding |
| PromptLabels.MaskPrefix | python/llm/example/CPU/QLoRA-FineTuning/alpaca-qlora/alpaca_qlora_finetuning_cpu.py:251-255 | the first k labels become -100, later labels are unchanged, and a k past the end leaves k labels (Python slicing) |
| PromptLabels.MaskLength | python/llm/example/CPU/QLoRA-FineTuning/alpaca-qlora/alpaca_qlora_finetuning_cpu.py:246-249 | the count is the user prompt's token count, less one exactly when add_eos_token holds |
| PromptLabels.IntendedMaskLength | python/llm/example/CPU/QLoRA-FineTuning/alpaca-qlora/alpaca_qlora_finetuning_cpu.py:246-249 | the intended count: the user prompt's token count, less one exactly when add_eos_token holds and the tokens end with EOS |
| PromptLabels.MaskLengthsDifferIff | python/llm/example/CPU/QLoRA-FineTuning/alpaca-qlora/alpaca_qlora_finetuning_cpu.py:220-249 | line 249's count differs from the intended one exactly when add_eos_token holds, the user prompt does not end with EOS, and it filled cutoff_len; it is then one too small |
| PromptLabels.GenerateAndTokenizePrompt | python/llm/example/CPU/QLoRA-FineTuning/alpaca-qlora/alpaca_qlora_finetuning_cpu.py:232-256 | the result is Ok iff the full prompt's tokens are not empty and, unless train_on_inputs, neither are the user prompt's; with train_on_inputs it is the tokenised full prompt; masking changes only labels; without it the first k labels are -100 and the rest equal the ids, where k is the user prompt's token count less one under add_eos_token |
| PromptLabels.TruncatedUserPromptKeepsLastLabel | python/llm/example/CPU/QLoRA-FineTuning/alpaca-qlora/alpaca_qlora_finetuning_cpu.py:220-255 | when the user prompt fills cutoff_len under add_eos_token, its last token keeps its label although it belongs to the prompt |
| PromptLabels.TruncatedUserPromptExample | python/llm/example/CPU/QLoRA-FineTuning/alpaca-qlora/alpaca_qlora_finetuning_cpu.py:246-255 | cutoff_len 2, user prompt [1, 5] equal to the full prompt: the script labels [-100, 5], the intended masking [-100, -100] |
| PromptLabels.GenerateAndTokenizePromptIntended | python/llm/example/CPU/QLoRA-FineTuning/alpaca-qlora/alpaca_qlora_finetuning_cpu.py:239-255 | Ok under the same condition as the script; the first `IntendedMaskLength` labels are -100 and every later label equals its id; with train_on_inputs the full prompt's encoding unchanged |
| PromptLabels.AsWrittenAgreesUnlessTruncated | python/llm/example/CPU/QLoRA-FineTuning/alpaca-qlora/alpaca_qlora_finetuning_cpu.py:243-255 | outside that truncation case the script's masking equals the intended one, for every input |
| PromptLabels.EosEndedUserPromptExample | python/llm/example/CPU/QLoRA-FineTuning/alpaca-qlora/alpaca_qlora_finetuning_cpu.py:246-255 | with a user prompt the tokenizer already ended with EOS ([1, 7, 2] inside [1, 7, 9, 2]), both maskings give [-100, -100, 9, 2] |
| TrainSetup.FloorDiv | python/llm/example/CPU/QLoRA-FineTuning/alpaca-qlora/alpaca_qlora_finetuning_cpu.py:134 | Python's // rounds towards minus infinity: b*q <= a < b*q + b for b > 0, and the mirror bounds for b < 0 |
| TrainSetup.FloorDivNested | python/llm/example/CPU/QLoRA-FineTuning/alpaca-qlora/alpaca_qlora_finetuning_cpu.py:134-157 | for positive divisors, (a // m) // w == a // (m * w) |
| TrainSetup.FloorDivByMinusOne | python/llm/example/CPU/QLoRA-FineTuning/alpaca-qlora/alpaca_qlora_finetuning_cpu.py:157 | dividing by -1 negates |
| TrainSetup.K8sWorldSize | python/llm/example/CPU/QLoRA-FineTuning/alpaca-qlora/alpaca_qlora_finetuning_cpu.py:139-143 | in a pod a set PMI_SIZE gives its own value, except that 0 means 1, and a ValueError if int() rejects it; unset gives -1 and no write; a positive value is written to WORLD_SIZE, and nothing else is ever written |
| TrainSetup.StandaloneLookups | python/llm/example/CPU/QLoRA-FineTuning/alpaca-qlora/alpaca_qlora_finetuning_cpu.py:145-147 | the three lookups run in order and the first ValueError among them is raised; otherwise the local rank, world size and port are the first-match values; none of them is negative, since no default is |
| TrainSetup.StandaloneEnv | python/llm/example/CPU/QLoRA-FineTuning/alpaca-qlora/alpaca_qlora_finetuning_cpu.py:148-151 | LOCAL_RANK and RANK hold str(local rank), WORLD_SIZE str(world size), MASTER_PORT str(port); every other variable is unchanged |
| TrainSetup.WorldSize | python/llm/example/CPU/QLoRA-FineTuning/alpaca-qlora/alpaca_qlora_finetuning_cpu.py:138-151 | in a pod the K8s rule applies; standalone, the world size is the first of WORLD_SIZE and PMI_SIZE that is at least 0, else 1, with the four writes; a failed lookup writes nothing |
| TrainSetup.DeviceIndex | python/llm/example/CPU/QLoRA-FineTuning/alpaca-qlora/alpaca_qlora_finetuning_cpu.py:156 | an unset or empty LOCAL_RANK gives device 0; otherwise int() of its value, ValueError included |
| TrainSetup.DistributedSetup | python/llm/example/CPU/QLoRA-FineTuning/alpaca-qlora/alpaca_qlora_finetuning_cpu.py:104-157 | an unreadable LOCAL_RANK fails first (line 104), then micro_batch_size 0 divides by zero; then a failed world-size lookup raises its ValueError; a world size of 1 always succeeds, any other succeeds iff LOCAL_RANK reads as a device index and the size is not 0 (else that ValueError, or ZeroDivisionError); the environment is what the world-size lookup leaves; the world size is the one read from the environment; DDP is on iff it is not 1 and iff a device map is set, which holds the device index; the step count is batch // micro, floor-divided again by the world size under DDP |
| TrainSetup.EffectiveBatchWithinRequested | python/llm/example/CPU/QLoRA-FineTuning/alpaca-qlora/alpaca_qlora_finetuning_cpu.py:134-157 | with positive sizes, micro * world * steps <= batch_size < micro * world * (steps + 1) |
| TrainSetup.K8sZeroPmiIsSingleProcess | python/llm/example/CPU/QLoRA-FineTuning/alpaca-qlora/alpaca_qlora_finetuning_cpu.py:140-154 | in a pod, PMI_SIZE=0 means world size 1, no DDP, the undivided step count, and no environment write |
| TrainSetup.K8sUnsetPmiNegatesSteps | python/llm/example/CPU/QLoRA-FineTuning/alpaca-qlora/alpaca_qlora_finetuning_cpu.py:140-157 | in a pod without PMI_SIZE the world size is -1, DDP is on, and the step count is negated |
| TrainSetup.K8sWritesWorldSizeIffPositive | python/llm/example/CPU/QLoRA-FineTuning/alpaca-qlora/alpaca_qlora_finetuning_cpu.py:140-142 | in a pod the environment is unchanged, or only WORLD_SIZE is set to the decimal form of a positive PMI_SIZE; once lines 104 and 134 pass, a positive PMI_SIZE is always written |
| TrainSetup.StandaloneDeviceIsLocalRank | python/llm/example/CPU/QLoRA-FineTuning/alpaca-qlora/alpaca_qlora_finetuning_cpu.py:144-156 | a standalone run writes the four variables; WORLD_SIZE reads back as the world size; under DDP the device is the local rank |
| TrainSetup.StandaloneZeroWorldSizeDivides | python/llm/example/CPU/QLoRA-FineTuning/alpaca-qlora/alpaca_qlora_finetuning_cpu.py:146-157 | a standalone run with WORLD_SIZE=0 accepts the 0, turns DDP on and raises ZeroDivisionError |
| TrainSetup.ConfigureTraining | python/llm/example/CPU/QLoRA-FineTuning/alpaca-qlora/alpaca_qlora_finetuning_cpu.py:104-157 | the in-place run returns the specified result and leaves os.environ as specified, including the writes made before an error |

## Left out

- Tensor arithmetic. The model leaves out embedding, causal-mask construction, rotary embedding and fused rope, scaled dot-product attention, projections and normalisation. These are floating point in foreign libraries. Layers and the final norm are opaque functions on an abstract hidden-state type, and the projection is a sequence of heads.
- `use_quantize_kv_cache`, `should_use_compresskv`, `is_enough_kv_cache_room_4_36` and `should_use_fuse_rope`: their bodies are not part of this model. Their verdicts are inputs.
- The cache classes:
  - Their stored tensors, the internals of `update`, the eviction policy of the compress classes, and how `from_legacy_cache` copies a legacy cache's contents are not part of this model.
  - A cache records the update calls it receives.
  - A conversion is assumed to keep `get_seq_length`.
- Legacy tuple kept without use_cache, with a cache_position given: the tuple is handed to `_update_causal_mask` at line 125, which is not part of this model. `LlamaForward.ModelForward` excludes that case for that reason, and `LlamaForward.DecoderLayers` takes only a `SessionCache` or none.
- The decoder layer's output layout: the layer itself belongs to the transformers library. The model takes its tuple layout (hidden state, weights when requested, cache when use_cache holds) as `DecoderLayerOutputs` states it.
- Configuration defaults and the result record:
  - The defaults of output_attentions, output_hidden_states and return_dict (lines 70-77, 108) are resolved by the caller. They are plain parameters.
  - The `BaseModelOutputWithPast` record of lines 178-183 holds the same four values as the tuple and is not modelled separately.
- PyInt.ParseInt: accepts only an optional sign followed by ASCII decimal digits. Python's `int()` also accepts surrounding whitespace, underscores between digits and non-ASCII digits.
- Tokenizer:
  - The tokenizer and the Alpaca prompt template are opaque.
  - Their output is a parameter: token ids already truncated to cutoff_len, with one mask entry each.
  - The user prompt's ids are not required to be a prefix of the full prompt's.
- Training-script plumbing: the parameter printing of lines 104-130 (its LOCAL_RANK read is modelled, as the first possible ValueError), the base_model assertion (line 131), printing (line 153), the wandb variables, model and dataset loading, LoRA setup, the Trainer and checkpointing are not modelled. They are I/O or calls into foreign libraries.
- TrainSetup.DistributedSetup: the "auto" device map is modelled as None. Python integers are unbounded, so no width is modelled.
- TrainSetup.StandaloneLookups: line 147 passes the port default as the integer 29500; the model passes the string "29500", which int() reads as the same number.

## Findings

| source | as written | input that shows it | evidently intended | confidence | as-written member | corrected member |
|---|---|---|---|---|---|---|
| python/llm/example/CPU/QLoRA-FineTuning/alpaca-qlora/alpaca_qlora_finetuning_cpu.py:246-249 | with add_eos_token, one is subtracted from the user prompt's token count even when `tokenize` did not append EOS because the prompt filled cutoff_len, so the last user-prompt token is trained on. (A prompt that already ended with EOS loses exactly that EOS, which is right.) | cutoff_len 2, add_eos_token, not train_on_inputs, user prompt and full prompt both tokenised to [1, 5] (EOS id 2): labels [-100, 5] | mask exactly the user prompt's tokens, subtracting only an EOS that is there: labels [-100, -100] | medium, not executed | PromptLabels.TruncatedUserPromptKeepsLastLabel | PromptLabels.GenerateAndTokenizePromptIntended |

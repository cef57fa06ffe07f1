/** Tokenisation post-processing and prompt masking of the fine-tuning script
    (alpaca_qlora_finetuning_cpu.py, `tokenize` at lines 210-230 and
    `generate_and_tokenize_prompt` at lines 232-256). The tokenizer itself is
    outside this model: its output is given as the token ids (already
    truncated to at most cutoff_len) and one attention-mask entry per id. */
module PromptLabels {
  import opened Wrappers

  /** The label value the loss ignores. */
  const IgnoreIndex: int := -100

  /** The dictionary `tokenize` returns. */
  datatype Encoding = Encoding(inputIds: seq<int>, attentionMask: seq<int>, labels: seq<int>)

  /** `result["input_ids"][-1]` on an empty list (line 221). */
  datatype TokenizeError = IndexError

  /** Lines 220-224: append EOS when the ids do not already end with it,
      there is room below cutoff_len, and add_eos_token holds. */
  predicate AppendsEos(ids: seq<int>, eosId: int, cutoffLen: int, addEos: bool)
    requires ids != []
  {
    ids[|ids| - 1] != eosId && |ids| < cutoffLen && addEos
  }

  /** What `tokenize` returns for the tokenizer output `ids`, `mask`. */
  function Tokenized(ids: seq<int>, mask: seq<int>, eosId: int, cutoffLen: int, addEos: bool)
    : (r: Result<Encoding, TokenizeError>)
    requires |mask| == |ids| <= cutoffLen
    ensures r.Err? <==> ids == []
    ensures r.Ok? ==> r.value.labels == r.value.inputIds
    // the ids and the mask grow together and stay within cutoff_len
    ensures r.Ok? ==> |ids| <= |r.value.attentionMask| == |r.value.inputIds| <= cutoffLen
    ensures r.Ok? ==> r.value.inputIds[..|ids|] == ids && r.value.attentionMask[..|ids|] == mask
    // exactly one EOS id, with mask 1, is added exactly when AppendsEos holds
    ensures r.Ok? ==> (|r.value.inputIds| == |ids| + 1 <==> AppendsEos(ids, eosId, cutoffLen, addEos))
    ensures r.Ok? && !AppendsEos(ids, eosId, cutoffLen, addEos) ==> r.value.inputIds == ids
    ensures r.Ok? && AppendsEos(ids, eosId, cutoffLen, addEos) ==>
              r.value.inputIds[|ids|] == eosId && r.value.attentionMask[|ids|] == 1
  {
    if ids == [] then Err(IndexError)
    else if AppendsEos(ids, eosId, cutoffLen, addEos) then
      Ok(Encoding(ids + [eosId], mask + [1], ids + [eosId]))
    else
      Ok(Encoding(ids, mask, ids))
  }

  /** Lines 220-228 as the script runs them: the lists of the result are
      extended in place, then the labels are a copy of the ids. */
  method Tokenize(ids: seq<int>, mask: seq<int>, eosId: int, cutoffLen: int, addEos: bool)
    returns (r: Result<Encoding, TokenizeError>)
    requires |mask| == |ids| <= cutoffLen
    ensures r == Tokenized(ids, mask, eosId, cutoffLen, addEos)
  {
    if |ids| == 0 {
      return Err(IndexError);
    }
    var inputIds := ids;
    var attentionMask := mask;
    if inputIds[|inputIds| - 1] != eosId && |inputIds| < cutoffLen && addEos {
      inputIds := inputIds + [eosId];
      attentionMask := attentionMask + [1];
    }
    var labels := inputIds;
    r := Ok(Encoding(inputIds, attentionMask, labels));
  }

  /** `[x] * n`. */
  function Repeat(x: int, n: nat): (r: seq<int>)
    ensures |r| == n
    ensures forall i :: 0 <= i < n ==> r[i] == x
  {
    if n == 0 then [] else Repeat(x, n - 1) + [x]
  }

  /** Lines 251-255: `[-100] * k + labels[k:]`. A k beyond the end yields k
      ignored labels, as Python's slicing does. */
  function MaskPrefix(labels: seq<int>, k: nat): (r: seq<int>)
    ensures |r| == if k <= |labels| then |labels| else k
    ensures forall i :: 0 <= i < k ==> r[i] == IgnoreIndex
    ensures forall i :: k <= i < |labels| ==> r[i] == labels[i]
  {
    Repeat(IgnoreIndex, k) + (if k <= |labels| then labels[k..] else [])
  }

  /** Lines 246-249: the tokenised user prompt's length, less one when
      add_eos_token holds. */
  function MaskLength(userIds: seq<int>, addEosToken: bool): (k: nat)
    requires |userIds| >= 1
    ensures addEosToken ==> k + 1 == |userIds|
    ensures !addEosToken ==> k == |userIds|
  {
    |userIds| - (if addEosToken then 1 else 0)
  }

  /** Lines 232-256: the full prompt is tokenised with EOS (the default of
      `tokenize`); unless train_on_inputs holds, the user prompt is tokenised
      with add_eos_token and the labels of its length are masked. */
  function GenerateAndTokenizePrompt(fullIds: seq<int>, fullMask: seq<int>, userIds: seq<int>, userMask: seq<int>,
                                     eosId: int, cutoffLen: int, trainOnInputs: bool, addEosToken: bool)
    : (r: Result<Encoding, TokenizeError>)
    requires |fullMask| == |fullIds| <= cutoffLen
    requires |userMask| == |userIds| <= cutoffLen
    // the only failures: an empty tokenisation of either prompt
    ensures r.Ok? <==> fullIds != [] && (trainOnInputs || userIds != [])
    // with train_on_inputs the masking is skipped
    ensures trainOnInputs ==> r == Tokenized(fullIds, fullMask, eosId, cutoffLen, true)
    // masking touches only the labels
    ensures r.Ok? ==>
              var full := Tokenized(fullIds, fullMask, eosId, cutoffLen, true).value;
              r.value.inputIds == full.inputIds && r.value.attentionMask == full.attentionMask
    ensures r.Ok? && !trainOnInputs ==>
              var k := MaskLength(Tokenized(userIds, userMask, eosId, cutoffLen, addEosToken).value.inputIds, addEosToken);
              // Python's slicing: a k past the end leaves k labels
              && |r.value.labels| == (if k <= |r.value.inputIds| then |r.value.inputIds| else k)
              && (forall i :: 0 <= i < k ==> r.value.labels[i] == IgnoreIndex)
              && (forall i :: k <= i < |r.value.inputIds| ==> r.value.labels[i] == r.value.inputIds[i])
  {
    match Tokenized(fullIds, fullMask, eosId, cutoffLen, true)
    case Err(e) => Err(e)
    case Ok(full) =>
      if trainOnInputs then Ok(full)
      else
        match Tokenized(userIds, userMask, eosId, cutoffLen, addEosToken)
        case Err(e) => Err(e)
        case Ok(user) =>
          var k := MaskLength(user.inputIds, addEosToken);
          Ok(full.(labels := MaskPrefix(full.labels, k)))
  }

  /** When add_eos_token holds but `tokenize` did not append EOS to the user
      prompt (it already filled cutoff_len), line 249 still subtracts one,
      and the last user-prompt token keeps its label. */
  lemma TruncatedUserPromptKeepsLastLabel(fullIds: seq<int>, fullMask: seq<int>, userIds: seq<int>,
                                          userMask: seq<int>, eosId: int, cutoffLen: int)
    requires |fullMask| == |fullIds| == cutoffLen
    requires |userMask| == |userIds| == cutoffLen >= 1
    ensures var r := GenerateAndTokenizePrompt(fullIds, fullMask, userIds, userMask, eosId, cutoffLen, false, true);
            && r.Ok?
            && r.value.labels[cutoffLen - 1] == fullIds[cutoffLen - 1]
  {
  }

  /** The case above on concrete values: with cutoff_len 2 and a user prompt
      of two tokens that is also the whole prompt, token 5 keeps its label,
      where the intended masking ignores both. */
  lemma TruncatedUserPromptExample()
    ensures GenerateAndTokenizePrompt([1, 5], [1, 1], [1, 5], [1, 1], 2, 2, false, true) ==
              Ok(Encoding([1, 5], [1, 1], [IgnoreIndex, 5]))
    ensures GenerateAndTokenizePromptIntended([1, 5], [1, 1], [1, 5], [1, 1], 2, 2, false, true) ==
              Ok(Encoding([1, 5], [1, 1], [IgnoreIndex, IgnoreIndex]))
  {
    TruncatedUserPromptKeepsLastLabel([1, 5], [1, 1], [1, 5], [1, 1], 2, 2);
    assert MaskPrefix([1, 5], 1) == [IgnoreIndex, 5];
    assert MaskPrefix([1, 5], 2) == [IgnoreIndex, IgnoreIndex];
  }

  /** The number of user-prompt labels the script evidently means to mask:
      every token of the tokenizer's output, less a final EOS when
      add_eos_token holds, because the full prompt has response tokens there,
      not an EOS. Unlike line 249 it subtracts nothing when no EOS is there
      to drop, as when the prompt filled cutoff_len. */
  function IntendedMaskLength(userIds: seq<int>, eosId: int, addEosToken: bool): (k: nat)
    requires |userIds| >= 1
    ensures addEosToken && userIds[|userIds| - 1] == eosId ==> k + 1 == |userIds|
    ensures !(addEosToken && userIds[|userIds| - 1] == eosId) ==> k == |userIds|
  {
    |userIds| - (if addEosToken && userIds[|userIds| - 1] == eosId then 1 else 0)
  }

  /** Line 249's count and the intended one differ exactly when add_eos_token
      holds, the user prompt does not end with EOS, and it filled cutoff_len,
      so that `tokenize` appended nothing; line 249 then masks one label too
      few. */
  lemma MaskLengthsDifferIff(userIds: seq<int>, userMask: seq<int>, eosId: int, cutoffLen: int, addEosToken: bool)
    requires |userMask| == |userIds| <= cutoffLen
    requires |userIds| >= 1
    ensures var k := MaskLength(Tokenized(userIds, userMask, eosId, cutoffLen, addEosToken).value.inputIds, addEosToken);
            && (k != IntendedMaskLength(userIds, eosId, addEosToken) <==>
                  addEosToken && userIds[|userIds| - 1] != eosId && |userIds| == cutoffLen)
            && (k != IntendedMaskLength(userIds, eosId, addEosToken) ==> k + 1 == IntendedMaskLength(userIds, eosId, addEosToken))
  {
  }

  /** The masking the script evidently intends: the labels of the user
      prompt's tokens are ignored, and no other, counted by
      `IntendedMaskLength`. */
  function GenerateAndTokenizePromptIntended(fullIds: seq<int>, fullMask: seq<int>, userIds: seq<int>,
                                             userMask: seq<int>, eosId: int, cutoffLen: int,
                                             trainOnInputs: bool, addEosToken: bool)
    : (r: Result<Encoding, TokenizeError>)
    requires |fullMask| == |fullIds| <= cutoffLen
    requires |userMask| == |userIds| <= cutoffLen
    ensures r.Ok? <==> fullIds != [] && (trainOnInputs || userIds != [])
    ensures trainOnInputs ==> r == Tokenized(fullIds, fullMask, eosId, cutoffLen, true)
    ensures r.Ok? ==>
              var full := Tokenized(fullIds, fullMask, eosId, cutoffLen, true).value;
              r.value.inputIds == full.inputIds && r.value.attentionMask == full.attentionMask
    ensures r.Ok? && !trainOnInputs ==>
              var k := IntendedMaskLength(userIds, eosId, addEosToken);
              && |r.value.labels| == (if k <= |r.value.inputIds| then |r.value.inputIds| else k)
              && (forall i :: 0 <= i < k ==> r.value.labels[i] == IgnoreIndex)
              && (forall i :: k <= i < |r.value.inputIds| ==> r.value.labels[i] == r.value.inputIds[i])
  {
    match Tokenized(fullIds, fullMask, eosId, cutoffLen, true)
    case Err(e) => Err(e)
    case Ok(full) =>
      if trainOnInputs then Ok(full)
      else
        match Tokenized(userIds, userMask, eosId, cutoffLen, addEosToken)
        case Err(e) => Err(e)
        case Ok(user) => Ok(full.(labels := MaskPrefix(full.labels, IntendedMaskLength(userIds, eosId, addEosToken))))
  }

  /** The script's masking and the intended one agree on every input outside
      the truncation case of `MaskLengthsDifferIff`. */
  lemma AsWrittenAgreesUnlessTruncated(fullIds: seq<int>, fullMask: seq<int>, userIds: seq<int>,
                                       userMask: seq<int>, eosId: int, cutoffLen: int,
                                       trainOnInputs: bool, addEosToken: bool)
    requires |fullMask| == |fullIds| <= cutoffLen
    requires |userMask| == |userIds| <= cutoffLen
    requires !(userIds != [] && addEosToken && userIds[|userIds| - 1] != eosId && |userIds| == cutoffLen)
    ensures GenerateAndTokenizePrompt(fullIds, fullMask, userIds, userMask, eosId, cutoffLen, trainOnInputs, addEosToken) ==
            GenerateAndTokenizePromptIntended(fullIds, fullMask, userIds, userMask, eosId, cutoffLen, trainOnInputs, addEosToken)
  {
    if userIds != [] {
      MaskLengthsDifferIff(userIds, userMask, eosId, cutoffLen, addEosToken);
    }
  }

  /** A tokenizer that ends the user prompt with EOS itself: line 249's
      subtraction then drops exactly that EOS, and both maskings ignore the
      two user tokens and train on the response. */
  lemma EosEndedUserPromptExample()
    ensures GenerateAndTokenizePrompt([1, 7, 9, 2], [1, 1, 1, 1], [1, 7, 2], [1, 1, 1], 2, 10, false, true) ==
              Ok(Encoding([1, 7, 9, 2], [1, 1, 1, 1], [IgnoreIndex, IgnoreIndex, 9, 2]))
    ensures GenerateAndTokenizePromptIntended([1, 7, 9, 2], [1, 1, 1, 1], [1, 7, 2], [1, 1, 1], 2, 10, false, true) ==
              Ok(Encoding([1, 7, 9, 2], [1, 1, 1, 1], [IgnoreIndex, IgnoreIndex, 9, 2]))
  {
    assert MaskPrefix([1, 7, 9, 2], 2) == [IgnoreIndex, IgnoreIndex, 9, 2];
  }
}

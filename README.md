# Vision-LLM-Alignment: data preparation, DPO step and RLHF engine set-up

This project models, in Dafny, the core of the Vision-LLM-Alignment training
code:

- the LLaVA-style datasets of `training/utils/data/llava_dataset.py`:
  - conversation annotations become prompts;
  - prompts become tokenized multi-turn records;
  - ranked comparison annotations become one candidate per ranked answer;
  - the PPO tokenization;
  - the predict dataset's image-token merge and batch collation;
  - instance ids;
- the DPO trainer of `training/dpo_training/dpo_training_main.py`:
  - the argument post-processing;
  - the broadcasting of per-dataset lists;
  - the warmup resolution;
  - the candidate filter;
  - the masked per-sequence log-probability;
  - the pairing of chosen and rejected rows into the averaged loss;
- the RLHF engine of `training/ppo_training/rlhf_engine.py`:
  - the configuration of the actor, reference, reward and critic roles;
  - the warmup length that the actor and then the critic write back into the
    shared arguments;
  - the tokenizer flags set at the end.

The modules follow the program:

| module | what it models |
|---|---|
| `Text` | the Python string operations the code uses: `replace`, `strip`, ASCII `lower`, `in`, `str(n)` and `int(s)` |
| `Schedule` | `math.ceil` steps per epoch, `int()` truncation and warmup resolution, shared by the DPO trainer and the RLHF engine |
| `Encodings` | the `input_ids` / `attention_mask` / `labels` triple, and the multi-turn trimming and concatenation |
| `LlavaData` | `LlavaDataset`, `LlavaComparsionDataset`, the PPO `tokenize` and `_add_instance_ids` |
| `PredictBatch` | `LlavaPredictDataset.merge_all_images` and `collater` |
| `DpoArgs` | `parse_args` post-processing, dataset-list broadcasting and the warmup write-back of `main` |
| `DpoStep` | the candidate filter, `gather_log_probs`, the model inputs and the DPO loss |
| `RlhfEngine` | `DeepSpeedRLHFEngine` |

Code that changes state in place is modelled imperatively:

- **Classes with `var` fields:**
  - the datasets' debug counter and stored annotations;
  - the shared argument object;
  - the tokenizers;
  - the engine's four roles.
- **Methods with loops:** each is proved equal to a specification function, and the properties are proved about that function.
- **`array2`:** the collater's in-place label masking and the DPO trainer's `attention_mask_tmp`.

Pure code is modelled as functions and lemmas.

These collaborators are parameters:

- the tokenizer;
- `tokenizer.pad`;
- the prompter;
- the image processor;
- the image token table;
- token-level log-probabilities;
- `logsigmoid`.

## Model

| member | source | states |
|---|---|---|
| Text.RemoveAll | training/utils/data/llava_dataset.py:39 | `replace("<image>", "")`: one left-to-right pass that deletes non-overlapping occurrences, so the result is never longer; the lemmas below state what it removes |
| Text.RemoveAllLeading | training/utils/data/llava_dataset.py:39 | an occurrence at the start is deleted and the scan goes on right after it |
| Text.RemoveAllConcat | training/utils/data/llava_dataset.py:39 | when no occurrence straddles the boundary of `a + b`, replacing in `a + b` is replacing in `a` and in `b` separately |
| Text.RemoveAllAbsent | training/utils/data/llava_dataset.py:39 | `replace("<image>", "")` leaves a question without the tag unchanged |
| Text.Strip | training/utils/data/llava_dataset.py:39 | `strip("\n")` returns a contiguous part of the string; only newlines surround it, and it neither starts nor ends with one |
| Text.StripBare | training/utils/data/llava_dataset.py:39 | a string that neither starts nor ends with the character is its own strip |
| Text.StripIdempotent | training/utils/data/llava_dataset.py:39 | stripping twice is stripping once |
| Text.SurroundsUnique | training/utils/data/llava_dataset.py:39 | the contract of `Strip` determines its result: only one part of a string has only newlines around it and none at either end |
| Text.StripExtend | training/utils/data/llava_dataset.py:39 | one more newline at either end does not change the strip |
| Text.Lower | training/dpo_training/dpo_training_main.py:237 | `lower()` keeps the length and lowers each ASCII letter |
| Text.NatToString | training/utils/data/llava_dataset.py:25 | `str(idx)` is a non-empty string of decimal digits |
| Text.DigitsValueOfNatToString | training/utils/data/llava_dataset.py:25 | the digits written by `str(n)` have the value n |
| Text.NatToStringInjective | training/utils/data/llava_dataset.py:25 | distinct indices are printed as distinct ids |
| Text.ParseInt | training/dpo_training/dpo_training_main.py:291 | `int(s)` on ASCII text fails exactly on an empty string, a lone sign, or a non-digit after the optional sign, and otherwise gives the literal's value |
| Text.ParseNatToString | training/dpo_training/dpo_training_main.py:291 | `int(str(n)) == n` |
| Schedule.Trunc | training/dpo_training/dpo_training_main.py:329 | `int(x)` truncates toward zero: the result is within 1 of x, on the side of 0 |
| Schedule.TruncOfInt | training/dpo_training/dpo_training_main.py:331 | `int` leaves a whole number unchanged |
| Schedule.CeilDiv | training/dpo_training/dpo_training_main.py:326-327 | `math.ceil(n / g)` is the integer r with r − 1 < n/g ≤ r |
| Schedule.StepsPerEpoch | training/dpo_training/dpo_training_main.py:326-327 | `math.ceil(len(train_dataloader) / gradient_accumulation_steps)`; `StepsPerEpochIsLeastCover` proves it is the least number of updates covering every batch |
| Schedule.StepsPerEpochIsLeastCover | training/dpo_training/dpo_training_main.py:326-327 | updates per epoch is the least count whose accumulated batches cover every batch |
| Schedule.ResolveWarmup | training/dpo_training/dpo_training_main.py:328-331 | the overwritten `num_warmup_steps`: a ratio of all updates when ≤ 1, a step count otherwise; `WarmupRatioBounds`, `WarmupAbsolute`, `ResolveResolved` and `ResolveTwice` state its results (the same rule is at training/ppo_training/rlhf_engine.py:94-97) |
| Schedule.WarmupRatioBounds | training/dpo_training/dpo_training_main.py:328-329 | a warmup ratio in [0, 1] gives between 0 and epochs × steps warmup steps |
| Schedule.WarmupAbsolute | training/dpo_training/dpo_training_main.py:330-331 | a warmup value above 1 becomes its integer part, at least 1 |
| Schedule.ResolveResolved | training/ppo_training/rlhf_engine.py:201-204 | re-resolving a whole number n scales it by epochs × steps when n ≤ 1, and keeps it otherwise |
| Schedule.ResolveTwice | training/ppo_training/rlhf_engine.py:94-97 | after a second resolution, 0 stays 0, a count ≥ 2 stays unchanged, and 1 becomes epochs × steps |
| Encodings.DropLast | training/utils/data/llava_dataset.py:98-100 | `xs[0:-1]` is xs without its last element, and empty for an empty list |
| Encodings.DropFirst | training/utils/data/llava_dataset.py:105-107 | `xs[1:]` is xs without its first element, and empty for an empty list |
| Encodings.TrimEos | training/utils/data/llava_dataset.py:95-100 | trimming a first turn fails (IndexError) exactly when the turn is empty |
| Encodings.TrimBos | training/utils/data/llava_dataset.py:102-107 | trimming a last turn fails (IndexError) exactly when the turn is empty |
| Encodings.TrimTurn | training/utils/data/llava_dataset.py:93-119 | trims one turn by its position: first loses a trailing EOS, last a leading BOS, middle both, a lone turn nothing; `TrimFramed` and `TrimTurnAligned` state its effect |
| Encodings.TrimTurnAligned | training/utils/data/llava_dataset.py:93-119 | the three sequences are trimmed identically, so they stay the same length |
| Encodings.TrimPrefix | training/utils/data/llava_dataset.py:93-120 | trimming the first k turns yields k turns |
| Encodings.Concat | training/utils/data/llava_dataset.py:121-123 | the repeated `extend` of the three sequences; `ConcatAligned` and `ConcatLength` state that it stays aligned and sums the lengths |
| Encodings.ConcatAligned | training/utils/data/llava_dataset.py:121-123 | joining aligned turns gives an aligned record |
| Encodings.ConcatLength | training/utils/data/llava_dataset.py:121-123 | the joined record has as many ids as all turns together |
| Encodings.JoinTurns | training/utils/data/llava_dataset.py:84-123 | the multi-turn record: every turn trimmed, then all joined, or the first trimming error; `JoinTurnsAligned`, `JoinFramedLength` and `TrimPrefixErrPersists` state its results, and `ConcatTurns` is proved to compute it |
| Encodings.JoinTurnsAligned | training/utils/data/llava_dataset.py:84-123 | a multi-turn record built from aligned turns is aligned |
| Encodings.TrimPrefixAligned | training/utils/data/llava_dataset.py:93-119 | every trimmed turn is aligned |
| Encodings.JoinSingleTurn | training/utils/data/llava_dataset.py:85-90 | a single turn is copied unchanged |
| Encodings.TrimFramed | training/utils/data/llava_dataset.py:95-119 | a BOS…EOS turn loses one token as first or last turn, two as a middle turn, none alone |
| Encodings.TrimPrefixFramed | training/utils/data/llava_dataset.py:93-119 | for BOS…EOS turns, the trimmed prefix is two tokens per turn shorter, less the two outer boundaries |
| Encodings.JoinFramedLength | training/utils/data/llava_dataset.py:91-123 | n ≥ 2 BOS…EOS turns join successfully and lose exactly 2(n − 1) tokens |
| Encodings.TrimPrefixErrPersists | training/utils/data/llava_dataset.py:97 | once a turn raises, the whole join raises the same error |
| Encodings.ConcatTurns | training/utils/data/llava_dataset.py:81-123 | the concatenation loop computes the specification join, errors included |
| LlavaData.EndMarker | training/utils/data/llava_dataset.py:180-186 | the end-of-answer marker: the template's own for `llama_3`, `llama_2` and `vicuna`, empty for any other; `WithEmptyMarkerUnchanged` and `MarkersAccumulate` state what appending it does |
| LlavaData.CleanQuestion | training/utils/data/llava_dataset.py:39 | the cleaned first question has no surrounding newline, and without a tag it is the plain strip |
| LlavaData.CleanQuestionTagFirst | training/utils/data/llava_dataset.py:39 | `"<image>\n" + q` with a tag-free `q` cleans to the strip of `q` |
| LlavaData.CleanQuestionTagLast | training/utils/data/llava_dataset.py:39 | `q + "\n<image>"` with a tag-free `q` cleans to the strip of `q` |
| LlavaData.TurnQuestion | training/utils/data/llava_dataset.py:34-39 | the question of turn i: turn 0 cleaned by `CleanQuestion`, every other turn as written; `Prompts` states where it is used |
| LlavaData.Prompts | training/utils/data/llava_dataset.py:27-52 | ⌊len/2⌋ prompts; answer i is conversation 2i + 1 plus the template's marker; only turn 0 is cleaned, flagged with_image and marked first message |
| LlavaData.PyIndex | training/utils/data/llava_dataset.py:64 | Python's negative index lands inside the list |
| LlavaData.LlavaDataset.constructor | training/utils/data/llava_dataset.py:15-21 | the dataset holds its annotation groups and collaborators, and the debug counter starts at 0 |
| LlavaData.LlavaDataset.ProcessText | training/utils/data/llava_dataset.py:27-59 | the turn loop builds exactly `Prompts` |
| LlavaData.LlavaDataset.TokenizeAll | training/utils/data/llava_dataset.py:78-80 | one tokenization per prompt, in order |
| LlavaData.LlavaDataset.TokenizeTurns | training/utils/data/llava_dataset.py:77-80 | the tokenize loop computes `TokenizeAll` |
| LlavaData.LlavaDataset.AnnotationRecord | training/utils/data/llava_dataset.py:61-123 | what one annotation of a group becomes: its prompts tokenized, trimmed and joined, with its processed image, or the join's error; `GetItem` is proved to return these in order |
| LlavaData.LlavaDataset.GetItem | training/utils/data/llava_dataset.py:61-130 | success exactly when every annotation joins; then one record per annotation, in order, and the counter advances by the group size; on error it advanced at least once |
| LlavaData.AppendMarker | training/utils/data/llava_dataset.py:188-189 | every ranked answer gets the marker appended, none dropped or reordered |
| LlavaData.WithMarkers | training/utils/data/llava_dataset.py:188-189 | the stored annotation changes only in its ranked answers, each of which gets the marker |
| LlavaData.WithEmptyMarkerUnchanged | training/utils/data/llava_dataset.py:180-189 | with the empty marker of the other templates the stored annotation does not change |
| LlavaData.MarkersAccumulate | training/utils/data/llava_dataset.py:188-189 | processing the stored annotation again appends the marker twice, and the annotation changes |
| LlavaData.RankedPrompts | training/utils/data/llava_dataset.py:174-196 | one prompt per ranked answer, with the marker once, all sharing the cleaned question's instruction |
| LlavaData.Expand | training/utils/data/llava_dataset.py:152-171 | the candidates of the first k annotations of a group, in annotation order; `ExpandCount`, `ExpandGrows` and `ExpandAt` state its length, growth and order |
| LlavaData.ExpandCount | training/utils/data/llava_dataset.py:162-171 | the group expands to exactly as many outputs as it has ranked answers |
| LlavaData.ExpandGrows | training/utils/data/llava_dataset.py:152-171 | outputs are only appended: a shorter prefix of the group gives a prefix of the outputs |
| LlavaData.ExpandAt | training/utils/data/llava_dataset.py:152-171 | output TotalAnswers(j) + k is candidate k of annotation j, so the order is annotation order, then rank order |
| LlavaData.NoCandidatesBeforeNext | training/utils/data/llava_dataset.py:159 | `first_message` stays true exactly while no earlier annotation produced a candidate |
| LlavaData.LlavaComparisonDataset.constructor | training/utils/data/llava_dataset.py:136-143 | the dataset holds its annotation groups and collaborators, and the debug counter starts at 0 |
| LlavaData.LlavaComparisonDataset.ProcessTextInPlace | training/utils/data/llava_dataset.py:174-196 | as written: the marker is appended inside the stored annotation, nothing else changes, and the stored answers are returned |
| LlavaData.LlavaComparisonDataset.CandidatesOf | training/utils/data/llava_dataset.py:162-169 | one candidate per ranked answer |
| LlavaData.LlavaComparisonDataset.CandidateAt | training/utils/data/llava_dataset.py:162-169 | candidate k holds the tokenized k-th answer with the marker, the shared instruction and the annotation's image |
| LlavaData.LlavaComparisonDataset.ExpandedCandidate | training/utils/data/llava_dataset.py:149-172 | output TotalAnswers(j) + k holds annotation j's image and instruction (first message exactly when no earlier candidates) and its k-th answer with the marker once |
| LlavaData.LlavaComparisonDataset.ExpandAnnotation | training/utils/data/llava_dataset.py:162-171 | the per-answer loop emits exactly `CandidatesOf`, and leaves the last single-candidate list |
| LlavaData.LlavaComparisonDataset.GetItem | training/utils/data/llava_dataset.py:149-172 | corrected (see Findings): the outputs are the expansion of the group with the marker appended once, the stored annotations are unchanged, and the counter advances by the group size |
| LlavaData.PadPrefix | training/utils/data/llava_dataset.py:230 | `[PAD] * k + xs[k:]` is PAD below k and xs from k on |
| LlavaData.PpoTokenizeAsWritten | training/utils/data/llava_dataset.py:212-233 | as written (see Findings): the PPO `tokenize`, including the KeyError "input_id" of line 221; `PpoTokenizeEosFails` and `PpoTokenizeAsWrittenLabels` state its results |
| LlavaData.PpoTokenize | training/utils/data/llava_dataset.py:212-233 | corrected (see Findings): the PPO `tokenize` that drops a trailing EOS and keeps the labels as long as the ids; `PpoTokenizeCorrect` states its results |
| LlavaData.PpoTokenizeEosFails | training/utils/data/llava_dataset.py:220-221 | as written: a tokenization ending in EOS with `add_eos` off raises KeyError "input_id" |
| LlavaData.PpoTokenizeAsWrittenLabels | training/utils/data/llava_dataset.py:224-232 | when tokenization succeeds as written, labels copy `input_ids`, or are all PAD under `ignore_instruction` |
| LlavaData.PpoTokenizeCorrect | training/utils/data/llava_dataset.py:212-233 | corrected: fails only on an empty tokenization, drops a trailing EOS, stays aligned, labels are the ids or all PAD |
| LlavaData.AddInstanceIds | training/utils/data/llava_dataset.py:23-25 | annotation i gets id `str(i)`, and nothing else changes |
| LlavaData.InstanceIdsDistinct | training/utils/data/llava_dataset.py:145-147 | the ids are pairwise distinct, and each parses back to its index |
| PredictBatch.IndexOf | training/utils/data/llava_dataset.py:346 | `list.index` is the first position of the value |
| PredictBatch.ReplaceFirst | training/utils/data/llava_dataset.py:344-354 | `find_index_and_replace`: the first placeholder becomes the image's tokens, with ones in the mask and PAD labels, or IndexError; `ReplaceFirstAligned` and `ReplaceFirstUndo` state its result |
| PredictBatch.ReplaceFirstAligned | training/utils/data/llava_dataset.py:344-354 | an aligned record gets the K image tokens, K ones and K PAD labels at the first placeholder, and each sequence grows by K − 1 |
| PredictBatch.ReplaceFirstUndo | training/utils/data/llava_dataset.py:346-347 | only the first placeholder is replaced: putting it back restores the ids |
| PredictBatch.MergeErrPersists | training/utils/data/llava_dataset.py:358-368 | an error in one record ends the merge with that error |
| PredictBatch.MergeStep | training/utils/data/llava_dataset.py:360-368 | one iteration of the merge loop: a record with a placeholder is spliced and takes the next image number, any other is appended; `MergeStepAligned` states its result |
| PredictBatch.MergePrefix | training/utils/data/llava_dataset.py:355-368 | the merge of the first k records of a group; `MergeAligned`, `MergeCounts`, `MergeWithoutImages` and `MergeErrPersists` state its results, and `MergeAllImages` is proved to compute it |
| PredictBatch.MergeStepAligned | training/utils/data/llava_dataset.py:360-368 | one merge step on aligned records succeeds, counts an image if spliced, and grows by the record plus K − 1 |
| PredictBatch.MergeAligned | training/utils/data/llava_dataset.py:355-368 | merging aligned records never fails, stays aligned, and has the total length plus K − 1 per image |
| PredictBatch.MergeCounts | training/utils/data/llava_dataset.py:355-371 | `image_num` counts the records with a placeholder; the image list holds their images in order; the ids are all ids in order |
| PredictBatch.MergeWithoutImages | training/utils/data/llava_dataset.py:369-371 | `image_num` is 0 exactly when no record has a placeholder, and the merge then only concatenates |
| PredictBatch.MaxLength | training/utils/data/llava_dataset.py:398 | `max(len(l))` bounds every row and is reached by one |
| PredictBatch.PadRow | training/utils/data/llava_dataset.py:401-409 | a padded label row has the batch width |
| PredictBatch.PadRowUnpad | training/utils/data/llava_dataset.py:402-404 | the original labels stand contiguously on the far side of the padding, and the rest is PAD |
| PredictBatch.MaskLabel | training/utils/data/llava_dataset.py:417-422 | one label after the three masking passes; `MaskLabelSurvives` states when it survives and that masking is idempotent |
| PredictBatch.MaskLabelSurvives | training/utils/data/llava_dataset.py:417-422 | a label survives exactly when it is not PAD-token, not column 0 and not an image token; masking is idempotent |
| PredictBatch.CollatedLabels | training/utils/data/llava_dataset.py:398-422 | the label rows padded to the batch width and masked cell by cell; `CollatedLabelsShape` and `MaskedPaddedIsCollated` state their shape and content |
| PredictBatch.CollatedLabelsShape | training/utils/data/llava_dataset.py:398-422 | each collated row has the batch width; padding is PAD, and original labels are masked in place |
| PredictBatch.MaskedPaddedIsCollated | training/utils/data/llava_dataset.py:417-422 | padding then masking every cell is `CollatedLabels` |
| PredictBatch.LlavaPredictDataset.constructor | training/utils/data/llava_dataset.py:276-281 | the dataset holds its token table, padding values and collaborators |
| PredictBatch.LlavaPredictDataset.MergeAllImages | training/utils/data/llava_dataset.py:343-372 | the merge loop computes the specification merge, errors included |
| PredictBatch.LlavaPredictDataset.MaskLabels | training/utils/data/llava_dataset.py:417-422 | the three in-place passes leave `MaskLabel` in every cell; no columns raises IndexError |
| PredictBatch.LlavaPredictDataset.PadLabels | training/utils/data/llava_dataset.py:398-409 | every row is padded to the longest row; an empty batch is an error |
| PredictBatch.LlavaPredictDataset.MaskPadded | training/utils/data/llava_dataset.py:418-422 | masking the padded rows as a tensor gives `MaskLabel` of each cell; zero width raises IndexError |
| PredictBatch.LlavaPredictDataset.Collater | training/utils/data/llava_dataset.py:384-431 | the per-sample fields are gathered in order, and labels are padded and masked; an empty batch and zero width are the two errors |
| DpoArgs.Broadcast | training/dpo_training/dpo_training_main.py:284-289 | `[xs[0]] * n` for a single value, the failed assertion naming the option for another short list, the list itself otherwise; `BroadcastCovers` states these cases |
| DpoArgs.BroadcastCovers | training/dpo_training/dpo_training_main.py:284-289 | broadcasting fails exactly for a short list of length ≠ 1; a short list is replicated to every name; a long one is kept; broadcasting again changes nothing |
| DpoArgs.ToInt | training/dpo_training/dpo_training_main.py:291 | `int` keeps an integer value |
| DpoArgs.ToInts | training/dpo_training/dpo_training_main.py:291 | the list converts exactly when every value does, element by element |
| DpoArgs.ToIntsIdempotent | training/dpo_training/dpo_training_main.py:291 | converting integers again changes nothing, and numbers typed as text convert |
| DpoArgs.Args.constructor | training/dpo_training/dpo_training_main.py:231 | the parsed arguments hold the given values |
| DpoArgs.IsQwen | training/dpo_training/dpo_training_main.py:237 | `'qwen' in path.lower()`; `IsQwenAnyCase` states that the test ignores case |
| DpoArgs.IsQwenAnyCase | training/dpo_training/dpo_training_main.py:237 | a path holding "qwen" in any mix of upper and lower case names a Qwen tower |
| DpoArgs.Args.PostProcess | training/dpo_training/dpo_training_main.py:233-238 | a pretraining rate of 0.0 becomes `learning_rate`, any other is kept; negative warmup fails; Qwen requires `baseline` |
| DpoArgs.Args.BroadcastDatasetLists | training/dpo_training/dpo_training_main.py:284-291 | both lists are broadcast, then the concatenation counts are converted, with each failure and the state it leaves |
| DpoArgs.Args.ResolveWarmupSteps | training/dpo_training/dpo_training_main.py:326-338 | the warmup is overwritten with the resolved count; total steps = epochs × updates per epoch |
| DpoStep.KeptPrefix | training/dpo_training/dpo_training_main.py:404 | the rows among the first k whose first id is not −1, in order; `KeptPrefixSpec` states that exactly those are kept, increasing |
| DpoStep.KeptPrefixSpec | training/dpo_training/dpo_training_main.py:404 | the kept indices are increasing, and are exactly the rows whose first id ≠ −1 |
| DpoStep.Select | training/dpo_training/dpo_training_main.py:406-409 | selection succeeds exactly when every index is in range |
| DpoStep.KeepAll | training/dpo_training/dpo_training_main.py:404 | with no sentinel row every index is kept |
| DpoStep.FilterIdempotent | training/dpo_training/dpo_training_main.py:404-409 | filtered rows all start with a real token, so filtering again keeps them all |
| DpoStep.ChosenIdx | training/dpo_training/dpo_training_main.py:404 | the comprehension gives the kept indices; an empty row raises IndexError |
| DpoStep.FilterCandidates | training/dpo_training/dpo_training_main.py:404-409 | the same kept indices select images, ids, masks and labels |
| DpoStep.TrainingInputs | training/dpo_training/dpo_training_main.py:435-437 | `labels_tmp` copies the ids; `attention_mask_tmp` has 0 replaced by 1, so it is all ones for a 0/1 mask |
| DpoStep.MaskedSum | training/dpo_training/dpo_training_main.py:249 | `(values * mask).sum(-1)` over one row; `MaskedSumIgnoresMasked` and `MaskedSumAllMasked` state what the mask does |
| DpoStep.MaskedSumIgnoresMasked | training/dpo_training/dpo_training_main.py:249 | values at masked positions do not affect the sum |
| DpoStep.MaskedSumAllMasked | training/dpo_training/dpo_training_main.py:249 | a fully masked row sums to 0 |
| DpoStep.TokenLogProbs | training/dpo_training/dpo_training_main.py:246-247 | one log-probability per position |
| DpoStep.KeepFlags | training/dpo_training/dpo_training_main.py:242 | the mask row loses its first column |
| DpoStep.GatherLogProbs | training/dpo_training/dpo_training_main.py:241-249 | the assertion fails exactly when scores and tokens differ in batch size or in a row's length; with matching shapes it fails exactly when a mask row is not one longer than its token row (both empty aside); these are the only errors; otherwise one summed log-probability per row |
| DpoStep.DropLastRow | training/dpo_training/dpo_training_main.py:513 | `[:-1]` is one shorter |
| DpoStep.DropFirstRow | training/dpo_training/dpo_training_main.py:514 | `[1:]` is one shorter |
| DpoStep.SequenceLogProbs | training/dpo_training/dpo_training_main.py:513-514 | `gather_log_probs` at the call sites: scores without the last position, ids without the first; `SequenceLogProbsNextToken` states its values |
| DpoStep.SequenceLogProbsNextToken | training/dpo_training/dpo_training_main.py:513-514 | same-shape inputs never fail; row b sums the log-probability of token t + 1 under the scores at t wherever label t + 1 ≠ PAD |
| DpoStep.DpoLogit | training/dpo_training/dpo_training_main.py:526 | β × ((chosen − ref chosen) − (rejected − ref rejected)); `DpoLogitMargins` and `PairLossMonotone` state its properties |
| DpoStep.DpoLogitMargins | training/dpo_training/dpo_training_main.py:526 | the logit is β × policy margin − β × reference margin; it is antisymmetric in chosen/rejected and 0 for a policy equal to the reference |
| DpoStep.PairLoss | training/dpo_training/dpo_training_main.py:527-528 | the smoothed loss of one pair; `PairLossSmoothing` states its ε = 0 case and its symmetry |
| DpoStep.PairLossSmoothing | training/dpo_training/dpo_training_main.py:527-528 | ε = 0 is −logσ(z), and smoothing ε on z equals smoothing 1 − ε on −z |
| DpoStep.PairLossMonotone | training/dpo_training/dpo_training_main.py:526-528 | for β ≥ 0 and a non-decreasing `logsigmoid`, raising the chosen or lowering the rejected log-probability never lowers the logit and never raises the unsmoothed loss |
| DpoStep.LossSum | training/dpo_training/dpo_training_main.py:518-528 | the loss summed over the first k pairs; `LossSumNext`, `LossSumPrefix` and `OddTrailingIgnored` state the pairing |
| DpoStep.LossSumNext | training/dpo_training/dpo_training_main.py:518-528 | pair k is row 2k (chosen) against row 2k + 1 (rejected) |
| DpoStep.MeanLoss | training/dpo_training/dpo_training_main.py:516-530 | the average is defined exactly when there are at least two rows; otherwise division by zero |
| DpoStep.LossSumPrefix | training/dpo_training/dpo_training_main.py:516-528 | rows past the first 2k do not enter the first k pairs |
| DpoStep.OddTrailingIgnored | training/dpo_training/dpo_training_main.py:516 | an odd trailing row leaves the loss unchanged |
| DpoStep.DpoLoss | training/dpo_training/dpo_training_main.py:516-530 | the pairing loop and division compute `MeanLoss`, including its division by zero |
| RlhfEngine.TrainingBuildConfig | training/ppo_training/rlhf_engine.py:52-62 | stage 2, and `train_batch_size` = per-device × world size × accumulation |
| RlhfEngine.DeepSpeedRlhfEngine.InitActor | training/ppo_training/rlhf_engine.py:50-119 | the actor's rate, betas and stage; the warmup is resolved, written back and scheduled |
| RlhfEngine.DeepSpeedRlhfEngine.ResolveWarmupInPlace | training/ppo_training/rlhf_engine.py:94-104 | the shared warmup is overwritten with its resolution; the scheduler takes it and epochs × steps |
| RlhfEngine.DeepSpeedRlhfEngine.InitRef | training/ppo_training/rlhf_engine.py:121-154 | no optimizer or scheduler; built at stage 2, run at stage 3 |
| RlhfEngine.DeepSpeedRlhfEngine.InitReward | training/ppo_training/rlhf_engine.py:228-270 | no optimizer or scheduler; the training batch size; run at stage 3 |
| RlhfEngine.DeepSpeedRlhfEngine.InitCritic | training/ppo_training/rlhf_engine.py:156-226 | the critic's rate, betas and stage; re-resolves whatever warmup the arguments hold |
| RlhfEngine.DeepSpeedRlhfEngine.constructor | training/ppo_training/rlhf_engine.py:18-47 | the role table; the actor schedules the once-resolved warmup and the critic the twice-resolved one; the reward and critic tokenizers pad right and add BOS/EOS |
| RlhfEngine.CriticAgreesWithActor | training/ppo_training/rlhf_engine.py:201-204 | the critic's warmup equals the actor's exactly when the actor's is 0 or ≥ 2, or the run has one update |

## Left out

- **Tokenizer, prompter and image processor:** these, `tokenizer.pad` and the image token table are given functions. Truncation to 512 tokens belongs to the tokenizer.
- **Image stacking:** `torch.stack` of the images in the collater and the DPO step is not modelled.
- **Numerics:** `log_softmax`, `gather` over the vocabulary and `logsigmoid` are given functions over reals. Floating-point rounding is not modelled.
- **Reals for floats:** learning rates and warmup values are reals.
- **The VQADataset base class:** its `tokenize` and `merge_all_images` are not part of this model.
  - The `LlavaDataset` and comparison `GetItem` return the records before that merge.
  - `LlavaPredictDataset` has its own merge, which is modelled.
- **Collater input:** `LlavaPredictDataset.__getitem__` returns the merged record, which has no `instruction` or `answer` key, while `collater` reads both. The collater is therefore modelled on a `BatchSample` that carries the merged record together with its texts. `__getitem__` of the predict and PPO datasets is not part of this model.
- **Collater label padding:** the `numpy` branch pads the same way as the list branch, so labels are modelled as lists. `tokenizer.pad` is assumed to leave the already equal-length labels as they are.
- **Model calls:** forward passes, model builders, checkpoint loading, `deepspeed.initialize` and the content of `get_train_ds_config` are left out. A role records only the configuration values this code sets.
- **LoRA and the rest of `main`:** LoRA conversion, argparse parsing, per-architecture image reshaping, logging, `save_debug_text`, `print` and tqdm are left out.
- **Distributed execution:** samplers, barriers and ranks are left out. The world size is a parameter.
- **Debug counter:** `data_debug_counter` is modelled only as a counter. What it names in the debug output is I/O.
- **Malformed inputs as preconditions:** annotations of the wrong shape (missing keys, a non-string where a string is expected) would raise KeyError or TypeError. These are preconditions (`IsDialogue`, `IsRanked`). Empty turns and empty batches are modelled as errors.
- LlavaData.LlavaComparisonDataset.CandidatesOf: returns no candidates for an annotation that is not ranked, where the source would raise. `GetItem` requires ranked annotations, so this case is never reached.
- LlavaData.LlavaComparisonDataset.GetItem: models the corrected `__getitem__` of the comparison dataset, which leaves the stored annotations unchanged. The source's in-place append of the end marker (llava_dataset.py:188-189) is modelled separately by `ProcessTextInPlace`, and `MarkersAccumulate` states its effect on a later epoch.
- LlavaData.AddInstanceIds: works on a flat list of annotations, as the base class would hold them before grouping them per sample. That base class is not part of this model. On the grouped `self.annotation` that `__getitem__` indexes, `ann[key] = str(idx)` would assign into a list and raise TypeError, which the model does not capture.
- PredictBatch.LlavaPredictDataset.MergeAllImages: the image token table is a total function of the image number. `DST.image_mapping_dict[str(image_number)]` raises KeyError for an image number past the mapping, and the model does not capture that error. The same holds for `PredictBatch.MergeStep` and `PredictBatch.MergePrefix`.
- **Division preconditions:** a `gradient_accumulation_steps` of 0, which raises ZeroDivisionError in the source, is excluded by a precondition wherever updates per epoch are computed.
- DpoStep.DpoLoss: requires both log-probability lists to have one length. The source computes both from the same batch.
- DpoStep.GatherLogProbs: a mask that fails to broadcast is one error, rather than the many broadcasting outcomes of torch.
- **Text conversions:** `str.lower` is ASCII only.
- Text.ParseInt: accepts only the ASCII digits `0`–`9`. It rejects surrounding whitespace, underscores, and the other Unicode decimal digits that Python's `int` accepts (such as Arabic-Indic or full-width digits).
- **`number_dataset`:** it is an integer. Its default of `None` would fail in `math.ceil`.

## Findings

| source | as written | input that shows it | evidently intended | confidence | as-written member | corrected member |
|---|---|---|---|---|---|---|
| training/utils/data/llava_dataset.py:188-189 | the comparison `process_text` appends the end marker to the ranked answers inside the stored annotation | a `llama_3` annotation read in two epochs: its first answer ends with the marker twice the second time (LlavaData.MarkersAccumulate) | every candidate's answer carries the marker exactly once, and the dataset is unchanged (LlavaData.LlavaComparisonDataset.ExpandedCandidate) | high; not executed | LlavaData.LlavaComparisonDataset.ProcessTextInPlace | LlavaData.LlavaComparisonDataset.GetItem |
| training/utils/data/llava_dataset.py:221 | the EOS branch reads `res["input_id"]`, a key the tokenizer output does not have (the same line is at 296) | any instruction whose tokens end with EOS, with `add_eos` off as the PPO dataset sets it (LlavaData.PpoTokenizeEosFails) | drop the trailing EOS from ids and mask, and keep the labels as long as the ids (LlavaData.PpoTokenizeCorrect) | high; not executed | LlavaData.PpoTokenizeAsWritten | LlavaData.PpoTokenize |

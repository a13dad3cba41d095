/**
 * `LlavaPredictDataset`'s own `merge_all_images` and `collater`: the tokenized
 * annotations of one group are joined into one record in which the first
 * image placeholder of each annotation is spliced into that image's tokens,
 * and a batch of such records is collated with its labels padded to one
 * width and masked.
 */
module PredictBatch {
  import opened Wrappers
  import opened Encodings
  import LlavaData

  /** One tokenized annotation as `merge_all_images` receives it: its encoding, its image (None without one) and its id. */
  datatype Piece = Piece(enc: Encoding, image: Option<LlavaData.Image>, id: string)

  /** The merged record of one group: the joined encoding, the images, the ids and `image_num`. */
  datatype Merged = Merged(enc: Encoding, images: seq<Option<LlavaData.Image>>, ids: seq<string>, imageNum: nat)

  /** One sample as the collater reads it: a merged record together with its instruction and answer texts. */
  datatype BatchSample = BatchSample(merged: Merged, instruction: string, answer: string)

  /** The collated batch; `input_ids` and `attention_mask` come from the tokenizer's own padding. */
  datatype Collated = Collated(images: seq<seq<Option<LlavaData.Image>>>, instructions: seq<string>,
                               answers: seq<string>, inputIds: seq<seq<int>>, attentionMask: seq<seq<int>>,
                               labels: seq<seq<int>>, ids: seq<seq<string>>)

  /** Python's `[v] * n`. */
  function Repeat(v: int, n: nat): (r: seq<int>)
    ensures |r| == n && forall i :: 0 <= i < n ==> r[i] == v
  {
    seq(n, _ => v)
  }

  /** Python's `list.index`: the first position of `x`. */
  function IndexOf(xs: seq<int>, x: int): (i: nat)
    requires x in xs
    ensures i < |xs| && xs[i] == x
    ensures forall k :: 0 <= k < i ==> xs[k] != x
  {
    if xs[0] == x then 0 else 1 + IndexOf(xs[1..], x)
  }

  /**
   * `find_index_and_replace`: the first placeholder of the ids becomes the
   * image's tokens, and the mask and labels at that position become as
   * many ones and as many PAD labels; the mask or the labels being too
   * short for that position is Python's `IndexError`.
   */
  function ReplaceFirst(e: Encoding, placeholder: int, tokens: seq<int>, labelPad: int): (r: Result<Encoding, DataError>)
    requires placeholder in e.inputIds
  {
    var i := IndexOf(e.inputIds, placeholder);
    if i >= |e.attentionMask| || i >= |e.labels| then Err(IndexError)
    else Ok(Encoding(e.inputIds[..i] + tokens + e.inputIds[i + 1..],
                     e.attentionMask[..i] + Repeat(1, |tokens|) + e.attentionMask[i + 1..],
                     e.labels[..i] + Repeat(labelPad, |tokens|) + e.labels[i + 1..]))
  }

  /**
   * An aligned record is always spliced; the three sequences each grow by
   * one less than the number of image tokens and stay aligned; at the first
   * placeholder stand the image tokens, a mask of ones and PAD labels.
   */
  lemma ReplaceFirstAligned(e: Encoding, placeholder: int, tokens: seq<int>, labelPad: int)
    requires placeholder in e.inputIds && Aligned(e)
    ensures var i := IndexOf(e.inputIds, placeholder);
            var r := ReplaceFirst(e, placeholder, tokens, labelPad);
            r.Ok? && Aligned(r.value)
            && |r.value.inputIds| == |e.inputIds| + |tokens| - 1
            && r.value.inputIds[i..i + |tokens|] == tokens
            && (forall t :: i <= t < i + |tokens| ==> r.value.attentionMask[t] == 1 && r.value.labels[t] == labelPad)
  {
    var i := IndexOf(e.inputIds, placeholder);
    var r := ReplaceFirst(e, placeholder, tokens, labelPad).value;
    assert r.inputIds[i..i + |tokens|] == tokens;
  }

  /**
   * Only the first placeholder is replaced: putting the placeholder back in
   * place of the image tokens gives the original ids, and everything before
   * that position is free of placeholders.
   */
  lemma ReplaceFirstUndo(e: Encoding, placeholder: int, tokens: seq<int>, labelPad: int)
    requires placeholder in e.inputIds
    requires ReplaceFirst(e, placeholder, tokens, labelPad).Ok?
    ensures var i := IndexOf(e.inputIds, placeholder);
            var r := ReplaceFirst(e, placeholder, tokens, labelPad).value;
            r.inputIds[..i] + [placeholder] + r.inputIds[i + |tokens|..] == e.inputIds
            && placeholder !in r.inputIds[..i]
  {
    var i := IndexOf(e.inputIds, placeholder);
    var r := ReplaceFirst(e, placeholder, tokens, labelPad).value;
    assert r.inputIds[..i] == e.inputIds[..i];
    assert r.inputIds[i + |tokens|..] == e.inputIds[i + 1..];
    assert e.inputIds == e.inputIds[..i] + [placeholder] + e.inputIds[i + 1..];
  }

  /** One step of the merge loop: a record with a placeholder takes the next image number. */
  function MergeStep(m: Merged, p: Piece, placeholder: int, imageTokens: nat -> seq<int>, labelPad: int)
    : Result<Merged, DataError>
  {
    if placeholder in p.enc.inputIds then
      match ReplaceFirst(p.enc, placeholder, imageTokens(m.imageNum + 1), labelPad)
      case Err(err) => Err(err)
      case Ok(enc) => Ok(Merged(Append(m.enc, enc), m.images + [p.image], m.ids + [p.id], m.imageNum + 1))
    else Ok(Merged(Append(m.enc, p.enc), m.images, m.ids + [p.id], m.imageNum))
  }

  /** The merge of the first k records of a group. */
  function MergePrefix(pieces: seq<Piece>, k: nat, placeholder: int, imageTokens: nat -> seq<int>, labelPad: int)
    : Result<Merged, DataError>
    requires k <= |pieces|
  {
    if k == 0 then Ok(Merged(Empty, [], [], 0))
    else match MergePrefix(pieces, k - 1, placeholder, imageTokens, labelPad)
      case Err(err) => Err(err)
      case Ok(m) => MergeStep(m, pieces[k - 1], placeholder, imageTokens, labelPad)
  }

  /** Once the merge fails, it fails for every longer prefix. */
  lemma {:induction false} MergeErrPersists(pieces: seq<Piece>, k: nat, k': nat, placeholder: int,
                                            imageTokens: nat -> seq<int>, labelPad: int)
    requires k <= k' <= |pieces|
    requires MergePrefix(pieces, k, placeholder, imageTokens, labelPad).Err?
    ensures MergePrefix(pieces, k', placeholder, imageTokens, labelPad)
            == MergePrefix(pieces, k, placeholder, imageTokens, labelPad)
  {
    if k < k' {
      MergeErrPersists(pieces, k, k' - 1, placeholder, imageTokens, labelPad);
    }
  }

  /** The number of the first k records that carry a placeholder. */
  function CountWithImage(pieces: seq<Piece>, k: nat, placeholder: int): nat
    requires k <= |pieces|
  {
    if k == 0 then 0
    else CountWithImage(pieces, k - 1, placeholder) + (if placeholder in pieces[k - 1].enc.inputIds then 1 else 0)
  }

  /** The images of the first k records that carry a placeholder, in order. */
  function ImagesWithPlaceholder(pieces: seq<Piece>, k: nat, placeholder: int): seq<Option<LlavaData.Image>>
    requires k <= |pieces|
  {
    if k == 0 then []
    else ImagesWithPlaceholder(pieces, k - 1, placeholder)
         + (if placeholder in pieces[k - 1].enc.inputIds then [pieces[k - 1].image] else [])
  }

  /** The ids of the first k records. */
  function Ids(pieces: seq<Piece>, k: nat): (r: seq<string>)
    requires k <= |pieces|
  {
    seq(k, i requires 0 <= i < k => pieces[i].id)
  }

  /** The number of ids of the first k records before any splicing. */
  function RawLength(pieces: seq<Piece>, k: nat): nat
    requires k <= |pieces|
  {
    if k == 0 then 0 else RawLength(pieces, k - 1) + |pieces[k - 1].enc.inputIds|
  }

  /** How many ids the splicing of images 1 to n adds in total. */
  function ImageExtra(imageTokens: nat -> seq<int>, n: nat): int
  {
    if n == 0 then 0 else ImageExtra(imageTokens, n - 1) + |imageTokens(n)| - 1
  }

  /**
   * Merging aligned records never fails and gives an aligned record, whose
   * length is that of all records plus, per image, one less than its number
   * of tokens.
   */
  lemma {:induction false} MergeAligned(pieces: seq<Piece>, k: nat, placeholder: int,
                                        imageTokens: nat -> seq<int>, labelPad: int)
    requires k <= |pieces|
    requires forall i :: 0 <= i < |pieces| ==> Aligned(pieces[i].enc)
    ensures var r := MergePrefix(pieces, k, placeholder, imageTokens, labelPad);
            r.Ok? && Aligned(r.value.enc)
            && |r.value.enc.inputIds| == RawLength(pieces, k) + ImageExtra(imageTokens, r.value.imageNum)
  {
    if k > 0 {
      MergeAligned(pieces, k - 1, placeholder, imageTokens, labelPad);
      var m := MergePrefix(pieces, k - 1, placeholder, imageTokens, labelPad).value;
      assert MergePrefix(pieces, k, placeholder, imageTokens, labelPad)
             == MergeStep(m, pieces[k - 1], placeholder, imageTokens, labelPad);
      MergeStepAligned(m, pieces[k - 1], placeholder, imageTokens, labelPad);
      assert ImageExtra(imageTokens, m.imageNum + 1) == ImageExtra(imageTokens, m.imageNum) + |imageTokens(m.imageNum + 1)| - 1;
    }
  }

  /** One merge step on aligned records succeeds, stays aligned and grows by the record plus its image's extra tokens. */
  lemma MergeStepAligned(m: Merged, p: Piece, placeholder: int, imageTokens: nat -> seq<int>, labelPad: int)
    requires Aligned(m.enc) && Aligned(p.enc)
    ensures var r := MergeStep(m, p, placeholder, imageTokens, labelPad);
            var spliced := placeholder in p.enc.inputIds;
            r.Ok? && Aligned(r.value.enc)
            && r.value.imageNum == m.imageNum + (if spliced then 1 else 0)
            && |r.value.enc.inputIds|
               == |m.enc.inputIds| + |p.enc.inputIds| + (if spliced then |imageTokens(m.imageNum + 1)| - 1 else 0)
  {
    if placeholder in p.enc.inputIds {
      ReplaceFirstAligned(p.enc, placeholder, imageTokens(m.imageNum + 1), labelPad);
    }
  }

  /**
   * `image_num` counts the records that carry a placeholder, the image list
   * holds exactly their images in order, and the id list holds every
   * record's id in order.
   */
  lemma {:induction false} MergeCounts(pieces: seq<Piece>, k: nat, placeholder: int,
                                       imageTokens: nat -> seq<int>, labelPad: int)
    requires k <= |pieces|
    requires MergePrefix(pieces, k, placeholder, imageTokens, labelPad).Ok?
    ensures var m := MergePrefix(pieces, k, placeholder, imageTokens, labelPad).value;
            m.imageNum == CountWithImage(pieces, k, placeholder) == |m.images|
            && m.images == ImagesWithPlaceholder(pieces, k, placeholder)
            && m.ids == Ids(pieces, k)
  {
    if k > 0 {
      MergeCounts(pieces, k - 1, placeholder, imageTokens, labelPad);
    }
  }

  /** `image_num` is 0 exactly when no record carries a placeholder; the merge then just joins the records. */
  lemma {:induction false} MergeWithoutImages(pieces: seq<Piece>, k: nat, placeholder: int,
                                              imageTokens: nat -> seq<int>, labelPad: int)
    requires k <= |pieces|
    requires MergePrefix(pieces, k, placeholder, imageTokens, labelPad).Ok?
    ensures var m := MergePrefix(pieces, k, placeholder, imageTokens, labelPad).value;
            (m.imageNum == 0 <==> forall i :: 0 <= i < k ==> placeholder !in pieces[i].enc.inputIds)
            && (m.imageNum == 0 ==> m.enc == Concat(seq(k, i requires 0 <= i < k => pieces[i].enc)))
  {
    if k > 0 {
      MergeWithoutImages(pieces, k - 1, placeholder, imageTokens, labelPad);
      var encs := seq(k, i requires 0 <= i < k => pieces[i].enc);
      assert encs[..k - 1] == seq(k - 1, i requires 0 <= i < k - 1 => pieces[i].enc);
    }
  }

  /** Python's `max(len(l) for l in rows)`. */
  function MaxLength(rows: seq<seq<int>>): (r: nat)
    requires rows != []
    ensures forall i :: 0 <= i < |rows| ==> |rows[i]| <= r
    ensures exists i :: 0 <= i < |rows| && |rows[i]| == r
  {
    if |rows| == 1 then |rows[0]|
    else
      var rest := MaxLength(rows[1..]);
      assert forall i :: 1 <= i < |rows| ==> rows[i] == rows[1..][i - 1];
      if |rows[0]| >= rest then |rows[0]| else rest
  }

  /** One label row padded with `fill` up to `width`, on the right or on the left. */
  function PadRow(l: seq<int>, width: nat, fill: int, right: bool): (r: seq<int>)
    requires |l| <= width
    ensures |r| == width
  {
    var remainder := Repeat(fill, width - |l|);
    if right then l + remainder else remainder + l
  }

  /** The original labels stand contiguously at the padding side's far end, and everything else is `fill`. */
  lemma PadRowUnpad(l: seq<int>, width: nat, fill: int, right: bool)
    requires |l| <= width
    ensures var r := PadRow(l, width, fill, right);
            var start := if right then 0 else width - |l|;
            r[start..start + |l|] == l
            && forall t :: 0 <= t < width && !(start <= t < start + |l|) ==> r[t] == fill
  {
    var r := PadRow(l, width, fill, right);
    if right {
      assert r[..|l|] == l;
    } else {
      assert r[width - |l|..] == l;
    }
  }

  /** The final value of a label after the collater's three masking passes. */
  function MaskLabel(x: int, column: int, padTokenId: int, labelPad: int, imageTokenIds: seq<int>): int
  {
    if x == padTokenId || column == 0 || x in imageTokenIds then labelPad else x
  }

  /**
   * A label survives the masking exactly when it is not the tokenizer's PAD,
   * not in column 0 and not an image token; every other label becomes the
   * label PAD.  Masking twice is masking once.
   */
  lemma MaskLabelSurvives(x: int, column: int, padTokenId: int, labelPad: int, imageTokenIds: seq<int>)
    ensures var r := MaskLabel(x, column, padTokenId, labelPad, imageTokenIds);
            (r == x <==> (x != padTokenId && column != 0 && x !in imageTokenIds) || x == labelPad)
            && (r != x ==> r == labelPad)
            && MaskLabel(r, column, padTokenId, labelPad, imageTokenIds) == r
  {
  }

  /** The label rows of a batch after padding to the longest row and masking. */
  function CollatedLabels(rows: seq<seq<int>>, width: nat, right: bool, padTokenId: int, labelPad: int,
                          imageTokenIds: seq<int>): (r: seq<seq<int>>)
    requires forall i :: 0 <= i < |rows| ==> |rows[i]| <= width
  {
    seq(|rows|, i requires 0 <= i < |rows| =>
      seq(width, j requires 0 <= j < width =>
        MaskLabel(PadRow(rows[i], width, labelPad, right)[j], j, padTokenId, labelPad, imageTokenIds)))
  }

  /**
   * Every collated row has the batch width; where a row was padded, its
   * label is the label PAD, and an original label `x` at column `t` of the
   * padded row is `MaskLabel(x, t)`.
   */
  lemma CollatedLabelsShape(rows: seq<seq<int>>, width: nat, right: bool, padTokenId: int, labelPad: int,
                            imageTokenIds: seq<int>, i: nat, t: nat)
    requires forall k :: 0 <= k < |rows| ==> |rows[k]| <= width
    requires i < |rows| && t < width
    ensures var out := CollatedLabels(rows, width, right, padTokenId, labelPad, imageTokenIds);
            var start := if right then 0 else width - |rows[i]|;
            |out| == |rows| && |out[i]| == width
            && (start <= t < start + |rows[i]| ==>
                  out[i][t] == MaskLabel(rows[i][t - start], t, padTokenId, labelPad, imageTokenIds))
            && (!(start <= t < start + |rows[i]|) ==> out[i][t] == labelPad)
  {
    PadRowUnpad(rows[i], width, labelPad, right);
    var start := if right then 0 else width - |rows[i]|;
    var padded := PadRow(rows[i], width, labelPad, right);
    if start <= t < start + |rows[i]| {
      assert padded[start..start + |rows[i]|][t - start] == padded[t];
    }
  }

  /** Padding each row and then masking the padded rows is `CollatedLabels`. */
  lemma MaskedPaddedIsCollated(rows: seq<seq<int>>, width: nat, padded: seq<seq<int>>, masked: seq<seq<int>>,
                               right: bool, padTokenId: int, labelPad: int, imageTokenIds: seq<int>)
    requires forall i :: 0 <= i < |rows| ==> |rows[i]| <= width
    requires |padded| == |rows| && |masked| == |rows|
    requires forall i :: 0 <= i < |rows| ==> padded[i] == PadRow(rows[i], width, labelPad, right)
    requires forall i :: 0 <= i < |rows| ==>
               |padded[i]| == |masked[i]| == width
               && forall j :: 0 <= j < width ==>
                    masked[i][j] == MaskLabel(padded[i][j], j, padTokenId, labelPad, imageTokenIds)
    ensures masked == CollatedLabels(rows, width, right, padTokenId, labelPad, imageTokenIds)
  {
    var expected := CollatedLabels(rows, width, right, padTokenId, labelPad, imageTokenIds);
    forall i | 0 <= i < |rows|
      ensures masked[i] == expected[i]
    {
      var row := expected[i];
      assert |row| == width;
      forall j | 0 <= j < width
        ensures masked[i][j] == row[j]
      {
        assert row[j] == MaskLabel(padded[i][j], j, padTokenId, labelPad, imageTokenIds);
      }
    }
  }

  class LlavaPredictDataset {
    /** The id of the human image placeholder token. */
    const placeholder: int
    /** The image tokens for image number n (the image token table looked up by image number). */
    const imageTokens: nat -> seq<int>
    /** The integer ids of the image token table, masked out of the labels. */
    const imageTokenIds: seq<int>
    /** The label padding value (the label PAD). */
    const labelPad: int
    /** The tokenizer's PAD id and padding side. */
    const padTokenId: int
    const padRight: bool
    /** The tokenizer's own padding of input ids and attention masks. */
    const tokenizerPad: (seq<seq<int>>, seq<seq<int>>) -> (seq<seq<int>>, seq<seq<int>>)

    constructor (placeholder: int, imageTokens: nat -> seq<int>, imageTokenIds: seq<int>, labelPad: int,
                 padTokenId: int, padRight: bool,
                 tokenizerPad: (seq<seq<int>>, seq<seq<int>>) -> (seq<seq<int>>, seq<seq<int>>))
      ensures this.placeholder == placeholder && this.imageTokens == imageTokens
      ensures this.imageTokenIds == imageTokenIds && this.labelPad == labelPad
      ensures this.padTokenId == padTokenId && this.padRight == padRight && this.tokenizerPad == tokenizerPad
    {
      this.placeholder := placeholder;
      this.imageTokens := imageTokens;
      this.imageTokenIds := imageTokenIds;
      this.labelPad := labelPad;
      this.padTokenId := padTokenId;
      this.padRight := padRight;
      this.tokenizerPad := tokenizerPad;
    }

    /** `merge_all_images`: the records of a group joined in order, each first placeholder spliced. */
    method MergeAllImages(resList: seq<Piece>) returns (r: Result<Merged, DataError>)
      ensures r == MergePrefix(resList, |resList|, placeholder, imageTokens, labelPad)
    {
      var imageNumber: nat := 0;
      var output := Empty;
      var images: seq<Option<LlavaData.Image>> := [];
      var ids: seq<string> := [];
      for k := 0 to |resList|
        invariant MergePrefix(resList, k, placeholder, imageTokens, labelPad)
                  == Ok(Merged(output, images, ids, imageNumber))
      {
        var res := resList[k];
        var enc := res.enc;
        if placeholder in enc.inputIds {
          imageNumber := imageNumber + 1;
          var replaced := ReplaceFirst(enc, placeholder, imageTokens(imageNumber), labelPad);
          if replaced.Err? {
            MergeErrPersists(resList, k + 1, |resList|, placeholder, imageTokens, labelPad);
            return Err(replaced.error);
          }
          enc := replaced.value;
          images := images + [res.image];
        }
        output := Append(output, enc);
        ids := ids + [res.id];
      }
      r := Ok(Merged(output, images, ids, imageNumber));
    }

    /**
     * The three label-masking passes of `collater`, in place: labels equal
     * to the tokenizer's PAD, then column 0 (Python's `IndexError` when the
     * batch has no columns), then every image token id.
     */
    method MaskLabels(labels: array2<int>) returns (err: Option<DataError>)
      modifies labels
      ensures err == (if labels.Length1 == 0 then Some(IndexError) else None)
      ensures err.None? ==> forall i, j :: 0 <= i < labels.Length0 && 0 <= j < labels.Length1 ==>
                labels[i, j] == MaskLabel(old(labels[i, j]), j, padTokenId, labelPad, imageTokenIds)
    {
      forall i, j | 0 <= i < labels.Length0 && 0 <= j < labels.Length1 && labels[i, j] == padTokenId {
        labels[i, j] := labelPad;
      }
      if labels.Length1 == 0 {
        return Some(IndexError);
      }
      forall i | 0 <= i < labels.Length0 {
        labels[i, 0] := labelPad;
      }
      for k := 0 to |imageTokenIds|
        invariant forall i, j :: 0 <= i < labels.Length0 && 0 <= j < labels.Length1 ==>
                    labels[i, j] == MaskLabel(old(labels[i, j]), j, padTokenId, labelPad, imageTokenIds[..k])
      {
        var v := imageTokenIds[k];
        assert imageTokenIds[..k + 1] == imageTokenIds[..k] + [v];
        forall i, j | 0 <= i < labels.Length0 && 0 <= j < labels.Length1 && labels[i, j] == v {
          labels[i, j] := labelPad;
        }
      }
      assert imageTokenIds[..|imageTokenIds|] == imageTokenIds;
      return None;
    }

    /** The label padding loop of `collater`: every row padded with the label PAD to the longest row. */
    method PadLabels(labelsList: seq<seq<int>>) returns (r: Result<seq<seq<int>>, DataError>)
      ensures labelsList == [] <==> r.Err?
      ensures r.Err? ==> r.error == EmptyBatch
      ensures r.Ok? ==> |r.value| == |labelsList|
                        && forall i :: 0 <= i < |labelsList| ==>
                             r.value[i] == PadRow(labelsList[i], MaxLength(labelsList), labelPad, padRight)
    {
      if labelsList == [] {
        return Err(EmptyBatch);
      }
      var maxLabelLength := MaxLength(labelsList);
      var paddedLabels: seq<seq<int>> := [];
      for k := 0 to |labelsList|
        invariant |paddedLabels| == k
        invariant forall i :: 0 <= i < k ==> paddedLabels[i] == PadRow(labelsList[i], maxLabelLength, labelPad, padRight)
      {
        var l := labelsList[k];
        var remainder := Repeat(labelPad, maxLabelLength - |l|);
        l := if padRight then l + remainder else remainder + l;
        paddedLabels := paddedLabels + [l];
      }
      return Ok(paddedLabels);
    }

    /** The padded label rows as a tensor, masked in place and read back. */
    method MaskPadded(padded: seq<seq<int>>, width: nat) returns (r: Result<seq<seq<int>>, DataError>)
      requires forall i :: 0 <= i < |padded| ==> |padded[i]| == width
      ensures width == 0 <==> r.Err?
      ensures r.Err? ==> r.error == IndexError
      ensures r.Ok? ==> |r.value| == |padded|
                        && forall i :: 0 <= i < |padded| ==>
                             |r.value[i]| == width
                             && forall j :: 0 <= j < width ==>
                                  r.value[i][j] == MaskLabel(padded[i][j], j, padTokenId, labelPad, imageTokenIds)
    {
      var n := |padded|;
      var labels := new int[n, width]((i, j) requires 0 <= i < n && 0 <= j < width => padded[i][j]);
      var err := MaskLabels(labels);
      if err.Some? {
        return Err(err.value);
      }
      var masked := seq(n, i requires 0 <= i < n reads labels =>
                             seq(width, j requires 0 <= j < width reads labels => labels[i, j]));
      return Ok(masked);
    }

    /**
     * `collater`: the per-sample fields gathered in order, the label rows
     * padded with the label PAD to the longest one on the tokenizer's
     * padding side, input ids and masks padded by the tokenizer, and the
     * labels masked.  An empty batch is Python's `ValueError` from `max`.
     */
    method Collater(samples: seq<BatchSample>) returns (r: Result<Collated, DataError>)
      ensures samples == [] <==> r == Err(EmptyBatch)
      ensures samples != [] ==>
                var rows := seq(|samples|, i requires 0 <= i < |samples| => samples[i].merged.enc.labels);
                (MaxLength(rows) == 0 <==> r == Err(IndexError))
      ensures r.Ok? ==>
                var rows := seq(|samples|, i requires 0 <= i < |samples| => samples[i].merged.enc.labels);
                var padded := tokenizerPad(seq(|samples|, i requires 0 <= i < |samples| => samples[i].merged.enc.inputIds),
                                           seq(|samples|, i requires 0 <= i < |samples| => samples[i].merged.enc.attentionMask));
                rows != []
                && r.value == Collated(seq(|samples|, i requires 0 <= i < |samples| => samples[i].merged.images),
                                       seq(|samples|, i requires 0 <= i < |samples| => samples[i].instruction),
                                       seq(|samples|, i requires 0 <= i < |samples| => samples[i].answer),
                                       padded.0, padded.1,
                                       CollatedLabels(rows, MaxLength(rows), padRight, padTokenId, labelPad, imageTokenIds),
                                       seq(|samples|, i requires 0 <= i < |samples| => samples[i].merged.ids))
    {
      var imageList, questionList, answerList := [], [], [];
      var inputIdList, attentionMaskList, labelsList, idList := [], [], [], [];
      for k := 0 to |samples|
        invariant imageList == seq(k, i requires 0 <= i < k => samples[i].merged.images)
        invariant questionList == seq(k, i requires 0 <= i < k => samples[i].instruction)
        invariant answerList == seq(k, i requires 0 <= i < k => samples[i].answer)
        invariant inputIdList == seq(k, i requires 0 <= i < k => samples[i].merged.enc.inputIds)
        invariant attentionMaskList == seq(k, i requires 0 <= i < k => samples[i].merged.enc.attentionMask)
        invariant labelsList == seq(k, i requires 0 <= i < k => samples[i].merged.enc.labels)
        invariant idList == seq(k, i requires 0 <= i < k => samples[i].merged.ids)
      {
        var sample := samples[k];
        imageList := imageList + [sample.merged.images];
        questionList := questionList + [sample.instruction];
        answerList := answerList + [sample.answer];
        inputIdList := inputIdList + [sample.merged.enc.inputIds];
        attentionMaskList := attentionMaskList + [sample.merged.enc.attentionMask];
        labelsList := labelsList + [sample.merged.enc.labels];
        idList := idList + [sample.merged.ids];
      }
      assert labelsList == seq(|samples|, i requires 0 <= i < |samples| => samples[i].merged.enc.labels);
      var padded := PadLabels(labelsList);
      if padded.Err? {
        return Err(padded.error);
      }
      var paddedSamples := tokenizerPad(inputIdList, attentionMaskList);
      var masked := MaskPadded(padded.value, MaxLength(labelsList));
      if masked.Err? {
        return Err(masked.error);
      }
      MaskedPaddedIsCollated(labelsList, MaxLength(labelsList), padded.value, masked.value, padRight, padTokenId, labelPad, imageTokenIds);
      r := Ok(Collated(imageList, questionList, answerList, paddedSamples.0, paddedSamples.1, masked.value, idList));
    }
  }
}

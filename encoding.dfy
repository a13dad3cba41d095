/**
 * Tokenizer output as three parallel integer sequences, and the multi-turn
 * concatenation of `LlavaDataset.__getitem__`: every turn is tokenized on its
 * own, so the turn boundaries carry a spurious EOS at the end of a turn and a
 * spurious BOS at the start of the next one, which are trimmed before the
 * turns are joined.
 */
module Encodings {
  import opened Wrappers

  /** `input_ids`, `attention_mask` and `labels` of one tokenized text. */
  datatype Encoding = Encoding(inputIds: seq<int>, attentionMask: seq<int>, labels: seq<int>)

  /** The three sequences have the same length. */
  predicate Aligned(e: Encoding)
  {
    |e.attentionMask| == |e.inputIds| && |e.labels| == |e.inputIds|
  }

  const Empty := Encoding([], [], [])

  datatype DataError = IndexError | KeyError(key: string) | EmptyBatch

  /** Python's `xs[0:-1]`: everything but the last element (nothing for an empty list). */
  function DropLast<T>(xs: seq<T>): (r: seq<T>)
    ensures xs == [] ==> r == []
    ensures xs != [] ==> xs == r + [xs[|xs| - 1]]
  {
    if xs == [] then [] else xs[..|xs| - 1]
  }

  /** Python's `xs[1:]`: everything but the first element (nothing for an empty list). */
  function DropFirst<T>(xs: seq<T>): (r: seq<T>)
    ensures xs == [] ==> r == []
    ensures xs != [] ==> xs == [xs[0]] + r
  {
    if xs == [] then [] else xs[1..]
  }

  /** The same slice `[0:-1]` applied to all three sequences. */
  function DropLastAll(e: Encoding): Encoding
  {
    Encoding(DropLast(e.inputIds), DropLast(e.attentionMask), DropLast(e.labels))
  }

  /** The same slice `[1:]` applied to all three sequences. */
  function DropFirstAll(e: Encoding): Encoding
  {
    Encoding(DropFirst(e.inputIds), DropFirst(e.attentionMask), DropFirst(e.labels))
  }

  /** Where a turn stands in a conversation of `n` tokenized turns. */
  datatype Position = Only | First | Middle | Last

  function PositionOf(idx: nat, n: nat): Position
    requires idx < n
  {
    if n == 1 then Only
    else if idx == 0 then First
    else if idx == n - 1 then Last
    else Middle
  }

  /**
   * Trimming one turn: a first turn loses a trailing EOS, a last turn a
   * leading BOS, a middle turn both (EOS first, then BOS of what is left),
   * each only when present.  Looking at `input_ids[-1]` or `input_ids[0]` of
   * an empty turn raises IndexError.
   */
  function TrimTurn(e: Encoding, pos: Position, bos: int, eos: int): Result<Encoding, DataError>
  {
    match pos
    case Only => Ok(e)
    case First => TrimEos(e, eos)
    case Last => TrimBos(e, bos)
    case Middle =>
      match TrimEos(e, eos)
      case Err(err) => Err(err)
      case Ok(e1) => TrimBos(e1, bos)
  }

  function TrimEos(e: Encoding, eos: int): (r: Result<Encoding, DataError>)
    ensures r.Err? <==> e.inputIds == []
  {
    if e.inputIds == [] then Err(IndexError)
    else if e.inputIds[|e.inputIds| - 1] == eos then Ok(DropLastAll(e))
    else Ok(e)
  }

  function TrimBos(e: Encoding, bos: int): (r: Result<Encoding, DataError>)
    ensures r.Err? <==> e.inputIds == []
  {
    if e.inputIds == [] then Err(IndexError)
    else if e.inputIds[0] == bos then Ok(DropFirstAll(e))
    else Ok(e)
  }

  /** Trimming keeps the three sequences the same length. */
  lemma TrimTurnAligned(e: Encoding, pos: Position, bos: int, eos: int)
    requires Aligned(e) && TrimTurn(e, pos, bos, eos).Ok?
    ensures Aligned(TrimTurn(e, pos, bos, eos).value)
  {
  }

  /** The first `k` turns of `turns`, each trimmed according to its position. */
  function TrimPrefix(turns: seq<Encoding>, k: nat, bos: int, eos: int): (r: Result<seq<Encoding>, DataError>)
    requires k <= |turns|
    ensures r.Ok? ==> |r.value| == k
  {
    if k == 0 then Ok([])
    else
      match TrimPrefix(turns, k - 1, bos, eos)
      case Err(err) => Err(err)
      case Ok(done) =>
        match TrimTurn(turns[k - 1], PositionOf(k - 1, |turns|), bos, eos)
        case Err(err) => Err(err)
        case Ok(t) => Ok(done + [t])
  }

  /** Python's `extend` of each of the three sequences of `a` by those of `b`. */
  function Append(a: Encoding, b: Encoding): Encoding
  {
    Encoding(a.inputIds + b.inputIds, a.attentionMask + b.attentionMask, a.labels + b.labels)
  }

  /** Python's repeated `extend`: the three sequences of all parts, each joined in order. */
  function Concat(parts: seq<Encoding>): (r: Encoding)
  {
    if parts == [] then Empty
    else Append(Concat(parts[..|parts| - 1]), parts[|parts| - 1])
  }

  /** The whole multi-turn record: every turn trimmed, then all joined. */
  function JoinTurns(turns: seq<Encoding>, bos: int, eos: int): Result<Encoding, DataError>
  {
    match TrimPrefix(turns, |turns|, bos, eos)
    case Err(err) => Err(err)
    case Ok(trimmed) => Ok(Concat(trimmed))
  }

  /** Joining aligned parts gives an aligned record. */
  lemma {:induction false} ConcatAligned(parts: seq<Encoding>)
    requires forall i :: 0 <= i < |parts| ==> Aligned(parts[i])
    ensures Aligned(Concat(parts))
  {
    if parts != [] {
      ConcatAligned(parts[..|parts| - 1]);
    }
  }

  /** The number of tokens of all parts together. */
  function TotalLength(parts: seq<Encoding>): nat
  {
    if parts == [] then 0 else TotalLength(parts[..|parts| - 1]) + |parts[|parts| - 1].inputIds|
  }

  lemma {:induction false} ConcatLength(parts: seq<Encoding>)
    ensures |Concat(parts).inputIds| == TotalLength(parts)
  {
    if parts != [] {
      ConcatLength(parts[..|parts| - 1]);
    }
  }

  /**
   * Multi-turn records stay aligned: if every tokenized turn has three
   * sequences of one length, so does the joined record.
   */
  lemma JoinTurnsAligned(turns: seq<Encoding>, bos: int, eos: int)
    requires forall i :: 0 <= i < |turns| ==> Aligned(turns[i])
    requires JoinTurns(turns, bos, eos).Ok?
    ensures Aligned(JoinTurns(turns, bos, eos).value)
  {
    var trimmed := TrimPrefix(turns, |turns|, bos, eos).value;
    TrimPrefixAligned(turns, |turns|, bos, eos);
    ConcatAligned(trimmed);
  }

  lemma {:induction false} TrimPrefixAligned(turns: seq<Encoding>, k: nat, bos: int, eos: int)
    requires k <= |turns|
    requires forall i :: 0 <= i < |turns| ==> Aligned(turns[i])
    requires TrimPrefix(turns, k, bos, eos).Ok?
    ensures forall i :: 0 <= i < k ==> Aligned(TrimPrefix(turns, k, bos, eos).value[i])
  {
    if k > 0 {
      TrimPrefixAligned(turns, k - 1, bos, eos);
      TrimTurnAligned(turns[k - 1], PositionOf(k - 1, |turns|), bos, eos);
    }
  }

  /** A single turn is copied unchanged. */
  lemma JoinSingleTurn(e: Encoding, bos: int, eos: int)
    ensures JoinTurns([e], bos, eos) == Ok(e)
  {
    assert TrimPrefix([e], 1, bos, eos) == Ok([] + [e]);
    assert [] + [e] == [e];
    assert [e][..0] == [];
    assert Concat([e]) == Encoding([] + e.inputIds, [] + e.attentionMask, [] + e.labels);
    assert [] + e.inputIds == e.inputIds && [] + e.attentionMask == e.attentionMask && [] + e.labels == e.labels;
    assert JoinTurns([e], bos, eos) == Ok(Concat([e]));
  }

  /** A tokenized turn that starts with BOS and ends with EOS, with at least one token between. */
  predicate Framed(e: Encoding, bos: int, eos: int)
  {
    |e.inputIds| >= 3 && e.inputIds[0] == bos && e.inputIds[|e.inputIds| - 1] == eos
  }

  /**
   * Counting the trimmed boundaries: when every one of n >= 2 turns is framed
   * by BOS ... EOS, the join succeeds and removes exactly one token at each
   * side of each of the n - 1 inner boundaries.
   */
  lemma JoinFramedLength(turns: seq<Encoding>, bos: int, eos: int)
    requires |turns| >= 2
    requires forall i :: 0 <= i < |turns| ==> Framed(turns[i], bos, eos)
    ensures JoinTurns(turns, bos, eos).Ok?
    ensures |JoinTurns(turns, bos, eos).value.inputIds| == TotalLength(turns) - 2 * (|turns| - 1)
  {
    TrimPrefixFramed(turns, |turns|, bos, eos);
    assert turns[..|turns|] == turns;
    ConcatLength(TrimPrefix(turns, |turns|, bos, eos).value);
  }

  /** How many boundary tokens a framed turn loses at a position. */
  function Cut(pos: Position): nat
  {
    match pos
    case Only => 0
    case First => 1
    case Last => 1
    case Middle => 2
  }

  lemma TrimFramed(e: Encoding, pos: Position, bos: int, eos: int)
    requires Framed(e, bos, eos)
    ensures TrimTurn(e, pos, bos, eos).Ok?
    ensures |TrimTurn(e, pos, bos, eos).value.inputIds| == |e.inputIds| - Cut(pos)
  {
  }

  lemma TotalLengthSnoc(parts: seq<Encoding>, e: Encoding)
    ensures TotalLength(parts + [e]) == TotalLength(parts) + |e.inputIds|
  {
    assert (parts + [e])[..|parts|] == parts;
  }

  lemma {:induction false} TrimPrefixFramed(turns: seq<Encoding>, k: nat, bos: int, eos: int)
    requires 2 <= |turns| && k <= |turns|
    requires forall i :: 0 <= i < |turns| ==> Framed(turns[i], bos, eos)
    ensures TrimPrefix(turns, k, bos, eos).Ok?
    ensures TotalLength(TrimPrefix(turns, k, bos, eos).value) + 2 * k
            == TotalLength(turns[..k]) + (if k > 0 then 1 else 0) + (if k == |turns| then 1 else 0)
  {
    if k > 0 {
      TrimPrefixFramed(turns, k - 1, bos, eos);
      var done := TrimPrefix(turns, k - 1, bos, eos).value;
      var e := turns[k - 1];
      var pos := PositionOf(k - 1, |turns|);
      TrimFramed(e, pos, bos, eos);
      var t := TrimTurn(e, pos, bos, eos).value;
      assert TrimPrefix(turns, k, bos, eos).value == done + [t];
      TotalLengthSnoc(done, t);
      assert turns[..k] == turns[..k - 1] + [e];
      TotalLengthSnoc(turns[..k - 1], e);
    }
  }

  /** Once a turn fails to trim, every longer prefix fails with the same error. */
  lemma {:induction false} TrimPrefixErrPersists(turns: seq<Encoding>, k: nat, k': nat, bos: int, eos: int)
    requires k <= k' <= |turns|
    requires TrimPrefix(turns, k, bos, eos).Err?
    ensures TrimPrefix(turns, k', bos, eos) == TrimPrefix(turns, k, bos, eos)
    decreases k' - k
  {
    if k < k' {
      TrimPrefixErrPersists(turns, k, k' - 1, bos, eos);
    }
  }

  /**
   * The concatenation loop of `LlavaDataset.__getitem__`: one turn is copied
   * as it is; otherwise each turn is trimmed by its position and its three
   * sequences are appended to the three accumulated lists.
   */
  method ConcatTurns(resList: seq<Encoding>, bos: int, eos: int) returns (r: Result<Encoding, DataError>)
    ensures r == JoinTurns(resList, bos, eos)
  {
    var inputIds, attentionMask, labels := [], [], [];
    if |resList| == 1 {
      var res := resList[0];
      inputIds, attentionMask, labels := inputIds + res.inputIds, attentionMask + res.attentionMask, labels + res.labels;
      JoinSingleTurn(res, bos, eos);
      assert [] + res.inputIds == res.inputIds && [] + res.attentionMask == res.attentionMask && [] + res.labels == res.labels;
      assert resList == [res];
      return Ok(Encoding(inputIds, attentionMask, labels));
    }
    for idx := 0 to |resList|
      invariant TrimPrefix(resList, idx, bos, eos).Ok?
      invariant Encoding(inputIds, attentionMask, labels) == Concat(TrimPrefix(resList, idx, bos, eos).value)
    {
      var res := resList[idx];
      ghost var trimmed := TrimTurn(res, PositionOf(idx, |resList|), bos, eos);
      if idx == 0 {
        // delete the EOS
        if res.inputIds == [] {
          TrimPrefixErrPersists(resList, idx + 1, |resList|, bos, eos);
          return Err(IndexError);
        }
        if res.inputIds[|res.inputIds| - 1] == eos {
          res := DropLastAll(res);
        }
      } else if idx == |resList| - 1 {
        // delete the BOS
        if res.inputIds == [] {
          TrimPrefixErrPersists(resList, idx + 1, |resList|, bos, eos);
          return Err(IndexError);
        }
        if res.inputIds[0] == bos {
          res := DropFirstAll(res);
        }
      } else {
        // delete the EOS, then the BOS
        if res.inputIds == [] {
          TrimPrefixErrPersists(resList, idx + 1, |resList|, bos, eos);
          return Err(IndexError);
        }
        if res.inputIds[|res.inputIds| - 1] == eos {
          res := DropLastAll(res);
        }
        if res.inputIds == [] {
          TrimPrefixErrPersists(resList, idx + 1, |resList|, bos, eos);
          return Err(IndexError);
        }
        if res.inputIds[0] == bos {
          res := DropFirstAll(res);
        }
      }
      assert trimmed == Ok(res);
      ghost var done := TrimPrefix(resList, idx, bos, eos).value;
      assert TrimPrefix(resList, idx + 1, bos, eos).value == done + [res];
      assert (done + [res])[..|done|] == done;
      inputIds, attentionMask, labels := inputIds + res.inputIds, attentionMask + res.attentionMask, labels + res.labels;
    }
    r := Ok(Encoding(inputIds, attentionMask, labels));
  }
}

/**
 * The LLaVA-style datasets: turning a conversation annotation into prompts
 * (`process_text`), tokenized records (`__getitem__`), ranked candidates for
 * preference training, the PPO tokenization, and instance ids.  The
 * tokenizer, the prompter and the image processor are collaborators that
 * the model takes as given functions.
 */
module LlavaData {
  import opened Wrappers
  import opened Text
  import opened Encodings

  /** The `"value"` of one conversation entry: a string, or the ranked answers of a comparison annotation. */
  datatype Utterance = Said(value: string) | Ranked(values: seq<string>)

  /** One annotation: its conversation entries, its image file (if any) and its instance id (once assigned). */
  datatype Annotation = Annotation(conversations: seq<Utterance>, image: Option<string>, id: Option<string>)

  /** A processed image, as the external image processor hands it back. */
  type Image = seq<real>

  /** One text to tokenize: the instruction built by the prompter and the answer to learn. */
  datatype Prompt = Prompt(instruction: string, answer: string)

  /** The prompter: (question, with_image, first_message, template) to instruction text. */
  type Prompter = (string, bool, bool, string) -> string

  /** The end-of-answer markers of the three templates that have one. */
  datatype EndMarkers = EndMarkers(llama3: string, llama2: string, vicuna: string)

  const ImageTag := "<image>"

  /** The marker appended to every answer: template-specific, empty for every other template. */
  function EndMarker(template: string, markers: EndMarkers): string
  {
    if template == "llama_3" then markers.llama3
    else if template == "llama_2" then markers.llama2
    else if template == "vicuna" then markers.vicuna
    else ""
  }

  /** The first question with every `<image>` tag removed and its surrounding newlines stripped. */
  function CleanQuestion(q: string): (r: string)
    ensures r == [] || (r[0] != '\n' && r[|r| - 1] != '\n')
    ensures !Contains(q, ImageTag) ==> r == Strip(q, '\n')
  {
    assert !Contains(q, ImageTag) ==> RemoveAll(q, ImageTag) == q by {
      if !Contains(q, ImageTag) {
        RemoveAllAbsent(q, ImageTag);
      }
    }
    Strip(RemoveAll(q, ImageTag), '\n')
  }

  /** The usual first question, an `<image>` line before the text, becomes the stripped text. */
  lemma CleanQuestionTagFirst(q: string)
    requires !Contains(q, ImageTag)
    ensures CleanQuestion(ImageTag + "\n" + q) == Strip(q, '\n')
  {
    assert ImageTag + "\n" + q == ImageTag + (['\n'] + q);
    RemoveAllLeading(['\n'] + q, ImageTag);
    ContainsExtend(q, '\n', ImageTag);
    RemoveAllAbsent(['\n'] + q, ImageTag);
    StripExtend(q, '\n');
  }

  /** An `<image>` line after the text is removed the same way. */
  lemma CleanQuestionTagLast(q: string)
    requires !Contains(q, ImageTag)
    ensures CleanQuestion(q + "\n" + ImageTag) == Strip(q, '\n')
  {
    var a := q + ['\n'];
    assert a[|a| - 1] == '\n' && '\n' !in ImageTag;
    NoStraddleAtBoundary(a, ImageTag, ImageTag);
    RemoveAllConcat(a, ImageTag, ImageTag);
    assert RemoveAll(ImageTag, ImageTag) == [] by {
      RemoveAllLeading([], ImageTag);
      assert ImageTag + [] == ImageTag;
    }
    ContainsExtend(q, '\n', ImageTag);
    RemoveAllAbsent(a, ImageTag);
    assert RemoveAll(q + "\n" + ImageTag, ImageTag) == a;
    StripExtend(q, '\n');
  }

  /** Every conversation entry of a plain dialogue annotation is a string. */
  predicate IsDialogue(ann: Annotation)
  {
    forall i :: 0 <= i < |ann.conversations| ==> ann.conversations[i].Said?
  }

  /** The question that turn i of a dialogue puts to the prompter: only turn 0 is cleaned. */
  function TurnQuestion(conversations: seq<Utterance>, i: nat): string
    requires 2 * i < |conversations| && conversations[2 * i].Said?
  {
    if i == 0 then CleanQuestion(conversations[0].value) else conversations[2 * i].value
  }

  /**
   * The prompts `LlavaDataset.process_text` builds: one per complete
   * question/answer pair; only turn 0 is flagged as carrying the image and
   * as the first message (when the caller asks for one); every answer gets
   * the template's end marker.
   */
  function Prompts(conversations: seq<Utterance>, template: string, markers: EndMarkers,
                   prompter: Prompter, firstMessage: bool): (r: seq<Prompt>)
    requires forall i :: 0 <= i < |conversations| ==> conversations[i].Said?
    ensures |r| == |conversations| / 2
    ensures forall i :: 0 <= i < |r| ==>
              r[i].answer == conversations[2 * i + 1].value + EndMarker(template, markers)
    ensures forall i :: 0 <= i < |r| ==>
              r[i].instruction == prompter(TurnQuestion(conversations, i), i == 0, i == 0 && firstMessage, template)
  {
    seq(|conversations| / 2, i requires 0 <= i < |conversations| / 2 =>
      Prompt(prompter(TurnQuestion(conversations, i), i == 0, i == 0 && firstMessage, template),
             conversations[2 * i + 1].value + EndMarker(template, markers)))
  }

  /** A tokenized annotation of `LlavaDataset` together with its image. */
  datatype Record = Record(enc: Encoding, image: Image)

  /** A ranked candidate of `LlavaComparsionDataset`, before the base class merges its image tokens. */
  datatype Candidate = Candidate(enc: Encoding, image: Image, instruction: string, answer: string)

  /** Python's negative indexing into a list of length n. */
  function PyIndex(index: int, n: nat): (i: nat)
    requires -(n as int) <= index < n
    ensures i < n
  {
    if index < 0 then index + n else index
  }

  class LlavaDataset {
    const annotation: seq<seq<Annotation>>
    const template: string
    const markers: EndMarkers
    const bos: int
    const eos: int
    const prompter: Prompter
    const processImage: Annotation -> Image
    const tokenize: Prompt -> Encoding
    var dataDebugCounter: int

    constructor (annotation: seq<seq<Annotation>>, template: string, markers: EndMarkers, bos: int, eos: int,
                 prompter: Prompter, processImage: Annotation -> Image, tokenize: Prompt -> Encoding)
      ensures this.annotation == annotation && this.template == template && this.markers == markers
      ensures this.bos == bos && this.eos == eos
      ensures this.prompter == prompter && this.processImage == processImage && this.tokenize == tokenize
      ensures dataDebugCounter == 0
    {
      this.annotation := annotation;
      this.template := template;
      this.markers := markers;
      this.bos := bos;
      this.eos := eos;
      this.prompter := prompter;
      this.processImage := processImage;
      this.tokenize := tokenize;
      dataDebugCounter := 0;
    }

    /** `process_text`: one prompt per question/answer pair, built turn by turn. */
    method ProcessText(ann: Annotation, firstMessage: bool) returns (convList: seq<Prompt>)
      requires IsDialogue(ann)
      ensures convList == Prompts(ann.conversations, template, markers, prompter, firstMessage)
    {
      ghost var all := Prompts(ann.conversations, template, markers, prompter, firstMessage);
      var numConvs := |ann.conversations| / 2;
      convList := [];
      for convIdx := 0 to numConvs
        invariant convList == all[..convIdx]
      {
        var withImageFlag := false;
        var question := ann.conversations[convIdx * 2].value;
        if convIdx == 0 {
          withImageFlag := true;
          question := CleanQuestion(question);
        }
        assert question == TurnQuestion(ann.conversations, convIdx);
        var answer := ann.conversations[convIdx * 2 + 1].value + EndMarker(template, markers);
        var instruction := prompter(question, withImageFlag, |convList| == 0 && firstMessage, template);
        assert Prompt(instruction, answer) == all[convIdx];
        assert all[..convIdx + 1] == all[..convIdx] + [all[convIdx]];
        convList := convList + [Prompt(instruction, answer)];
      }
      assert all[..numConvs] == all;
    }

    /** Every prompt of an annotation tokenized, in order. */
    function TokenizeAll(prompts: seq<Prompt>): (r: seq<Encoding>)
      ensures |r| == |prompts| && forall i :: 0 <= i < |prompts| ==> r[i] == tokenize(prompts[i])
    {
      if prompts == [] then [] else TokenizeAll(prompts[..|prompts| - 1]) + [tokenize(prompts[|prompts| - 1])]
    }

    /** What one annotation of a group becomes: its turns tokenized, trimmed and joined, with its image. */
    function AnnotationRecord(ann: Annotation): Result<Record, DataError>
      requires IsDialogue(ann)
    {
      match JoinTurns(TokenizeAll(Prompts(ann.conversations, template, markers, prompter, true)), bos, eos)
      case Err(err) => Err(err)
      case Ok(enc) => Ok(Record(enc, processImage(ann)))
    }

    /** The tokenizing loop of `__getitem__`: one tokenization per prompt, in order. */
    method TokenizeTurns(textList: seq<Prompt>) returns (resList: seq<Encoding>)
      ensures resList == TokenizeAll(textList)
    {
      resList := [];
      for t := 0 to |textList|
        invariant |resList| == t
        invariant forall i :: 0 <= i < t ==> resList[i] == tokenize(textList[i])
      {
        resList := resList + [tokenize(textList[t])];
      }
    }

    /**
     * `__getitem__` up to the base class's `merge_all_images`: one record per
     * annotation of the group, in order; the debug counter advances once per
     * annotation processed.  A turn that is empty where a boundary token is
     * inspected aborts the item with IndexError.
     */
    method GetItem(index: int) returns (r: Result<seq<Record>, DataError>)
      requires -|annotation| <= index < |annotation|
      requires forall a :: a in annotation[PyIndex(index, |annotation|)] ==> IsDialogue(a)
      modifies this`dataDebugCounter
      ensures var anns := annotation[PyIndex(index, |annotation|)];
              && (r.Ok? <==> forall j :: 0 <= j < |anns| ==> AnnotationRecord(anns[j]).Ok?)
              && (r.Ok? ==> |r.value| == |anns|
                            && (forall j :: 0 <= j < |anns| ==> AnnotationRecord(anns[j]) == Ok(r.value[j]))
                            && dataDebugCounter == old(dataDebugCounter) + |anns|)
              && (r.Err? ==> old(dataDebugCounter) < dataDebugCounter <= old(dataDebugCounter) + |anns|)
    {
      var anns := annotation[PyIndex(index, |annotation|)];
      var resListAll := [];
      for k := 0 to |anns|
        invariant dataDebugCounter == old(dataDebugCounter) + k
        invariant |resListAll| == k
        invariant forall j :: 0 <= j < k ==> AnnotationRecord(anns[j]) == Ok(resListAll[j])
      {
        var ann := anns[k];
        var image := processImage(ann);
        var textList := ProcessText(ann, true);
        dataDebugCounter := dataDebugCounter + 1;
        var resList := TokenizeTurns(textList);
        var joined := ConcatTurns(resList, bos, eos);
        if joined.Err? {
          assert !AnnotationRecord(anns[k]).Ok?;
          return Err(joined.error);
        }
        assert AnnotationRecord(anns[k]) == Ok(Record(joined.value, image));
        resListAll := resListAll + [Record(joined.value, image)];
      }
      r := Ok(resListAll);
    }
  }

  /** A comparison annotation: a question, then the list of ranked answers. */
  predicate IsRanked(ann: Annotation)
  {
    |ann.conversations| >= 2 && ann.conversations[0].Said? && ann.conversations[1].Ranked?
  }

  function RankedAnswers(ann: Annotation): seq<string>
    requires IsRanked(ann)
  {
    ann.conversations[1].values
  }

  /** Every ranked answer with the marker appended. */
  function AppendMarker(answers: seq<string>, m: string): (r: seq<string>)
    ensures |r| == |answers| && forall k :: 0 <= k < |r| ==> r[k] == answers[k] + m
  {
    seq(|answers|, k requires 0 <= k < |answers| => answers[k] + m)
  }

  /** The annotation as `process_text` leaves it: the marker appended to every stored ranked answer. */
  function WithMarkers(ann: Annotation, m: string): (r: Annotation)
    requires IsRanked(ann)
    ensures IsRanked(r) && RankedAnswers(r) == AppendMarker(RankedAnswers(ann), m)
    ensures r.conversations[0] == ann.conversations[0] && |r.conversations| == |ann.conversations|
    ensures forall i :: 2 <= i < |r.conversations| ==> r.conversations[i] == ann.conversations[i]
    ensures r.image == ann.image && r.id == ann.id
  {
    ann.(conversations := ann.conversations[1 := Ranked(AppendMarker(RankedAnswers(ann), m))])
  }

  /** With the empty marker of the other templates the stored annotation does not change. */
  lemma WithEmptyMarkerUnchanged(ann: Annotation)
    requires IsRanked(ann)
    ensures WithMarkers(ann, "") == ann
  {
    var answers := RankedAnswers(ann);
    assert AppendMarker(answers, "") == answers by {
      forall k | 0 <= k < |answers|
        ensures AppendMarker(answers, "")[k] == answers[k]
      {
        assert answers[k] + "" == answers[k];
      }
    }
    assert ann.conversations[1 := Ranked(answers)] == ann.conversations;
  }

  /**
   * Processing the same stored annotation a second time, as the next epoch
   * does, appends the marker again: the first ranked answer then ends with
   * the marker twice.
   */
  lemma MarkersAccumulate(ann: Annotation, m: string)
    requires IsRanked(ann) && |RankedAnswers(ann)| > 0 && m != ""
    ensures RankedAnswers(WithMarkers(WithMarkers(ann, m), m))[0] == RankedAnswers(ann)[0] + m + m
    ensures WithMarkers(WithMarkers(ann, m), m) != WithMarkers(ann, m)
  {
    var once := RankedAnswers(WithMarkers(ann, m))[0];
    var twice := RankedAnswers(WithMarkers(WithMarkers(ann, m), m))[0];
    assert |twice| == |once| + |m| > |once|;
  }

  /** The ranked candidates of one comparison annotation: every answer with the marker, once. */
  function RankedPrompts(ann: Annotation, template: string, markers: EndMarkers, prompter: Prompter,
                         firstMessage: bool): (r: seq<Prompt>)
    requires IsRanked(ann)
    ensures |r| == |RankedAnswers(ann)|
    ensures forall k :: 0 <= k < |r| ==>
              r[k].answer == RankedAnswers(ann)[k] + EndMarker(template, markers)
              && r[k].instruction == prompter(CleanQuestion(ann.conversations[0].value), true, firstMessage, template)
  {
    var instruction := prompter(CleanQuestion(ann.conversations[0].value), true, firstMessage, template);
    var answers := AppendMarker(RankedAnswers(ann), EndMarker(template, markers));
    seq(|answers|, k requires 0 <= k < |answers| => Prompt(instruction, answers[k]))
  }

  /** No annotation before index j produced a candidate, so the next one is built as the first message. */
  predicate NoCandidatesBefore(anns: seq<Annotation>, j: nat)
    requires j <= |anns|
    requires forall a :: a in anns ==> IsRanked(a)
  {
    forall i :: 0 <= i < j ==> |RankedAnswers(anns[i])| == 0
  }

  /** The number of ranked answers of the first k annotations. */
  function TotalAnswers(anns: seq<Annotation>, k: nat): nat
    requires k <= |anns|
    requires forall a :: a in anns ==> IsRanked(a)
  {
    if k == 0 then 0 else TotalAnswers(anns, k - 1) + |RankedAnswers(anns[k - 1])|
  }

  /**
   * The candidates the first k annotations of a group expand to, in
   * annotation order, when `cands` builds the candidates of one annotation
   * from it and from whether it is built as the first message (no earlier
   * annotation yielded a candidate).
   */
  function Expand(anns: seq<Annotation>, k: nat, cands: (Annotation, bool) -> seq<Candidate>): seq<Candidate>
    requires k <= |anns|
    requires forall a :: a in anns ==> IsRanked(a)
  {
    if k == 0 then [] else Expand(anns, k - 1, cands) + cands(anns[k - 1], NoCandidatesBefore(anns, k - 1))
  }

  /** A builder that yields one candidate per ranked answer yields TotalAnswers candidates in all. */
  lemma {:induction false} ExpandCount(anns: seq<Annotation>, k: nat, cands: (Annotation, bool) -> seq<Candidate>)
    requires k <= |anns|
    requires forall a :: a in anns ==> IsRanked(a)
    requires forall j, b :: 0 <= j < |anns| ==> |cands(anns[j], b)| == |RankedAnswers(anns[j])|
    ensures |Expand(anns, k, cands)| == TotalAnswers(anns, k)
  {
    if k > 0 {
      ExpandCount(anns, k - 1, cands);
      assert |cands(anns[k - 1], NoCandidatesBefore(anns, k - 1))| == |RankedAnswers(anns[k - 1])|;
    }
  }

  /** Expanding fewer annotations gives a prefix of expanding more. */
  lemma {:induction false} ExpandGrows(anns: seq<Annotation>, m: nat, n: nat, cands: (Annotation, bool) -> seq<Candidate>)
    requires m <= n <= |anns|
    requires forall a :: a in anns ==> IsRanked(a)
    ensures Expand(anns, m, cands) <= Expand(anns, n, cands)
  {
    if m < n {
      ExpandGrows(anns, m, n - 1, cands);
    }
  }

  /**
   * Candidate number `TotalAnswers(anns, j) + k` of the expansion is the
   * k-th candidate of annotation j.
   */
  lemma ExpandAt(anns: seq<Annotation>, j: nat, k: nat, cands: (Annotation, bool) -> seq<Candidate>)
    requires j < |anns|
    requires forall a :: a in anns ==> IsRanked(a)
    requires forall i, b :: 0 <= i < |anns| ==> |cands(anns[i], b)| == |RankedAnswers(anns[i])|
    requires k < |RankedAnswers(anns[j])|
    ensures TotalAnswers(anns, j) + k < |Expand(anns, |anns|, cands)|
    ensures Expand(anns, |anns|, cands)[TotalAnswers(anns, j) + k] == cands(anns[j], NoCandidatesBefore(anns, j))[k]
  {
    ExpandCount(anns, j, cands);
    ExpandGrows(anns, j + 1, |anns|, cands);
    var c := cands(anns[j], NoCandidatesBefore(anns, j));
    assert Expand(anns, j + 1, cands) == Expand(anns, j, cands) + c;
  }

  class LlavaComparisonDataset {
    var annotation: seq<seq<Annotation>>
    const template: string
    const markers: EndMarkers
    const prompter: Prompter
    const processImage: Annotation -> Image
    const tokenize: Prompt -> Encoding
    var dataDebugCounter: int

    constructor (annotation: seq<seq<Annotation>>, template: string, markers: EndMarkers,
                 prompter: Prompter, processImage: Annotation -> Image, tokenize: Prompt -> Encoding)
      ensures this.annotation == annotation && this.template == template && this.markers == markers
      ensures this.prompter == prompter && this.processImage == processImage && this.tokenize == tokenize
      ensures dataDebugCounter == 0
    {
      this.annotation := annotation;
      this.template := template;
      this.markers := markers;
      this.prompter := prompter;
      this.processImage := processImage;
      this.tokenize := tokenize;
      dataDebugCounter := 0;
    }

    /**
     * `process_text` as the source writes it: the end marker is appended to
     * every ranked answer INSIDE the stored annotation, which the dataset
     * keeps, and the answers returned are the stored ones.
     */
    method ProcessTextInPlace(g: nat, j: nat, firstMessage: bool) returns (p: Prompt, answers: seq<string>)
      requires g < |annotation| && j < |annotation[g]| && IsRanked(annotation[g][j])
      modifies this`annotation
      ensures annotation == old(annotation)[g := old(annotation)[g][j := WithMarkers(old(annotation)[g][j], EndMarker(template, markers))]]
      ensures answers == RankedAnswers(annotation[g][j])
      ensures p.instruction == prompter(CleanQuestion(old(annotation)[g][j].conversations[0].value), true, firstMessage, template)
    {
      var ann := annotation[g][j];
      var question := CleanQuestion(ann.conversations[0].value);
      var endOfToken := EndMarker(template, markers);
      var stored := ann.conversations[1].values;
      for idx := 0 to |stored|
        invariant |stored| == |RankedAnswers(ann)|
        invariant forall k :: 0 <= k < |stored| ==>
                    stored[k] == RankedAnswers(ann)[k] + (if k < idx then endOfToken else "")
      {
        stored := stored[idx := stored[idx] + endOfToken];
      }
      assert stored == AppendMarker(RankedAnswers(ann), endOfToken);
      annotation := annotation[g := annotation[g][j := ann.(conversations := ann.conversations[1 := Ranked(stored)])]];
      answers := stored;
      p := Prompt(prompter(question, true, firstMessage, template), "");
    }

    /** The candidates of annotation j of a group, built with first_message as given. */
    function CandidatesOf(ann: Annotation, firstMessage: bool): (r: seq<Candidate>)
      ensures IsRanked(ann) ==> |r| == |RankedAnswers(ann)|
    {
      if !IsRanked(ann) then []
      else
        var prompts := RankedPrompts(ann, template, markers, prompter, firstMessage);
        seq(|prompts|, k requires 0 <= k < |prompts| =>
          Candidate(tokenize(prompts[k]), processImage(ann), prompts[k].instruction, prompts[k].answer))
    }

    /**
     * Order and content of the comparison expansion: candidate number
     * `TotalAnswers(anns, j) + k` is the k-th ranked answer of annotation j,
     * with that annotation's image and instruction, and the answer carries
     * the template's end marker exactly once.
     */
    lemma ExpandedCandidate(anns: seq<Annotation>, j: nat, k: nat)
      requires j < |anns|
      requires forall a :: a in anns ==> IsRanked(a)
      requires k < |RankedAnswers(anns[j])|
      ensures TotalAnswers(anns, j) + k < |Expand(anns, |anns|, CandidatesOf)|
      ensures var instruction := prompter(CleanQuestion(anns[j].conversations[0].value), true,
                                          NoCandidatesBefore(anns, j), template);
              var answer := RankedAnswers(anns[j])[k] + EndMarker(template, markers);
              Expand(anns, |anns|, CandidatesOf)[TotalAnswers(anns, j) + k]
              == Candidate(tokenize(Prompt(instruction, answer)), processImage(anns[j]), instruction, answer)
    {
      ExpandAt(anns, j, k, CandidatesOf);
      CandidateAt(anns[j], NoCandidatesBefore(anns, j), k);
    }

    /** Candidate k of one annotation is its k-th ranked answer, marked, with the annotation's image. */
    lemma CandidateAt(ann: Annotation, firstMessage: bool, k: nat)
      requires IsRanked(ann) && k < |RankedAnswers(ann)|
      ensures var instruction := prompter(CleanQuestion(ann.conversations[0].value), true, firstMessage, template);
              var answer := RankedAnswers(ann)[k] + EndMarker(template, markers);
              CandidatesOf(ann, firstMessage)[k]
              == Candidate(tokenize(Prompt(instruction, answer)), processImage(ann), instruction, answer)
    {
      var prompts := RankedPrompts(ann, template, markers, prompter, firstMessage);
      assert prompts[k] == Prompt(prompts[k].instruction, prompts[k].answer);
    }

    /**
     * The inner loop of `__getitem__` for one annotation: each ranked answer
     * becomes a single-element result list that is tokenized, tagged with the
     * image and the prompt, and emitted; the last such list is returned too,
     * since the next annotation's `first_message` depends on it.
     */
    method ExpandAnnotation(ann: Annotation, firstMessage: bool, resList: seq<Candidate>)
      returns (cands: seq<Candidate>, lastList: seq<Candidate>)
      requires IsRanked(ann)
      ensures cands == CandidatesOf(ann, firstMessage)
      ensures lastList == if cands == [] then resList else [cands[|cands| - 1]]
    {
      var image := processImage(ann);
      var text := RankedPrompts(ann, template, markers, prompter, firstMessage);
      ghost var all := CandidatesOf(ann, firstMessage);
      cands := [];
      lastList := resList;
      for k := 0 to |text|
        invariant cands == all[..k]
        invariant lastList == if k == 0 then resList else [all[k - 1]]
      {
        lastList := [];
        var res := Candidate(tokenize(text[k]), image, text[k].instruction, text[k].answer);
        lastList := lastList + [res];
        assert all[..k + 1] == all[..k] + [res];
        cands := cands + [res];
      }
      assert all[..|text|] == all;
    }

    /**
     * `__getitem__` up to the base class's `merge_all_images`, with the
     * marker appended to the returned answers rather than to the stored
     * annotation: one candidate per ranked answer, in annotation order and
     * then rank order; the stored annotations are left unchanged.
     */
    method GetItem(index: int) returns (outputs: seq<Candidate>)
      requires -|annotation| <= index < |annotation|
      requires forall a :: a in annotation[PyIndex(index, |annotation|)] ==> IsRanked(a)
      modifies this`dataDebugCounter
      ensures var anns := annotation[PyIndex(index, |annotation|)];
              outputs == Expand(anns, |anns|, CandidatesOf)
              && dataDebugCounter == old(dataDebugCounter) + |anns|
    {
      var anns := annotation[PyIndex(index, |annotation|)];
      outputs := [];
      var resList: seq<Candidate> := [];
      for j := 0 to |anns|
        invariant outputs == Expand(anns, j, CandidatesOf)
        invariant (resList == []) == NoCandidatesBefore(anns, j)
        invariant dataDebugCounter == old(dataDebugCounter) + j
      {
        var firstMessage := resList == [];
        dataDebugCounter := dataDebugCounter + 1;
        var cands;
        cands, resList := ExpandAnnotation(anns[j], firstMessage, resList);
        outputs := outputs + cands;
        NoCandidatesBeforeNext(anns, j);
      }
    }
  }

  lemma NoCandidatesBeforeNext(anns: seq<Annotation>, j: nat)
    requires j < |anns|
    requires forall a :: a in anns ==> IsRanked(a)
    ensures NoCandidatesBefore(anns, j + 1) == (NoCandidatesBefore(anns, j) && |RankedAnswers(anns[j])| == 0)
  {
  }

  /** What the external tokenizer returns for one text. */
  datatype TokenizerOutput = TokenizerOutput(inputIds: seq<int>, attentionMask: seq<int>)

  /** Python's `[pad] * k + xs[k:]`. */
  function PadPrefix(xs: seq<int>, k: nat, pad: int): (r: seq<int>)
    ensures |r| == (if k <= |xs| then |xs| else k)
    ensures forall i :: 0 <= i < |r| ==> r[i] == if i < k then pad else xs[i]
  {
    seq(k, _ => pad) + (if k <= |xs| then xs[k..] else [])
  }

  /**
   * `LlavaPPODataset.tokenize` as the source writes it: only the instruction
   * is tokenized; labels copy `input_ids`; with `ignore_instruction` the
   * first len(instruction tokens) labels become PAD.  When the last token is
   * EOS and `add_eos` is off, the code reads the key "input_id", which the
   * tokenizer output does not have.
   */
  function PpoTokenizeAsWritten(text: Prompt, tokenizer: string -> TokenizerOutput, eos: int, addEos: bool,
                                ignoreInstruction: bool, pad: int): (r: Result<Encoding, DataError>)
  {
    var res := tokenizer(text.instruction);
    if res.inputIds == [] then Err(IndexError)
    else if res.inputIds[|res.inputIds| - 1] == eos && !addEos then Err(KeyError("input_id"))
    else
      var labels := if ignoreInstruction then PadPrefix(res.inputIds, |tokenizer(text.instruction).inputIds|, pad)
                    else res.inputIds;
      Ok(Encoding(res.inputIds, res.attentionMask, labels))
  }

  /** Every instruction whose tokens end with EOS fails when `add_eos` is off, the PPO dataset's own setting. */
  lemma PpoTokenizeEosFails(text: Prompt, tokenizer: string -> TokenizerOutput, eos: int,
                            ignoreInstruction: bool, pad: int)
    requires tokenizer(text.instruction).inputIds != []
    requires tokenizer(text.instruction).inputIds[|tokenizer(text.instruction).inputIds| - 1] == eos
    ensures PpoTokenizeAsWritten(text, tokenizer, eos, false, ignoreInstruction, pad) == Err(KeyError("input_id"))
  {
  }

  /**
   * The PPO tokenization with the evident intent: a trailing EOS is dropped
   * from `input_ids` and `attention_mask`, labels copy what is left, and with
   * `ignore_instruction` the PAD prefix is clamped to that length, so labels
   * stay as long as `input_ids`.
   */
  function PpoTokenize(text: Prompt, tokenizer: string -> TokenizerOutput, eos: int, addEos: bool,
                       ignoreInstruction: bool, pad: int): (r: Result<Encoding, DataError>)
  {
    var res := tokenizer(text.instruction);
    if res.inputIds == [] then Err(IndexError)
    else
      var dropEos := res.inputIds[|res.inputIds| - 1] == eos && !addEos;
      var inputIds := if dropEos then DropLast(res.inputIds) else res.inputIds;
      var attentionMask := if dropEos then DropLast(res.attentionMask) else res.attentionMask;
      var k := |tokenizer(text.instruction).inputIds|;
      var labels := if ignoreInstruction then PadPrefix(inputIds, if k <= |inputIds| then k else |inputIds|, pad)
                    else inputIds;
      Ok(Encoding(inputIds, attentionMask, labels))
  }

  /**
   * The corrected PPO tokenization keeps the record aligned, never fails on
   * a non-empty tokenization, removes the trailing EOS when `add_eos` is
   * off, and its labels are `input_ids`, or all PAD (the whole text is the
   * instruction) under `ignore_instruction`.
   */
  lemma PpoTokenizeCorrect(text: Prompt, tokenizer: string -> TokenizerOutput, eos: int, addEos: bool,
                           ignoreInstruction: bool, pad: int)
    requires |tokenizer(text.instruction).attentionMask| == |tokenizer(text.instruction).inputIds|
    ensures var r := PpoTokenize(text, tokenizer, eos, addEos, ignoreInstruction, pad);
            var ids := tokenizer(text.instruction).inputIds;
            && (r.Ok? <==> ids != [])
            && (r.Ok? ==> Aligned(r.value))
            && (r.Ok? && ids[|ids| - 1] == eos && !addEos ==> r.value.inputIds == ids[..|ids| - 1])
            && (r.Ok? && !ignoreInstruction ==> r.value.labels == r.value.inputIds)
            && (r.Ok? && ignoreInstruction ==> forall i :: 0 <= i < |r.value.labels| ==> r.value.labels[i] == pad)
  {
  }

  /** Without EOS trouble the source's PPO labels are `input_ids`, or all PAD under `ignore_instruction`. */
  lemma PpoTokenizeAsWrittenLabels(text: Prompt, tokenizer: string -> TokenizerOutput, eos: int, addEos: bool,
                                   ignoreInstruction: bool, pad: int)
    requires PpoTokenizeAsWritten(text, tokenizer, eos, addEos, ignoreInstruction, pad).Ok?
    ensures var e := PpoTokenizeAsWritten(text, tokenizer, eos, addEos, ignoreInstruction, pad).value;
            && e.inputIds == tokenizer(text.instruction).inputIds
            && |e.labels| == |e.inputIds|
            && (ignoreInstruction ==> forall i :: 0 <= i < |e.labels| ==> e.labels[i] == pad)
            && (!ignoreInstruction ==> e.labels == e.inputIds)
  {
  }

  /** `_add_instance_ids`: annotation i gets the id `str(i)`; nothing else in it changes. */
  method AddInstanceIds(annotation: array<Annotation>)
    modifies annotation
    ensures forall i :: 0 <= i < annotation.Length ==>
              annotation[i] == old(annotation[i]).(id := Some(NatToString(i)))
  {
    for idx := 0 to annotation.Length
      invariant forall i :: 0 <= i < idx ==> annotation[i] == old(annotation[i]).(id := Some(NatToString(i)))
      invariant forall i :: idx <= i < annotation.Length ==> annotation[i] == old(annotation[i])
    {
      annotation[idx] := annotation[idx].(id := Some(NatToString(idx)));
    }
  }

  /** The assigned ids tell the annotations apart, and each reads back as its index. */
  lemma InstanceIdsDistinct(i: nat, j: nat)
    requires i != j
    ensures NatToString(i) != NatToString(j)
    ensures ParseInt(NatToString(i)) == Ok(i as int)
  {
    NatToStringInjective(i, j);
    ParseNatToString(i);
  }
}

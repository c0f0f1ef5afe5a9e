/** The page's state and its event handlers, as pure transitions. The upload
    handler is one transition; the generate and redo handlers are two each:
    the synchronous part that runs on the click, and the moment its awaited
    work settles. Browser
    I/O, the remote service and `Date.now()` arrive as inputs: a `FileRead`,
    one `RemoteReply` per request issued, and one clock reading per id
    stamped. */
module App {
  import opened Wrappers
  import opened Encoder
  import GeminiService

  /** The fixed fan-out of a generation batch. */
  const BatchSize: nat := 4

  /** The only upload type accepted. */
  const PngType: string := "image/png"

  const UploadErrorMessage: string := "Por favor, envie uma imagem PNG válida."
  const MissingImageMessage: string := "Por favor, envie uma imagem primeiro."
  const BatchFailureMessage: string := "Falha ao gerar os mockups. Por favor, tente novamente."
  const RedoFailureMessage: string := "Falha ao gerar o mockup novamente."

  /** The selected file; only its declared type matters to the handlers. */
  datatype File = File(fileType: string)

  /** One card: `src` is absent while pending (`null`) or when the service
      answered without data (`undefined`). */
  datatype Mockup = Mockup(id: int, src: Option<string>, isLoading: bool)

  datatype State = State(
    uploadedImage: Option<File>,
    selectedCategory: string,
    prompt: string,
    mockups: seq<Mockup>,
    isGenerating: bool,
    error: Option<string>)

  /** The page as first rendered, with the first category preselected: no
      image, no cards, no batch running and no message, which satisfies the
      invariant `Inv` kept by every event. */
  function Initial(firstCategory: string): (s: State)
    ensures Inv(s)
    ensures s.uploadedImage.None? && s.mockups == [] && !s.isGenerating && s.error.None?
    ensures s.selectedCategory == firstCategory && s.prompt == ""
  {
    State(None, firstCategory, "", [], false, None)
  }

  // ---------------------------------------------------------------------
  // Upload

  predicate IsPng(file: Option<File>)
  {
    file.Some? && file.value.fileType == PngType
  }

  /** `handleImageUpload`: a PNG replaces the uploaded image and clears the
      error; anything else, including no file, only sets the validation
      message. The mockup list is never touched. */
  function HandleImageUpload(s: State, file: Option<File>): (t: State)
    ensures IsPng(file) ==> t.uploadedImage == file && t.error.None?
    ensures !IsPng(file) ==> t.uploadedImage == s.uploadedImage && t.error == Some(UploadErrorMessage)
    ensures t.mockups == s.mockups && t.isGenerating == s.isGenerating
    ensures t.selectedCategory == s.selectedCategory && t.prompt == s.prompt
  {
    if IsPng(file) then s.(uploadedImage := file, error := None)
    else s.(error := Some(UploadErrorMessage))
  }

  // ---------------------------------------------------------------------
  // Ids

  /** A clock that never runs backwards across the readings of one map. */
  predicate NonDecreasing(clocks: seq<int>)
  {
    forall i, j :: 0 <= i < j < |clocks| ==> clocks[i] <= clocks[j]
  }

  predicate IdsIncreasing(ms: seq<Mockup>)
  {
    forall i, j :: 0 <= i < j < |ms| ==> ms[i].id < ms[j].id
  }

  /** The card at position `i` of a fresh list has id `clocks[i] + i`. */
  predicate StampedIds(ms: seq<Mockup>, clocks: seq<int>)
  {
    |ms| <= |clocks| && forall i :: 0 <= i < |ms| ==> ms[i].id == clocks[i] + i
  }

  /** Ids `clock + i` read from a non-decreasing clock are strictly
      increasing, hence distinct. */
  lemma StampedIdsIncrease(ms: seq<Mockup>, clocks: seq<int>)
    requires StampedIds(ms, clocks) && NonDecreasing(clocks)
    ensures IdsIncreasing(ms)
  {
  }

  /** A clock that steps back by one millisecond between two readings gives
      two cards the same id. */
  lemma ClockStepBackDuplicatesId()
    ensures var ms := Placeholders([5, 4, 7, 8]); ms[0].id == ms[1].id
  {
  }

  // ---------------------------------------------------------------------
  // Batch generation

  /** `isFormIncomplete`: no uploaded image, or an empty category. A complete
      form always has an image to encode. */
  predicate FormIncomplete(s: State)
    ensures !FormIncomplete(s) ==> s.uploadedImage.Some? && s.selectedCategory != ""
  {
    s.uploadedImage.None? || |s.selectedCategory| == 0
  }

  /** The generate button is enabled: no batch is running and the form is
      complete, so the handler's missing-image branch is out of reach. */
  predicate GenerateEnabled(s: State)
    ensures GenerateEnabled(s) ==> !s.isGenerating && s.uploadedImage.Some? && s.selectedCategory != ""
    ensures !GenerateEnabled(s) ==> s.isGenerating || FormIncomplete(s)
  {
    !s.isGenerating && !FormIncomplete(s)
  }

  /** Four loading cards with no image, stamped from four clock readings. */
  function Placeholders(clocks: seq<int>): (ms: seq<Mockup>)
    requires |clocks| == BatchSize
    ensures |ms| == BatchSize && StampedIds(ms, clocks)
    ensures forall i :: 0 <= i < |ms| ==> ms[i].isLoading && ms[i].src.None?
  {
    seq(BatchSize, i requires 0 <= i < BatchSize => Mockup(clocks[i] + i, None, true))
  }

  /** Settled cards, one per result, in result order. */
  function ResolvedCards(results: seq<Option<string>>, clocks: seq<int>): (ms: seq<Mockup>)
    requires |results| == |clocks|
    ensures |ms| == |results| && StampedIds(ms, clocks)
    ensures forall i :: 0 <= i < |ms| ==> !ms[i].isLoading && ms[i].src == results[i]
  {
    seq(|results|, i requires 0 <= i < |results| => Mockup(clocks[i] + i, results[i], false))
  }

  /** The synchronous part of `handleGenerateClick`. Without an uploaded
      image it only sets the validation message; otherwise it publishes four
      placeholders, clears the error and marks the page as generating. */
  function HandleGenerateClick(s: State, clocks: seq<int>): (t: State)
    requires |clocks| == BatchSize
    ensures s.uploadedImage.None? ==> t == s.(error := Some(MissingImageMessage))
    ensures s.uploadedImage.None? ==> t.mockups == s.mockups && t.isGenerating == s.isGenerating
    ensures s.uploadedImage.Some? ==>
      && |t.mockups| == BatchSize
      && (forall i :: 0 <= i < BatchSize ==>
            t.mockups[i].isLoading && t.mockups[i].src.None? && t.mockups[i].id == clocks[i] + i)
      && t.isGenerating && t.error.None?
    ensures t.uploadedImage == s.uploadedImage
    ensures t.selectedCategory == s.selectedCategory && t.prompt == s.prompt
  {
    if s.uploadedImage.None? then s.(error := Some(MissingImageMessage))
    else s.(isGenerating := true, error := None, mockups := Placeholders(clocks))
  }


  /** `Promise.all`: every result when all succeed, in the order the
      promises were created, and nothing at all when any one fails. */
  function JoinAll(rs: seq<Result<Option<string>, string>>): (r: Option<seq<Option<string>>>)
    ensures r.Some? <==> forall i :: 0 <= i < |rs| ==> rs[i].Success?
    ensures r.Some? ==> |r.value| == |rs| && forall i :: 0 <= i < |rs| ==> r.value[i] == rs[i].value
  {
    if |rs| == 0 then Some([])
    else if rs[0].Failure? then None
    else
      var rest := JoinAll(rs[1..]);
      assert forall i :: 1 <= i < |rs| ==> rs[i] == rs[1..][i - 1];
      if rest.None? then None
      else Some([rs[0].value] + rest.value)
  }

  /** The four client invocations of one batch, sharing one encoding. */
  function BatchCalls(enc: Encoding, category: string, hint: string, replies: seq<GeminiService.RemoteReply>)
    : (calls: seq<GeminiService.Invocation>)
    requires enc.Encoded?
    ensures |calls| == |replies|
    ensures forall i :: 0 <= i < |calls| ==>
      calls[i].issued == [GeminiService.BuildRequest(enc.data, enc.mimeType, category, hint)]
    ensures forall i :: 0 <= i < |calls| ==>
      (calls[i].result.Success? <==> GeminiService.CarriesImage(replies[i]))
  {
    seq(|replies|, i requires 0 <= i < |replies| =>
      GeminiService.Generate(enc.data, enc.mimeType, category, hint, replies[i]))
  }

  /** The results of a list of invocations, position by position. */
  function Results(calls: seq<GeminiService.Invocation>): (rs: seq<Result<Option<string>, string>>)
    ensures |rs| == |calls| && forall i :: 0 <= i < |rs| ==> rs[i] == calls[i].result
  {
    seq(|calls|, i requires 0 <= i < |calls| => calls[i].result)
  }

  /** The batch failed: empty list, batch message, not generating. */
  function FailBatch(s: State): State
  {
    s.(error := Some(BatchFailureMessage), mockups := [], isGenerating := false)
  }

  /** The awaited part of `handleGenerateClick`, from the encoding through
      the joined replies to the `finally`. A read error or any failed call
      empties the list; four successes replace it with settled cards in
      request order. A data URL that makes the encoder throw never settles,
      so nothing changes. */
  function SettleGenerate(s: State, category: string, hint: string, read: FileRead,
                          replies: seq<GeminiService.RemoteReply>, clocks: seq<int>): (t: State)
    requires |replies| == BatchSize && |clocks| == BatchSize
    ensures FileToBase64(read).EncodeStalled? ==> t == s
    ensures !FileToBase64(read).EncodeStalled? ==> !t.isGenerating
    ensures !FileToBase64(read).EncodeStalled? ==>
      (t.mockups == [] && t.error == Some(BatchFailureMessage)) ||
      (|t.mockups| == BatchSize && StampedIds(t.mockups, clocks) && t.error == s.error)
    ensures !FileToBase64(read).EncodeStalled? ==>
      (|t.mockups| == BatchSize <==>
        FileToBase64(read).Encoded? && forall i :: 0 <= i < BatchSize ==> GeminiService.CarriesImage(replies[i]))
    ensures !FileToBase64(read).EncodeStalled? && |t.mockups| == BatchSize ==>
      forall i :: 0 <= i < BatchSize ==>
        !t.mockups[i].isLoading &&
        t.mockups[i].src == GeminiService.FirstInlineData(GeminiService.CandidateParts(replies[i].response)).value.data
    ensures t.uploadedImage == s.uploadedImage
    ensures t.selectedCategory == s.selectedCategory && t.prompt == s.prompt
  {
    match FileToBase64(read)
    case EncodeStalled => s
    case EncodeRejected => FailBatch(s)
    case Encoded(mimeType, data) =>
      var calls := BatchCalls(Encoded(mimeType, data), category, hint, replies);
      match JoinAll(Results(calls))
      case None => FailBatch(s)
      case Some(results) =>
        s.(mockups := ResolvedCards(results, clocks), isGenerating := false)
  }

  /** The settled ids are fresh, none equal to a placeholder id, once at
      least four milliseconds separate the last placeholder reading from the
      first settled one. */
  lemma SettledIdsFresh(placeholderClocks: seq<int>, settledClocks: seq<int>, results: seq<Option<string>>)
    requires |placeholderClocks| == BatchSize && |settledClocks| == BatchSize && |results| == BatchSize
    requires NonDecreasing(placeholderClocks) && NonDecreasing(settledClocks)
    requires settledClocks[0] >= placeholderClocks[BatchSize - 1] + BatchSize
    ensures forall i, j :: 0 <= i < BatchSize && 0 <= j < BatchSize ==>
      Placeholders(placeholderClocks)[i].id != ResolvedCards(results, settledClocks)[j].id
  {
  }

  // ---------------------------------------------------------------------
  // Redo one

  /** Applies `f` to every card with the given id, in place. */
  function UpdateWhere(ms: seq<Mockup>, id: int, f: Mockup -> Mockup): (r: seq<Mockup>)
    ensures |r| == |ms|
    ensures forall i :: 0 <= i < |ms| ==> r[i] == if ms[i].id == id then f(ms[i]) else ms[i]
  {
    seq(|ms|, i requires 0 <= i < |ms| => if ms[i].id == id then f(ms[i]) else ms[i])
  }

  /** The synchronous part of `handleRedoOne`: without an uploaded image
      nothing happens; otherwise only the cards with this id start loading. */
  function HandleRedoOne(s: State, id: int): (t: State)
    ensures s.uploadedImage.None? ==> t == s
    ensures |t.mockups| == |s.mockups|
    ensures forall i :: 0 <= i < |s.mockups| && s.mockups[i].id != id ==> t.mockups[i] == s.mockups[i]
    ensures s.uploadedImage.Some? ==>
      forall i :: 0 <= i < |s.mockups| && s.mockups[i].id == id ==>
        t.mockups[i] == Mockup(id, s.mockups[i].src, true)
    ensures t.error == s.error && t.isGenerating == s.isGenerating && t.uploadedImage == s.uploadedImage
    ensures t.selectedCategory == s.selectedCategory && t.prompt == s.prompt
  {
    if s.uploadedImage.None? then s
    else s.(mockups := UpdateWhere(s.mockups, id, (m: Mockup) => m.(isLoading := true)))
  }

  /** The redo failed: the message is set and the card stops loading with
      its previous image. */
  function FailRedo(s: State, id: int): State
  {
    s.(error := Some(RedoFailureMessage), mockups := UpdateWhere(s.mockups, id, (m: Mockup) => m.(isLoading := false)))
  }

  /** The awaited part of `handleRedoOne`. Success replaces the card with
      this id by a settled card holding the new image, keeping its id; a read
      error or a failed call keeps the card's previous image, stops its
      loading and sets the message. No other card, the list length and the
      generating flag are never touched, and a stalled encoding never
      settles. */
  function SettleRedo(s: State, id: int, category: string, hint: string, read: FileRead,
                      reply: GeminiService.RemoteReply): (t: State)
    ensures FileToBase64(read).EncodeStalled? ==> t == s
    ensures |t.mockups| == |s.mockups|
    ensures forall i :: 0 <= i < |s.mockups| && s.mockups[i].id != id ==> t.mockups[i] == s.mockups[i]
    ensures t.isGenerating == s.isGenerating && t.uploadedImage == s.uploadedImage
    ensures t.selectedCategory == s.selectedCategory && t.prompt == s.prompt
    ensures FileToBase64(read).Encoded? && GeminiService.CarriesImage(reply) ==>
      t.error == s.error &&
      forall i :: 0 <= i < |s.mockups| && s.mockups[i].id == id ==>
        t.mockups[i] == Mockup(id, GeminiService.FirstInlineData(GeminiService.CandidateParts(reply.response)).value.data, false)
    ensures FileToBase64(read).EncodeRejected? || (FileToBase64(read).Encoded? && !GeminiService.CarriesImage(reply)) ==>
      t.error == Some(RedoFailureMessage) &&
      forall i :: 0 <= i < |s.mockups| && s.mockups[i].id == id ==>
        t.mockups[i] == s.mockups[i].(isLoading := false)
  {
    match FileToBase64(read)
    case EncodeStalled => s
    case EncodeRejected => FailRedo(s, id)
    case Encoded(mimeType, data) =>
      match GeminiService.Generate(data, mimeType, category, hint, reply).result
      case Failure(_) => FailRedo(s, id)
      case Success(src) => s.(mockups := UpdateWhere(s.mockups, id, m => Mockup(id, src, false)))
  }

  /** A redo for an id no card carries leaves the list as it was. */
  lemma RedoUnknownIdKeepsList(s: State, id: int, category: string, hint: string, read: FileRead,
                               reply: GeminiService.RemoteReply)
    requires forall i :: 0 <= i < |s.mockups| ==> s.mockups[i].id != id
    ensures HandleRedoOne(s, id).mockups == s.mockups
    ensures SettleRedo(s, id, category, hint, read, reply).mockups == s.mockups
  {
  }

  // ---------------------------------------------------------------------
  // The page as a whole

  datatype Event =
    | Upload(file: Option<File>)
    | SelectCategory(category: string)
    | EditPrompt(text: string)
    | ClickGenerate(clocks: seq<int>)
    | GenerateSettled(category: string, hint: string, read: FileRead,
                      replies: seq<GeminiService.RemoteReply>, clocks: seq<int>)
    | ClickRedo(id: int)
    | RedoSettled(id: int, category: string, hint: string, read: FileRead, reply: GeminiService.RemoteReply)

  /** What the environment supplies: one non-decreasing clock reading per
      card stamped and one reply per request issued. */
  predicate WellFormed(e: Event)
  {
    match e
    case ClickGenerate(clocks) => |clocks| == BatchSize && NonDecreasing(clocks)
    case GenerateSettled(_, _, _, replies, clocks) =>
      |replies| == BatchSize && |clocks| == BatchSize && NonDecreasing(clocks)
    case _ => true
  }

  /** One event, dispatched to its handler. The category and hint carried
      by a settlement are those captured when its click happened. A click on
      the disabled generate button does nothing; a click on the enabled one
      starts a batch. Category and hint edits store the new value and touch
      nothing else. No event removes an uploaded image. */
  function Step(s: State, e: Event): (t: State)
    requires WellFormed(e)
    ensures s.uploadedImage.Some? ==> t.uploadedImage.Some?
    ensures e.ClickGenerate? && !GenerateEnabled(s) ==> t == s
    ensures e.ClickGenerate? && GenerateEnabled(s) ==>
      t.isGenerating && t.error.None? && |t.mockups| == BatchSize
    ensures e.SelectCategory? ==> t == s.(selectedCategory := e.category)
    ensures e.EditPrompt? ==> t == s.(prompt := e.text)
    ensures e.SelectCategory? || e.EditPrompt? ==>
      t.mockups == s.mockups && t.isGenerating == s.isGenerating && t.error == s.error && t.uploadedImage == s.uploadedImage
    ensures e.Upload? ==> t == HandleImageUpload(s, e.file)
    ensures e.ClickRedo? ==> t == HandleRedoOne(s, e.id)
    ensures e.GenerateSettled? ==> t == SettleGenerate(s, e.category, e.hint, e.read, e.replies, e.clocks)
    ensures e.RedoSettled? ==> t == SettleRedo(s, e.id, e.category, e.hint, e.read, e.reply)
  {
    match e
    case Upload(file) => HandleImageUpload(s, file)
    case SelectCategory(c) => s.(selectedCategory := c)
    case EditPrompt(text) => s.(prompt := text)
    case ClickGenerate(clocks) => if GenerateEnabled(s) then HandleGenerateClick(s, clocks) else s
    case GenerateSettled(c, h, read, replies, clocks) => SettleGenerate(s, c, h, read, replies, clocks)
    case ClickRedo(id) => HandleRedoOne(s, id)
    case RedoSettled(id, c, h, read, reply) => SettleRedo(s, id, c, h, read, reply)
  }

  /** The list is empty or a whole batch, its ids are strictly increasing,
      and a running batch always has an uploaded image behind it. */
  predicate Inv(s: State)
  {
    && (|s.mockups| == 0 || |s.mockups| == BatchSize)
    && IdsIncreasing(s.mockups)
    && (s.isGenerating ==> s.uploadedImage.Some?)
  }

  /** A click while generating, or with the image or category missing, hits
      a disabled button and changes nothing. */
  lemma DisabledClickIgnored(s: State, clocks: seq<int>)
    requires |clocks| == BatchSize && NonDecreasing(clocks)
    requires s.isGenerating || s.uploadedImage.None? || |s.selectedCategory| == 0
    ensures Step(s, ClickGenerate(clocks)) == s
  {
  }

  /** A click on the enabled button always runs the handler's batch branch:
      the page is generating with the error cleared. */
  lemma EnabledClickStartsBatch(s: State, clocks: seq<int>)
    requires |clocks| == BatchSize && NonDecreasing(clocks) && GenerateEnabled(s)
    ensures Step(s, ClickGenerate(clocks)) == HandleGenerateClick(s, clocks)
    ensures Step(s, ClickGenerate(clocks)).isGenerating
    ensures Step(s, ClickGenerate(clocks)).error.None?
  {
  }

  /** Every event, in any interleaving, keeps the invariant. */
  lemma StepKeepsInv(s: State, e: Event)
    requires Inv(s) && WellFormed(e)
    ensures Inv(Step(s, e))
  {
  }

  predicate AllWellFormed(es: seq<Event>)
  {
    forall k :: 0 <= k < |es| ==> WellFormed(es[k])
  }

  /** The state after a sequence of events. */
  function Run(s: State, es: seq<Event>): State
    requires AllWellFormed(es)
    decreases |es|
  {
    if |es| == 0 then s else Run(Step(s, es[0]), es[1..])
  }

  /** Every reachable page satisfies the invariant. */
  lemma {:induction false} RunKeepsInv(s: State, es: seq<Event>)
    requires Inv(s) && AllWellFormed(es)
    ensures Inv(Run(s, es))
    decreases |es|
  {
    if |es| > 0 {
      StepKeepsInv(s, es[0]);
      assert AllWellFormed(es[1..]) by {
        forall k | 0 <= k < |es[1..]| ensures WellFormed(es[1..][k]) {
          assert es[1..][k] == es[k + 1];
        }
      }
      RunKeepsInv(Step(s, es[0]), es[1..]);
    }
  }

  /** Once an image is uploaded, no event removes it. */
  lemma {:induction false} UploadedImageNeverCleared(s: State, es: seq<Event>)
    requires s.uploadedImage.Some? && AllWellFormed(es)
    ensures Run(s, es).uploadedImage.Some?
    decreases |es|
  {
    if |es| > 0 {
      assert AllWellFormed(es[1..]) by {
        forall k | 0 <= k < |es[1..]| ensures WellFormed(es[1..][k]) {
          assert es[1..][k] == es[k + 1];
        }
      }
      UploadedImageNeverCleared(Step(s, es[0]), es[1..]);
    }
  }


  /** From a fresh page with a category preselected: upload a PNG, click
      generate, and let every call answer with an image. The result is four
      settled cards with distinct ids, the error cleared and the batch over,
      whatever the style hint. */
  lemma UploadGenerateScenario(category: string, hint: string, payload: string,
                               clickClocks: seq<int>, settleClocks: seq<int>,
                               replies: seq<GeminiService.RemoteReply>)
    requires |category| > 0 && ',' !in payload
    requires |clickClocks| == BatchSize && NonDecreasing(clickClocks)
    requires |settleClocks| == BatchSize && NonDecreasing(settleClocks)
    requires |replies| == BatchSize && forall i :: 0 <= i < BatchSize ==> GeminiService.CarriesImage(replies[i])
    ensures var events := [Upload(Some(File(PngType))), ClickGenerate(clickClocks),
                           GenerateSettled(category, hint, ReadDataUrl(FormatDataUrl(PngType, payload)), replies, settleClocks)];
            AllWellFormed(events) &&
            var t := Run(Initial(category), events);
            && |t.mockups| == BatchSize
            && IdsIncreasing(t.mockups)
            && (forall i :: 0 <= i < BatchSize ==> !t.mockups[i].isLoading)
            && !t.isGenerating && t.error.None?
  {
    var read := ReadDataUrl(FormatDataUrl(PngType, payload));
    var events := [Upload(Some(File(PngType))), ClickGenerate(clickClocks),
                   GenerateSettled(category, hint, read, replies, settleClocks)];
    assert Splittable(PngType, payload);
    ParseFormatRoundTrip(PngType, payload);
    assert FileToBase64(read).Encoded?;
    var s1 := HandleImageUpload(Initial(category), Some(File(PngType)));
    assert GenerateEnabled(s1);
    var s2 := HandleGenerateClick(s1, clickClocks);
    assert s2.error.None?;
    var s3 := SettleGenerate(s2, category, hint, read, replies, settleClocks);
    assert |s3.mockups| == BatchSize;
    StampedIdsIncrease(s3.mockups, settleClocks);
    RunThree(Initial(category), events[0], events[1], events[2]);
    assert events == [events[0], events[1], events[2]];
  }

  /** Running three events is stepping through them in order. */
  lemma RunThree(s: State, e0: Event, e1: Event, e2: Event)
    requires WellFormed(e0) && WellFormed(e1) && WellFormed(e2)
    ensures AllWellFormed([e0, e1, e2])
    ensures Run(s, [e0, e1, e2]) == Step(Step(Step(s, e0), e1), e2)
  {
    var es := [e0, e1, e2];
    assert es[1..] == [e1, e2] && [e1, e2][1..] == [e2] && [e2][1..] == [];
    var s1 := Step(s, e0);
    var s2 := Step(s1, e1);
    assert AllWellFormed([e2]) && AllWellFormed([e1, e2]);
    assert Run(s2, [e2]) == Run(Step(s2, e2), []);
    assert Run(s1, [e1, e2]) == Run(s2, [e2]);
    assert Run(s, es) == Run(s1, [e1, e2]);
  }
}

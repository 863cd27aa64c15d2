/** The page: it sends the first chosen file to the generation function,
    walks the processing overlay through its stages, stores the four artifacts
    (each replaced by a one-entry placeholder when the reply lacks it), and
    switches from the upload view to the tabs once processing completes. */
module IndexPage {
  import opened Text
  import opened Artifacts
  import FileUploadView
  import ProcessFiles
  import StudyGuideView

  datatype Toast = Toast(title: string, description: string, destructive: bool)

  /** The JSON body of a successful invocation; a member may be missing. */
  datatype ResponseData = ResponseData(studyGuide: Option<StudyGuide>, flashcards: Option<FlashcardSet>,
                                       quiz: Option<Quiz>, audio: Option<AudioResource>)

  /** How the invocation settles: with an error, or with a (possibly null) body. */
  datatype InvokeReply = InvokeError(message: string) | InvokeData(data: Option<ResponseData>)

  // ---------------------------------------------------------------------------
  // Placeholders for missing members

  const DefaultStudyGuide: StudyGuide :=
    StudyGuide("Study Guide", [Section("No Content Available", ["Please try uploading a different file"], "No summary available")])
  const DefaultFlashcards: FlashcardSet :=
    FlashcardSet("Flashcards", [Flashcard(1, "No flashcards available", "Please try uploading a different file")])
  const DefaultQuiz: Quiz :=
    Quiz("Quiz", [Question(1, "No quiz available", QuizOptions, 0)])
  const DefaultAudio: AudioResource := AudioResource("Audio Summary", "")

  function OrElse<T>(o: Option<T>, default: T): T
  {
    if o.Some? then o.value else default
  }

  /** Each placeholder is something its view can show: one section, one card,
      one well-formed question whose answer is the first option, and an audio
      resource without a URL (so the seek bar and the outlined play button
      stay disabled; the round play button checks only the loading flag). */
  lemma PlaceholdersAreShowable()
    ensures |DefaultStudyGuide.content| == 1 && |DefaultStudyGuide.content[0].keyPoints| == 1
    ensures |DefaultFlashcards.cards| == 1 && UniqueCardIds(DefaultFlashcards.cards)
    ensures |DefaultQuiz.questions| == 1 && UniqueQuestionIds(DefaultQuiz.questions)
    ensures WellFormedQuestion(DefaultQuiz.questions[0]) && DefaultQuiz.questions[0].correctAnswerIndex == 0
    ensures DefaultAudio.audioUrl == ""
  {
  }

  /** What a successful invocation of the generation function delivers: a
      `Generated` response becomes a body with all four members; a failed one
      is a non-2xx status, which the client reports as an error with
      `clientMessage`. */
  function ReplyFor(resp: ProcessFiles.Response, clientMessage: string): (r: InvokeReply)
    ensures resp.Failed? <==> r.InvokeError?
    ensures resp.Generated? ==>
      r.InvokeData? && r.data.Some? &&
      r.data.value.studyGuide == Some(resp.studyGuide) && r.data.value.flashcards == Some(resp.flashcards) &&
      r.data.value.quiz == Some(resp.quiz) && r.data.value.audio == Some(resp.audio)
  {
    match resp
    case Failed(_) => InvokeError(clientMessage)
    case Generated(g, f, q, a) => InvokeData(Some(ResponseData(Some(g), Some(f), Some(q), Some(a))))
  }

  /** `You scored X out of Y` */
  function ScoreMessage(score: nat, total: nat): (r: string)
    ensures |r| > |"You scored  out of "|
  {
    "You scored " + NatToString(score) + " out of " + NatToString(total)
  }

  /** The score toast names both numbers, which read back from it. */
  lemma ScoreMessageReadsBack(score: nat, total: nat)
    ensures var prefix := "You scored "; var s := ScoreMessage(score, total); var digits := NatToString(score);
      |prefix| + |digits| <= |s| && ParseNat(s[|prefix|..|prefix| + |digits|]) == score
    ensures var s := ScoreMessage(score, total); var digits := NatToString(total);
      |digits| <= |s| && ParseNat(s[|s| - |digits|..]) == total
  {
    ScoreReadsBack(score, total);
    TotalReadsBack(score, total);
  }

  lemma ScoreReadsBack(score: nat, total: nat)
    ensures var s := ScoreMessage(score, total); var a := NatToString(score);
      11 + |a| <= |s| && s[11..11 + |a|] == a && ParseNat(s[11..11 + |a|]) == score
  {
    SecondOfFour("You scored ", NatToString(score), " out of ", NatToString(total));
    ParseNatToString(score);
  }

  lemma TotalReadsBack(score: nat, total: nat)
    ensures var s := ScoreMessage(score, total); var b := NatToString(total);
      |b| <= |s| && s[|s| - |b|..] == b && ParseNat(s[|s| - |b|..]) == total
  {
    LastOfFour("You scored ", NatToString(score), " out of ", NatToString(total));
    ParseNatToString(total);
  }

  lemma SecondOfFour(w: string, x: string, y: string, z: string)
    ensures |w| + |x| <= |w + x + y + z| && (w + x + y + z)[|w|..|w| + |x|] == x
  {
  }

  lemma LastOfFour(w: string, x: string, y: string, z: string)
    ensures var s := w + x + y + z; |z| <= |s| && s[|s| - |z|..] == z
  {
  }

  /** The text-to-speech callback's value: the URL from the body, or null
      (and a failure toast) when the invocation errs. */
  function TextToSpeechResult(reply: Result<Option<string>>): (r: (Option<string>, Option<Toast>))
    ensures reply.Err? <==> r.1.Some?
    ensures reply.Err? ==>
      r.0 == None && r.1.value.destructive &&
      r.1.value.description == "Error generating speech: " + reply.error
    ensures reply.Ok? ==> r.0 == reply.value
  {
    match reply
    case Err(e) => (None, Some(Toast("Audio generation failed", "Error generating speech: " + e, true)))
    case Ok(url) => (url, None)
  }

  // ---------------------------------------------------------------------------
  // The page component

  class Index {
    var isProcessing: bool
    var processingStage: nat
    var studyMaterialsGenerated: bool
    var quizScore: Option<(nat, nat)>
    var studyGuideData: Option<StudyGuide>
    var flashcardData: Option<FlashcardSet>
    var quizData: Option<Quiz>
    var audioData: Option<AudioResource>
    /** An invocation is in flight (its two stage timers are armed). */
    var awaiting: bool
    /** Completion timers (1.5 s) scheduled and not yet fired. */
    var pendingCompletions: nat

    /** The stage shown is one of the overlay's four. */
    ghost predicate Valid()
      reads this
    {
      processingStage <= 3
    }

    constructor ()
      ensures Valid() && !isProcessing && processingStage == 0 && !studyMaterialsGenerated
      ensures quizScore == None && studyGuideData == None && flashcardData == None
      ensures quizData == None && audioData == None && !awaiting && pendingCompletions == 0
    {
      isProcessing := false;
      processingStage := 0;
      studyMaterialsGenerated := false;
      quizScore := None;
      studyGuideData := None;
      flashcardData := None;
      quizData := None;
      audioData := None;
      awaiting := false;
      pendingCompletions := 0;
    }

    /** The upload component reports its list (after a drop, a pick or a
      removal). An empty list changes nothing; otherwise processing starts at
      stage 0 and only the first file is sent. While a request is in flight the
      overlay covers the upload view, so no second list arrives. */
    method FilesSelected(files: seq<FileUploadView.UploadFile>) returns (sent: Option<FileUploadView.UploadFile>)
      requires Valid() && !awaiting
      modifies this`isProcessing, this`processingStage, this`awaiting
      ensures Valid()
      ensures |files| == 0 ==>
        sent == None && isProcessing == old(isProcessing) &&
        processingStage == old(processingStage) && awaiting == old(awaiting)
      ensures |files| > 0 ==> sent == Some(files[0]) && isProcessing && processingStage == 0 && awaiting
    {
      if |files| > 0 {
        isProcessing := true;
        processingStage := 0;
        var file := files[0];
        awaiting := true;
        sent := Some(file);
      } else {
        sent := None;
      }
    }

    /** The stage timers at 2 s and 4 s move the overlay to stage 1 and 2;
      they are cleared once the invocation settles. */
    method StageTimerFired(stage: nat)
      requires Valid() && awaiting && (stage == 1 || stage == 2)
      modifies this`processingStage
      ensures Valid() && processingStage == stage
    {
      processingStage := stage;
    }

    /** The invocation settles. An error ends processing with a failure toast
      and stores nothing. Otherwise the overlay shows its last stage, each
      member of a present body is stored (a missing member as its
      placeholder), and completion is scheduled, body or not. */
    method InvocationSettled(reply: InvokeReply) returns (toast: Option<Toast>)
      requires Valid() && awaiting
      modifies this
      ensures Valid() && !awaiting
      ensures studyMaterialsGenerated == old(studyMaterialsGenerated) && quizScore == old(quizScore)
      ensures reply.InvokeError? ==>
        !isProcessing && processingStage == old(processingStage) &&
        toast == Some(Toast("Processing failed", "Error processing file: " + reply.message, true)) &&
        pendingCompletions == old(pendingCompletions) &&
        studyGuideData == old(studyGuideData) && flashcardData == old(flashcardData) &&
        quizData == old(quizData) && audioData == old(audioData)
      ensures reply.InvokeData? ==>
        isProcessing == old(isProcessing) && processingStage == 3 && toast == None &&
        pendingCompletions == old(pendingCompletions) + 1
      ensures reply.InvokeData? && reply.data.None? ==>
        studyGuideData == old(studyGuideData) && flashcardData == old(flashcardData) &&
        quizData == old(quizData) && audioData == old(audioData)
      ensures reply.InvokeData? && reply.data.Some? ==>
        var d := reply.data.value;
        studyGuideData == Some(OrElse(d.studyGuide, DefaultStudyGuide)) &&
        flashcardData == Some(OrElse(d.flashcards, DefaultFlashcards)) &&
        quizData == Some(OrElse(d.quiz, DefaultQuiz)) &&
        audioData == Some(OrElse(d.audio, DefaultAudio))
    {
      awaiting := false;
      if reply.InvokeError? {
        isProcessing := false;
        return Some(Toast("Processing failed", "Error processing file: " + reply.message, true));
      }
      processingStage := 3;
      if reply.data.Some? {
        var d := reply.data.value;
        studyGuideData := Some(OrElse(d.studyGuide, DefaultStudyGuide));
        flashcardData := Some(OrElse(d.flashcards, DefaultFlashcards));
        quizData := Some(OrElse(d.quiz, DefaultQuiz));
        audioData := Some(OrElse(d.audio, DefaultAudio));
      }
      pendingCompletions := pendingCompletions + 1;
      toast := None;
    }

    /** Processing completes, from the completion timer or from the overlay's
      own progress run (which may finish before the reply arrives): the overlay
      closes and the tabs replace the upload view. */
    method ProcessingComplete()
      requires Valid()
      modifies this`isProcessing, this`studyMaterialsGenerated
      ensures Valid() && !isProcessing && studyMaterialsGenerated
    {
      isProcessing := false;
      studyMaterialsGenerated := true;
    }

    /** A completion timer fires: processing completes and the success toast shows. */
    method CompletionTimerFired() returns (toast: Toast)
      requires Valid() && pendingCompletions > 0
      modifies this`isProcessing, this`studyMaterialsGenerated, this`pendingCompletions
      ensures Valid() && !isProcessing && studyMaterialsGenerated
      ensures pendingCompletions == old(pendingCompletions) - 1
      ensures toast == Toast("Processing complete!", "Your study materials are ready.", false)
    {
      pendingCompletions := pendingCompletions - 1;
      ProcessingComplete();
      toast := Toast("Processing complete!", "Your study materials are ready.", false);
    }

    /** The quiz reports its result: it is stored and announced. */
    method QuizComplete(score: nat, total: nat) returns (toast: Toast)
      requires Valid()
      modifies this`quizScore
      ensures Valid() && quizScore == Some((score, total))
      ensures toast == Toast("Quiz completed!", ScoreMessage(score, total), false)
    {
      quizScore := Some((score, total));
      toast := Toast("Quiz completed!", ScoreMessage(score, total), false);
    }
  }

  /** The generation function answers a request for an accepted file, with the
      key set and every model call delivered, with generated artifacts. */
  method ServeAccepted(file: FileUploadView.UploadFile, text: string, apiKey: Option<string>,
                       model: (ProcessFiles.Task, string) -> ProcessFiles.ModelReply,
                       parsers: ProcessFiles.Parsers, picks: seq<int>)
    returns (resp: ProcessFiles.Response)
    requires FileUploadView.DropAllowed(file.mimeType) && ProcessFiles.HasKey(apiKey)
    requires ProcessFiles.ValidPicks(picks)
    requires forall t: ProcessFiles.Task, s: string :: model(t, s).Delivered?
    ensures resp.Generated?
  {
    FileUploadView.DropAllowedIsServerAccepted(file.mimeType);
    var field := ProcessFiles.FilePart(ProcessFiles.UploadedFile(file.name, file.mimeType, text));
    var body := ProcessFiles.Truncate(text);
    assert model(ProcessFiles.StudyGuideTask, body).Delivered?;
    assert model(ProcessFiles.FlashcardTask, body).Delivered?;
    assert model(ProcessFiles.QuizTask, body).Delivered?;
    resp := ProcessFiles.HandleRequest(field, apiKey, model, parsers, picks);
  }

  /** End to end: a file whose type the drop filter admits, sent while the API
      key is set and every model call succeeds, leaves the page, once the
      completion timer fires, showing exactly the artifacts the function
      generated. */
  method UploadThenComplete(file: FileUploadView.UploadFile, text: string, apiKey: Option<string>,
                            model: (ProcessFiles.Task, string) -> ProcessFiles.ModelReply,
                            parsers: ProcessFiles.Parsers, picks: seq<int>, clientMessage: string)
    returns (page: Index, resp: ProcessFiles.Response)
    requires FileUploadView.DropAllowed(file.mimeType) && ProcessFiles.HasKey(apiKey)
    requires ProcessFiles.ValidPicks(picks)
    requires forall t: ProcessFiles.Task, s: string :: model(t, s).Delivered?
    ensures resp.Generated?
    ensures page.studyMaterialsGenerated && !page.isProcessing
    ensures page.studyGuideData == Some(resp.studyGuide) && page.flashcardData == Some(resp.flashcards)
    ensures page.quizData == Some(resp.quiz) && page.audioData == Some(resp.audio)
  {
    page := new Index();
    var sent := page.FilesSelected([file]);
    resp := ServeAccepted(sent.value, text, apiKey, model, parsers, picks);
    var reply := ReplyFor(resp, clientMessage);
    var toast := page.InvocationSettled(reply);
    var done := page.CompletionTimerFired();
  }

  /** The generation function answers the headingless study-guide reply with
      a guide that has no sections. */
  method ServeHeadingless(file: FileUploadView.UploadFile, text: string, apiKey: Option<string>,
                          model: (ProcessFiles.Task, string) -> ProcessFiles.ModelReply,
                          parsers: ProcessFiles.Parsers, picks: seq<int>)
    returns (resp: ProcessFiles.Response)
    requires FileUploadView.DropAllowed(file.mimeType) && ProcessFiles.HasKey(apiKey)
    requires ProcessFiles.ValidPicks(picks)
    requires forall t: ProcessFiles.Task, s: string :: model(t, s).Delivered?
    requires model(ProcessFiles.StudyGuideTask, ProcessFiles.Truncate(text)) == ProcessFiles.Delivered(Some("ok"))
    requires parsers.headings("ok") == ("ok", [])
    ensures resp.Generated? && resp.studyGuide == StudyGuide("ok", [])
  {
    FileUploadView.DropAllowedIsServerAccepted(file.mimeType);
    var field := ProcessFiles.FilePart(ProcessFiles.UploadedFile(file.name, file.mimeType, text));
    var body := ProcessFiles.Truncate(text);
    assert model(ProcessFiles.FlashcardTask, body).Delivered?;
    assert model(ProcessFiles.QuizTask, body).Delivered?;
    resp := ProcessFiles.HandleRequest(field, apiKey, model, parsers, picks);
    ProcessFiles.HeadinglessReplyGivesEmptyGuide(file.name, parsers);
  }

  /** The empty study guide reaches the view. A study-guide reply with no JSON
      candidate and no headings gives a guide with no sections; the page keeps
      it, since only a missing guide is replaced by the default, and the
      default tab then has no section to show (the render throws). */
  method HeadinglessUploadShowsNoSection(file: FileUploadView.UploadFile, text: string, apiKey: Option<string>,
                                         model: (ProcessFiles.Task, string) -> ProcessFiles.ModelReply,
                                         parsers: ProcessFiles.Parsers, picks: seq<int>, clientMessage: string)
    returns (page: Index, shown: Option<Section>)
    requires FileUploadView.DropAllowed(file.mimeType) && ProcessFiles.HasKey(apiKey)
    requires ProcessFiles.ValidPicks(picks)
    requires forall t: ProcessFiles.Task, s: string :: model(t, s).Delivered?
    requires model(ProcessFiles.StudyGuideTask, ProcessFiles.Truncate(text)) == ProcessFiles.Delivered(Some("ok"))
    requires parsers.headings("ok") == ("ok", [])
    ensures page.studyMaterialsGenerated && page.studyGuideData == Some(StudyGuide("ok", []))
    ensures shown.None?
  {
    page := new Index();
    var sent := page.FilesSelected([file]);
    var resp := ServeHeadingless(sent.value, text, apiKey, model, parsers, picks);
    var toast := page.InvocationSettled(ReplyFor(resp, clientMessage));
    var done := page.CompletionTimerFired();
    var panel := new StudyGuideView.StudyGuidePanel(page.studyGuideData.value.content);
    shown := panel.Displayed();
  }
}

/** The `process-files` generation function: it classifies the uploaded file,
    truncates its text, asks the language model for a study guide, flashcards
    and a quiz, scrapes a JSON candidate out of each free-text reply and falls
    back to deterministic placeholders when there is none or it does not parse. */
module ProcessFiles {
  import opened Text
  import opened Artifacts

  const NoFileProvided := "No file provided"
  const UnsupportedFileType := "Unsupported file type"
  const MissingApiKey := "GEMINI_API_KEY not configured"

  /** Extracted text is cut to this many characters before it goes into a prompt. */
  const MaxLength := 10000

  // ---------------------------------------------------------------------------
  // Media-type classification and truncation

  datatype FileKind = Pdf | PlainText | WordDocument

  /** The media-type branch: exactly `application/pdf` first, then plain text or
      any type mentioning `text`, then Word-family types; anything else fails. */
  function Classify(mimeType: string): (r: Result<FileKind>)
    ensures r == Ok(Pdf) <==> mimeType == "application/pdf"
    ensures r == Ok(PlainText) <==> mimeType != "application/pdf" && Contains(mimeType, "text")
    ensures r == Ok(WordDocument) <==>
      mimeType != "application/pdf" && !Contains(mimeType, "text") &&
      (Contains(mimeType, "word") || Contains(mimeType, "openxmlformats"))
    ensures r.Err? <==>
      mimeType != "application/pdf" && !Contains(mimeType, "text") &&
      !Contains(mimeType, "word") && !Contains(mimeType, "openxmlformats")
    ensures r.Err? ==> r.error == UnsupportedFileType
  {
    if mimeType == "application/pdf" then Ok(Pdf)
    else if mimeType == "text/plain" || Contains(mimeType, "text") then
      PlainTextMentionsText(mimeType);
      Ok(PlainText)
    else if Contains(mimeType, "word") || Contains(mimeType, "openxmlformats") then Ok(WordDocument)
    else Err(UnsupportedFileType)
  }

  /** The `text/plain` test is subsumed by the `includes('text')` test. */
  lemma PlainTextMentionsText(mimeType: string)
    ensures mimeType == "text/plain" ==> Contains(mimeType, "text")
  {
    if mimeType == "text/plain" {
      ContainsPrefix(mimeType, "text");
    }
  }

  /** The silent truncation of the extracted text. */
  function Truncate(s: string): (r: string)
    ensures |r| <= MaxLength
    ensures |r| <= |s| && r == s[..|r|]
    ensures |s| <= MaxLength ==> r == s
    ensures |s| > MaxLength ==> |r| == MaxLength
  {
    if |s| > MaxLength then s[..MaxLength] else s
  }

  // ---------------------------------------------------------------------------
  // Finding a JSON candidate in free text

  /** The opener and the closer of the regular expression "```json\n([\s\S]*?)\n```". */
  const FenceOpen := "```json\n"
  const FenceClose := "\n```"

  /** What `String.prototype.match` returns: the whole match and, for the fenced
      expression, its one capture group. */
  datatype RegexMatch = RegexMatch(whole: string, group: Option<string>)

  /** A fenced match can start at `p`: an opener there and a closer somewhere after it. */
  predicate FenceAt(s: string, p: nat)
  {
    StartsAt(s, p, FenceOpen) && IndexOf(s, FenceClose, p + |FenceOpen|).Some?
  }

  /** The leftmost position at or after `from` where a fenced match starts. */
  function FindFence(s: string, from: nat): (r: Option<nat>)
    ensures r.Some? ==> from <= r.value && FenceAt(s, r.value)
    ensures forall p: nat :: from <= p && (r.Some? ==> p < r.value) ==> !FenceAt(s, p)
    decreases |s| - from
  {
    if from + |FenceOpen| > |s| then None
    else if FenceAt(s, from) then Some(from)
    else FindFence(s, from + 1)
  }

  /** The fenced expression with its lazy body: the body ends at the first
      closer after the leftmost opener that has one. */
  function FencedMatch(s: string): (r: Option<RegexMatch>)
    ensures r.None? <==> forall p: nat :: !FenceAt(s, p)
    ensures r.Some? ==>
      r.value.group.Some? && r.value.whole == FenceOpen + r.value.group.value + FenceClose
    ensures r.Some? ==> !Contains(r.value.group.value, FenceClose)
    ensures r.Some? ==> exists p: nat ::
      FenceAt(s, p) && StartsAt(s, p, r.value.whole) && forall p': nat :: p' < p ==> !FenceAt(s, p')
  {
    match FindFence(s, 0)
    case None => None
    case Some(p) =>
      var q := IndexOf(s, FenceClose, p + |FenceOpen|).value;
      FenceSlices(s, p, q);
      Some(RegexMatch(s[p..q + |FenceClose|], Some(s[p + |FenceOpen|..q])))
  }

  /** The match found at `p` is the opener, the body up to the first closer
      `q`, and that closer. */
  lemma FenceSlices(s: string, p: nat, q: nat)
    requires FenceAt(s, p) && IndexOf(s, FenceClose, p + |FenceOpen|) == Some(q)
    ensures p + |FenceOpen| <= q && q + |FenceClose| <= |s|
    ensures s[p..q + |FenceClose|] == FenceOpen + s[p + |FenceOpen|..q] + FenceClose
    ensures StartsAt(s, p, s[p..q + |FenceClose|])
    ensures !Contains(s[p + |FenceOpen|..q], FenceClose)
  {
    var body := s[p + |FenceOpen|..q];
    assert s[p..p + |FenceOpen|] == FenceOpen;
    assert s[q..q + |FenceClose|] == FenceClose;
    assert s[p..q + |FenceClose|] == s[p..p + |FenceOpen|] + body + s[q..q + |FenceClose|];
    BodyHasNoCloser(s, p + |FenceOpen|, q);
  }

  /** When `q` is the first closer at or after `b`, the text between them holds no closer. */
  lemma BodyHasNoCloser(s: string, b: nat, q: nat)
    requires IndexOf(s, FenceClose, b) == Some(q)
    ensures !Contains(s[b..q], FenceClose)
  {
    var body := s[b..q];
    if Contains(body, FenceClose) {
      var j := IndexOf(body, FenceClose, 0).value;
      assert s[b + j..b + j + |FenceClose|] == body[j..j + |FenceClose|];
      assert StartsAt(s, b + j, FenceClose);
    }
  }

  /** The greedy expression /{[\s\S]*}/: from the first `{` to the last `}`
      after it; with no `}` after the first `{` there is no match. */
  function BracedMatch(s: string): (r: Option<RegexMatch>)
    ensures r.Some? ==> r.value.group.None?
    ensures r.Some? ==> exists i, j :: (0 <= i < j < |s| && r.value.whole == s[i..j + 1] &&
      s[i] == '{' && s[j] == '}' &&
      (forall k :: 0 <= k < i ==> s[k] != '{') && (forall k :: j < k < |s| ==> s[k] != '}'))
    ensures r.None? <==> forall i, j :: 0 <= i < j < |s| && s[i] == '{' ==> s[j] != '}'
  {
    var first := IndexOf(s, "{", 0);
    var last := LastIndexOf(s, '}');
    FirstBraceIsFirst(s, first);
    if first.Some? && last.Some? && first.value < last.value then
      Some(RegexMatch(s[first.value..last.value + 1], None))
    else
      None
  }

  /** `IndexOf` on a one-character pattern, in terms of single characters. */
  lemma FirstBraceIsFirst(s: string, first: Option<nat>)
    requires first == IndexOf(s, "{", 0)
    ensures first.Some? ==> first.value < |s| && s[first.value] == '{'
    ensures first.Some? ==> forall k :: 0 <= k < first.value ==> s[k] != '{'
    ensures first.None? ==> forall k :: 0 <= k < |s| ==> s[k] != '{'
  {
    forall k | 0 <= k < |s|
      ensures StartsAt(s, k, "{") <==> s[k] == '{'
    {
      StartsAtChar(s, k, '{');
    }
    if first.Some? {
      StartsAtChar(s, first.value, '{');
    }
  }

  /** `fenced || braced`: no match exactly when no opener has a later closer
      and no `}` follows a `{`; the match carries a capture group exactly when
      some fence exists, and then starts at the leftmost fence; otherwise it is
      the span from the first `{` to the last `}`. */
  function JsonMatch(s: string): (r: Option<RegexMatch>)
    ensures r.None? <==>
      (forall p: nat :: !FenceAt(s, p)) &&
      (forall i, j :: 0 <= i < j < |s| && s[i] == '{' ==> s[j] != '}')
    ensures r.Some? ==> (r.value.group.Some? <==> exists p: nat :: FenceAt(s, p))
    ensures r.Some? && r.value.group.Some? ==> exists p: nat ::
      FenceAt(s, p) && StartsAt(s, p, r.value.whole) && forall p': nat :: p' < p ==> !FenceAt(s, p')
    ensures r.Some? && r.value.group.None? ==>
      exists i, j :: (0 <= i < j < |s| && r.value.whole == s[i..j + 1] && s[i] == '{' && s[j] == '}' &&
        (forall k :: 0 <= k < i ==> s[k] != '{') && (forall k :: j < k < |s| ==> s[k] != '}'))
  {
    if FencedMatch(s).Some? then FencedMatch(s) else BracedMatch(s)
  }

  /** `jsonMatch[1] || jsonMatch[0]`: the capture when it is a non-empty string,
      the whole match otherwise. */
  function ParseInput(m: RegexMatch): string
  {
    if m.group.Some? && m.group.value != "" then m.group.value else m.whole
  }

  /** What `JSON.parse` is given for a reply text, if anything. */
  function JsonCandidate(text: string): Option<string>
  {
    match JsonMatch(text)
    case Some(m) => Some(ParseInput(m))
    case None => None
  }

  /** A non-empty fenced body is parsed on its own, without the fence. */
  lemma FencedBodyIsParsed(s: string)
    requires FencedMatch(s).Some? && FencedMatch(s).value.group.value != ""
    ensures JsonCandidate(s) == Some(FencedMatch(s).value.group.value)
    ensures !Contains(JsonCandidate(s).value, FenceClose)
  {
  }

  /** An empty fenced body is falsy, so the whole match, backticks included,
      is what gets parsed. */
  lemma EmptyFenceParsesWholeMatch(s: string)
    requires FencedMatch(s).Some? && FencedMatch(s).value.group.value == ""
    ensures JsonCandidate(s) == Some("```json\n\n```")
  {
    var m := FencedMatch(s).value;
    assert JsonMatch(s) == Some(m);
    assert ParseInput(m) == m.whole;
    assert m.whole == FenceOpen + FenceClose by {
      assert FenceOpen + m.group.value == FenceOpen;
    }
    EmptyFenceLiteral();
  }

  lemma EmptyFenceLiteral()
    ensures FenceOpen + FenceClose == "```json\n\n```"
  {
  }

  /** Without a fence the candidate is the brace span, braces included. */
  lemma BracedSpanIsParsed(s: string)
    requires FencedMatch(s).None? && BracedMatch(s).Some?
    ensures JsonCandidate(s) == Some(BracedMatch(s).value.whole)
    ensures var c := JsonCandidate(s).value; |c| >= 2 && c[0] == '{' && c[|c| - 1] == '}'
  {
    assert JsonMatch(s) == BracedMatch(s);
    BracedSpanEnds(s);
  }

  /** A brace span opens with `{` and closes with `}`. */
  lemma BracedSpanEnds(s: string)
    requires BracedMatch(s).Some?
    ensures var w := BracedMatch(s).value.whole; |w| >= 2 && w[0] == '{' && w[|w| - 1] == '}'
  {
    var first := IndexOf(s, "{", 0);
    var last := LastIndexOf(s, '}');
    FirstBraceIsFirst(s, first);
    var i, j := first.value, last.value;
    var w := s[i..j + 1];
    assert BracedMatch(s).value.whole == w;
    assert w[0] == s[i] && w[|w| - 1] == s[j];
  }

  // ---------------------------------------------------------------------------
  // Deterministic placeholders

  function FallbackCard(i: nat, aboutContent: bool): Flashcard
  {
    Flashcard(i + 1,
      "Question " + NatToString(i + 1) + (if aboutContent then " about the content" else ""),
      "Answer to question " + NatToString(i + 1))
  }

  /** Five numbered cards, ids 1..5 in order, titled after the file. */
  function FallbackFlashcards(fileName: string, aboutContent: bool): (r: FlashcardSet)
    ensures r.title == "Flashcards: " + fileName
    ensures |r.cards| == 5 && UniqueCardIds(r.cards)
    ensures forall i :: 0 <= i < 5 ==> r.cards[i].id == i + 1
  {
    FlashcardSet("Flashcards: " + fileName,
      [FallbackCard(0, aboutContent), FallbackCard(1, aboutContent), FallbackCard(2, aboutContent),
       FallbackCard(3, aboutContent), FallbackCard(4, aboutContent)])
  }

  /** A draw of `Math.floor(Math.random() * 4)`, one per placeholder question. */
  predicate ValidPicks(picks: seq<int>)
  {
    |picks| == 3 && forall i :: 0 <= i < 3 ==> 0 <= picks[i] <= 3
  }

  function FallbackQuestion(i: nat, pick: int, aboutMaterial: bool): Question
  {
    Question(i + 1,
      "Question " + NatToString(i + 1) + (if aboutMaterial then " about the material" else ""),
      QuizOptions, pick)
  }

  /** Three questions, ids 1..3 in order, each with options A..D and a correct
      index in [0, 3]. */
  function FallbackQuiz(fileName: string, picks: seq<int>, aboutMaterial: bool): (r: Quiz)
    requires ValidPicks(picks)
    ensures r.title == "Quiz: " + fileName
    ensures |r.questions| == 3 && UniqueQuestionIds(r.questions)
    ensures forall i :: 0 <= i < 3 ==>
      r.questions[i].id == i + 1 && r.questions[i].options == QuizOptions &&
      WellFormedQuestion(r.questions[i])
  {
    Quiz("Quiz: " + fileName,
      [FallbackQuestion(0, picks[0], aboutMaterial), FallbackQuestion(1, picks[1], aboutMaterial),
       FallbackQuestion(2, picks[2], aboutMaterial)])
  }

  /** The text path: the heading split's title and at most its first five
      sections (none when the text has no headings). */
  function GuideFromText(title: string, sections: seq<Section>): (r: StudyGuide)
    ensures r.title == title
    ensures |r.content| <= 5 && |r.content| <= |sections| && r.content == sections[..|r.content|]
    ensures |sections| <= 5 ==> r.content == sections
    ensures |sections| > 5 ==> |r.content| == 5
  {
    StudyGuide(title, if |sections| > 5 then sections[..5] else sections)
  }

  /** The error path: one "Main Concepts" section with two key points. */
  function GuideAfterError(fileName: string): (r: StudyGuide)
    ensures r.title == "Study Guide: " + fileName
    ensures |r.content| == 1 && r.content[0].section == "Main Concepts"
    ensures |r.content[0].keyPoints| == 2
  {
    StudyGuide("Study Guide: " + fileName,
      [Section("Main Concepts",
               ["Key concept from document", "Important information extracted"],
               "Summary of the document content...")])
  }

  const PlaceholderAudioUrl := "https://example.com/audio.mp3"

  function AudioFor(fileName: string): AudioResource
  {
    AudioResource("Audio Summary: " + fileName, PlaceholderAudioUrl)
  }

  // ---------------------------------------------------------------------------
  // One artifact from one model reply

  /** `JSON.parse` on a candidate (None when it throws) and the heading split of
      the study-guide text path, both outside this model. */
  datatype Parsers = Parsers(
    studyGuide: string -> Option<StudyGuide>,
    flashcards: string -> Option<FlashcardSet>,
    quiz: string -> Option<Quiz>,
    headings: string -> (string, seq<Section>))

  /** The reply text is `None` when reading `candidates[0].content.parts[0].text`
      throws; that lands in the same catch as a parse error. */
  predicate Parses<T>(reply: Option<string>, parse: string -> Option<T>)
  {
    reply.Some? && JsonCandidate(reply.value).Some? && parse(JsonCandidate(reply.value).value).Some?
  }

  function StudyGuideArtifact(reply: Option<string>, fileName: string, parsers: Parsers): (r: StudyGuide)
    ensures Parses(reply, parsers.studyGuide) ==>
      r == parsers.studyGuide(JsonCandidate(reply.value).value).value
    ensures reply.Some? && JsonCandidate(reply.value).None? ==>
      r == GuideFromText(parsers.headings(reply.value).0, parsers.headings(reply.value).1)
    ensures !Parses(reply, parsers.studyGuide) && !(reply.Some? && JsonCandidate(reply.value).None?) ==>
      r == GuideAfterError(fileName)
  {
    match reply
    case None => GuideAfterError(fileName)
    case Some(text) =>
      match JsonCandidate(text)
      case Some(c) => (match parsers.studyGuide(c) case Some(g) => g case None => GuideAfterError(fileName))
      case None => GuideFromText(parsers.headings(text).0, parsers.headings(text).1)
  }

  function FlashcardsArtifact(reply: Option<string>, fileName: string, parsers: Parsers): (r: FlashcardSet)
    ensures Parses(reply, parsers.flashcards) ==>
      r == parsers.flashcards(JsonCandidate(reply.value).value).value
    ensures !Parses(reply, parsers.flashcards) ==>
      r == FallbackFlashcards(fileName, reply.Some? && JsonCandidate(reply.value).None?)
  {
    match reply
    case None => FallbackFlashcards(fileName, false)
    case Some(text) =>
      match JsonCandidate(text)
      case Some(c) => (match parsers.flashcards(c) case Some(f) => f case None => FallbackFlashcards(fileName, false))
      case None => FallbackFlashcards(fileName, true)
  }

  function QuizArtifact(reply: Option<string>, fileName: string, parsers: Parsers, picks: seq<int>): (r: Quiz)
    requires ValidPicks(picks)
    ensures Parses(reply, parsers.quiz) ==> r == parsers.quiz(JsonCandidate(reply.value).value).value
    ensures !Parses(reply, parsers.quiz) ==>
      r == FallbackQuiz(fileName, picks, reply.Some? && JsonCandidate(reply.value).None?)
  {
    match reply
    case None => FallbackQuiz(fileName, picks, false)
    case Some(text) =>
      match JsonCandidate(text)
      case Some(c) => (match parsers.quiz(c) case Some(q) => q case None => FallbackQuiz(fileName, picks, false))
      case None => FallbackQuiz(fileName, picks, true)
  }

  /** Whatever the model replies, the flashcards and the quiz that are not the
      parser's own value are well-formed placeholders with at least one entry. */
  lemma {:induction false} DegradedRepliesYieldPlaceholders(reply: Option<string>, fileName: string, parsers: Parsers, picks: seq<int>)
    requires ValidPicks(picks)
    ensures !Parses(reply, parsers.flashcards) ==>
      var f := FlashcardsArtifact(reply, fileName, parsers);
      |f.title| > 0 && |f.cards| == 5 && UniqueCardIds(f.cards)
    ensures !Parses(reply, parsers.quiz) ==>
      var q := QuizArtifact(reply, fileName, parsers, picks);
      |q.title| > 0 && |q.questions| == 3 && UniqueQuestionIds(q.questions) &&
      forall i :: 0 <= i < 3 ==> WellFormedQuestion(q.questions[i])
    ensures reply.None? ==> |StudyGuideArtifact(reply, fileName, parsers).content| == 1
  {
    var aboutContent := reply.Some? && JsonCandidate(reply.value).None?;
    var f := FallbackFlashcards(fileName, aboutContent);
    assert f.title[0] == 'F';
    var q := FallbackQuiz(fileName, picks, aboutContent);
    assert q.title[0] == 'Q';
  }

  /** The study guide is the one artifact without that guarantee: a reply with
      no JSON candidate and no `#` headings, such as "ok", splits into its
      title alone and yields a guide with no sections. */
  lemma HeadinglessReplyGivesEmptyGuide(fileName: string, parsers: Parsers)
    requires parsers.headings("ok") == ("ok", [])
    ensures StudyGuideArtifact(Some("ok"), fileName, parsers) == StudyGuide("ok", [])
  {
    var s := "ok";
    forall p: nat
      ensures !FenceAt(s, p)
    {
      assert !StartsAt(s, p, FenceOpen);
    }
    assert FencedMatch(s).None?;
    assert s[0] != '{' && s[1] != '{';
    assert BracedMatch(s).None?;
    assert JsonCandidate(s).None?;
  }

  // ---------------------------------------------------------------------------
  // The request handler

  datatype UploadedFile = UploadedFile(name: string, mimeType: string, decodedText: string)

  /** The `file` form field: absent, some other value, or a `File`. */
  datatype FormField = Missing | NotAFile | FilePart(file: UploadedFile)

  datatype Task = StudyGuideTask | FlashcardTask | QuizTask

  /** A model reply: a non-2xx status with its body, or a 2xx body whose first
      candidate text may be unreadable. */
  datatype ModelReply = HttpFailure(errorText: string) | Delivered(candidateText: Option<string>)

  datatype Response =
    | Generated(studyGuide: StudyGuide, flashcards: FlashcardSet, quiz: Quiz, audio: AudioResource)
    | Failed(error: string)

  /** `Deno.env.get` yields a usable key: present and not the empty string. */
  predicate HasKey(apiKey: Option<string>)
  {
    apiKey.Some? && apiKey.value != ""
  }

  /** The handler. The model is a function of the task and the (truncated)
      file text embedded into that task's fixed prompt template; `picks` are
      the random correct indices of a placeholder quiz. */
  method HandleRequest(field: FormField, apiKey: Option<string>, model: (Task, string) -> ModelReply,
                       parsers: Parsers, picks: seq<int>) returns (resp: Response)
    requires ValidPicks(picks)
    ensures !field.FilePart? ==> resp == Failed(NoFileProvided)
    ensures field.FilePart? && Classify(field.file.mimeType).Err? ==> resp == Failed(UnsupportedFileType)
    ensures field.FilePart? && Classify(field.file.mimeType).Ok? && !HasKey(apiKey) ==>
      resp == Failed(MissingApiKey)
    ensures field.FilePart? && Classify(field.file.mimeType).Ok? && HasKey(apiKey) ==>
      var text := Truncate(field.file.decodedText);
      var name := field.file.name;
      var g := model(StudyGuideTask, text);
      var f := model(FlashcardTask, text);
      var q := model(QuizTask, text);
      if g.HttpFailure? then resp == Failed("Failed to generate study guide: " + g.errorText)
      else if f.HttpFailure? then resp == Failed("Failed to generate flashcards: " + f.errorText)
      else if q.HttpFailure? then resp == Failed("Failed to generate quiz: " + q.errorText)
      else resp == Generated(StudyGuideArtifact(g.candidateText, name, parsers),
                             FlashcardsArtifact(f.candidateText, name, parsers),
                             QuizArtifact(q.candidateText, name, parsers, picks),
                             AudioFor(name))
  {
    if !field.FilePart? {
      return Failed(NoFileProvided);
    }
    var file := field.file;

    var fileContent := "";
    match Classify(file.mimeType) {
      case Err(e) =>
        return Failed(e);
      case Ok(_) =>
        fileContent := file.decodedText;
    }

    if |fileContent| > MaxLength {
      fileContent := fileContent[..MaxLength];
    }

    if !HasKey(apiKey) {
      return Failed(MissingApiKey);
    }

    var studyGuideReply := model(StudyGuideTask, fileContent);
    if studyGuideReply.HttpFailure? {
      return Failed("Failed to generate study guide: " + studyGuideReply.errorText);
    }
    var studyGuide := StudyGuideArtifact(studyGuideReply.candidateText, file.name, parsers);

    var flashcardReply := model(FlashcardTask, fileContent);
    if flashcardReply.HttpFailure? {
      return Failed("Failed to generate flashcards: " + flashcardReply.errorText);
    }
    var flashcards := FlashcardsArtifact(flashcardReply.candidateText, file.name, parsers);

    var quizReply := model(QuizTask, fileContent);
    if quizReply.HttpFailure? {
      return Failed("Failed to generate quiz: " + quizReply.errorText);
    }
    var quiz := QuizArtifact(quizReply.candidateText, file.name, parsers, picks);

    resp := Generated(studyGuide, flashcards, quiz, AudioFor(file.name));
  }
}

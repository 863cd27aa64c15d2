/** The four generated study artifacts, as the generation function returns
    them and the page hands them to the viewers. */
module Artifacts {

  datatype Section = Section(section: string, keyPoints: seq<string>, summary: string)

  datatype StudyGuide = StudyGuide(title: string, content: seq<Section>)

  datatype Flashcard = Flashcard(id: int, question: string, answer: string)

  datatype FlashcardSet = FlashcardSet(title: string, cards: seq<Flashcard>)

  datatype Question = Question(id: int, question: string, options: seq<string>, correctAnswerIndex: int)

  datatype Quiz = Quiz(title: string, questions: seq<Question>)

  datatype AudioResource = AudioResource(title: string, audioUrl: string)

  const QuizOptions: seq<string> := ["Option A", "Option B", "Option C", "Option D"]

  predicate UniqueCardIds(cards: seq<Flashcard>)
  {
    forall i, j :: 0 <= i < j < |cards| ==> cards[i].id != cards[j].id
  }

  predicate UniqueQuestionIds(questions: seq<Question>)
  {
    forall i, j :: 0 <= i < j < |questions| ==> questions[i].id != questions[j].id
  }

  /** Four options and a correct index that names one of them. */
  predicate WellFormedQuestion(q: Question)
  {
    |q.options| == 4 && 0 <= q.correctAnswerIndex < 4
  }
}

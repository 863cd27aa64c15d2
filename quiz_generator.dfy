/** The quiz component: one question at a time, a single selection that is
    locked by submitting, an append-only list of answer records, and a score
    reported upward when the last question is left. */
module QuizView {
  import opened Text
  import opened Artifacts

  datatype AnswerRecord = AnswerRecord(questionId: int, selectedIndex: int, isCorrect: bool)

  /** The record that submitting `selected` on question `q` appends. */
  function RecordFor(q: Question, selected: int): AnswerRecord
  {
    AnswerRecord(q.id, selected, selected == q.correctAnswerIndex)
  }

  /** `userAnswers.filter(a => a.isCorrect).length` */
  function CorrectCount(answers: seq<AnswerRecord>): (r: nat)
    ensures r <= |answers|
  {
    if |answers| == 0 then 0
    else (if answers[0].isCorrect then 1 else 0) + CorrectCount(answers[1..])
  }

  function IsCorrect(a: AnswerRecord): bool
  {
    a.isCorrect
  }

  /** The count is the length of the list of correct records. */
  lemma {:induction false} CorrectCountIsFilterLength(answers: seq<AnswerRecord>)
    ensures CorrectCount(answers) == |Filter(answers, IsCorrect)|
  {
    if |answers| > 0 {
      CorrectCountIsFilterLength(answers[1..]);
    }
  }

  /** Counting from the back: one more record adds one exactly when it is correct. */
  lemma {:induction false} CorrectCountAppend(s: seq<AnswerRecord>, a: AnswerRecord)
    ensures CorrectCount(s + [a]) == CorrectCount(s) + (if a.isCorrect then 1 else 0)
    decreases |s|
  {
    if |s| > 0 {
      assert (s + [a])[1..] == s[1..] + [a];
      CorrectCountAppend(s[1..], a);
    } else {
      assert (s + [a])[1..] == [];
    }
  }

  /** Independent reference: how many of the first |answers| questions were
      answered with their correct index. */
  function MatchCount(questions: seq<Question>, answers: seq<AnswerRecord>): nat
    requires |answers| <= |questions|
  {
    if |answers| == 0 then 0
    else
      var k := |answers| - 1;
      MatchCount(questions, answers[..k]) +
      (if answers[k].selectedIndex == questions[k].correctAnswerIndex then 1 else 0)
  }

  /** The k-th record answers the k-th question. */
  predicate Recorded(questions: seq<Question>, answers: seq<AnswerRecord>)
  {
    |answers| <= |questions| &&
    forall k :: 0 <= k < |answers| ==> answers[k] == RecordFor(questions[k], answers[k].selectedIndex)
  }

  /** The reported score counts exactly the submissions whose selected index
      equals the question's correct index. */
  lemma {:induction false} ScoreCountsMatches(questions: seq<Question>, answers: seq<AnswerRecord>)
    requires Recorded(questions, answers)
    ensures CorrectCount(answers) == MatchCount(questions, answers)
  {
    if |answers| > 0 {
      var k := |answers| - 1;
      assert Recorded(questions, answers[..k]);
      ScoreCountsMatches(questions, answers[..k]);
      assert answers == answers[..k] + [answers[k]];
      CorrectCountAppend(answers[..k], answers[k]);
    }
  }

  /** `Math.round(correct / total * 100)`, computed exactly: halves round up. */
  function Percentage(correct: nat, total: nat): (r: nat)
    requires total > 0
    ensures 2 * total * r <= 200 * correct + total < 2 * total * (r + 1)
    ensures correct <= total ==> r <= 100
  {
    var x, d := 200 * correct + total, 2 * total;
    DivBounds(x, d);
    RatioBound(correct, total);
    DivAtMost(x, d, 100);
    x / d
  }

  /** A score of at most the total stays below 100.5 %. */
  lemma RatioBound(correct: nat, total: nat)
    requires total > 0
    ensures correct <= total ==> 200 * correct + total < 2 * total * 101
  {
    if correct <= total {
      MulMonotone(200, correct, total);
    }
  }

  lemma DivBounds(x: nat, d: nat)
    requires d > 0
    ensures d * (x / d) <= x < d * (x / d + 1)
  {
  }

  lemma DivAtMost(x: nat, d: nat, m: nat)
    requires d > 0
    ensures x < d * (m + 1) ==> x / d <= m
  {
    DivBounds(x, d);
    if x < d * (m + 1) && x / d > m {
      MulMonotone(d, m + 1, x / d);
    }
  }

  lemma MulMonotone(d: nat, a: nat, b: nat)
    requires a <= b
    ensures d * a <= d * b
  {
  }

  datatype Band = Excellent | Good | NeedsMoreStudy

  /** The verdict under the score: at least 80 excellent, at least 60 good. */
  function BandOf(percentage: nat): Band
  {
    if percentage >= 80 then Excellent else if percentage >= 60 then Good else NeedsMoreStudy
  }

  /** The bands in terms of the raw score: excellent from 79.5 %, good from 59.5 %. */
  lemma BandOfScore(correct: nat, total: nat)
    requires total > 0
    ensures BandOf(Percentage(correct, total)) == Excellent <==> 200 * correct >= 159 * total
    ensures BandOf(Percentage(correct, total)) == NeedsMoreStudy <==> 200 * correct < 119 * total
  {
    var p := Percentage(correct, total);
    ThresholdIff(correct, total, p, 80);
    ThresholdIff(correct, total, p, 60);
  }

  /** A rounded percentage reaches `t` exactly when the raw ratio reaches t - 1/2. */
  lemma ThresholdIff(correct: nat, total: nat, p: nat, t: nat)
    requires total > 0 && t > 0
    requires 2 * total * p <= 200 * correct + total < 2 * total * (p + 1)
    ensures p >= t <==> 200 * correct >= (2 * t - 1) * total
  {
    if p >= t {
      MulMonotone(2 * total, t, p);
      assert 2 * total * t <= 2 * total * p;
    } else {
      MulMonotone(2 * total, p + 1, t);
      assert 2 * total * (p + 1) <= 2 * total * t;
    }
  }

  /** The component. `questions` is its prop; the render reads
      `questions[currentQuestionIndex]`, so the list is non-empty. */
  class QuizGenerator {
    const questions: seq<Question>
    var currentQuestionIndex: nat
    var selectedOption: Option<int>
    var isAnswerSubmitted: bool
    var userAnswers: seq<AnswerRecord>
    var quizCompleted: bool

    ghost predicate Valid()
      reads this
    {
      |questions| > 0 && currentQuestionIndex < |questions| &&
      Recorded(questions, userAnswers) &&
      (isAnswerSubmitted ==> selectedOption.Some? && |userAnswers| > 0 &&
                             userAnswers[|userAnswers| - 1].selectedIndex == selectedOption.value) &&
      if quizCompleted then
        |userAnswers| == |questions| && currentQuestionIndex == |questions| - 1 && !isAnswerSubmitted
      else
        |userAnswers| == currentQuestionIndex + (if isAnswerSubmitted then 1 else 0)
    }

    constructor (questions: seq<Question>)
      requires |questions| > 0
      ensures Valid() && this.questions == questions
      ensures currentQuestionIndex == 0 && selectedOption == None && !isAnswerSubmitted
      ensures userAnswers == [] && !quizCompleted
    {
      this.questions := questions;
      currentQuestionIndex := 0;
      selectedOption := None;
      isAnswerSubmitted := false;
      userAnswers := [];
      quizCompleted := false;
    }

    /** Choosing an option button; ignored once the answer is submitted. */
    method SelectOption(optionIndex: int)
      requires Valid() && !quizCompleted
      requires 0 <= optionIndex < |questions[currentQuestionIndex].options|
      modifies this
      ensures Valid()
      ensures selectedOption == if old(isAnswerSubmitted) then old(selectedOption) else Some(optionIndex)
      ensures currentQuestionIndex == old(currentQuestionIndex) && isAnswerSubmitted == old(isAnswerSubmitted)
      ensures userAnswers == old(userAnswers) && quizCompleted == old(quizCompleted)
    {
      if !isAnswerSubmitted {
        selectedOption := Some(optionIndex);
      }
    }

    /** Submitting, offered only while not submitted: appends the record for the
      current question and locks the selection; without a selection nothing happens. */
    method SubmitAnswer()
      requires Valid() && !quizCompleted && !isAnswerSubmitted
      modifies this
      ensures Valid()
      ensures old(selectedOption).None? ==> isAnswerSubmitted == old(isAnswerSubmitted) && userAnswers == old(userAnswers)
      ensures old(selectedOption).Some? ==>
        isAnswerSubmitted &&
        userAnswers == old(userAnswers) + [RecordFor(questions[currentQuestionIndex], old(selectedOption).value)]
      ensures selectedOption == old(selectedOption) && currentQuestionIndex == old(currentQuestionIndex)
      ensures quizCompleted == old(quizCompleted)
    {
      if selectedOption.None? {
        return;
      }
      var currentQuestion := questions[currentQuestionIndex];
      var isCorrect := selectedOption.value == currentQuestion.correctAnswerIndex;
      var answer := AnswerRecord(currentQuestion.id, selectedOption.value, isCorrect);
      userAnswers := userAnswers + [answer];
      isAnswerSubmitted := true;
    }

    /** "Next question" / "Finish quiz", offered only after submitting. Leaving
      the last question completes the quiz and reports (score, total), where the
      score counts the questions answered with their correct index. */
    method NextQuestion() returns (report: Option<(nat, nat)>)
      requires Valid() && !quizCompleted && isAnswerSubmitted
      modifies this
      ensures Valid()
      ensures selectedOption == None && !isAnswerSubmitted && userAnswers == old(userAnswers)
      ensures old(currentQuestionIndex) < |questions| - 1 ==>
        currentQuestionIndex == old(currentQuestionIndex) + 1 && !quizCompleted && report == None
      ensures old(currentQuestionIndex) == |questions| - 1 ==>
        currentQuestionIndex == old(currentQuestionIndex) && quizCompleted &&
        report == Some((CorrectCount(userAnswers), |questions|))
      ensures report.Some? ==>
        |userAnswers| == |questions| && report.value.0 == MatchCount(questions, userAnswers)
    {
      selectedOption := None;
      isAnswerSubmitted := false;

      if currentQuestionIndex < |questions| - 1 {
        currentQuestionIndex := currentQuestionIndex + 1;
        report := None;
      } else {
        quizCompleted := true;
        var correctAnswers := CorrectCount(userAnswers);
        ScoreCountsMatches(questions, userAnswers);
        report := Some((correctAnswers, |questions|));
      }
    }

    method RestartQuiz()
      requires Valid()
      modifies this
      ensures Valid()
      ensures currentQuestionIndex == 0 && selectedOption == None && !isAnswerSubmitted
      ensures userAnswers == [] && !quizCompleted
    {
      currentQuestionIndex := 0;
      selectedOption := None;
      isAnswerSubmitted := false;
      userAnswers := [];
      quizCompleted := false;
    }

    /** The completed screen: the score, its rounded percentage and its band. */
    method Summary() returns (correct: nat, percentage: nat, band: Band)
      requires Valid() && quizCompleted
      ensures correct == MatchCount(questions, userAnswers) && correct <= |questions|
      ensures percentage == Percentage(correct, |questions|) && percentage <= 100
      ensures band == BandOf(percentage)
    {
      correct := CorrectCount(userAnswers);
      ScoreCountsMatches(questions, userAnswers);
      percentage := Percentage(correct, |questions|);
      band := BandOf(percentage);
    }
  }
}

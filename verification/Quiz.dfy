/**
 * The multiple-choice quiz screen (components/QuizMode.tsx). `startQuiz` is
 * split at its `await` into `BeginStart` and `FinishStart`; `StartQuiz` runs
 * both with the generator in between.
 */
module Quiz {
  import opened Types
  import opened GeminiService

  /** Knowledge text up to this many characters is replaced by a generic topic. */
  const MinContextLength := 50

  const GenericQuizTopic := "Genera preguntas generales sobre Hacienda Pública: Fallos del mercado, Bienes públicos, Externalidades, Presupuestos y Déficit."

  /** What the generator receives: the knowledge text only when it is long enough. */
  function QuizContext(knowledge: string): (r: string)
    ensures r == knowledge <==> |knowledge| > MinContextLength
    ensures r != knowledge ==> r == GenericQuizTopic
  {
    assert |GenericQuizTopic| > MinContextLength;
    if |knowledge| > MinContextLength then knowledge else GenericQuizTopic
  }

  /**
   * How many of the first |picks| questions were answered with the right
   * option; never more than the answers given.
   */
  function Correct(questions: seq<QuizQuestion>, picks: seq<int>): (n: nat)
    requires |picks| <= |questions|
    ensures n <= |picks|
  {
    if picks == [] then 0
    else
      var n := |picks| - 1;
      Correct(questions, picks[..n]) + (if picks[n] == questions[n].correctAnswerIndex then 1 else 0)
  }

  /** The positions where the pick equals the question's correct index. */
  ghost function Hits(questions: seq<QuizQuestion>, picks: seq<int>): set<nat>
    requires |picks| <= |questions|
  {
    set i: nat | i < |picks| && picks[i] == questions[i].correctAnswerIndex
  }

  /** The running score is exactly the number of correctly answered questions. */
  lemma {:induction false} CorrectCountsHits(questions: seq<QuizQuestion>, picks: seq<int>)
    requires |picks| <= |questions|
    ensures Correct(questions, picks) == |Hits(questions, picks)|
  {
    if picks != [] {
      var n := |picks| - 1;
      CorrectCountsHits(questions, picks[..n]);
      var before := Hits(questions, picks[..n]);
      if picks[n] == questions[n].correctAnswerIndex {
        assert Hits(questions, picks) == before + {n};
        assert n !in before;
      } else {
        assert Hits(questions, picks) == before;
      }
    }
  }

  class QuizRunner {
    var questions: seq<QuizQuestion>
    var currentIdx: nat
    var selectedAnswer: Option<int>
    var showExplanation: bool
    var isLoading: bool
    var score: nat
    var isFinished: bool
    /** The options locked in so far, one per answered question, in order. */
    ghost var answered: seq<int>

    /**
     * The current question exists whenever there are questions; an answer
     * is locked in exactly while the explanation shows; the score counts the
     * correct answers; a finished quiz stopped on its last, answered question.
     */
    ghost predicate Valid()
      reads this
    {
      && (currentIdx < |questions| || (questions == [] && currentIdx == 0))
      && |answered| == currentIdx + (if selectedAnswer.Some? then 1 else 0)
      && |answered| <= |questions|
      && (selectedAnswer.Some? ==> answered[|answered| - 1] == selectedAnswer.value)
      && showExplanation == selectedAnswer.Some?
      && score == Correct(questions, answered)
      && (isFinished ==> selectedAnswer.Some? && currentIdx == |questions| - 1)
    }

    constructor ()
      ensures Valid()
      ensures questions == [] && currentIdx == 0 && selectedAnswer == None
      ensures !showExplanation && !isLoading && score == 0 && !isFinished
    {
      questions := [];
      currentIdx := 0;
      selectedAnswer := None;
      showExplanation := false;
      isLoading := false;
      score := 0;
      isFinished := false;
      answered := [];
    }

    /** The score shown on the results screen never exceeds the number of questions. */
    lemma ScoreBounded()
      requires Valid()
      ensures score <= |answered| <= |questions|
      ensures isFinished ==> |answered| == |questions| && score == |Hits(questions, answered)|
    {
      CorrectCountsHits(questions, answered);
    }

    /** `startQuiz` before the call: the loading screen shows. */
    method BeginStart()
      modifies this`isLoading
      ensures isLoading
    {
      isLoading := true;
    }

    /**
     * `startQuiz` after the call: new questions reset the run to the first
     * question with no answer and no score; if the awaited call threw, only
     * the loading flag changes. Loading ends either way.
     */
    method FinishStart(outcome: Option<seq<QuizQuestion>>)
      requires Valid()
      modifies this
      ensures Valid() && !isLoading
      ensures outcome.Some? ==>
        && questions == outcome.value && currentIdx == 0 && selectedAnswer == None
        && !showExplanation && score == 0 && !isFinished
      ensures outcome.None? ==>
        && questions == old(questions) && currentIdx == old(currentIdx)
        && selectedAnswer == old(selectedAnswer) && showExplanation == old(showExplanation)
        && score == old(score) && isFinished == old(isFinished)
    {
      if outcome.Some? {
        questions := outcome.value;
        currentIdx := 0;
        selectedAnswer := None;
        showExplanation := false;
        score := 0;
        isFinished := false;
        answered := [];
      }
      isLoading := false;
    }

    /** `startQuiz`: the generator gets `QuizContext` and its questions start a fresh run. */
    method StartQuiz(knowledge: string, generate: string -> GenReply<seq<QuizQuestion>>)
      requires Valid()
      modifies this
      ensures Valid() && !isLoading
      ensures questions == GenerateQuiz(QuizContext(knowledge), generate)
      ensures currentIdx == 0 && selectedAnswer == None && !showExplanation && score == 0 && !isFinished
    {
      BeginStart();
      var context := QuizContext(knowledge);
      var qs := GenerateQuiz(context, generate);
      FinishStart(Some(qs));
    }

    /**
     * `handleAnswer`: the first choice on a question is locked in, shows the
     * explanation and adds one to the score exactly when it is the correct
     * option; any later choice changes nothing.
     */
    method HandleAnswer(idx: int)
      requires Valid() && |questions| > 0
      modifies this
      ensures Valid()
      ensures old(selectedAnswer).Some? ==> unchanged(this)
      ensures old(selectedAnswer).None? ==>
        && selectedAnswer == Some(idx) && showExplanation
        && score == old(score) + (if idx == questions[currentIdx].correctAnswerIndex then 1 else 0)
        && questions == old(questions) && currentIdx == old(currentIdx)
        && isFinished == old(isFinished) && isLoading == old(isLoading)
    {
      if selectedAnswer.Some? {
        return;
      }
      selectedAnswer := Some(idx);
      showExplanation := true;
      assert (answered + [idx])[..|answered|] == answered;
      answered := answered + [idx];
      if idx == questions[currentIdx].correctAnswerIndex {
        score := score + 1;
      }
    }

    /**
     * `handleNext`, offered only under a shown explanation: before the last
     * question it moves on by one and clears the answer; on the last it
     * finishes and leaves the index where it is.
     */
    method HandleNext()
      requires Valid() && showExplanation
      modifies this
      ensures Valid()
      ensures old(currentIdx) < |questions| - 1 ==>
        && currentIdx == old(currentIdx) + 1 && selectedAnswer == None && !showExplanation
        && isFinished == old(isFinished)
      ensures old(currentIdx) >= |questions| - 1 ==>
        && isFinished && currentIdx == old(currentIdx)
        && selectedAnswer == old(selectedAnswer) && showExplanation == old(showExplanation)
      ensures questions == old(questions) && score == old(score) && isLoading == old(isLoading)
    {
      if currentIdx < |questions| - 1 {
        currentIdx := currentIdx + 1;
        selectedAnswer := None;
        showExplanation := false;
      } else {
        isFinished := true;
      }
    }
  }
}

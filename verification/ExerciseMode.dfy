/**
 * The worked-exercise screen (components/ExerciseMode.tsx). `createExercise`
 * is split at its `await` into `BeginCreate` and `FinishCreate`;
 * `CreateExercise` runs both with the generator in between.
 */
module ExerciseMode {
  import opened Types
  import opened GeminiService

  /** Knowledge text up to this many characters is replaced by a generic topic. */
  const MinContextLength := 50

  const GenericExerciseTopic := "Crea un ejercicio numérico de Hacienda Pública sobre oferta y demanda con impuestos, pérdida de eficiencia social o externalidades."

  /** What the generator receives: the knowledge text only when it is long enough. */
  function ExerciseContext(knowledge: string): (r: string)
    ensures r == knowledge <==> |knowledge| > MinContextLength
    ensures r != knowledge ==> r == GenericExerciseTopic
  {
    assert |GenericExerciseTopic| > MinContextLength;
    if |knowledge| > MinContextLength then knowledge else GenericExerciseTopic
  }

  /** Which of the screen's three layouts is rendered. */
  datatype Screen =
    | Loading
    | StartScreen
    | Problem(exercise: Exercise, solutionShown: bool)

  class ExerciseSession {
    var exercise: Option<Exercise>
    var isLoading: bool
    var showSolution: bool

    constructor ()
      ensures exercise == None && !isLoading && !showSolution
    {
      exercise := None;
      isLoading := false;
      showSolution := false;
    }

    /**
     * The layout: loading wins; without an exercise the start screen shows
     * whatever the solution flag says; otherwise the problem, with the
     * solution exactly when the flag is set.
     */
    function View(): (s: Screen)
      reads this
      ensures s == Loading <==> isLoading
      ensures s == StartScreen <==> !isLoading && exercise.None?
      ensures s.Problem? ==> exercise == Some(s.exercise) && s.solutionShown == showSolution
    {
      if isLoading then Loading
      else if exercise.None? then StartScreen
      else Problem(exercise.value, showSolution)
    }

    /** `createExercise` before the call: loading shows and the solution is hidden. */
    method BeginCreate()
      modifies this`isLoading, this`showSolution
      ensures isLoading && !showSolution
    {
      isLoading := true;
      showSolution := false;
    }

    /**
     * `createExercise` after the call: the exercise is replaced only by a
     * result; if the awaited call threw the previous one stays. Loading ends
     * either way.
     */
    method FinishCreate(outcome: Option<Exercise>)
      modifies this`exercise, this`isLoading
      ensures exercise == if outcome.Some? then outcome else old(exercise)
      ensures !isLoading
    {
      if outcome.Some? {
        exercise := outcome;
      }
      isLoading := false;
    }

    /**
     * `createExercise`: the generator gets `ExerciseContext`; since the
     * facade absorbs failures, the new exercise is what it returns (the
     * error sentinel on failure), shown with its solution hidden.
     */
    method CreateExercise(knowledge: string, generate: string -> GenReply<Exercise>)
      modifies this
      ensures exercise == Some(GenerateExercise(ExerciseContext(knowledge), generate))
      ensures !isLoading && !showSolution
      ensures View() == Problem(exercise.value, false)
    {
      BeginCreate();
      var context := ExerciseContext(knowledge);
      var ex := GenerateExercise(context, generate);
      FinishCreate(Some(ex));
    }

    /** "Show solution". */
    method ShowSolution()
      modifies this`showSolution
      ensures showSolution
    {
      showSolution := true;
    }

    /** "Hide". */
    method HideSolution()
      modifies this`showSolution
      ensures !showSolution
    {
      showSolution := false;
    }
  }
}

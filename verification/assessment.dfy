/**
 * The personalised career assessment: a wizard over three questions that
 * records one answer per question, moves forward and back one step at a
 * time, completes after the last question, and can be restarted.
 */
module Assessment {

  /** The ids of the questions, in the order they are asked. */
  const QuestionIds: seq<string> := ["q1", "q2", "q3"]

  /** The ids of the options every question offers. */
  const OptionIds: seq<string> := ["a", "b", "c", "d"]

  /** The share of the questions already passed, as the progress bar fills it. */
  function Progress(step: nat): (p: real)
    requires step < |QuestionIds|
    ensures 0.0 <= p < 1.0
    ensures p * |QuestionIds| as real == step as real
  {
    step as real / |QuestionIds| as real
  }

  /**
   * `Math.round` of the progress in percent: the whole number nearest to
   * 100 * step / 3, halves rounded up.
   */
  function PercentComplete(step: nat): (pct: int)
    requires step < |QuestionIds|
    ensures 0 <= pct < 100
    ensures 2 * |QuestionIds| * pct <= 200 * step + |QuestionIds| < 2 * |QuestionIds| * (pct + 1)
  {
    (200 * step + |QuestionIds|) / (2 * |QuestionIds|)
  }

  /** The caption of the forward button: the last question completes the assessment. */
  function NextCaption(step: nat): (caption: string)
    ensures caption == "Complete Assessment" <==> step == |QuestionIds| - 1
  {
    if step == |QuestionIds| - 1 then "Complete Assessment" else "Next Question"
  }

  class PersonalizedAssessment {
    var currentStep: nat
    var answers: map<string, string>
    var completed: bool

    /** The step always names a question. */
    ghost predicate Valid()
      reads this
    {
      currentStep < |QuestionIds|
    }

    /** The question has an answer the Next button accepts: present and not empty. */
    predicate Answered(questionId: string)
      reads this
    {
      questionId in answers && answers[questionId] != ""
    }

    /**
     * Every question before the current one is answered, and all of them
     * are once the assessment is completed.
     */
    ghost predicate AnsweredSoFar()
      reads this
    {
      (forall i :: 0 <= i < currentStep && i < |QuestionIds| ==> Answered(QuestionIds[i])) &&
      (completed ==> forall i :: 0 <= i < |QuestionIds| ==> Answered(QuestionIds[i]))
    }

    /** An option is checked exactly when it is the recorded answer to its question. */
    predicate Checked(questionId: string, optionId: string)
      reads this
    {
      questionId in answers && answers[questionId] == optionId
    }

    constructor()
      ensures currentStep == 0 && answers == map[] && !completed
      ensures Valid() && AnsweredSoFar()
    {
      currentStep := 0;
      answers := map[];
      completed := false;
    }

    /** `handleAnswer`: records the answer to one question, overwriting an earlier one. */
    method HandleAnswer(questionId: string, answerId: string)
      modifies this`answers
      ensures answers == old(answers)[questionId := answerId]
      ensures Checked(questionId, answerId)
      ensures forall q | q != questionId :: Answered(q) == old(Answered(q))
      ensures old(AnsweredSoFar()) && answerId != "" ==> AnsweredSoFar()
    {
      answers := answers[questionId := answerId];
    }

    /** `handleNext`: one question forward, or completion at the last question. */
    method HandleNext()
      requires Valid()
      modifies this`currentStep, this`completed
      ensures Valid()
      ensures old(currentStep) < |QuestionIds| - 1 ==> currentStep == old(currentStep) + 1 && completed == old(completed)
      ensures old(currentStep) == |QuestionIds| - 1 ==> currentStep == old(currentStep) && completed
    {
      if currentStep < |QuestionIds| - 1 {
        currentStep := currentStep + 1;
      } else {
        completed := true;
      }
    }

    /** `handlePrevious`: one question back, and nothing at the first question. */
    method HandlePrevious()
      requires Valid()
      modifies this`currentStep
      ensures Valid()
      ensures old(currentStep) == 0 ==> currentStep == 0
      ensures old(currentStep) > 0 ==> currentStep == old(currentStep) - 1
      ensures old(AnsweredSoFar()) ==> AnsweredSoFar()
    {
      if currentStep > 0 {
        currentStep := currentStep - 1;
      }
    }

    /** `handleReset`: back to the first question with no answers, not completed. */
    method HandleReset()
      modifies this
      ensures currentStep == 0 && answers == map[] && !completed
      ensures Valid() && AnsweredSoFar()
    {
      currentStep := 0;
      answers := map[];
      completed := false;
    }

    /**
     * Choosing an option of the question on screen; the options are only
     * shown while the assessment is not completed.
     */
    method ChooseOption(optionId: string)
      requires Valid() && AnsweredSoFar() && optionId in OptionIds
      modifies this`answers
      ensures !old(completed) ==> answers == old(answers)[QuestionIds[currentStep] := optionId]
      ensures old(completed) ==> answers == old(answers)
      ensures Valid() && AnsweredSoFar()
    {
      if !completed {
        HandleAnswer(QuestionIds[currentStep], optionId);
      }
    }

    /**
     * Pressing the forward button: it is disabled until the question on
     * screen has an answer, and hidden once the assessment is completed.
     */
    method PressNext()
      requires Valid() && AnsweredSoFar()
      modifies this`currentStep, this`completed
      ensures Valid() && AnsweredSoFar()
      ensures old(completed) || !old(Answered(QuestionIds[currentStep])) ==>
        currentStep == old(currentStep) && completed == old(completed)
      ensures !old(completed) && old(Answered(QuestionIds[currentStep])) ==>
        if old(currentStep) < |QuestionIds| - 1 then currentStep == old(currentStep) + 1 && !completed
        else currentStep == old(currentStep) && completed
    {
      if !completed && Answered(QuestionIds[currentStep]) {
        HandleNext();
      }
    }
  }
}

// The stress questionnaire wizard
// (src/app/home/modals/stress-assessment-modal/stress-assessment-modal.component.ts):
// fifteen questions answered 0..4, one per step, scored on 0..100 and
// mapped to a level with a fixed list of recommendation keys.

module StressAssessment {
  import opened Common

  datatype Category = Work | Sleep | Physical | Emotional

  datatype Question = Question(id: string, category: Category)

  datatype Level = Low | Moderate | High

  /** `timestamp` stands for the `Date` of submission. */
  datatype AssessmentResult = AssessmentResult(score: int, level: Level, recommendations: seq<string>, timestamp: int)

  /** The questionnaire in its fixed order: work, sleep, physical, emotional. */
  const Questions: seq<Question> := [
    Question("work_1", Work), Question("work_2", Work), Question("work_3", Work),
    Question("work_4", Work), Question("work_5", Work),
    Question("sleep_1", Sleep), Question("sleep_2", Sleep), Question("sleep_3", Sleep),
    Question("physical_1", Physical), Question("physical_2", Physical),
    Question("physical_3", Physical), Question("physical_4", Physical),
    Question("emotional_1", Emotional), Question("emotional_2", Emotional), Question("emotional_3", Emotional)
  ]

  const TotalQuestions: int := |Questions|

  /** The highest raw total: four points per question. */
  const MaxScore: int := TotalQuestions * 4

  predicate IsQuestionId(id: string)
  {
    exists i :: 0 <= i < |Questions| && Questions[i].id == id
  }

  /** The answer values in question order; an unanswered question counts 0. */
  function AnswerValues(answers: map<string, int>): (r: seq<int>)
    ensures |r| == |Questions|
    ensures forall i :: 0 <= i < |r| && Questions[i].id in answers ==> r[i] == answers[Questions[i].id]
  {
    seq(|Questions|, i requires 0 <= i < |Questions| =>
      if Questions[i].id in answers then answers[Questions[i].id] else 0)
  }

  /** The raw total of the answers. */
  function Total(answers: map<string, int>): int
  {
    Sum(AnswerValues(answers))
  }

  /** Math.round(total / 60 * 100); the quotient is never a half, so the float division rounds as the exact one. */
  function Score(total: int): (r: int)
    ensures 0 <= total <= MaxScore ==> 0 <= r <= 100
  {
    RoundDiv(total * 100, MaxScore)
  }

  /** The level thresholds 33 and 67. */
  function LevelOf(score: int): (r: Level)
    ensures r == Low <==> score < 33
    ensures r == High <==> score >= 67
  {
    if score < 33 then Low else if score < 67 then Moderate else High
  }

  /** `generateRecommendations`. */
  function Recommendations(level: Level): (r: seq<string>)
    ensures |r| == if level == Low then 3 else 4
  {
    match level
    case Low =>
      ["modals.stressAssessment.recommendations.low_1", "modals.stressAssessment.recommendations.low_2",
       "modals.stressAssessment.recommendations.low_3"]
    case Moderate =>
      ["modals.stressAssessment.recommendations.moderate_1", "modals.stressAssessment.recommendations.moderate_2",
       "modals.stressAssessment.recommendations.moderate_3", "modals.stressAssessment.recommendations.moderate_4"]
    case High =>
      ["modals.stressAssessment.recommendations.high_1", "modals.stressAssessment.recommendations.high_2",
       "modals.stressAssessment.recommendations.high_3", "modals.stressAssessment.recommendations.high_4"]
  }

  lemma {:induction false} SumBounds(s: seq<int>)
    requires forall i :: 0 <= i < |s| ==> 0 <= s[i] <= 4
    ensures 0 <= Sum(s) <= 4 * |s|
  {
    if s != [] {
      SumBounds(s[..|s| - 1]);
    }
  }

  /** With every stored answer in 0..4 the score lies in 0..100. */
  lemma ScoreBounds(answers: map<string, int>)
    requires forall k :: k in answers ==> 0 <= answers[k] <= 4
    ensures 0 <= Total(answers) <= MaxScore
    ensures 0 <= Score(Total(answers)) <= 100
  {
    SumBounds(AnswerValues(answers));
  }

  /** The level in terms of the raw total: low up to 19 points, high from 40. */
  lemma LevelByTotal(total: int)
    ensures LevelOf(Score(total)) == Low <==> total <= 19
    ensures LevelOf(Score(total)) == Moderate <==> 20 <= total <= 39
    ensures LevelOf(Score(total)) == High <==> total >= 40
  {
  }

  /** A higher total never gives a lower level. */
  lemma LevelMonotone(t1: int, t2: int)
    requires t1 <= t2
    ensures LevelOf(Score(t1)) == High ==> LevelOf(Score(t2)) == High
    ensures LevelOf(Score(t2)) == Low ==> LevelOf(Score(t1)) == Low
  {
    RoundDivMonotone(t1 * 100, t2 * 100, MaxScore);
  }

  /** `progress`: 100 when complete, else round((step + 1) / 15 * 100), which is within 7..100 on a question. */
  function Progress(step: int, complete: bool): (r: int)
    ensures complete ==> r == 100
    ensures !complete && 0 <= step < TotalQuestions ==> 7 <= r <= 100
  {
    if complete then 100
    else if 0 <= step < TotalQuestions then
      RoundDivMonotone(100, (step + 1) * 100, TotalQuestions);
      RoundDivMonotone((step + 1) * 100, 1500, TotalQuestions);
      RoundDiv((step + 1) * 100, TotalQuestions)
    else RoundDiv((step + 1) * 100, TotalQuestions)
  }

  /** Progress runs from 7 on the first question to 100 on the last and never falls while stepping forward. */
  lemma ProgressRange(step: int, next: int)
    requires 0 <= step <= next < TotalQuestions
    ensures 7 <= Progress(step, false) <= Progress(next, false) <= 100
    ensures Progress(step, false) == 100 <==> step == TotalQuestions - 1
  {
    RoundDivMonotone((step + 1) * 100, (next + 1) * 100, TotalQuestions);
    RoundDivMonotone(100, (step + 1) * 100, TotalQuestions);
    RoundDivMonotone((next + 1) * 100, 1500, TotalQuestions);
    if step < TotalQuestions - 1 {
      RoundDivMonotone((step + 1) * 100, 1400, TotalQuestions);
    }
  }

  /** The wizard. */
  class StressAssessmentModal {
    var currentStep: int
    /** Question id to the selected value. */
    var answers: map<string, int>
    var isComplete: bool
    var result: Option<AssessmentResult>
    /** The results emitted on `completed`. */
    var emitted: seq<AssessmentResult>
    /** How many times `close` was emitted. */
    var closeEvents: nat

    /**
     * The step is a question index, answers are only kept for questions,
     * every question before the current one is answered, and a result
     * exists exactly when the wizard is complete.
     */
    ghost predicate Valid()
      reads this
    {
      0 <= currentStep < TotalQuestions &&
      (forall k :: k in answers ==> IsQuestionId(k)) &&
      (forall i :: 0 <= i < currentStep ==> Questions[i].id in answers) &&
      (isComplete <==> result.Some?)
    }

    constructor ()
      ensures Valid() && currentStep == 0 && answers == map[] && !isComplete && result.None?
      ensures emitted == [] && closeEvents == 0
    {
      currentStep := 0;
      answers := map[];
      isComplete := false;
      result := None;
      emitted := [];
      closeEvents := 0;
    }

    /** `currentQuestion`: always one of the fifteen questions. */
    function CurrentQuestion(): (r: Question)
      reads this
      requires 0 <= currentStep < TotalQuestions
      ensures IsQuestionId(r.id)
    {
      Questions[currentStep]
    }

    predicate IsCurrentQuestionAnswered()
      reads this
      requires 0 <= currentStep < TotalQuestions
    {
      CurrentQuestion().id in answers
    }

    /** `canGoNext`: never offered together with submitting. */
    predicate CanGoNext()
      reads this
      requires 0 <= currentStep < TotalQuestions
      ensures CanGoNext() ==> !CanSubmit()
    {
      IsCurrentQuestionAnswered() && currentStep < TotalQuestions - 1
    }

    /** `canGoPrevious`: going back always lands on a question already answered. */
    predicate CanGoPrevious()
      reads this
      ensures Valid() && CanGoPrevious() ==> 0 < currentStep && Questions[currentStep - 1].id in answers
    {
      currentStep > 0 && !isComplete
    }

    /** `canSubmit`: only on the answered last question, where the progress reads 100. */
    predicate CanSubmit()
      reads this
      requires 0 <= currentStep < TotalQuestions
      ensures CanSubmit() ==> Progress(currentStep, false) == 100
    {
      currentStep == TotalQuestions - 1 && IsCurrentQuestionAnswered()
    }

    /** `selectAnswer`: only the current question's entry changes. */
    method SelectAnswer(value: int)
      requires Valid()
      modifies this`answers
      ensures Valid() && answers == old(answers)[Questions[currentStep].id := value]
    {
      var question := Questions[currentStep];
      answers := answers[question.id := value];
    }

    /** `nextStep`: one step forward, only from an answered question that is not the last. */
    method NextStep()
      requires Valid()
      modifies this`currentStep
      ensures Valid()
      ensures old(CanGoNext()) ==> currentStep == old(currentStep) + 1
      ensures !old(CanGoNext()) ==> currentStep == old(currentStep)
    {
      if CanGoNext() {
        currentStep := currentStep + 1;
      }
    }

    /** `previousStep`: one step back, only from a step above 0 while not complete. */
    method PreviousStep()
      requires Valid()
      modifies this`currentStep
      ensures Valid()
      ensures old(CanGoPrevious()) ==> currentStep == old(currentStep) - 1
      ensures !old(CanGoPrevious()) ==> currentStep == old(currentStep)
    {
      if CanGoPrevious() {
        currentStep := currentStep - 1;
      }
    }

    /**
     * `submitAssessment`: nothing unless `canSubmit`; then every question is
     * answered and the result carries the score, its level and that level's
     * recommendations.
     */
    method SubmitAssessment(now: int)
      requires Valid()
      modifies this`isComplete, this`result
      ensures Valid()
      ensures !old(CanSubmit()) ==> isComplete == old(isComplete) && result == old(result)
      ensures old(CanSubmit()) ==>
        (forall i :: 0 <= i < TotalQuestions ==> Questions[i].id in answers) &&
        isComplete &&
        result == Some(AssessmentResult(Score(Total(answers)), LevelOf(Score(Total(answers))),
                                        Recommendations(LevelOf(Score(Total(answers)))), now))
    {
      if !CanSubmit() {
        return;
      }
      var totalScore := Total(answers);
      var normalizedScore := Score(totalScore);
      var level: Level;
      if normalizedScore < 33 {
        level := Low;
      } else if normalizedScore < 67 {
        level := Moderate;
      } else {
        level := High;
      }
      result := Some(AssessmentResult(normalizedScore, level, Recommendations(level), now));
      isComplete := true;
    }

    /** `saveResults`: with a result, emit it and close. */
    method SaveResults()
      modifies this`emitted, this`closeEvents
      ensures result.Some? ==> emitted == old(emitted) + [result.value] && closeEvents == old(closeEvents) + 1
      ensures result.None? ==> emitted == old(emitted) && closeEvents == old(closeEvents)
    {
      if result.Some? {
        emitted := emitted + [result.value];
        closeEvents := closeEvents + 1;
      }
    }

    /** `retakeAssessment`: back to the first question with no answers and no result. */
    method RetakeAssessment()
      modifies this`currentStep, this`answers, this`isComplete, this`result
      ensures Valid() && currentStep == 0 && answers == map[] && !isComplete && result.None?
    {
      currentStep := 0;
      answers := map[];
      isComplete := false;
      result := None;
    }
  }
}

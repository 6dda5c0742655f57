/** `QuizViewModel`: the question list, the index of the question on screen, and one answer
    buffer per question variant. Navigation moves only the index; the UI's answer controls
    write the buffers. */
module ViewModel {
  import opened Wrappers
  import opened Questions
  import opened Navigation
  import opened Answers

  class QuizViewModel {
    const questions: seq<Question>
    var currentQuestionIndex: int

    // one buffer per question variant
    var selectedAnswerTF: Option<bool>
    var selectedOptionMCS: Option<string>
    var selectedOptionsMCM: seq<string>
    var textAnswer: string

    /** The index always names a question of the (non-empty) list. */
    ghost predicate Valid()
      reads this
    {
      0 <= currentQuestionIndex < |questions|
    }

    constructor ()
      ensures Valid()
      ensures questions == QuizQuestions() && |questions| == 4
      ensures currentQuestionIndex == 0 && questions[0].TrueFalseQuestion?
      ensures selectedAnswerTF == None && selectedOptionMCS == None
      ensures selectedOptionsMCM == [] && textAnswer == ""
    {
      questions := QuizQuestions();
      currentQuestionIndex := 0;
      selectedAnswerTF := None;
      selectedOptionMCS := None;
      selectedOptionsMCM := [];
      textAnswer := "";
    }

    /** "Next": one question forward, nothing at the last one; no buffer is touched. */
    method NextQuestion()
      requires Valid()
      modifies this`currentQuestionIndex
      ensures Valid()
      ensures currentQuestionIndex == NextIndex(old(currentQuestionIndex), |questions|)
      ensures old(currentQuestionIndex) < |questions| - 1 ==>
                currentQuestionIndex == old(currentQuestionIndex) + 1
      ensures old(currentQuestionIndex) == |questions| - 1 ==>
                currentQuestionIndex == old(currentQuestionIndex)
      ensures unchanged(this`selectedAnswerTF, this`selectedOptionMCS,
                        this`selectedOptionsMCM, this`textAnswer)
    {
      if currentQuestionIndex < |questions| - 1 {
        currentQuestionIndex := currentQuestionIndex + 1;
      }
    }

    /** "Back": one question back, nothing at the first one; no buffer is touched. */
    method PreviousQuestion()
      requires Valid()
      modifies this`currentQuestionIndex
      ensures Valid()
      ensures currentQuestionIndex == PrevIndex(old(currentQuestionIndex))
      ensures old(currentQuestionIndex) > 0 ==>
                currentQuestionIndex == old(currentQuestionIndex) - 1
      ensures old(currentQuestionIndex) == 0 ==> currentQuestionIndex == 0
      ensures unchanged(this`selectedAnswerTF, this`selectedOptionMCS,
                        this`selectedOptionsMCM, this`textAnswer)
    {
      if currentQuestionIndex > 0 {
        currentQuestionIndex := currentQuestionIndex - 1;
      }
    }

    /** The true/false radio rows: records the chosen value, unvalidated. */
    method SelectAnswerTF(answer: bool)
      modifies this`selectedAnswerTF
      ensures selectedAnswerTF == Some(answer)
    {
      selectedAnswerTF := Some(answer);
    }

    /** The single-choice radio rows: records the chosen option, unvalidated. */
    method SelectOptionMCS(option: string)
      modifies this`selectedOptionMCS
      ensures selectedOptionMCS == Some(option)
    {
      selectedOptionMCS := Some(option);
    }

    /** The text field: every edit overwrites the stored answer. */
    method SetTextAnswer(text: string)
      modifies this`textAnswer
      ensures textAnswer == text
    {
      textAnswer := text;
    }

    /** The multiple-choice row click: deselect a selected option, select any other. */
    method ToggleOptionMCM(option: string)
      modifies this`selectedOptionsMCM
      ensures selectedOptionsMCM == Toggled(old(selectedOptionsMCM), option)
      ensures NoDup(old(selectedOptionsMCM)) ==>
                NoDup(selectedOptionsMCM) &&
                ((option in selectedOptionsMCM) <==> (option !in old(selectedOptionsMCM)))
      ensures forall other :: other != option ==>
                ((other in selectedOptionsMCM) <==> (other in old(selectedOptionsMCM)))
    {
      ghost var before := selectedOptionsMCM;
      if option in selectedOptionsMCM {
        selectedOptionsMCM := RemoveFirst(selectedOptionsMCM, option);
      } else {
        selectedOptionsMCM := selectedOptionsMCM + [option];
      }
      if NoDup(before) {
        ToggleKeepsNoDup(before, option);
        ToggleFlipsMembership(before, option);
      }
      forall other | other != option
        ensures (other in selectedOptionsMCM) <==> (other in before)
      {
        ToggleKeepsOthers(before, option, other);
      }
    }

    /** The multiple-choice checkbox callback: append when checked, remove when unchecked. */
    method CheckOptionMCM(option: string, isChecked: bool)
      modifies this`selectedOptionsMCM
      ensures selectedOptionsMCM == CheckedChange(old(selectedOptionsMCM), option, isChecked)
      ensures isChecked == (option !in old(selectedOptionsMCM)) ==>
                selectedOptionsMCM == Toggled(old(selectedOptionsMCM), option)
    {
      CheckboxAgreesWithClick(selectedOptionsMCM, option);
      if isChecked {
        selectedOptionsMCM := selectedOptionsMCM + [option];
      } else {
        selectedOptionsMCM := RemoveFirst(selectedOptionsMCM, option);
      }
    }
  }
}

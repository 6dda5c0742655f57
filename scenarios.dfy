/** Client sessions driving `QuizViewModel` through its methods only, as a user of the screen
    would: what each can be proved to end in follows from the methods' contracts alone. */
module Scenarios {
  import opened Wrappers
  import opened ViewModel

  /** Press "Next" until the last question, then once more: the index stays put. */
  method NextStopsAtLastQuestion() returns (lastIndex: int, finalIndex: int)
    ensures lastIndex == 3 && finalIndex == lastIndex
  {
    var vm := new QuizViewModel();
    while vm.currentQuestionIndex < |vm.questions| - 1
      invariant vm.Valid() && |vm.questions| == 4
      decreases |vm.questions| - vm.currentQuestionIndex
    {
      vm.NextQuestion();
    }
    lastIndex := vm.currentQuestionIndex;
    vm.NextQuestion();
    finalIndex := vm.currentQuestionIndex;
  }

  /** "Back" on the first question keeps the index at 0; "Next" then "Back" returns to 0. */
  method BackOnFirstQuestion() returns (afterBack: int, afterNextBack: int)
    ensures afterBack == 0 && afterNextBack == 0
  {
    var vm := new QuizViewModel();
    vm.PreviousQuestion();
    afterBack := vm.currentQuestionIndex;
    vm.NextQuestion();
    vm.PreviousQuestion();
    afterNextBack := vm.currentQuestionIndex;
  }

  /** Answers written before "Next" are all still there right after it. */
  method NextKeepsAnswers()
    returns (tf: Option<bool>, mcs: Option<string>, mcm: seq<string>, text: string, index: int)
    ensures tf == Some(true) && mcs == Some("A test option")
    ensures mcm == ["Another test option"] && text == "Test Answer"
    ensures index == 1
  {
    var vm := new QuizViewModel();
    vm.SelectAnswerTF(true);
    vm.SelectOptionMCS("A test option");
    vm.ToggleOptionMCM("Another test option");
    vm.SetTextAnswer("Test Answer");
    vm.NextQuestion();
    tf, mcs, mcm, text := vm.selectedAnswerTF, vm.selectedOptionMCS, vm.selectedOptionsMCM, vm.textAnswer;
    index := vm.currentQuestionIndex;
  }

  /** Answers written on the second question are all still there after "Back" to the first. */
  method PreviousKeepsAnswers()
    returns (tf: Option<bool>, mcs: Option<string>, mcm: seq<string>, text: string, index: int)
    ensures tf == Some(true) && mcs == Some("Yet another test option")
    ensures mcm == ["You got it, another option"] && text == "This is the answer"
    ensures index == 0
  {
    var vm := new QuizViewModel();
    vm.NextQuestion();
    vm.SelectAnswerTF(true);
    vm.SelectOptionMCS("Yet another test option");
    vm.ToggleOptionMCM("You got it, another option");
    vm.SetTextAnswer("This is the answer");
    vm.PreviousQuestion();
    tf, mcs, mcm, text := vm.selectedAnswerTF, vm.selectedOptionMCS, vm.selectedOptionsMCM, vm.textAnswer;
    index := vm.currentQuestionIndex;
  }

  /** On the multiple-choice question, a first click selects "TextView" and a second click
      on the same row leaves nothing selected. */
  method ClickTwiceDeselects() returns (afterOnce: seq<string>, afterTwice: seq<string>)
    ensures "TextView" in afterOnce && afterTwice == []
  {
    var vm := new QuizViewModel();
    vm.NextQuestion();
    vm.NextQuestion();
    vm.ToggleOptionMCM("TextView");
    afterOnce := vm.selectedOptionsMCM;
    vm.ToggleOptionMCM("TextView");
    afterTwice := vm.selectedOptionsMCM;
  }
}

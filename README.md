# Quiz view-model, modelled in Dafny

The Android quiz application keeps all its non-UI state in `QuizViewModel`. That state is:

- a fixed list of four questions, one of each `Question` variant: true/false, single choice, multiple choice and free text;
- the index of the question on screen;
- four answer buffers: an optional boolean, an optional string, a list of selected option labels and a text string.

"Next" and "Back" move the index one step. Each is a no-op at its end of the list. The screen's answer controls write the buffers. The multiple-choice list is updated by a row click, which removes the option if it is present and appends it otherwise. A checkbox callback adds or removes according to the new checked state.

The model has these modules:

- `Questions` (`questions.dfy`): the `Question` datatype and the hard-coded list.
- `Navigation` (`navigation.dfy`): the index step functions and the lemmas about them: bounds, round trips, and repeated presses clamping at either end.
- `Answers` (`answers.dfy`): the multiple-choice list logic on `seq<string>`. `remove` takes out the first occurrence only, as Kotlin's `MutableList.remove` does. `add` appends.
- `ViewModel` (`view_model.dfy`): the class `QuizViewModel`. Its fields are the view-model's fields, and its methods update them in place.
- `Scenarios` (`scenarios.dfy`): client sessions that use only the class's contracts. `NextStopsAtLastQuestion`, `BackOnFirstQuestion`, `NextKeepsAnswers` and `PreviousKeepsAnswers` follow the flows of the unit tests in `ExampleUnitTest.kt`. `BackOnFirstQuestion` covers two of those tests in one session. `ClickTwiceDeselects` follows the instrumented test at `ExampleInstrumentedTest.kt:96-107` and adds a second click on the same row, which no test makes.
- `Wrappers` (`wrappers.dfy`): `Option`, which stands for Kotlin's nullable types.

The model follows the code where the tests disagree with it. The unit tests at `ExampleUnitTest.kt:56-89` assert that navigation clears all four answer buffers. But `nextQuestion` and `previousQuestion` (`MainActivity.kt:61-71`) change only `currentQuestionIndex`. `NextQuestion` and `PreviousQuestion` therefore state that every buffer is unchanged. `Scenarios.NextKeepsAnswers` and `Scenarios.PreviousKeepsAnswers` replay the two tests and prove that every buffer still holds its answer at the point where the tests assert it is cleared. The test at `ExampleUnitTest.kt:87` is malformed as well: it applies `assertNull` to a non-null Boolean.

## Model

| member | source | states |
|---|---|---|
| Questions.QuizQuestions | app/src/main/java/com/jetpack/quiz/MainActivity.kt:46-51 | the list has exactly four questions: true/false, single choice, multiple choice and free text, in that order |
| Questions.QuizQuestionsKeysAmongOptions | app/src/main/java/com/jetpack/quiz/MainActivity.kt:48-49 | a sanity check of the data, which the application never makes: in the hard-coded list, every answer key of a choice question names one of that question's options |
| Navigation.StepsStayInBounds | app/src/main/java/com/jetpack/quiz/MainActivity.kt:61-71 | from an in-bounds index, either step stays in bounds; Next moves up by one or is at the last index, and Back moves down by one or is at 0 |
| Navigation.NextThenPrevious | app/src/main/java/com/jetpack/quiz/MainActivity.kt:61-71 | a Next that moved is undone by Back |
| Navigation.PreviousThenNext | app/src/main/java/com/jetpack/quiz/MainActivity.kt:61-71 | a Back that moved is undone by Next |
| Navigation.NextTimesClamps | app/src/main/java/com/jetpack/quiz/MainActivity.kt:61-65 | k presses of Next from index i land on min(i + k, n - 1) |
| Navigation.PrevTimesClamps | app/src/main/java/com/jetpack/quiz/MainActivity.kt:67-71 | k presses of Back from index i land on max(i - k, 0) |
| Answers.RemoveFirst | app/src/main/java/com/jetpack/quiz/MainActivity.kt:218 | removing an absent label changes nothing; removing a present label shortens the list by one and takes exactly one copy of it out of the multiset |
| Answers.RemoveFirstAt | app/src/main/java/com/jetpack/quiz/MainActivity.kt:218 | removal deletes the first occurrence and keeps the other labels in their order |
| Answers.Toggled | app/src/main/java/com/jetpack/quiz/MainActivity.kt:216-222 | a row click on a selected label takes one copy out; on an unselected label it appends that label |
| Answers.CheckedChange | app/src/main/java/com/jetpack/quiz/MainActivity.kt:228-234 | the checkbox callback appends the label when checked and takes one copy out when unchecked |
| Answers.CheckboxAgreesWithClick | app/src/main/java/com/jetpack/quiz/MainActivity.kt:227-234 | when the new checked state is the opposite of `contains`, the checkbox callback gives the same list as a row click |
| Answers.CheckedOnSelectedDuplicates | app/src/main/java/com/jetpack/quiz/MainActivity.kt:229-230 | the checkbox callback called with "checked" for a label that is already present leaves a duplicate |
| Answers.ToggleFlipsMembership | app/src/main/java/com/jetpack/quiz/MainActivity.kt:216-222 | on a duplicate-free list, a click makes the label present exactly when it was absent |
| Answers.ToggleKeepsOthers | app/src/main/java/com/jetpack/quiz/MainActivity.kt:216-222 | a click never changes whether any other label is present |
| Answers.ToggleKeepsNoDup | app/src/main/java/com/jetpack/quiz/MainActivity.kt:216-222 | a click keeps a duplicate-free list duplicate-free |
| Answers.SelectThenDeselect | app/src/main/java/com/jetpack/quiz/MainActivity.kt:216-222 | clicking an unselected label twice restores the exact list |
| Answers.DeselectThenSelect | app/src/main/java/com/jetpack/quiz/MainActivity.kt:216-222 | on a duplicate-free list, clicking a selected label twice restores the same multiset |
| ViewModel.QuizViewModel.constructor | app/src/main/java/com/jetpack/quiz/MainActivity.kt:46-59 | initial state: the four questions, index 0, both optional buffers unset, an empty multiple-choice list and empty text |
| ViewModel.QuizViewModel.NextQuestion | app/src/main/java/com/jetpack/quiz/MainActivity.kt:61-65 | the index goes up by one below the last question and stays at the last; it stays in bounds; all four buffers are unchanged |
| ViewModel.QuizViewModel.PreviousQuestion | app/src/main/java/com/jetpack/quiz/MainActivity.kt:67-71 | the index goes down by one above 0 and stays at 0; it stays in bounds; all four buffers are unchanged |
| ViewModel.QuizViewModel.SelectAnswerTF | app/src/main/java/com/jetpack/quiz/MainActivity.kt:180-201 | the true/false buffer holds the chosen value and nothing else changes |
| ViewModel.QuizViewModel.SelectOptionMCS | app/src/main/java/com/jetpack/quiz/MainActivity.kt:159-165 | the single-choice buffer holds the chosen option and nothing else changes |
| ViewModel.QuizViewModel.SetTextAnswer | app/src/main/java/com/jetpack/quiz/MainActivity.kt:249-252 | the text buffer holds the edited text and nothing else changes |
| ViewModel.QuizViewModel.ToggleOptionMCM | app/src/main/java/com/jetpack/quiz/MainActivity.kt:216-222 | the list becomes the toggled list; a duplicate-free list stays duplicate-free and the clicked label's membership flips; every other label keeps its membership |
| ViewModel.QuizViewModel.CheckOptionMCM | app/src/main/java/com/jetpack/quiz/MainActivity.kt:228-234 | the list becomes the checkbox callback's result, which equals the row click's result when the checked state is the opposite of `contains` |
| Scenarios.NextStopsAtLastQuestion | app/src/test/java/com/jetpack/quiz/ExampleUnitTest.kt:27-36 | pressing Next until the last question reaches index 3, and one more Next stays at 3 |
| Scenarios.BackOnFirstQuestion | app/src/test/java/com/jetpack/quiz/ExampleUnitTest.kt:39-53 | Back at index 0 stays at 0, and Next followed by Back returns to 0 |
| Scenarios.NextKeepsAnswers | app/src/test/java/com/jetpack/quiz/ExampleUnitTest.kt:56-70 | right after Next, all four answers set beforehand are still present and the index is 1, contrary to what this test asserts |
| Scenarios.PreviousKeepsAnswers | app/src/test/java/com/jetpack/quiz/ExampleUnitTest.kt:72-89 | right after Back from the second question, all four answers set there are still present and the index is 0, contrary to what this test asserts |
| Scenarios.ClickTwiceDeselects | app/src/androidTest/java/com/jetpack/quiz/ExampleInstrumentedTest.kt:96-107 | on the multiple-choice question, one click selects "TextView" and a second click leaves nothing selected |

## Left out

- All Compose rendering (`QuizScreen`, the four `*View` functions, layout, `toString` display text) and the Android lifecycle (`MainActivity.onCreate`, `viewModel()`). These are presentation and framework code.
- The slide and fade transitions and the `isGoingForward` flag. These are animation only.
- Snapshot-state observability (`mutableIntStateOf`, `mutableStateOf`, `mutableStateListOf`). The model has ordinary fields, so re-rendering on change is not modelled.
- The screen's `currentQuestionIndex < 3` guard on the Next button. It is a display condition, and `NextQuestion` already stops at the last index.
- The `remember`ed local copy of the text in `TextQuestionView`. It is UI-local; only the write to `textAnswer` is modelled.
- The instrumented tests' device checks (package name, node lookup). These are Android I/O.
- Clearing the answer buffers on navigation. The unit tests expect it, but the code does not do it.
- Scoring. The answer keys are stored in `Question`, but nothing compares them with the buffers.

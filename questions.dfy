/** The quiz's question variants and the fixed question list the view-model is built with. */
module Questions {

  /** The four question variants; each carries its prompt, and all but the free-text one
      carry the answer key (which nothing in the application compares against). */
  datatype Question =
    | TrueFalseQuestion(question: string, correctAnswer: bool)
    // the single-choice key is `correctAnswer` in the application; Dafny requires a field
    // shared by several constructors to have one type, and the true/false key is a bool
    | MultipleChoiceSingle(question: string, options: seq<string>, correctOption: string)
    | MultipleChoiceMultiple(question: string, options: seq<string>, correctAnswers: seq<string>)
    | TextQuestion(question: string)

  /** The hard-coded list: one question of each variant, in this order. */
  function QuizQuestions(): (qs: seq<Question>)
    ensures |qs| == 4
    ensures qs[0].TrueFalseQuestion? && qs[1].MultipleChoiceSingle?
    ensures qs[2].MultipleChoiceMultiple? && qs[3].TextQuestion?
  {
    [ TrueFalseQuestion("True or False: An Activity is destroyed during recomposition?", false),
      MultipleChoiceSingle("Which component manages the app's UI?",
        ["Activity", "Service", "ContentProvider"], "Activity"),
      MultipleChoiceMultiple("Select all that are Android UI elements.",
        ["TextView", "Service", "RecyclerView"], ["TextView", "RecyclerView"]),
      TextQuestion("What is the primary language used for Android development?") ]
  }

  /** A choice question's answer key names only options it offers. The application never
      checks this; it is a sanity check of the hard-coded data only. */
  predicate KeyAmongOptions(q: Question)
  {
    match q
    case MultipleChoiceSingle(_, options, correct) => correct in options
    case MultipleChoiceMultiple(_, options, corrects) => forall c :: c in corrects ==> c in options
    case _ => true
  }

  /** Sanity check of the data: the keys in the hard-coded list are among their options. */
  lemma QuizQuestionsKeysAmongOptions()
    ensures forall k :: 0 <= k < |QuizQuestions()| ==> KeyAmongOptions(QuizQuestions()[k])
  {
  }
}

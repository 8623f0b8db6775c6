/**
  The question model of the quiz widget: a base question, a multiple-choice
  question that takes its options from the caller, and a true/false question
  whose options are fixed. Every question carries an id, a prompt text, its
  options and the index of the correct option, and is never changed after
  construction, so every operation here is a function of the question value.
 */
module Questions {
  import opened Wrappers
  import opened JsNumbers

  /** The definition record a question constructor destructures. */
  datatype QuestionData = QuestionData(id: int, text: string, options: seq<string>, correctIndex: int)

  /**
    One quiz item; the constructor says which of the three classes built it.
    Only the results of NewQuestion, NewMultipleChoice and NewTrueFalse model
    objects the source can create; in particular a `TrueFalse` value with
    options other than TrueFalseOptions is not one of them.
   */
  datatype Question =
    | Base(id: int, text: string, options: seq<string>, correctIndex: int)
    | MultipleChoice(id: int, text: string, options: seq<string>, correctIndex: int)
    | TrueFalse(id: int, text: string, options: seq<string>, correctIndex: int)

  /** The options every true/false question is given. */
  const TrueFalseOptions: seq<string> := ["True", "False"]

  /** The four fields of a question, whatever its variant. */
  function Fields(q: Question): QuestionData
  {
    QuestionData(q.id, q.text, q.options, q.correctIndex)
  }

  /** The type tag `getType()` reports; each class overrides it with its own constant. */
  function GetType(q: Question): (t: string)
    ensures t == "base" <==> q.Base?
    ensures t == "mcq" <==> q.MultipleChoice?
    ensures t == "truefalse" <==> q.TrueFalse?
  {
    match q
    case Base(_, _, _, _) => "base"
    case MultipleChoice(_, _, _, _) => "mcq"
    case TrueFalse(_, _, _, _) => "truefalse"
  }

  /** True when two questions were built by the same class. */
  predicate SameVariant(p: Question, q: Question)
  {
    (p.Base? && q.Base?) || (p.MultipleChoice? && q.MultipleChoice?) || (p.TrueFalse? && q.TrueFalse?)
  }

  /** `new Question(d)`: every field is taken from the definition as given. */
  function NewQuestion(d: QuestionData): (q: Question)
    ensures Fields(q) == d
    ensures GetType(q) == "base"
  {
    Base(d.id, d.text, d.options, d.correctIndex)
  }

  /**
    `new MultipleChoiceQuestion(d)`: the class has no constructor of its own,
    so the base constructor runs and the options are the caller's.
   */
  function NewMultipleChoice(d: QuestionData): (q: Question)
    ensures Fields(q) == d
    ensures GetType(q) == "mcq"
  {
    MultipleChoice(d.id, d.text, d.options, d.correctIndex)
  }

  /**
    `new TrueFalseQuestion(d)`: id, text and correct index come from the
    definition, the options are always "True" and "False" and whatever options
    the definition holds are ignored. The JavaScript constructor assigns to
    `this` without first calling `super()`, which the language rejects at run
    time; this function models the field assignments the constructor is
    evidently meant to perform.
   */
  function NewTrueFalse(d: QuestionData): (q: Question)
    ensures Fields(q) == d.(options := TrueFalseOptions)
    ensures |q.options| == 2
    ensures GetType(q) == "truefalse"
  {
    TrueFalse(d.id, d.text, TrueFalseOptions, d.correctIndex)
  }

  /** `isCorrect(answer)`: `Number(answer) === correctIndex`. */
  function IsCorrect(q: Question, answer: Option<int>): (r: bool)
    ensures r <==> answer == Some(q.correctIndex)
  {
    StrictEquals(ToNumber(answer), Finite(q.correctIndex))
  }

  /**
    The correct index indexes the options. The constructors do not check
    this; it is a property a question set may or may not have.
   */
  predicate WellFormed(q: Question)
  {
    0 <= q.correctIndex < |q.options|
  }

  // ---------------------------------------------------------------------------
  // isCorrect

  /**
    The three cases of `isCorrect`: the correct index is accepted, every
    other integer is rejected and an absent answer (NaN after `Number`) is
    rejected.
   */
  lemma IsCorrectIff(q: Question, answer: Option<int>)
    ensures IsCorrect(q, Some(q.correctIndex))
    ensures !IsCorrect(q, None)
    ensures forall i: int :: i != q.correctIndex ==> !IsCorrect(q, Some(i))
  {
  }

  /** Every question has exactly one correct answer. */
  lemma ExactlyOneCorrectAnswer(q: Question)
    ensures exists a :: IsCorrect(q, a)
    ensures forall a, b :: IsCorrect(q, a) && IsCorrect(q, b) ==> a == b
  {
    assert IsCorrect(q, Some(q.correctIndex));
  }

  /**
    `isCorrect` reads nothing but the correct index: it is the same for two
    questions with the same correct index, whatever their variant, text or
    options.
   */
  lemma IsCorrectOnlyReadsCorrectIndex(p: Question, q: Question, answer: Option<int>)
    requires p.correctIndex == q.correctIndex
    ensures IsCorrect(p, answer) <==> IsCorrect(q, answer)
  {
  }

  /** The three constructors, given one definition, judge every answer alike. */
  lemma IsCorrectSameAcrossVariants(d: QuestionData, answer: Option<int>)
    ensures IsCorrect(NewQuestion(d), answer) <==> IsCorrect(NewMultipleChoice(d), answer)
    ensures IsCorrect(NewMultipleChoice(d), answer) <==> IsCorrect(NewTrueFalse(d), answer)
  {
  }

  // ---------------------------------------------------------------------------
  // getType

  /** The type tag is determined by the variant alone, and distinct variants have distinct tags. */
  lemma GetTypeIdentifiesVariant(p: Question, q: Question)
    ensures GetType(p) == GetType(q) <==> SameVariant(p, q)
  {
  }

  // ---------------------------------------------------------------------------
  // Construction

  /** A true/false question does not depend on the options its definition supplies. */
  lemma TrueFalseIgnoresOptions(d: QuestionData, other: seq<string>)
    ensures NewTrueFalse(d) == NewTrueFalse(d.(options := other))
    ensures NewTrueFalse(d).options == ["True", "False"]
  {
  }

  /** Construction is injective in the fields each constructor copies. */
  lemma ConstructionInjective(d: QuestionData, e: QuestionData)
    ensures NewQuestion(d) == NewQuestion(e) <==> d == e
    ensures NewMultipleChoice(d) == NewMultipleChoice(e) <==> d == e
    ensures NewTrueFalse(d) == NewTrueFalse(e) <==> d.(options := e.options) == e
  {
  }

  // ---------------------------------------------------------------------------
  // Well-formedness

  /** A question is well-formed exactly when one of its option indices is the correct answer. */
  lemma WellFormedIffSomeOptionCorrect(q: Question)
    ensures WellFormed(q) <==> exists i :: 0 <= i < |q.options| && IsCorrect(q, Some(i))
  {
    if WellFormed(q) {
      assert IsCorrect(q, Some(q.correctIndex));
    }
  }

  /** A true/false question is well-formed exactly when its correct index is 0 or 1. */
  lemma TrueFalseWellFormed(d: QuestionData)
    ensures WellFormed(NewTrueFalse(d)) <==> d.correctIndex == 0 || d.correctIndex == 1
  {
  }

  /** A base or multiple-choice question is well-formed exactly when its definition's index is in range. */
  lemma CopiedWellFormed(d: QuestionData)
    ensures WellFormed(NewQuestion(d)) <==> 0 <= d.correctIndex < |d.options|
    ensures WellFormed(NewMultipleChoice(d)) <==> 0 <= d.correctIndex < |d.options|
  {
  }

  /**
    The constructors accept an out-of-range correct index: each of them builds
    an ill-formed question from some definition.
   */
  lemma ConstructionDoesNotValidate()
    ensures exists d :: !WellFormed(NewQuestion(d))
    ensures exists d :: !WellFormed(NewMultipleChoice(d))
    ensures exists d :: !WellFormed(NewTrueFalse(d))
  {
    var d := QuestionData(1, "", ["True", "False"], 2);
    assert !WellFormed(NewQuestion(d));
    assert !WellFormed(NewMultipleChoice(d));
    assert !WellFormed(NewTrueFalse(d));
  }
}

# Quiz question model

A Dafny model of the question classes of a client-side quiz widget
(`script.js`). A question has an id, a prompt text, an ordered list of
options and the index of the correct option. There are three classes:
`Question` (the base), `MultipleChoiceQuestion` (inherits the base
constructor, so the caller supplies the options) and `TrueFalseQuestion`
(its own constructor fixes the options to `["True", "False"]`). Each
reports a type tag through `getType()`. The one piece of behaviour,
`isCorrect(answer)`, compares `Number(answer)` with the correct index
using `===`.

The model is pure, as the source is: questions are assigned once at
construction and never changed.

- `Questions.Question` is a datatype with one constructor per class:
  `Base`, `MultipleChoice`, `TrueFalse`.
- `QuestionData` is the definition record that the JavaScript constructors
  destructure.
- `NewQuestion`, `NewMultipleChoice` and `NewTrueFalse` are the three
  constructors.
- `GetType` and `IsCorrect` are the two methods.
- An answer is an `Option<int>`. `None` stands for `undefined`, or for any
  value that `Number` maps to NaN (such as `"abc"`).
- `JsNumbers` models `Number(...)` and `===` on the values the model needs,
  so NaN is never equal to anything.

`isCorrect` is a pure read: it is a function of an immutable value, so it
changes no field, and calling it twice gives the same result.

The source does not check that `correctIndex` indexes `options`. The model
therefore keeps that condition as a separate predicate, `WellFormed`. The
constructors do not require it, and `ConstructionDoesNotValidate` shows
they build ill-formed questions too.

## Model

| member | source | states |
|---|---|---|
| `Questions.NewQuestion` | script.js:2-7 | the base question's id, text, options and correct index are the definition's, unchanged; its tag is "base" |
| `Questions.NewMultipleChoice` | script.js:16-20 | a multiple-choice question keeps all four fields of its definition, its options are exactly the caller's; its tag is "mcq" |
| `Questions.NewTrueFalse` | script.js:22-31 | a true/false question keeps id, text and correct index, its options are ["True", "False"] whatever was supplied, so it has two options; its tag is "truefalse" |
| `Questions.GetType` | script.js:8-31 | the tag is "base", "mcq" or "truefalse" exactly for the base, multiple-choice and true/false variants, one constant per class |
| `Questions.IsCorrect` | script.js:11-13 | `Number(answer) === correctIndex` holds exactly when the answer is present and equals the correct index |
| `Questions.IsCorrectIff` | script.js:11-13 | the correct index is accepted, every other integer rejected, a missing answer rejected |
| `Questions.ExactlyOneCorrectAnswer` | script.js:11-13 | every question has a correct answer, and only one |
| `Questions.IsCorrectOnlyReadsCorrectIndex` | script.js:11-13 | two questions with the same correct index judge every answer alike, whatever their variant, text or options |
| `Questions.IsCorrectSameAcrossVariants` | script.js:11-13 | the three constructors, given one definition, give questions that judge every answer alike |
| `Questions.GetTypeIdentifiesVariant` | script.js:8-31 | two questions have the same tag exactly when they are of the same variant |
| `Questions.TrueFalseIgnoresOptions` | script.js:23-26 | a true/false question does not depend on the options in its definition; they are always ["True", "False"] |
| `Questions.ConstructionInjective` | script.js:2-7 | two definitions give equal questions exactly when they agree on every field the constructor copies |
| `Questions.WellFormedIffSomeOptionCorrect` | script.js:11-13 | the correct index indexes the options exactly when some option index is a correct answer |
| `Questions.TrueFalseWellFormed` | script.js:26-27 | a true/false question is well-formed exactly when its correct index is 0 or 1 |
| `Questions.CopiedWellFormed` | script.js:5-6 | a base or multiple-choice question is well-formed exactly when its definition's correct index is in range of its options |
| `Questions.ConstructionDoesNotValidate` | script.js:2-7 | each constructor builds an ill-formed question from some definition, because nothing checks the correct index |
| `JsNumbers.ToNumber` | script.js:12 | `Number(answer)` is NaN exactly for a missing answer and the answer's value otherwise |
| `JsNumbers.StrictEquals` | script.js:12 | `===` on numbers is equality except that NaN equals nothing, itself included |

## Left out

- `NewTrueFalse`: models the field assignments that `TrueFalseQuestion`'s constructor evidently intends. As written (script.js:23-24), the constructor assigns to `this` without calling `super()`, so a JavaScript engine throws a ReferenceError at the first assignment and no true/false question is ever built. This defect is noted in a comment, not modelled as behaviour.
- Full `Number()` coercion: numeric strings, whitespace, hexadecimal, booleans, `null`, fractions and infinities are not modelled. An answer is an integer or `None`, and `None` covers `undefined` and every other value that becomes NaN.
- `null`, `""`, a blank string, `false` and `[]` coerce to 0, and `true` coerces to 1. None of them is represented by `None`. For example, `isCorrect(null)` is true on a question whose correct index is 0, which the model can only express as the answer `Some(0)`.
- Question values that no constructor produces, such as a `TrueFalse` value with other options, are representable in the datatype but model nothing in the source; properties of true/false options are stated for results of `NewTrueFalse`.
- Field values of other JavaScript types are not modelled. If a definition omits a field, or gives `correctIndex` as a string, the JavaScript result differs from the model. The model takes integer ids and correct indices, string texts and string-list options.
- Attempts, scoring, persistence to local storage, reconciliation of saved state and rendering lie outside the question classes and are not part of this model.
- `NewQuestion`, `NewMultipleChoice`: the JavaScript constructor stores the caller's `options` array by reference (script.js:5), so the question and its caller share one array. The model's options are a value sequence and cannot express that sharing; nothing in the question classes mutates the array, so the question's options stay equal to the caller's.

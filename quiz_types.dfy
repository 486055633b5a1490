/** The client's shared types: the three difficulty levels and the shape of a
    generated question. */
module QuizTypes {

  /** The closed set of difficulty levels, in the order the selector lists them. */
  datatype Difficulty = Easy | Medium | Hard

  /** The string the client sends for a difficulty. */
  function Name(d: Difficulty): (s: string)
    ensures s in ["Easy", "Medium", "Hard"]
  {
    match d
    case Easy => "Easy"
    case Medium => "Medium"
    case Hard => "Hard"
  }

  /** Distinct levels have distinct names, so the name identifies the level. */
  lemma NameInjective(d: Difficulty, e: Difficulty)
    ensures Name(d) == Name(e) <==> d == e
  {
  }

  /** A question as the client receives it. Nothing checks the number of options
      or that `correctOptionIndex` indexes one of them. */
  datatype Question = Question(
    questionText: string,
    options: seq<string>,
    correctOptionIndex: int,
    explanation: string)
}

/**
 * The records the quiz application exchanges with its API server.
 * JavaScript numbers are modelled as unbounded integers.
 */
module QuizTypes {
  import opened Results

  datatype QuestionType = MultipleChoice | MultipleResponse | TrueFalse

  /** `number | number[]`: one option index, or a set of them. */
  datatype CorrectAnswer = SingleIndex(index: int) | Indices(indices: seq<int>)

  datatype Question = Question(
    id: int,
    text: string,
    options: seq<string>,
    correctAnswer: CorrectAnswer,
    questionType: QuestionType,
    image: Option<string>,
    explanation: Option<string>)

  datatype Difficulty = Easy | Medium | Hard

  datatype QuizData = QuizData(
    id: string,
    name: string,
    description: string,
    difficulty: Difficulty,
    questions: seq<Question>,
    timeLimit: Option<int>)

  /** `number | number[] | null`: what the user picked for one question. */
  datatype UserAnswer = NoAnswer | PickedIndex(index: int) | PickedIndices(indices: seq<int>)

  datatype AnswerRecord = AnswerRecord(questionId: int, userAnswer: UserAnswer, correct: bool)

  datatype QuizAttempt = QuizAttempt(
    id: string,
    quizId: string,
    quizName: string,
    date: string,
    score: int,
    totalQuestions: int,
    percentage: int,
    answers: seq<AnswerRecord>)
}

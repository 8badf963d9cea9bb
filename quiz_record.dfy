/**
 * The quiz object a request parses from the server. addQuestion, updateQuestion
 * and deleteQuestion edit its question list in place before saving it back.
 */
module QuizRecords {
  import opened Results
  import opened QuizTypes
  import opened QuestionList

  class QuizRecord {
    var id: string
    var name: string
    var description: string
    var difficulty: Difficulty
    var questions: seq<Question>
    var timeLimit: Option<int>

    /** The quiz as a value, as it is sent back to the server. */
    function Data(): QuizData
      reads this
    {
      QuizData(id, name, description, difficulty, questions, timeLimit)
    }

    constructor (data: QuizData)
      ensures Data() == data
    {
      id, name, description := data.id, data.name, data.description;
      difficulty, questions, timeLimit := data.difficulty, data.questions, data.timeLimit;
    }

    /**
     * Renumbers the question to one more than the largest id present (1 for an
     * empty quiz) and pushes it; returns the new id.
     */
    method AddQuestion(question: Question) returns (newId: int)
      modifies this
      ensures newId == NextId(old(questions))
      ensures newId >= 1 && !HasId(old(questions), newId)
      ensures questions == old(questions) + [question.(id := newId)]
      ensures questions == Added(old(questions), question)
      ensures Data() == old(Data()).(questions := questions)
    {
      var maxId := MaxId(questions);
      newId := maxId + 1;
      questions := questions + [question.(id := newId)];
    }

    /**
     * Overwrites the first question with the same id, in place. Reports false,
     * touching nothing, when no question has that id.
     */
    method ReplaceQuestion(question: Question) returns (found: bool)
      modifies this
      ensures found <==> HasId(old(questions), question.id)
      ensures !found ==> questions == old(questions)
      ensures found ==> questions == old(questions)[FindIndex(old(questions), question.id) := question]
      ensures questions == Replaced(old(questions), question)
      ensures Data() == old(Data()).(questions := questions)
    {
      var index := FindIndex(questions, question.id);
      if index == -1 {
        found := false;
      } else {
        questions := questions[index := question];
        found := true;
      }
    }

    /** Replaces the question list with the questions whose id differs. */
    method RemoveQuestion(questionId: int)
      modifies this
      ensures questions == WithoutId(old(questions), questionId)
      ensures !HasId(questions, questionId)
      ensures Data() == old(Data()).(questions := questions)
    {
      questions := WithoutId(questions, questionId);
    }
  }
}

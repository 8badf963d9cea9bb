/**
 * The question workflows of the quiz service against the server's store of
 * quizzes: fetch the quiz, edit the parsed object, save it back.
 */
module QuizService {
  import opened Results
  import opened QuizTypes
  import opened QuestionList
  import opened Http
  import opened QuizRecords
  import E = ErrorMapping

  /** The server accepted a write: it answered with a 2xx status. */
  predicate Accepted<T>(t: Transport<T>) {
    t.Responded? && IsOk(t.response.status)
  }

  /** The quizzes the API server stores, keyed by quiz id, as this client's requests change them. */
  class QuizStore {
    var quizzes: map<string, QuizData>

    /** Every quiz is stored under its own id. */
    ghost predicate Valid()
      reads this
    {
      forall k :: k in quizzes ==> quizzes[k].id == k
    }

    /** A successful GET of quizId delivers the quiz the server stores under it. */
    ghost predicate Serves(quizId: string, got: Transport<QuizData>)
      reads this
    {
      Settle(got).Success? ==> quizId in quizzes && Settle(got).value == quizzes[quizId]
    }

    constructor (initial: map<string, QuizData>)
      requires forall k :: k in initial ==> initial[k].id == k
      ensures Valid() && quizzes == initial
    {
      quizzes := initial;
    }

    /** getQuizById: the stored quiz, or the error the request ends with. */
    method GetQuizById(quizId: string, got: Transport<QuizData>) returns (r: Result<QuizData, Thrown>)
      ensures r == E.Perform(E.GetQuizById, got, true)
      ensures Serves(quizId, got) && r.Success? ==> quizId in quizzes && r.value == quizzes[quizId]
    {
      // getQuizById never consults the online flag
      r := E.Perform(E.GetQuizById, got, true);
    }

    /** saveQuiz: PUT the quiz under its own id; the store changes exactly when the server accepts. */
    method SaveQuiz(quiz: QuizData, put: Transport<QuizData>) returns (r: Result<QuizData, Thrown>)
      requires Valid()
      modifies this
      ensures Valid()
      ensures r == E.Perform(E.SaveQuiz, put, true)
      ensures quizzes == if Accepted(put) then old(quizzes)[quiz.id := quiz] else old(quizzes)
    {
      if Accepted(put) {
        quizzes := quizzes[quiz.id := quiz];
      }
      r := E.Perform(E.SaveQuiz, put, true);
    }

    /**
     * addQuestion: fetch, renumber and append, save. Any failure becomes the
     * add-question message; the store changes only if the fetch succeeded and
     * the server accepted the save.
     */
    method AddQuestion(quizId: string, question: Question, got: Transport<QuizData>, put: Transport<QuizData>)
      returns (r: Result<bool, Thrown>)
      requires Valid()
      modifies this
      ensures Valid()
      ensures r.Success? <==> Settle(got).Success? && Settle(put).Success?
      ensures r.Success? ==> r.value
      ensures r.Failure? ==> r.error == Raised(E.WorkflowFailedMessage(E.AddQuestion))
      ensures quizzes ==
        if Settle(got).Success? && Accepted(put)
        then var quiz := Settle(got).value; old(quizzes)[quiz.id := quiz.(questions := Added(quiz.questions, question))]
        else old(quizzes)
      ensures Settle(got).Success? && Accepted(put) && UniqueIds(Settle(got).value.questions) ==>
        UniqueIds(quizzes[Settle(got).value.id].questions)
      ensures old(Serves(quizId, got)) && Settle(got).Success? ==> Settle(got).value.id == quizId
    {
      var fetched := GetQuizById(quizId, got);
      if fetched.Failure? {
        r := E.Rewrap(E.AddQuestion, Failure(fetched.error));
        return;
      }
      var quiz := new QuizRecord(fetched.value);
      var _ := quiz.AddQuestion(question);
      if UniqueIds(fetched.value.questions) {
        AddedKeepsIdsUnique(fetched.value.questions, question);
      }
      var saved := SaveQuiz(quiz.Data(), put);
      r := E.Rewrap(E.AddQuestion, if saved.Success? then Success(true) else Failure(saved.error));
    }

    /**
     * updateQuestion: fetch, overwrite the first question with the same id, save.
     * A question id the quiz lacks fails with "Question not found" before any
     * save; every failure becomes the update-question message.
     */
    method UpdateQuestion(quizId: string, question: Question, got: Transport<QuizData>, put: Transport<QuizData>)
      returns (r: Result<bool, Thrown>)
      requires Valid()
      modifies this
      ensures Valid()
      ensures r.Success? <==>
        Settle(got).Success? && HasId(Settle(got).value.questions, question.id) && Settle(put).Success?
      ensures r.Success? ==> r.value
      ensures r.Failure? ==> r.error == Raised(E.WorkflowFailedMessage(E.UpdateQuestion))
      ensures Settle(got).Success? && !HasId(Settle(got).value.questions, question.id) ==> quizzes == old(quizzes)
      ensures quizzes ==
        if Settle(got).Success? && HasId(Settle(got).value.questions, question.id) && Accepted(put)
        then var quiz := Settle(got).value; old(quizzes)[quiz.id := quiz.(questions := Replaced(quiz.questions, question))]
        else old(quizzes)
      ensures Settle(got).Success? && Accepted(put) ==>
        var quiz := Settle(got).value;
        HasId(quiz.questions, question.id) && UniqueIds(quiz.questions) ==> UniqueIds(quizzes[quiz.id].questions)
      ensures old(Serves(quizId, got)) && Settle(got).Success? ==> Settle(got).value.id == quizId
    {
      var fetched := GetQuizById(quizId, got);
      if fetched.Failure? {
        r := E.Rewrap(E.UpdateQuestion, Failure(fetched.error));
        return;
      }
      var quiz := new QuizRecord(fetched.value);
      var found := quiz.ReplaceQuestion(question);
      if !found {
        r := E.Rewrap(E.UpdateQuestion, Failure(Raised(E.QuestionNotFoundMessage)));
        return;
      }
      if UniqueIds(fetched.value.questions) {
        ReplacedKeepsIdsUnique(fetched.value.questions, question);
      }
      var saved := SaveQuiz(quiz.Data(), put);
      r := E.Rewrap(E.UpdateQuestion, if saved.Success? then Success(true) else Failure(saved.error));
    }

    /**
     * deleteQuestion: fetch, drop every question with the id, save. An absent
     * id still saves the quiz unchanged; every failure becomes the
     * delete-question message.
     */
    method DeleteQuestion(quizId: string, questionId: int, got: Transport<QuizData>, put: Transport<QuizData>)
      returns (r: Result<bool, Thrown>)
      requires Valid()
      modifies this
      ensures Valid()
      ensures r.Success? <==> Settle(got).Success? && Settle(put).Success?
      ensures r.Success? ==> r.value
      ensures r.Failure? ==> r.error == Raised(E.WorkflowFailedMessage(E.DeleteQuestion))
      ensures quizzes ==
        if Settle(got).Success? && Accepted(put)
        then var quiz := Settle(got).value; old(quizzes)[quiz.id := quiz.(questions := WithoutId(quiz.questions, questionId))]
        else old(quizzes)
      ensures Settle(got).Success? && Accepted(put) ==> !HasId(quizzes[Settle(got).value.id].questions, questionId)
      ensures old(Serves(quizId, got)) && Settle(got).Success? && !HasId(Settle(got).value.questions, questionId) ==>
        quizzes == old(quizzes)
      ensures Settle(got).Success? && Accepted(put) && UniqueIds(Settle(got).value.questions) ==>
        UniqueIds(quizzes[Settle(got).value.id].questions)
      ensures old(Serves(quizId, got)) && Settle(got).Success? ==> Settle(got).value.id == quizId
    {
      var fetched := GetQuizById(quizId, got);
      if fetched.Failure? {
        r := E.Rewrap(E.DeleteQuestion, Failure(fetched.error));
        return;
      }
      var quiz := new QuizRecord(fetched.value);
      quiz.RemoveQuestion(questionId);
      if UniqueIds(fetched.value.questions) {
        WithoutIdKeepsIdsUnique(fetched.value.questions, questionId);
      }
      if !HasId(fetched.value.questions, questionId) {
        WithoutAbsentId(fetched.value.questions, questionId);
      }
      var saved := SaveQuiz(quiz.Data(), put);
      r := E.Rewrap(E.DeleteQuestion, if saved.Success? then Success(true) else Failure(saved.error));
    }
  }
}

/**
 * The catch blocks of the quiz service: how each operation turns a failure
 * into the message its caller sees.
 */
module ErrorMapping {
  import opened Results
  import opened QuizTypes
  import opened Http

  /** The operations that make one request and return handleResponse's promise. */
  datatype Request = GetAllQuizzes | GetQuizById | CreateQuiz | SaveQuiz | SaveAttempt | GetAttempts

  /** The operations that await other calls inside their try block. */
  datatype Workflow = AddQuestion | UpdateQuestion | DeleteQuestion | ClearAttempts

  const TimeoutMessage := "Request timeout. Please check your connection and try again."
  const OfflineMessage := "No internet connection. Please check your network and try again."
  const QuestionNotFoundMessage := "Question not found"

  /** The template every operation-specific message follows. */
  function FailedMessage(action: string): string {
    "Failed to " + action + ". Please try again later."
  }

  function RequestAction(op: Request): string {
    match op
    case GetAllQuizzes => "load quizzes"
    case GetQuizById => "load quiz"
    case CreateQuiz => "create quiz"
    case SaveQuiz => "save quiz"
    case SaveAttempt => "save attempt"
    case GetAttempts => "load attempts"
  }

  function WorkflowAction(w: Workflow): string {
    match w
    case AddQuestion => "add question"
    case UpdateQuestion => "update question"
    case DeleteQuestion => "delete question"
    case ClearAttempts => "clear attempts"
  }

  function RequestFailedMessage(op: Request): string {
    FailedMessage(RequestAction(op))
  }

  function WorkflowFailedMessage(w: Workflow): string {
    FailedMessage(WorkflowAction(w))
  }

  /**
   * The catch block of a single-request operation: an abort becomes the timeout
   * message; only getAllQuizzes then asks whether the browser is offline; every
   * other error becomes the operation's own message.
   */
  function CatchRequest(op: Request, e: Thrown, online: bool): (m: Thrown)
    ensures m.Raised?
    ensures e == AbortError ==> m.message == TimeoutMessage
    ensures e != AbortError ==> m.message != TimeoutMessage
    ensures m.message == OfflineMessage <==> op == GetAllQuizzes && e != AbortError && !online
    ensures e != AbortError && (op != GetAllQuizzes || online) ==> m.message == RequestFailedMessage(op)
  {
    if e == AbortError then Raised(TimeoutMessage)
    else if op == GetAllQuizzes && !online then Raised(OfflineMessage)
    else Raised(RequestFailedMessage(op))
  }

  /**
   * A single-request operation as written: `return handleResponse(response)`
   * inside the try block hands back the promise without awaiting it, so a
   * rejection from handleResponse passes the catch untouched; only the
   * failures of fetchWithTimeout reach the catch.
   */
  function Perform<T>(op: Request, t: Transport<T>, online: bool): (r: Result<T, Thrown>)
    ensures r.Success? <==> Settle(t).Success?
    ensures r.Success? ==> r.value == Settle(t).value
    ensures t.Aborted? ==> r == Failure(Raised(TimeoutMessage))
    ensures t.NetworkFail? ==> r.Failure? && r.error.Raised? && r.error.message != TimeoutMessage
    ensures t.NetworkFail? ==> (r.error.message == OfflineMessage <==> op == GetAllQuizzes && !online)
    ensures t.NetworkFail? && (op != GetAllQuizzes || online) ==> r == Failure(Raised(RequestFailedMessage(op)))
    ensures t.Responded? ==> r == HandleResponse(t.response)
  {
    match t
    case Responded(response) => HandleResponse(response)
    case _ => Failure(CatchRequest(op, Settle(t).error, online))
  }

  /** The catch block of a workflow: every failure, whatever it was, becomes the workflow's own message. */
  function Rewrap<T>(w: Workflow, inner: Result<T, Thrown>): (r: Result<T, Thrown>)
    ensures r.Success? <==> inner.Success?
    ensures r.Success? ==> r.value == inner.value
    ensures r.Failure? ==> r.error == Raised(WorkflowFailedMessage(w))
  {
    match inner
    case Success(v) => Success(v)
    case Failure(_) => Failure(Raised(WorkflowFailedMessage(w)))
  }

  /**
   * `Promise.all` over the attempts' DELETE requests: it fulfils when every
   * deletion settles successfully, and otherwise rejects with the error of a
   * failed deletion (here the first in list order; which one comes first in
   * time is not modelled).
   */
  function DeleteAll<U>(attempts: seq<QuizAttempt>, deletion: QuizAttempt -> Transport<U>): (r: Result<(), Thrown>)
    ensures r.Success? <==> forall i :: 0 <= i < |attempts| ==> Settle(deletion(attempts[i])).Success?
    ensures r.Failure? ==> exists i :: 0 <= i < |attempts| && Settle(deletion(attempts[i])) == Failure(r.error)
  {
    if attempts == [] then Success(())
    else
      assert forall i :: 1 <= i < |attempts| ==> attempts[i] == attempts[1..][i - 1];
      match Settle(deletion(attempts[0]))
      case Failure(e) => Failure(e)
      case Success(_) => DeleteAll(attempts[1..], deletion)
  }

  /**
   * clearAttempts: list the attempts through getAttempts, then delete each one;
   * `deletion` gives the outcome of each attempt's DELETE request. It succeeds
   * exactly when the listing and every deletion succeed, and any failure
   * becomes the fixed clear-attempts message.
   */
  function ClearAllAttempts<U>(listing: Transport<seq<QuizAttempt>>, deletion: QuizAttempt -> Transport<U>)
    : (r: Result<(), Thrown>)
    ensures r.Failure? ==> r.error == Raised(WorkflowFailedMessage(ClearAttempts))
    ensures r.Success? <==>
      Settle(listing).Success? &&
      forall i :: 0 <= i < |Settle(listing).value| ==> Settle(deletion(Settle(listing).value[i])).Success?
  {
    // getAttempts is awaited; its online flag is never consulted
    var listed := Perform(GetAttempts, listing, true);
    var inner: Result<(), Thrown> :=
      match listed
      case Failure(e) => Failure(e)
      case Success(attempts) => DeleteAll(attempts, deletion);
    Rewrap(ClearAttempts, inner)
  }

  /** Messages made from the template are equal only when their actions are. */
  lemma FailedMessageInjective(a: string, b: string)
    ensures FailedMessage(a) == FailedMessage(b) ==> a == b
  {
    if FailedMessage(a) == FailedMessage(b) {
      assert a == FailedMessage(a)[10..|FailedMessage(a)| - 25];
      assert b == FailedMessage(b)[10..|FailedMessage(b)| - 25];
    }
  }

  /** The fixed messages are pairwise different, so the caller can tell every case apart. */
  lemma FixedMessagesDistinct(op: Request, other: Request, w: Workflow, v: Workflow)
    ensures op != other ==> RequestFailedMessage(op) != RequestFailedMessage(other)
    ensures w != v ==> WorkflowFailedMessage(w) != WorkflowFailedMessage(v)
    ensures RequestFailedMessage(op) != WorkflowFailedMessage(w)
    ensures RequestFailedMessage(op) !in {TimeoutMessage, OfflineMessage, QuestionNotFoundMessage}
    ensures WorkflowFailedMessage(w) !in {TimeoutMessage, OfflineMessage, QuestionNotFoundMessage}
    ensures TimeoutMessage != OfflineMessage
    ensures QuestionNotFoundMessage !in {TimeoutMessage, OfflineMessage}
  {
    FailedMessageInjective(RequestAction(op), RequestAction(other));
    FailedMessageInjective(WorkflowAction(w), WorkflowAction(v));
    FailedMessageInjective(RequestAction(op), WorkflowAction(w));
  }

  /** Only getAllQuizzes consults the online flag. */
  lemma OnlineReadOnlyByGetAllQuizzes<T>(op: Request, t: Transport<T>)
    requires op != GetAllQuizzes
    ensures Perform(op, t, true) == Perform(op, t, false)
  {
  }

  /** Offline is reported only by getAllQuizzes, only for a network failure, and never in place of a timeout. */
  lemma OfflineOnlyAfterNetworkFailure<T>(op: Request, t: Transport<T>, online: bool)
    requires t.Aborted? || t.NetworkFail?
    ensures Perform(op, t, online) == Failure(Raised(OfflineMessage)) <==>
      op == GetAllQuizzes && t.NetworkFail? && !online
  {
  }

  /**
   * A non-ok response passes the catch untouched: an empty-bodied error reply
   * reaches the caller as the generic HTTP message naming its status, not as
   * the operation's message or the timeout message.
   */
  lemma HttpFailureEscapesCatch<T>(op: Request, status: nat, online: bool)
    requires !IsOk(status)
    ensures Perform<T>(op, Responded(Response(status, "", None)), online) == Failure(Raised(HttpErrorMessage(status)))
    ensures HttpErrorMessage(status) != RequestFailedMessage(op)
    ensures HttpErrorMessage(status) != TimeoutMessage
  {
  }

  /** A workflow hides every inner failure, timeouts and "Question not found" included, behind its own message. */
  lemma WorkflowHidesInnerFailure<T>(w: Workflow, e: Thrown)
    ensures Rewrap<T>(w, Failure(e)) == Failure(Raised(WorkflowFailedMessage(w)))
    ensures e == Raised(TimeoutMessage) || e == Raised(QuestionNotFoundMessage) ==>
      Rewrap<T>(w, Failure(e)).error != e
  {
  }
}

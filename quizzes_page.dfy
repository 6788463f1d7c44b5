/**
 * The quiz list of src/pages/Quizzes.tsx: the quizzes fetched with the session
 * token, the delete action with its busy id, and the choice of what the page
 * body shows.
 */
module QuizzesPage {
  import opened Replies
  import IdFilter

  datatype QuizEntry = QuizEntry(id: string, title: string, createdAt: string)

  function IdOf(q: QuizEntry): string
  {
    q.id
  }

  const FetchFailed := "Failed to fetch quizzes."
  const DeleteFailed := "Failed to delete quiz."

  /** What `renderContent` shows. */
  datatype Content = Spinner | ErrorAlert(message: string) | NoQuizzes | Cards(items: seq<QuizEntry>)

  /** `renderContent`: loading first, then the error, then the empty notice, then the cards. */
  function ContentOf(loading: bool, error: Option<string>, quizzes: seq<QuizEntry>): (c: Content)
    ensures loading <==> c == Spinner
    ensures c.ErrorAlert? <==> !loading && Truthy(error)
    ensures c.ErrorAlert? ==> c.message == error.value
    ensures c == NoQuizzes <==> !loading && !Truthy(error) && quizzes == []
    ensures c.Cards? <==> !loading && !Truthy(error) && quizzes != []
    ensures c.Cards? ==> c.items == quizzes
  {
    if loading then Spinner
    else if Truthy(error) then ErrorAlert(error.value)
    else if quizzes == [] then NoQuizzes
    else Cards(quizzes)
  }

  /** Once an error with a message is shown the cards are hidden, whatever the list holds. */
  lemma ErrorHidesList(error: Option<string>, quizzes: seq<QuizEntry>, later: seq<QuizEntry>)
    requires Truthy(error)
    ensures ContentOf(false, error, quizzes) == ContentOf(false, error, later)
    ensures !ContentOf(false, error, later).Cards?
  {
  }

  /** The delete button of quiz `id`, given the busy id: only the quiz being
      deleted has its button disabled. */
  predicate DeleteDisabled(deletingId: Option<string>, id: string)
  {
    deletingId == Some(id)
  }

  class QuizList {
    var quizzes: seq<QuizEntry>
    var loading: bool
    var error: Option<string>
    var deletingId: Option<string>

    constructor ()
      ensures quizzes == [] && loading && error == None && deletingId == None
    {
      quizzes, loading, error, deletingId := [], true, None, None;
    }

    /** The fetch effect for the session token. Without a truthy token nothing
        is requested and the spinner stays. */
    method FetchQuizzes(token: Option<string>, reply: Reply<seq<QuizEntry>>) returns (requested: bool)
      modifies this
      ensures requested <==> Truthy(token)
      ensures !requested ==> quizzes == old(quizzes) && loading == old(loading) && error == old(error)
      ensures requested ==> !loading
      ensures requested && reply.Ok? ==> quizzes == reply.payload && error == old(error)
      ensures requested && reply.Rejected? ==> quizzes == old(quizzes) && error == Some(FetchFailed)
      ensures requested && reply.Thrown? ==> quizzes == old(quizzes) && error == Some(reply.message)
      ensures deletingId == old(deletingId)
      ensures old(error).Some? ==> error.Some?
    {
      requested := Truthy(token);
      if !requested {
        return;
      }
      match reply {
        case Ok(list) => quizzes := list;
        case Rejected(_) => error := Some(FetchFailed);
        case Thrown(message) => error := Some(message);
      }
      loading := false;
    }

    /** `handleDeleteQuiz`, run from the confirmation dialog's Continue action.
        `pending` is the busy id while the request is in flight. */
    method HandleDeleteQuiz(quizId: string, reply: Reply<()>) returns (ghost pending: Option<string>)
      modifies this
      ensures pending == Some(quizId)
      ensures DeleteDisabled(pending, quizId)
      ensures forall other :: other != quizId ==> !DeleteDisabled(pending, other)
      ensures !DeleteDisabled(deletingId, quizId)
      ensures deletingId == None && loading == old(loading)
      ensures reply.Ok? ==> quizzes == IdFilter.Without(old(quizzes), IdOf, quizId) && error == old(error)
      ensures reply.Rejected? ==> quizzes == old(quizzes) && error == Some(DeleteFailed)
      ensures reply.Thrown? ==> quizzes == old(quizzes) && error == Some(reply.message)
      ensures old(error).Some? ==> error.Some?
    {
      deletingId := Some(quizId);
      pending := deletingId;
      match reply {
        case Ok(_) => quizzes := IdFilter.Without(quizzes, IdOf, quizId);
        case Rejected(_) => error := Some(DeleteFailed);
        case Thrown(message) => error := Some(message);
      }
      deletingId := None;
    }
  }

  /** A successful delete removes exactly the quizzes with that id, keeps the
      others in their order, and a repeated delete removes nothing more. */
  lemma DeleteRemovesExactly(quizzes: seq<QuizEntry>, id: string, before: seq<QuizEntry>, after: seq<QuizEntry>)
    requires quizzes == before + after
    ensures IdFilter.Without(quizzes, IdOf, id) == IdFilter.Without(before, IdOf, id) + IdFilter.Without(after, IdOf, id)
    ensures |IdFilter.Without(quizzes, IdOf, id)| == |quizzes| - IdFilter.Count(quizzes, IdOf, id)
    ensures IdFilter.Without(IdFilter.Without(quizzes, IdOf, id), IdOf, id) == IdFilter.Without(quizzes, IdOf, id)
  {
    IdFilter.WithoutAppend(before, after, IdOf, id);
    IdFilter.WithoutRemovesCount(quizzes, IdOf, id);
    IdFilter.WithoutIdempotent(quizzes, IdOf, id);
  }
}

/**
 * The summary workspace of src/pages/Summaries.tsx: submitting a video URL for
 * a summary, and the three actions on the summary (PDF export, quiz
 * generation, flashcard generation), each with a busy flag that disables all
 * three buttons while it is set.
 */
module SummariesPage {
  import opened Replies
  import ExportPage
  import App

  datatype Summary = Summary(
    id: string,
    title: string,
    summary: string,
    thumbnail: string,
    channelTitle: string,
    publishedAt: string,
    youtubeUrl: string)

  const SummaryFailed := "Failed to generate summary."
  const Unexpected := "An unexpected error occurred."
  const QuizFailed := "Failed to generate quiz."
  const FlashcardsFailed := "Failed to generate flashcards."
  const QuizPrefix := "/quiz/"
  const FlashcardsPrefix := "/flashcards/"

  /** Everything the page holds apart from the URL input. */
  datatype Workspace = Workspace(
    isProcessing: bool,
    summary: Option<Summary>,
    error: Option<string>,
    isExporting: bool,
    isGeneratingQuiz: bool,
    isGeneratingFlashcards: bool)

  const Initial := Workspace(false, None, None, false, false, false)

  /** The error `handleSubmit` stores: the server's message, else its fallback;
      a thrown error's message, else the generic one. */
  function SubmitError(reply: Reply<Summary>): (m: string)
    requires !reply.Ok?
    ensures m != ""
    ensures reply.message != "" ==> m == reply.message
    ensures reply.Rejected? && reply.message == "" ==> m == SummaryFailed
    ensures reply.Thrown? && reply.message == "" ==> m == Unexpected
  {
    match reply
    case Rejected(message) => Or(Or(message, SummaryFailed), Unexpected)
    case Thrown(message) => Or(message, Unexpected)
  }

  /** The error quiz or flashcard generation stores. */
  function GenerateError(reply: Reply<string>, fallback: string): (m: string)
    requires !reply.Ok?
    ensures reply.Rejected? ==> m == Or(reply.message, fallback)
    ensures reply.Thrown? ==> m == reply.message
    ensures reply.Rejected? && fallback != "" ==> m != ""
  {
    match reply
    case Rejected(message) => Or(message, fallback)
    case Thrown(message) => message
  }

  /** The state once a submit has settled. */
  function Submitted(w: Workspace, reply: Reply<Summary>): (r: Workspace)
    ensures !r.isProcessing
    ensures r.isExporting == w.isExporting && r.isGeneratingQuiz == w.isGeneratingQuiz
    ensures r.isGeneratingFlashcards == w.isGeneratingFlashcards
    ensures reply.Ok? ==> r.summary == Some(reply.payload) && r.error == None
    ensures !reply.Ok? ==> r.summary == None && r.error == Some(SubmitError(reply))
  {
    var started := w.(isProcessing := true, error := None, summary := None);
    match reply
    case Ok(s) => started.(summary := Some(s), isProcessing := false)
    case _ => started.(error := Some(SubmitError(reply)), isProcessing := false)
  }

  /** The Export PDF button. */
  predicate ExportDisabled(w: Workspace)
  {
    w.isExporting || w.isGeneratingQuiz || w.isGeneratingFlashcards
  }

  /** The Generate Quiz button. */
  predicate QuizDisabled(w: Workspace)
  {
    w.isGeneratingQuiz || w.isExporting || w.isGeneratingFlashcards
  }

  /** The Generate Flashcards button. */
  predicate FlashcardsDisabled(w: Workspace)
  {
    w.isGeneratingFlashcards || w.isExporting || w.isGeneratingQuiz
  }

  /** The path quiz generation navigates to. */
  function QuizTarget(id: string): (r: string)
    ensures |r| == |QuizPrefix| + |id|
    ensures r[..|QuizPrefix|] == QuizPrefix && r[|QuizPrefix|..] == id
  {
    QuizPrefix + id
  }

  /** The path flashcard generation navigates to. */
  function FlashcardsTarget(id: string): (r: string)
    ensures |r| == |FlashcardsPrefix| + |id|
    ensures r[..|FlashcardsPrefix|] == FlashcardsPrefix && r[|FlashcardsPrefix|..] == id
  {
    FlashcardsPrefix + id
  }

  class SummaryWorkspace {
    var isProcessing: bool
    var summary: Option<Summary>
    var error: Option<string>
    var isExporting: bool
    var isGeneratingQuiz: bool
    var isGeneratingFlashcards: bool

    function State(): Workspace
      reads this
    {
      Workspace(isProcessing, summary, error, isExporting, isGeneratingQuiz, isGeneratingFlashcards)
    }

    constructor ()
      ensures State() == Initial
    {
      isProcessing, summary, error := false, None, None;
      isExporting, isGeneratingQuiz, isGeneratingFlashcards := false, false, false;
    }

    /** `handleSubmit`; `pending` is the state while the request is in flight. */
    method HandleSubmit(reply: Reply<Summary>) returns (ghost pending: Workspace)
      modifies this
      ensures pending == old(State()).(isProcessing := true, error := None, summary := None)
      ensures State() == Submitted(old(State()), reply)
    {
      isProcessing := true;
      error := None;
      summary := None;
      pending := State();
      match reply {
        case Ok(s) => summary := Some(s);
        case _ => error := Some(SubmitError(reply));
      }
      isProcessing := false;
    }

    /** `handlePdfExport`: a no-op without a summary; it does not clear the
        error; `download` is the name the file is saved under. */
    method HandlePdfExport(reply: Reply<()>) returns (download: Option<string>, ghost pending: Workspace)
      modifies this
      ensures old(summary).None? ==> State() == old(State()) && download == None
      ensures old(summary).Some? ==> pending == old(State()).(isExporting := true)
      ensures old(summary).Some? ==>
        ExportDisabled(pending) && QuizDisabled(pending) && FlashcardsDisabled(pending)
      ensures old(summary).Some? && reply.Ok? ==>
        State() == old(State()).(isExporting := false)
        && download == Some(ExportPage.DownloadName(old(summary).value.title))
      ensures old(summary).Some? && !reply.Ok? ==>
        State() == old(State()).(isExporting := false, error := Some(ExportPage.PdfExportError(reply)))
        && download == None
    {
      pending := State();
      download := None;
      if summary.None? {
        return;
      }
      isExporting := true;
      pending := State();
      if reply.Ok? {
        download := Some(ExportPage.DownloadName(summary.value.title));
      } else {
        error := Some(ExportPage.PdfExportError(reply));
      }
      isExporting := false;
    }

    /** `handleGenerateQuiz`; `reply` carries the new quiz's id, and `target`
        is the path navigated to. */
    method HandleGenerateQuiz(reply: Reply<string>) returns (target: Option<string>, ghost pending: Workspace)
      modifies this
      ensures old(summary).None? ==> State() == old(State()) && target == None
      ensures old(summary).Some? ==> pending == old(State()).(isGeneratingQuiz := true, error := None)
      ensures old(summary).Some? ==>
        ExportDisabled(pending) && QuizDisabled(pending) && FlashcardsDisabled(pending)
      ensures old(summary).Some? && reply.Ok? ==>
        State() == old(State()).(isGeneratingQuiz := false, error := None)
        && target == Some(QuizTarget(reply.payload))
      ensures old(summary).Some? && !reply.Ok? ==>
        State() == old(State()).(isGeneratingQuiz := false, error := Some(GenerateError(reply, QuizFailed)))
        && target == None
    {
      pending := State();
      target := None;
      if summary.None? {
        return;
      }
      isGeneratingQuiz := true;
      error := None;
      pending := State();
      match reply {
        case Ok(id) => target := Some(QuizTarget(id));
        case _ => error := Some(GenerateError(reply, QuizFailed));
      }
      isGeneratingQuiz := false;
    }

    /** `handleGenerateFlashcards`; `reply` carries the new set's id. */
    method HandleGenerateFlashcards(reply: Reply<string>) returns (target: Option<string>, ghost pending: Workspace)
      modifies this
      ensures old(summary).None? ==> State() == old(State()) && target == None
      ensures old(summary).Some? ==> pending == old(State()).(isGeneratingFlashcards := true, error := None)
      ensures old(summary).Some? ==>
        ExportDisabled(pending) && QuizDisabled(pending) && FlashcardsDisabled(pending)
      ensures old(summary).Some? && reply.Ok? ==>
        State() == old(State()).(isGeneratingFlashcards := false, error := None)
        && target == Some(FlashcardsTarget(reply.payload))
      ensures old(summary).Some? && !reply.Ok? ==>
        State() == old(State()).(isGeneratingFlashcards := false, error := Some(GenerateError(reply, FlashcardsFailed)))
        && target == None
    {
      pending := State();
      target := None;
      if summary.None? {
        return;
      }
      isGeneratingFlashcards := true;
      error := None;
      pending := State();
      match reply {
        case Ok(id) => target := Some(FlashcardsTarget(id));
        case _ => error := Some(GenerateError(reply, FlashcardsFailed));
      }
      isGeneratingFlashcards := false;
    }
  }

  /** A quiz path for an id without '/' renders the quiz page for a signed-in user. */
  lemma QuizTargetRenders(routes: seq<App.Route>, id: string)
    requires App.IsRouteTable(routes)
    requires id != "" && '/' !in id
    ensures App.Visit(routes, QuizTarget(id), true) == App.Render(App.Quiz)
  {
    App.VisitRoute(routes, 12, QuizTarget(id), true);
  }

  /** The flashcard path against the table AppRoutes declares: no route matches,
      so a signed-in user lands on NotFound. */
  lemma FlashcardsTargetAsWritten(id: string)
    requires id != "" && '/' !in id
    ensures App.Visit(App.AsWrittenRoutes, FlashcardsTarget(id), true) == App.Render(App.NotFound)
  {
    var path := FlashcardsTarget(id);
    assert path[1] == 'f';
    assert "/auth/success"[1] == 'a' && "/password-reset"[1] == 'p';
    assert "/password-reset/"[1] == 'p' && "/quiz/"[1] == 'q';
    forall i | 0 <= i < |App.AsWrittenRoutes|
      ensures !App.Matches(App.AsWrittenRoutes[i].pattern, path)
    {
    }
  }

  /** The flashcard path against the corrected table: the "/flashcards/:id"
      route renders the flashcards page for a signed-in user. */
  lemma FlashcardsTargetRenders(id: string)
    requires id != "" && '/' !in id
    ensures App.Visit(App.Routes, FlashcardsTarget(id), true) == App.Render(App.Flashcards)
  {
    App.VisitRoute(App.Routes, 14, FlashcardsTarget(id), true);
  }
}

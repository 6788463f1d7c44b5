/**
 * The saved-summaries page of src/pages/Export.tsx: the list of summaries
 * fetched with the session token, the per-summary PDF export and delete
 * actions with their busy ids, and the download-name rule that replaces every
 * character outside [A-Za-z0-9] by '_' and appends ".pdf".
 */
module ExportPage {
  import opened Replies
  import IdFilter

  datatype Summary = Summary(
    id: string,
    title: string,
    summary: string,
    thumbnail: string,
    channelTitle: string,
    publishedAt: string,
    youtubeUrl: string,
    createdAt: string)

  function IdOf(s: Summary): string
  {
    s.id
  }

  const FetchFailed := "Failed to fetch summaries."
  const PdfFailed := "PDF generation failed."
  const PdfUnexpected := "An unexpected error occurred during PDF export."
  const DeleteFailed := "Failed to delete summary."
  const PdfSuffix := ".pdf"

  /** The characters the pattern [a-zA-Z0-9] matches. */
  predicate IsAsciiAlnum(c: char)
  {
    ('a' <= c <= 'z') || ('A' <= c <= 'Z') || ('0' <= c <= '9')
  }

  /** `title.replace(/[^a-zA-Z0-9]/g, '_')`, one UTF-16 code unit per char. */
  function Sanitize(title: string): (r: string)
    ensures |r| == |title|
    ensures forall i :: 0 <= i < |title| && IsAsciiAlnum(title[i]) ==> r[i] == title[i]
    ensures forall i :: 0 <= i < |title| && !IsAsciiAlnum(title[i]) ==> r[i] == '_'
  {
    if title == [] then []
    else [if IsAsciiAlnum(title[0]) then title[0] else '_'] + Sanitize(title[1..])
  }

  /** A stem holding only ASCII letters, digits and '_'. */
  predicate IsSafeStem(s: string)
  {
    forall i :: 0 <= i < |s| ==> IsAsciiAlnum(s[i]) || s[i] == '_'
  }

  /** The name the downloaded PDF is given. */
  function DownloadName(title: string): (r: string)
    ensures |r| == |title| + 4
    ensures r[..|title|] == Sanitize(title) && r[|title|..] == PdfSuffix
    ensures IsSafeStem(r[..|title|])
  {
    Sanitize(title) + PdfSuffix
  }

  /** The stem is safe, and a safe stem is its own sanitisation. */
  lemma SanitizeFixesExactlySafeStems(s: string)
    ensures IsSafeStem(Sanitize(s))
    ensures Sanitize(s) == s <==> IsSafeStem(s)
  {
    if IsSafeStem(s) {
      assert forall i :: 0 <= i < |s| ==> Sanitize(s)[i] == s[i];
    } else {
      var i :| 0 <= i < |s| && !(IsAsciiAlnum(s[i]) || s[i] == '_');
      assert Sanitize(s)[i] != s[i];
    }
  }

  /** Sanitising an already sanitised stem returns it unchanged. */
  lemma SanitizeIdempotent(title: string)
    ensures Sanitize(Sanitize(title)) == Sanitize(title)
  {
    SanitizeFixesExactlySafeStems(title);
    SanitizeFixesExactlySafeStems(Sanitize(title));
  }

  /** The message `handlePdfExport` stores when the export fails; shared with
      the summaries page, whose handler ends the same way. */
  function PdfExportError(reply: Reply<()>): (m: string)
    requires !reply.Ok?
    ensures m != ""
    ensures reply.Rejected? ==> m == PdfFailed
    ensures reply.Thrown? && reply.message != "" ==> m == reply.message
    ensures reply.Thrown? && reply.message == "" ==> m == PdfUnexpected
  {
    match reply
    case Rejected(_) => PdfFailed
    case Thrown(message) => Or(message, PdfUnexpected)
  }

  /** Everything the page holds. */
  datatype Page = Page(
    summaries: seq<Summary>,
    isLoading: bool,
    error: Option<string>,
    exportingId: Option<string>,
    deletingId: Option<string>)

  const Initial := Page([], true, None, None, None)

  /** The fetch effect for the session token. Without a truthy token nothing is
      requested and the page keeps loading. */
  function Fetched(p: Page, token: Option<string>, reply: Reply<seq<Summary>>): (r: Page)
    ensures !Truthy(token) ==> r == p
    ensures Truthy(token) ==> !r.isLoading && r.exportingId == p.exportingId && r.deletingId == p.deletingId
    ensures Truthy(token) && reply.Ok? ==> r.summaries == reply.payload && r.error == p.error
    ensures Truthy(token) && reply.Rejected? ==> r.summaries == p.summaries && r.error == Some(FetchFailed)
    ensures Truthy(token) && reply.Thrown? ==> r.summaries == p.summaries && r.error == Some(reply.message)
  {
    if !Truthy(token) then p
    else
      match reply
      case Ok(list) => p.(summaries := list, isLoading := false)
      case Rejected(_) => p.(error := Some(FetchFailed), isLoading := false)
      case Thrown(message) => p.(error := Some(message), isLoading := false)
  }

  /** The state while the export of `s` is in flight. */
  function Exporting(p: Page, s: Summary): Page
  {
    p.(exportingId := Some(s.id))
  }

  /** The state once the export of `s` has settled. */
  function Exported(p: Page, s: Summary, reply: Reply<()>): (r: Page)
    ensures r.exportingId == None
    ensures r.summaries == p.summaries && r.isLoading == p.isLoading && r.deletingId == p.deletingId
    ensures reply.Ok? ==> r.error == p.error
    ensures !reply.Ok? ==> r.error == Some(PdfExportError(reply))
  {
    if reply.Ok? then p.(exportingId := None)
    else p.(error := Some(PdfExportError(reply)), exportingId := None)
  }

  /** The message `handleDelete` stores when the delete fails. */
  function DeleteError(reply: Reply<()>): (m: string)
    requires !reply.Ok?
    ensures reply.Rejected? ==> m == Or(reply.message, DeleteFailed) && m != ""
    ensures reply.Thrown? ==> m == reply.message
  {
    match reply
    case Rejected(message) => Or(message, DeleteFailed)
    case Thrown(message) => message
  }

  /** The state while the delete of `id` is in flight. */
  function Deleting(p: Page, id: string): Page
  {
    p.(deletingId := Some(id))
  }

  /** The state once the confirmed delete of `id` has settled. */
  function Deleted(p: Page, id: string, reply: Reply<()>): (r: Page)
    ensures r.deletingId == None
    ensures r.isLoading == p.isLoading && r.exportingId == p.exportingId
    ensures reply.Ok? ==> r.summaries == IdFilter.Without(p.summaries, IdOf, id) && r.error == p.error
    ensures !reply.Ok? ==> r.summaries == p.summaries && r.error == Some(DeleteError(reply))
  {
    if reply.Ok? then p.(summaries := IdFilter.Without(p.summaries, IdOf, id), deletingId := None)
    else p.(error := Some(DeleteError(reply)), deletingId := None)
  }

  /** The Export PDF button of summary `id`. */
  predicate ExportDisabled(p: Page, id: string)
  {
    p.exportingId == Some(id) || Truthy(p.deletingId)
  }

  /** The delete button of summary `id`. */
  predicate DeleteDisabled(p: Page, id: string)
  {
    p.deletingId == Some(id) || Truthy(p.exportingId)
  }

  /** While a summary with a non-empty id is being exported, its own export
      button and every delete button are disabled. */
  lemma ExportBlocksDeletes(p: Page, s: Summary, other: string)
    requires s.id != ""
    ensures ExportDisabled(Exporting(p, s), s.id)
    ensures DeleteDisabled(Exporting(p, s), other)
  {
  }

  /** While a summary with a non-empty id is being deleted, its own delete
      button and every export button are disabled. */
  lemma DeleteBlocksExports(p: Page, id: string, other: string)
    requires id != ""
    ensures DeleteDisabled(Deleting(p, id), id)
    ensures ExportDisabled(Deleting(p, id), other)
  {
  }

  /** With nothing in flight every button is enabled, and after any export or
      delete has settled nothing it started is still in flight. */
  lemma SettledFreesButtons(p: Page, s: Summary, id: string, reply: Reply<()>, other: string)
    requires p.exportingId == None && p.deletingId == None
    ensures !ExportDisabled(p, other) && !DeleteDisabled(p, other)
    ensures !ExportDisabled(Exported(Exporting(p, s), s, reply), other)
    ensures !DeleteDisabled(Exported(Exporting(p, s), s, reply), other)
    ensures !ExportDisabled(Deleted(Deleting(p, id), id, reply), other)
    ensures !DeleteDisabled(Deleted(Deleting(p, id), id, reply), other)
  {
  }

  /** A successful delete removes exactly the summaries with that id and keeps
      the others in their order; a repeated delete removes nothing more. */
  lemma DeleteRemovesExactly(p: Page, id: string)
    ensures var r := Deleted(Deleting(p, id), id, Ok(()));
      (forall i :: 0 <= i < |r.summaries| ==> r.summaries[i].id != id)
      && |r.summaries| == |p.summaries| - IdFilter.Count(p.summaries, IdOf, id)
      && Deleted(Deleting(r, id), id, Ok(())).summaries == r.summaries
  {
    IdFilter.WithoutRemovesCount(p.summaries, IdOf, id);
    IdFilter.WithoutIdempotent(p.summaries, IdOf, id);
  }

  /** What the card shows: a spinner, the error, the empty notice or the list. */
  datatype Content = Spinner | ErrorText(message: string) | NoSummaries | Listing(items: seq<Summary>)

  function Shown(p: Page): (c: Content)
    ensures p.isLoading <==> c == Spinner
    ensures c.ErrorText? <==> !p.isLoading && Truthy(p.error)
    ensures c.ErrorText? ==> c.message == p.error.value
    ensures c == NoSummaries <==> !p.isLoading && !Truthy(p.error) && p.summaries == []
    ensures c.Listing? ==> c.items == p.summaries && c.items != []
  {
    if p.isLoading then Spinner
    else if Truthy(p.error) then ErrorText(p.error.value)
    else if p.summaries == [] then NoSummaries
    else Listing(p.summaries)
  }

  /** Without a token the page shows its spinner for good. */
  lemma NoTokenKeepsLoading(token: Option<string>, reply: Reply<seq<Summary>>)
    requires !Truthy(token)
    ensures Shown(Fetched(Initial, token, reply)) == Spinner
  {
  }

  class SavedSummaries {
    var summaries: seq<Summary>
    var isLoading: bool
    var error: Option<string>
    var exportingId: Option<string>
    var deletingId: Option<string>

    function State(): Page
      reads this
    {
      Page(summaries, isLoading, error, exportingId, deletingId)
    }

    constructor ()
      ensures State() == Initial
    {
      summaries, isLoading, error := [], true, None;
      exportingId, deletingId := None, None;
    }

    /** The fetch effect; `requested` tells whether a request was made. */
    method FetchSummaries(token: Option<string>, reply: Reply<seq<Summary>>) returns (requested: bool)
      modifies this
      ensures requested <==> Truthy(token)
      ensures State() == Fetched(old(State()), token, reply)
    {
      requested := Truthy(token);
      if !requested {
        return;
      }
      match reply {
        case Ok(list) => summaries := list;
        case Rejected(_) => error := Some(FetchFailed);
        case Thrown(message) => error := Some(message);
      }
      isLoading := false;
    }

    /** `handlePdfExport`; `download` is the name the file is saved under. */
    method HandlePdfExport(s: Summary, reply: Reply<()>) returns (download: Option<string>, ghost pending: Page)
      modifies this
      ensures pending == Exporting(old(State()), s)
      ensures State() == Exported(pending, s, reply)
      ensures download == if reply.Ok? then Some(DownloadName(s.title)) else None
    {
      exportingId := Some(s.id);
      pending := State();
      if reply.Ok? {
        download := Some(DownloadName(s.title));
      } else {
        download := None;
        error := Some(PdfExportError(reply));
      }
      exportingId := None;
    }

    /** `handleDelete`; `confirmed` is the answer to the confirmation dialog.
        Declining sends nothing and changes nothing. */
    method HandleDelete(summaryId: string, confirmed: bool, reply: Reply<()>)
      returns (requested: bool, ghost pending: Page)
      modifies this
      ensures requested == confirmed
      ensures !confirmed ==> State() == old(State())
      ensures confirmed ==> pending == Deleting(old(State()), summaryId)
      ensures confirmed ==> State() == Deleted(pending, summaryId, reply)
    {
      requested := confirmed;
      pending := State();
      if !confirmed {
        return;
      }
      deletingId := Some(summaryId);
      pending := State();
      match reply {
        case Ok(_) => summaries := IdFilter.Without(summaries, IdOf, summaryId);
        case _ => error := Some(DeleteError(reply));
      }
      deletingId := None;
    }
  }
}

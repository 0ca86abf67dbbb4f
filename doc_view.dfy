// The owner's document view (src/pages/DocView.jsx): its React state as the
// fields of a class, each handler as a method. The document lookup, the
// signature posts and the finalize call are parameters standing for the
// server's answers.
module DocView {
  import opened Common
  import opened Coercion
  import opened Seqs
  import opened Annotations
  import opened Persistence

  /** The backend used when VITE_API_BASE_URL is not set (or empty). */
  const DefaultBaseUrl := "https://signature-server-5olu.onrender.com"

  const LoadFailed := Toast("Failed to load document.", Error)
  const Saved := Toast("Signatures saved.", Success)
  const SaveFailed := Toast("Failed to save signatures.", Error)
  const Finalized := Toast("PDF finalized and ready to download.", Success)
  const FinalizeFailed := Toast("Error finalizing PDF.", Error)

  /** The body of `GET /docs/:id`; a missing `filePath` makes the handler throw. */
  datatype DocResponse = DocResponse(filePath: Option<string>)

  /** What the view renders below its header. */
  datatype Screen = Loading | Viewer | NoDocument

  /** The download the browser is asked to make: the cached blob under `signed_<id>.pdf`. */
  datatype Download = Download(blob: Bytes, fileName: string)

  function NoMeta(i: nat): Option<SignerMeta> {
    None
  }

  class State {
    const docId: string
    const baseUrl: string
    var docUrl: string
    var loading: bool
    var toast: Option<Toast>
    var numPages: int
    var currentPage: int
    var signatures: seq<Signature>
    var finalPdfBlob: Option<Bytes>

    ghost predicate Valid()
      reads this
    {
      numPages >= 1 && currentPage >= 1
    }

    /** Mounting the view for route parameter `docId`; `env` is VITE_API_BASE_URL. */
    constructor (docId: string, env: Option<string>)
      ensures Valid()
      ensures this.docId == docId && baseUrl == StringOr(env, DefaultBaseUrl)
      ensures docUrl == "" && loading && toast == None
      ensures numPages == 1 && currentPage == 1 && signatures == [] && finalPdfBlob == None
    {
      this.docId := docId;
      baseUrl := StringOr(env, DefaultBaseUrl);
      docUrl := "";
      loading := true;
      toast := None;
      numPages := 1;
      currentPage := 1;
      signatures := [];
      finalPdfBlob := None;
    }

    /** The load effect: `None` is a failed request. */
    method FetchDocument(res: Option<DocResponse>)
      requires Valid()
      modifies this`docUrl, this`toast, this`loading
      ensures Valid() && !loading
      ensures res.Some? && res.value.filePath.Some? ==>
                docUrl == DocumentUrl(baseUrl, res.value.filePath.value) && toast == old(toast)
      ensures res.None? || res.value.filePath.None? ==>
                docUrl == old(docUrl) && toast == Some(LoadFailed)
    {
      if res.Some? && res.value.filePath.Some? {
        docUrl := DocumentUrl(baseUrl, res.value.filePath.value);
      } else {
        toast := Some(LoadFailed);
      }
      loading := false;
    }

    function Rendered(): (r: Screen)
      reads this
      ensures r == Loading <==> loading
      ensures r == Viewer <==> !loading && docUrl != ""
      ensures r == NoDocument <==> !loading && docUrl == ""
    {
      if loading then Loading else if docUrl != "" then Viewer else NoDocument
    }

    /** The PDF renderer's onLoadSuccess, reporting the page count. */
    method OnLoadSuccess(n: int)
      requires Valid() && n >= 1
      modifies this`numPages
      ensures Valid() && numPages == n
    {
      numPages := n;
    }

    /** addSignature, with `newId` standing for Date.now(). */
    method AddSignature(newId: int)
      requires Valid()
      modifies this`signatures
      ensures Valid()
      ensures signatures == old(signatures) + [NewSignature(newId, currentPage, "Add Signature")]
    {
      signatures := signatures + [NewSignature(newId, currentPage, "Add Signature")];
    }

    /** updateSignature(id, newData): every record carrying `id` gets the keys of `newData`. */
    method UpdateSignature(id: int, newData: Patch)
      requires Valid()
      modifies this`signatures
      ensures Valid()
      ensures signatures == UpdateAll(old(signatures), id, newData)
    {
      signatures := UpdateAll(signatures, id, newData);
    }

    /** deleteSignature(id): every record carrying `id` is removed. */
    method DeleteSignature(id: int)
      requires Valid()
      modifies this`signatures
      ensures Valid()
      ensures signatures == WithoutId(old(signatures), id)
    {
      signatures := WithoutId(signatures, id);
    }

    /** The records rendered as signature boxes: those on the current page, in insertion order. */
    function Visible(): (r: seq<Signature>)
      reads this
      ensures IsSubsequence(r, signatures)
      ensures forall i :: 0 <= i < |r| ==> r[i].page == currentPage
      ensures forall i :: 0 <= i < |signatures| && signatures[i].page == currentPage ==>
                multiset(r)[signatures[i]] == multiset(signatures)[signatures[i]]
    {
      ForPage(signatures, currentPage)
    }

    /**
     * handleSaveSignature: one POST per record, in list order, stopping at the
     * first failure. `ok(i)` is the server's answer to request `i`.
     */
    method HandleSaveSignature(ok: nat -> bool) returns (sent: seq<Payload>)
      requires Valid()
      modifies this`toast
      ensures Valid()
      ensures |sent| <= |signatures|
      ensures forall j :: 0 <= j < |sent| ==> sent[j] == PayloadOf(docId, signatures[j], None)
      ensures (forall j :: 0 <= j < |signatures| ==> ok(j)) ==>
                |sent| == |signatures| && toast == Some(Saved)
      ensures !(forall j :: 0 <= j < |signatures| ==> ok(j)) ==>
                toast == Some(SaveFailed) && |sent| == FirstFailure(ok, 0, |signatures|) + 1
    {
      var allOk;
      sent, allOk := PostAll(docId, signatures, NoMeta, ok);
      if allOk {
        toast := Some(Saved);
      } else {
        toast := Some(SaveFailed);
      }
    }

    /** handleFinalizePDF: `res` is the PDF the server returns, `None` when the call fails. */
    method HandleFinalizePdf(res: Option<Bytes>)
      requires Valid()
      modifies this`finalPdfBlob, this`toast
      ensures Valid()
      ensures res.Some? ==> finalPdfBlob == res && toast == Some(Finalized)
      ensures res.None? ==> finalPdfBlob == old(finalPdfBlob) && toast == Some(FinalizeFailed)
    {
      if res.Some? {
        finalPdfBlob := res;
        toast := Some(Finalized);
      } else {
        toast := Some(FinalizeFailed);
      }
    }

    /** handleDownload: nothing without a cached blob; otherwise that blob, never a new request. */
    method HandleDownload() returns (d: Option<Download>)
      ensures d.None? <==> finalPdfBlob.None?
      ensures d.Some? ==> d.value.blob == finalPdfBlob.value
      ensures d.Some? ==> d.value.fileName == "signed_" + docId + ".pdf"
    {
      if finalPdfBlob.None? {
        return None;
      }
      d := Some(Download(finalPdfBlob.value, "signed_" + docId + ".pdf"));
    }

    /**
     * handleDragEnd for the box of record `id`: `container` is the enclosing
     * `.pdf-container` (if any), `clientX`/`clientY` the cursor.
     */
    method HandleDragEnd(container: Option<Origin>, clientX: int, clientY: int, id: int)
      requires Valid()
      modifies this`signatures
      ensures Valid()
      ensures container.None? ==> signatures == old(signatures)
      ensures container.Some? ==>
                signatures == UpdateAll(old(signatures), id,
                                        PositionPatch(clientX - container.value.left, clientY - container.value.top))
    {
      if container.None? {
        return;
      }
      UpdateSignature(id, PositionPatch(clientX - container.value.left, clientY - container.value.top));
    }

    method GoToPrevPage()
      requires Valid()
      modifies this`currentPage
      ensures Valid() && currentPage == PrevPage(old(currentPage))
      ensures old(currentPage) <= numPages ==> currentPage <= numPages
    {
      currentPage := PrevPage(currentPage);
    }

    method GoToNextPage()
      requires Valid()
      modifies this`currentPage
      ensures Valid() && currentPage == NextPage(old(currentPage), numPages)
      ensures currentPage <= numPages
    {
      currentPage := NextPage(currentPage, numPages);
    }
  }
}

// The guest's shared document view (src/pages/SharedDocView.jsx): the same
// annotation collection as the owner's view, reached through a share token,
// finalized by posting every annotation with guest metadata and then one
// finalize call carrying the first annotation.
module SharedDocView {
  import opened Common
  import opened Seqs
  import opened Annotations
  import opened Persistence

  const BaseUrl := "https://signature-server-5olu.onrender.com"

  const InvalidLink := Toast("❌ Invalid or expired link.", Error)
  const AddFirst := Toast("⚠️ Please add a signature first.", Warning)
  const Done := Toast("✅ Document signed and finalized!", Success)
  const Failed := Toast("❌ Failed to finalize document.", Error)

  /** The body of `GET /shared/:token`; a missing `filePath` makes the handler throw. */
  datatype SharedResponse = SharedResponse(filePath: Option<string>, documentId: string)

  /** What the view renders: the loader, the terminal expired-link notice, or the signing view. */
  datatype Screen = Loading | Expired | Viewer

  /** `POST /shared/finalize/:token` with `{ signatureDetails }`. */
  datatype FinalizeRequest = FinalizeRequest(token: string, signatureDetails: Signature)

  class State {
    const token: string
    var loading: bool
    var docUrl: string
    var documentId: string
    var numPages: int
    var currentPage: int
    var signatures: seq<Signature>
    var toast: Option<Toast>
    var isUsed: bool
    /** The route the 2-second timer will navigate to, once scheduled. */
    var redirect: Option<string>

    ghost predicate Valid()
      reads this
    {
      numPages >= 1 && currentPage >= 1
    }

    constructor (token: string)
      ensures Valid() && this.token == token
      ensures loading && docUrl == "" && documentId == "" && !isUsed
      ensures numPages == 1 && currentPage == 1 && signatures == []
      ensures toast == None && redirect == None
    {
      this.token := token;
      loading := true;
      docUrl := "";
      documentId := "";
      numPages := 1;
      currentPage := 1;
      signatures := [];
      toast := None;
      isUsed := false;
      redirect := None;
    }

    function Rendered(): (r: Screen)
      reads this
      ensures r == Loading <==> loading
      ensures r == Expired <==> !loading && isUsed
      ensures r == Viewer <==> !loading && !isUsed
    {
      if loading then Loading else if isUsed then Expired else Viewer
    }

    /**
     * The token lookup effect: `None` is a rejected request. The document id is
     * stored before the file path is read, so a response without a path still
     * sets it, and then marks the link as used.
     */
    method FetchSharedDoc(res: Option<SharedResponse>)
      requires Valid()
      modifies this`loading, this`docUrl, this`documentId, this`isUsed, this`toast
      ensures Valid() && !loading
      ensures res.Some? ==> documentId == res.value.documentId
      ensures res.None? ==> documentId == old(documentId)
      ensures res.Some? && res.value.filePath.Some? ==>
                docUrl == DocumentUrl(BaseUrl, res.value.filePath.value) &&
                isUsed == old(isUsed) && toast == old(toast)
      ensures res.None? || res.value.filePath.None? ==>
                docUrl == old(docUrl) && isUsed && toast == Some(InvalidLink) && Rendered() == Expired
    {
      if res.None? {
        isUsed := true;
        toast := Some(InvalidLink);
      } else {
        documentId := res.value.documentId;
        if res.value.filePath.Some? {
          docUrl := DocumentUrl(BaseUrl, res.value.filePath.value);
        } else {
          isUsed := true;
          toast := Some(InvalidLink);
        }
      }
      loading := false;
    }

    method OnLoadSuccess(n: int)
      requires Valid() && n >= 1
      modifies this`numPages
      ensures Valid() && numPages == n
    {
      numPages := n;
    }

    /** addSignature, with `newId` standing for Date.now(). */
    method AddSignature(newId: int)
      requires Valid()
      modifies this`signatures
      ensures Valid()
      ensures signatures == old(signatures) + [NewSignature(newId, currentPage, "Signature")]
    {
      signatures := signatures + [NewSignature(newId, currentPage, "Signature")];
    }

    method UpdateSignature(id: int, newData: Patch)
      requires Valid()
      modifies this`signatures
      ensures Valid()
      ensures signatures == UpdateAll(old(signatures), id, newData)
    {
      signatures := UpdateAll(signatures, id, newData);
    }

    /** The inline onDelete of the box for record `id`. */
    method DeleteSignature(id: int)
      requires Valid()
      modifies this`signatures
      ensures Valid()
      ensures signatures == WithoutId(old(signatures), id)
    {
      signatures := WithoutId(signatures, id);
    }

    method HandleDragEnd(container: Option<Origin>, clientX: int, clientY: int, id: int)
      requires Valid()
      modifies this`signatures
      ensures Valid()
      ensures container.None? ==> signatures == old(signatures)
      ensures container.Some? ==>
                signatures == UpdateAll(old(signatures), id,
                                        PositionPatch(clientX - container.value.left, clientY - container.value.top))
    {
      if container.None? {
        return;
      }
      UpdateSignature(id, PositionPatch(clientX - container.value.left, clientY - container.value.top));
    }

    function Visible(): (r: seq<Signature>)
      reads this
      ensures IsSubsequence(r, signatures)
      ensures forall i :: 0 <= i < |r| ==> r[i].page == currentPage
      ensures forall i :: 0 <= i < |signatures| && signatures[i].page == currentPage ==>
                multiset(r)[signatures[i]] == multiset(signatures)[signatures[i]]
    {
      ForPage(signatures, currentPage)
    }

    /**
     * handleFinalize. `ok(i)` is the server's answer to request `i` (the
     * per-record posts are requests `0..|signatures|-1`, the finalize call is
     * request `|signatures|`); `stamps(i)` is the ISO time read when building
     * request `i`; `userAgent` is navigator.userAgent.
     */
    method HandleFinalize(ok: nat -> bool, stamps: nat -> string, userAgent: string)
      returns (sent: seq<Payload>, finalizeCall: Option<FinalizeRequest>)
      requires Valid()
      modifies this`toast, this`redirect
      ensures Valid()
      ensures signatures == [] ==>
                sent == [] && finalizeCall == None && toast == Some(AddFirst) && redirect == old(redirect)
      ensures |sent| <= |signatures|
      ensures forall j :: 0 <= j < |sent| ==>
                sent[j] == PayloadOf(documentId, signatures[j], Some(GuestMeta(stamps, userAgent, j)))
      ensures finalizeCall.Some? <==>
                signatures != [] && forall j :: 0 <= j < |signatures| ==> ok(j)
      ensures finalizeCall.Some? ==>
                |sent| == |signatures| && finalizeCall.value == FinalizeRequest(token, signatures[0])
      ensures signatures != [] && finalizeCall.None? ==>
                |sent| == FirstFailure(ok, 0, |signatures|) + 1
      ensures signatures != [] ==>
                if finalizeCall.Some? && ok(|signatures|)
                then toast == Some(Done) && redirect == Some("/")
                else toast == Some(Failed) && redirect == old(redirect)
    {
      if |signatures| == 0 {
        toast := Some(AddFirst);
        return [], None;
      }
      var allOk;
      sent, allOk := PostAll(documentId, signatures, (i: nat) => Some(GuestMeta(stamps, userAgent, i)), ok);
      if !allOk {
        toast := Some(Failed);
        return sent, None;
      }
      finalizeCall := Some(FinalizeRequest(token, signatures[0]));
      if ok(|signatures|) {
        toast := Some(Done);
        redirect := Some("/");
      } else {
        toast := Some(Failed);
      }
    }

    method GoToPrevPage()
      requires Valid()
      modifies this`currentPage
      ensures Valid() && currentPage == PrevPage(old(currentPage))
      ensures old(currentPage) <= numPages ==> currentPage <= numPages
    {
      currentPage := PrevPage(currentPage);
    }

    method GoToNextPage()
      requires Valid()
      modifies this`currentPage
      ensures Valid() && currentPage == NextPage(old(currentPage), numPages)
      ensures currentPage <= numPages
    {
      currentPage := NextPage(currentPage, numPages);
    }
  }
}

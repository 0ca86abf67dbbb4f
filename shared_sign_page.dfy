// The recipient's signing page (src/pages/SharedSignPage.jsx): at most one
// signature, placed on page 1, styled through its box and sent with the
// signer's metadata in a single finalize call.
module SharedSignPage {
  import opened Common
  import opened Annotations

  /** The base URL this page hard-codes for the document file. */
  const LocalBaseUrl := "http://localhost:5000"

  const InvalidLink := Toast("Invalid or expired link.", Error)
  const SignedOk := Toast("✅ Document signed successfully!", Success)
  const FinalizeFailed := Toast("❌ Failed to finalize document.", Error)

  /** The body of `GET /shared/:token`; a missing `filePath` makes the handler throw. */
  datatype TokenResponse = TokenResponse(filePath: Option<string>)

  datatype Screen = Loading | Viewer | InvalidLinkNotice

  /** The `signatureDetails` object posted to `/shared/finalize/:token`. */
  datatype FinalizeDetails = FinalizeDetails(
    x: int,
    y: int,
    page: int,
    text: string,
    fontSize: int,
    fontWeight: string,
    fontStyle: string,
    underline: bool,
    fontFamily: string,
    color: string,
    userAgent: string,
    ipAddress: string,
    timestamp: string)

  /** The record the "Add Signature" button installs, with `id` standing for Date.now(). */
  function DefaultSignature(id: int): (r: Signature)
    ensures r.id == id && r.page == 1
    ensures FieldsOf(r) == Snapshot(100, 100, "Signed by Recipient", 18, "bold", "italic", false, "Cursive", "#000000")
  {
    Signature(id, 100, 100, 1, "Signed by Recipient", 18, "bold", "italic", false, "Cursive", "#000000")
  }

  /** The details sent for signature `s`: its style and position, always page 1, and the signer's metadata. */
  function DetailsOf(s: Signature, userAgent: string, timestamp: string): (d: FinalizeDetails)
    ensures d.page == 1 && d.ipAddress == "auto"
    ensures d.userAgent == userAgent && d.timestamp == timestamp
    ensures d.x == s.x && d.y == s.y && d.text == s.text && d.color == s.color
    ensures FieldsOf(s) == Snapshot(d.x, d.y, d.text, d.fontSize, d.fontWeight, d.fontStyle, d.underline, d.fontFamily, d.color)
  {
    FinalizeDetails(s.x, s.y, 1, s.text, s.fontSize, s.fontWeight, s.fontStyle, s.underline,
                    s.fontFamily, s.color, userAgent, "auto", timestamp)
  }

  /** Whatever page the signature record says, the details place it on page 1. */
  lemma DetailsIgnorePage(s: Signature, page: int, userAgent: string, timestamp: string)
    ensures DetailsOf(s.(page := page), userAgent, timestamp) == DetailsOf(s, userAgent, timestamp)
  {
  }

  class State {
    const token: string
    var docUrl: string
    var loading: bool
    var toast: Option<Toast>
    var signature: Option<Signature>
    var signed: bool
    /** The route the 2-second timer will navigate to, once scheduled. */
    var redirect: Option<string>

    /** No document URL is known while the lookup is pending. */
    ghost predicate Valid()
      reads this
    {
      loading ==> docUrl == ""
    }

    constructor (token: string)
      ensures Valid() && this.token == token
      ensures docUrl == "" && loading && toast == None && signature == None && !signed && redirect == None
    {
      this.token := token;
      docUrl, loading, toast := "", true, None;
      signature, signed, redirect := None, false, None;
    }

    function Rendered(): (r: Screen)
      reads this
      ensures r == Loading <==> loading
      ensures r == Viewer <==> !loading && docUrl != ""
      ensures r == InvalidLinkNotice <==> !loading && docUrl == ""
    {
      if loading then Loading else if docUrl != "" then Viewer else InvalidLinkNotice
    }

    /** The "Add Signature" button is offered only while there is no signature. */
    function AddOffered(): (r: bool)
      reads this
      ensures r <==> signature.None?
      ensures r ==> !FinalizeOffered()
    {
      signature.None?
    }

    /** The "Finalize & Sign" button is offered once a signature exists and until signing succeeds. */
    function FinalizeOffered(): (r: bool)
      reads this
      ensures r ==> signature.Some?
      ensures signed ==> !r
      ensures signature.Some? && !signed ==> r
    {
      signature.Some? && !signed
    }

    /** fetchSharedDoc: `None` is a rejected request; a missing path throws into the same handler. */
    method FetchSharedDoc(res: Option<TokenResponse>)
      requires Valid() && loading
      modifies this`docUrl, this`loading, this`toast
      ensures Valid() && !loading
      ensures res.Some? && res.value.filePath.Some? ==>
                docUrl == DocumentUrl(LocalBaseUrl, res.value.filePath.value) &&
                toast == old(toast) && Rendered() == Viewer
      ensures res.None? || res.value.filePath.None? ==>
                docUrl == "" && toast == Some(InvalidLink) && Rendered() == InvalidLinkNotice
    {
      if res.Some? && res.value.filePath.Some? {
        docUrl := DocumentUrl(LocalBaseUrl, res.value.filePath.value);
      } else {
        toast := Some(InvalidLink);
      }
      loading := false;
    }

    method AddSignature(newId: int)
      requires Valid()
      modifies this`signature
      ensures Valid()
      ensures signature == Some(DefaultSignature(newId))
      ensures !AddOffered()
    {
      signature := Some(DefaultSignature(newId));
    }

    /**
     * handleDragEnd: the box exists only while there is a signature. Only x
     * and y change; without a `.pdf-container` ancestor nothing does.
     */
    method HandleDragEnd(container: Option<Origin>, clientX: int, clientY: int)
      requires Valid() && signature.Some?
      modifies this`signature
      ensures Valid()
      ensures container.None? ==> signature == old(signature)
      ensures container.Some? ==>
                signature == Some(old(signature).value.(x := clientX - container.value.left,
                                                        y := clientY - container.value.top))
    {
      if container.None? {
        return;
      }
      signature := Some(signature.value.(x := clientX - container.value.left, y := clientY - container.value.top));
    }

    /** The box's onUpdate: the reported fields replace the record's, its id and page stay. */
    method OnUpdate(snap: Snapshot)
      requires Valid() && signature.Some?
      modifies this`signature
      ensures Valid() && signature.Some?
      ensures FieldsOf(signature.value) == snap
      ensures signature.value.id == old(signature).value.id && signature.value.page == old(signature).value.page
    {
      MergeSnapshot(signature.value, snap);
      signature := Some(Merge(signature.value, SnapshotPatch(snap)));
    }

    /**
     * handleFinalize: `ok` is the server's answer, `userAgent` is
     * navigator.userAgent and `timestamp` the ISO time of the call. Without a
     * signature, reading its fields throws inside the same try block, so no
     * request is made and the failure toast shows.
     */
    method HandleFinalize(ok: bool, userAgent: string, timestamp: string) returns (request: Option<FinalizeDetails>)
      requires Valid()
      modifies this`toast, this`signed, this`redirect
      ensures Valid()
      ensures signature.None? ==>
                request == None && toast == Some(FinalizeFailed) && signed == old(signed) && redirect == old(redirect)
      ensures signature.Some? ==> request == Some(DetailsOf(signature.value, userAgent, timestamp))
      ensures signature.Some? && ok ==> toast == Some(SignedOk) && signed && redirect == Some("/") && !FinalizeOffered()
      ensures signature.Some? && !ok ==>
                toast == Some(FinalizeFailed) && signed == old(signed) && redirect == old(redirect)
    {
      if signature.None? {
        toast := Some(FinalizeFailed);
        return None;
      }
      request := Some(DetailsOf(signature.value, userAgent, timestamp));
      if ok {
        toast := Some(SignedOk);
        signed := true;
        redirect := Some("/");
      } else {
        toast := Some(FinalizeFailed);
      }
    }
  }

  /**
   * Adding, dragging and finalizing: the posted position is the dropped one,
   * the posted style is the default's, and the page is 1.
   */
  method AddDragFinalize(page: State, newId: int, container: Origin, clientX: int, clientY: int,
                         userAgent: string, timestamp: string)
    returns (request: Option<FinalizeDetails>)
    requires page.Valid() && page.signature.None?
    modifies page
    ensures request.Some?
    ensures request.value.x == clientX - container.left && request.value.y == clientY - container.top
    ensures request == Some(DetailsOf(DefaultSignature(newId).(x := clientX - container.left, y := clientY - container.top),
                                      userAgent, timestamp))
    ensures request.value.text == "Signed by Recipient" && request.value.fontFamily == "Cursive"
    ensures request.value.page == 1
  {
    page.AddSignature(newId);
    page.HandleDragEnd(Some(container), clientX, clientY);
    request := page.HandleFinalize(true, userAgent, timestamp);
  }
}

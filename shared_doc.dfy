// The single-signature guest page (src/pages/SharedDoc.jsx): a form of six
// fields edited one input at a time, finalized with one call that carries
// the whole form; a `finalized` flag then hides the form.
module SharedDoc {
  import opened Common
  import opened Coercion
  import opened Annotations

  const BaseUrl := "https://signature-server-5olu.onrender.com"

  const NoFile := "❌ No file found."
  const InvalidLink := "❌ Invalid or expired link."
  const SignedOk := Toast("✅ Document signed successfully.", Success)
  const FinalizeFailed := Toast("❌ Failed to finalize.", Error)

  /** The `signatureDetails` form. */
  datatype Details = Details(x: int, y: int, page: int, text: string, fontSize: int, color: string)

  const InitialDetails := Details(100, 100, 1, "Signed by guest", 16, "#000000")

  /** The body of `GET /shared/:token`; `filePath` may be missing. */
  datatype TokenResponse = TokenResponse(filePath: Option<string>)

  /** `POST /shared/finalize/:token` with `{ signatureDetails }`. */
  datatype FinalizeRequest = FinalizeRequest(token: string, signatureDetails: Details)

  class State {
    const token: string
    var fileUrl: string
    var numPages: int
    var details: Details
    var toast: Option<Toast>
    var error: string
    var finalized: bool
    /** The route the 2-second timer will navigate to, once scheduled. */
    var redirect: Option<string>

    constructor (token: string)
      ensures this.token == token && fileUrl == "" && numPages == 1 && details == InitialDetails
      ensures toast == None && error == "" && !finalized && redirect == None
    {
      this.token := token;
      fileUrl, numPages, details := "", 1, InitialDetails;
      toast, error, finalized, redirect := None, "", false, None;
    }

    /** The signing form is shown once the document is known, without an error, until finalized. */
    function FormVisible(): (r: bool)
      reads this
      ensures r ==> fileUrl != "" && error == ""
      ensures finalized ==> !r
      ensures fileUrl != "" && error == "" && !finalized ==> r
    {
      fileUrl != "" && error == "" && !finalized
    }

    /**
     * verifyToken: `None` is a rejected request. A response whose `filePath`
     * is missing or empty (falsy) is "No file found".
     */
    method VerifyToken(res: Option<TokenResponse>)
      modifies this`fileUrl, this`error
      ensures res.None? ==> error == InvalidLink && fileUrl == old(fileUrl)
      ensures res.Some? && (res.value.filePath.None? || res.value.filePath.value == "") ==>
                error == NoFile && fileUrl == old(fileUrl)
      ensures res.Some? && res.value.filePath.Some? && res.value.filePath.value != "" ==>
                fileUrl == DocumentUrl(BaseUrl, res.value.filePath.value) && error == old(error)
    {
      if res.None? {
        error := InvalidLink;
      } else if res.value.filePath.Some? && res.value.filePath.value != "" {
        fileUrl := DocumentUrl(BaseUrl, res.value.filePath.value);
      } else {
        error := NoFile;
      }
    }

    method OnLoadSuccess(n: int)
      requires n >= 1
      modifies this`numPages
      ensures numPages == n
    {
      numPages := n;
    }

    method SetText(value: string)
      modifies this`details
      ensures details == old(details).(text := value)
    {
      details := details.(text := value);
    }

    /**
     * The page input: `parseInt(value) || 1`, where `parsed` is parseInt's
     * result (`None` for NaN). Not clamped to the document's page count.
     */
    method SetPage(parsed: Option<int>)
      modifies this`details
      ensures details == old(details).(page := NumberOr(parsed, 1))
      ensures details.page != 0
    {
      details := details.(page := NumberOr(parsed, 1));
    }

    /** The X input: `parseInt(value) || 0`. */
    method SetX(parsed: Option<int>)
      modifies this`details
      ensures details == old(details).(x := NumberOr(parsed, 0))
    {
      details := details.(x := NumberOr(parsed, 0));
    }

    /** The Y input: `parseInt(value) || 0`. */
    method SetY(parsed: Option<int>)
      modifies this`details
      ensures details == old(details).(y := NumberOr(parsed, 0))
    {
      details := details.(y := NumberOr(parsed, 0));
    }

    method SetColor(value: string)
      modifies this`details
      ensures details == old(details).(color := value)
    {
      details := details.(color := value);
    }

    /** handleFinalize: `ok` is the server's answer to the finalize call. */
    method HandleFinalize(ok: bool) returns (request: FinalizeRequest)
      modifies this`toast, this`finalized, this`redirect
      ensures request == FinalizeRequest(token, details)
      ensures ok ==> toast == Some(SignedOk) && finalized && redirect == Some("/") && !FormVisible()
      ensures !ok ==> toast == Some(FinalizeFailed) && finalized == old(finalized) && redirect == old(redirect)
    {
      request := FinalizeRequest(token, details);
      if ok {
        toast := Some(SignedOk);
        finalized := true;
        redirect := Some("/");
      } else {
        toast := Some(FinalizeFailed);
      }
    }
  }

  /** Typing a page number beyond the document is accepted as it is. */
  method PageNotClamped(page: State, n: int)
    requires page.numPages >= 1 && n > page.numPages
    modifies page
    ensures page.details.page == n && page.details.page > page.numPages
  {
    page.SetPage(Some(n));
  }
}

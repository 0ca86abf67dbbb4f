// The wire payload of `POST /signatures` and the loop both document views use
// to send one payload per annotation, awaiting each before the next, so that
// the first rejected request ends the loop (its exception skips the rest).
module Persistence {
  import opened Common
  import opened Annotations

  /** Guest-flow metadata appended to each payload by the shared document view. */
  datatype SignerMeta = SignerMeta(signedBy: string, ipAddress: string, timestamp: string, userAgent: string)

  /** The body of one `POST /signatures` request. `imageData` is always null. */
  datatype Payload = Payload(
    documentId: string,
    x: int,
    y: int,
    page: int,
    status: string,
    imageData: Option<Bytes>,
    text: string,
    fontSize: int,
    fontWeight: string,
    fontStyle: string,
    underline: bool,
    fontFamily: string,
    color: string,
    meta: Option<SignerMeta>)

  /** The payload for one annotation: the document id, status 'signed', no image, and the record's page and nine fields. */
  function PayloadOf(documentId: string, s: Signature, meta: Option<SignerMeta>): (p: Payload)
    ensures Describes(p, documentId, s) && p.meta == meta
  {
    Payload(documentId, s.x, s.y, s.page, "signed", None, s.text, s.fontSize, s.fontWeight,
            s.fontStyle, s.underline, s.fontFamily, s.color, meta)
  }

  /** `p` is the wire form of annotation `s` for document `documentId`. */
  predicate Describes(p: Payload, documentId: string, s: Signature) {
    && p.documentId == documentId
    && p.status == "signed"
    && p.imageData == None
    && p.page == s.page
    && p.x == s.x && p.y == s.y && p.text == s.text && p.fontSize == s.fontSize
    && p.fontWeight == s.fontWeight && p.fontStyle == s.fontStyle && p.underline == s.underline
    && p.fontFamily == s.fontFamily && p.color == s.color
  }

  /** The guest metadata the shared view attaches to its request number `i`. */
  function GuestMeta(stamps: nat -> string, userAgent: string, i: nat): SignerMeta {
    SignerMeta("guest", "auto", stamps(i), userAgent)
  }

  /**
   * The number of requests sent before the first one in `[from, n)` that fails,
   * counting from `from`; `n - from` when none fails.
   */
  function FirstFailure(ok: nat -> bool, from: nat, n: nat): (k: nat)
    requires from <= n
    ensures from + k <= n
    ensures forall j :: from <= j < from + k ==> ok(j)
    ensures from + k < n ==> !ok(from + k)
    decreases n - from
  {
    if from == n || !ok(from) then 0 else 1 + FirstFailure(ok, from + 1, n)
  }

  /**
   * `for (const sig of sigs) await API.post('/signatures', payload(sig))`.
   * `ok(i)` is the server's answer to request number `i`; `meta(i)` the metadata
   * sent with it. Returns the payloads actually sent, in order, and whether
   * every request succeeded. When request `k` fails, requests `0..k` were sent
   * and none after.
   */
  method PostAll(documentId: string, sigs: seq<Signature>, meta: nat -> Option<SignerMeta>, ok: nat -> bool)
    returns (sent: seq<Payload>, allOk: bool)
    ensures allOk <==> forall j :: 0 <= j < |sigs| ==> ok(j)
    ensures allOk ==> |sent| == |sigs|
    ensures !allOk ==> |sent| == FirstFailure(ok, 0, |sigs|) + 1 && !ok(|sent| - 1)
    ensures |sent| <= |sigs|
    ensures forall j :: 0 <= j < |sent| ==> sent[j] == PayloadOf(documentId, sigs[j], meta(j))
    ensures forall j :: 0 <= j < |sent| ==> Describes(sent[j], documentId, sigs[j]) && sent[j].meta == meta(j)
    ensures forall j :: 0 <= j < |sent| - 1 ==> ok(j)
  {
    sent := [];
    var i := 0;
    while i < |sigs|
      invariant 0 <= i <= |sigs|
      invariant |sent| == i
      invariant forall j :: 0 <= j < i ==> ok(j)
      invariant forall j :: 0 <= j < i ==> sent[j] == PayloadOf(documentId, sigs[j], meta(j))
      invariant FirstFailure(ok, 0, |sigs|) == i + FirstFailure(ok, i, |sigs|)
    {
      var payload := PayloadOf(documentId, sigs[i], meta(i));
      sent := sent + [payload];
      if !ok(i) {
        return sent, false;
      }
      i := i + 1;
    }
    allOk := true;
  }
}

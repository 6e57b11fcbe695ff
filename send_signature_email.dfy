/** The `send-signature-email` edge function: it looks up a signatory, its
  * request and the request's contract, builds the signing link and records
  * an audit event. No e-mail is sent; the response only reports the link. */
module SendSignatureEmail {
  import opened Outcome
  import opened Database

  /** Used when the `APP_URL` setting is missing or empty. */
  const DefaultAppUrl: string := "https://propostapro.lovable.app"

  const SentMessage: string := "Email notification sent (mock)"

  /** The JSON body: `{ signatoryId, resend = false }`. */
  datatype Body = Body(signatoryId: Option<string>, resend: Option<bool>)

  /** A CORS preflight, or a POST whose body is `None` when it is not JSON. */
  datatype HttpRequest = Preflight | Post(body: Option<Body>)

  /** `RuntimeError` is the `{ error: error.message }` body of an exception,
    * whose text comes from the runtime. */
  datatype ResponseBody =
    | NoBody
    | ErrorMessage(error: string)
    | RuntimeError
    | Sent(message: string, signatureUrl: string)

  datatype Response = Response(status: int, body: ResponseBody)

  /** `!signatoryId` rejects a missing id and the empty string. */
  predicate HasSignatoryId(b: Body)
  {
    b.signatoryId.Some? && b.signatoryId.value != ""
  }

  /** `Deno.env.get("APP_URL") || DefaultAppUrl`. */
  function BaseUrl(appUrl: Option<string>): (r: string)
    ensures r != ""
    ensures r == DefaultAppUrl || appUrl == Some(r)
    ensures appUrl.Some? && appUrl.value != "" ==> r == appUrl.value
  {
    if appUrl.Some? && appUrl.value != "" then appUrl.value else DefaultAppUrl
  }

  /** The signing link: `${baseUrl}/assinatura/${token}`. */
  function SignatureUrl(appUrl: Option<string>, token: string): (r: string)
    ensures |r| == |BaseUrl(appUrl)| + |"/assinatura/"| + |token|
    ensures r[..|BaseUrl(appUrl)|] == BaseUrl(appUrl)
    ensures r[|r| - |token|..] == token
  {
    BaseUrl(appUrl) + "/assinatura/" + token
  }

  /** The link's token can be read back from it. */
  lemma SignatureUrlToken(appUrl: Option<string>, token: string)
    ensures SignatureUrl(appUrl, token)[|BaseUrl(appUrl)| + |"/assinatura/"|..] == token
  {
  }

  /** `resend ? "signature_email_resent" : "signature_email_sent"`. */
  function EmailEventType(resend: Option<bool>): (r: string)
    ensures r == "signature_email_resent" <==> resend == Some(true)
    ensures r == "signature_email_sent" <==> resend != Some(true)
  {
    if resend == Some(true) then "signature_email_resent" else "signature_email_sent"
  }

  /** The audit event a call with this body appends, if it gets that far:
    * the signatory, its request and the request's contract must each be
    * found. */
  function EmailEvent(signatories: seq<SignatoryRow>, requests: seq<RequestRow>,
                      contracts: seq<ContractRow>, b: Body): (r: Option<AuditEvent>)
    ensures r.Some? ==> HasSignatoryId(b)
    ensures r.Some? ==> r.value.signatoryId == b.signatoryId
    ensures r.Some? ==> r.value.eventType == EmailEventType(b.resend)
    ensures r.Some? ==> exists s :: s in signatories && s.id == b.signatoryId.value
                                    && r.value.eventData == SentTo(s.email)
                                    && r.value.signatureRequestId == s.signatureRequestId
  {
    if !HasSignatoryId(b) then None
    else
      var s := Single(signatories, SignatoryWithId(b.signatoryId.value));
      if s.None? then None
      else
        var req := Single(requests, RequestWithId(s.value.signatureRequestId));
        if req.None? then None
        else if Single(contracts, ContractWithId(req.value.contractId)).None? then None
        else Some(AuditEvent(req.value.id, b.signatoryId, EmailEventType(b.resend), SentTo(s.value.email), None))
  }

  function EventList(e: Option<AuditEvent>): seq<AuditEvent>
  {
    if e.Some? then [e.value] else []
  }

  /** Handles one HTTP request. Reads are taken to succeed; a failed
    * lookup means no row, or more than one, matched. */
  method Handle(db: Db, req: HttpRequest, appUrl: Option<string>) returns (resp: Response)
    modifies db`auditEvents
    ensures db.proposals == old(db.proposals) && db.proposalItems == old(db.proposalItems)
    ensures db.contracts == old(db.contracts) && db.signatureRequests == old(db.signatureRequests)
    ensures db.signatories == old(db.signatories)
    ensures req.Preflight? ==> resp == Response(200, NoBody)
    ensures req.Post? && req.body.None? ==> resp == Response(500, RuntimeError)
    ensures req.Post? && req.body.Some? && !HasSignatoryId(req.body.value) ==>
              resp == Response(400, ErrorMessage("Signatory ID is required"))
    ensures req.Post? && req.body.Some? && HasSignatoryId(req.body.value) ==>
              var s := Single(db.signatories, SignatoryWithId(req.body.value.signatoryId.value));
              var rq := if s.Some? then Single(db.signatureRequests, RequestWithId(s.value.signatureRequestId)) else None;
              var c := if rq.Some? then Single(db.contracts, ContractWithId(rq.value.contractId)) else None;
              && (s.None? ==> resp == Response(404, ErrorMessage("Signatory not found")))
              && (s.Some? && rq.None? ==> resp == Response(500, RuntimeError))
              && (rq.Some? && c.None? ==> resp == Response(404, ErrorMessage("Contract not found")))
              && (c.Some? ==> resp == Response(200, Sent(SentMessage, SignatureUrl(appUrl, s.value.verificationToken))))
    ensures req.Post? && req.body.Some? ==>
              db.auditEvents == old(db.auditEvents)
                                + EventList(EmailEvent(db.signatories, db.signatureRequests, db.contracts, req.body.value))
    ensures !(req.Post? && req.body.Some?) ==> db.auditEvents == old(db.auditEvents)
    ensures resp.status == 200 && req.Post? ==> |db.auditEvents| == |old(db.auditEvents)| + 1
  {
    if req.Preflight? {
      return Response(200, NoBody);
    }
    if req.body.None? {
      return Response(500, RuntimeError);
    }
    var b := req.body.value;
    if !HasSignatoryId(b) {
      return Response(400, ErrorMessage("Signatory ID is required"));
    }
    var s := Single(db.signatories, SignatoryWithId(b.signatoryId.value));
    if s.None? {
      return Response(404, ErrorMessage("Signatory not found"));
    }
    // The embedded request is null when it is missing; reading its
    // `created_by` then throws.
    var rq := Single(db.signatureRequests, RequestWithId(s.value.signatureRequestId));
    if rq.None? {
      return Response(500, RuntimeError);
    }
    var c := Single(db.contracts, ContractWithId(rq.value.contractId));
    if c.None? {
      return Response(404, ErrorMessage("Contract not found"));
    }
    var url := SignatureUrl(appUrl, s.value.verificationToken);
    db.auditEvents := db.auditEvents
      + [AuditEvent(rq.value.id, b.signatoryId, EmailEventType(b.resend), SentTo(s.value.email), None)];
    return Response(200, Sent(SentMessage, url));
  }
}

/** The public signing page reached through `/assinatura/<token>`: it loads
  * the signatory and the contract for the token, then lets the signatory
  * sign with a drawn image or reject. Unlike `GetSignatoryByToken`, the
  * page does not check whether the request was cancelled or has expired. */
module SignaturePage {
  import opened Outcome
  import opened Database
  import SignatureContext

  const InvalidTokenMessage: string := "Token de verificação inválido."
  const InvalidOrExpiredMessage: string := "Token de verificação inválido ou expirado."
  const DocumentNotFoundMessage: string := "Documento não encontrado."
  /** What the browser reports when the page reads `contract_id` from a
    * missing request. */
  const NullRequestMessage: string := "Cannot read properties of null (reading 'contract_id')"

  const SignedTitle: string := "Documento Assinado"
  const RejectedTitle: string := "Documento Rejeitado"

  /** What the page renders, in order of precedence. */
  datatype View = LoadingView | ErrorView(message: string) | CompletedView(title: string) | FormView

  /** The completed screen's title: `action === 'sign'` or not. */
  function CompletedTitle(action: Option<string>): (t: string)
    ensures t == SignedTitle <==> action == Some("sign")
    ensures t == RejectedTitle <==> action != Some("sign")
  {
    if action == Some("sign") then SignedTitle else RejectedTitle
  }

  /** As written, a signatory who has already answered gets the stored status
    * text ('signed' or 'rejected') as the page's action. */
  function ActionAsWritten(status: SignatoryStatus): (a: string)
    ensures a == SignatoryStatusText(status)
  {
    SignatoryStatusText(status)
  }

  /** A signatory who already signed and comes back sees the rejection
    * screen. */
  lemma AsWrittenShowsSignedAsRejected()
    ensures CompletedTitle(Some(ActionAsWritten(Signed))) == RejectedTitle
  {
    assert ActionAsWritten(Signed) != "sign";
  }

  /** The action an earlier answer stands for, in the page's own terms. */
  function ActionForStatus(status: SignatoryStatus): (a: string)
    requires status != Pending
    ensures status == Signed <==> a == "sign"
    ensures status == Rejected <==> a == "reject"
  {
    match status
    case Signed => "sign"
    case Rejected => "reject"
  }

  /** With the corrected action, the completed screen always matches the
    * stored answer. */
  lemma CorrectedTitleMatchesAnswer(status: SignatoryStatus)
    requires status != Pending
    ensures CompletedTitle(Some(ActionForStatus(status))) == if status == Signed then SignedTitle else RejectedTitle
  {
  }

  /** `if (!token)`: a missing or empty route parameter. */
  predicate HasToken(token: Option<string>)
  {
    token.Some? && token.value != ""
  }

  /** The signature tables after the page's call to `UpdateSignatureStatus`
    * for signatory `id`, from `signatories`, `requests` and `events` before
    * it. When the signatory is found, the IP lookup answers and the update
    * goes through, the answer is written and its audit event logged, and
    * the request is settled from the new signatories unless the recheck
    * fails. Otherwise nothing changes. */
  function AnswerTables(signatories: seq<SignatoryRow>, requests: seq<RequestRow>, events: seq<AuditEvent>,
                        id: Id, status: SignatoryStatus, image: Option<string>, comment: string,
                        now: int, ip: Option<string>, updateFails: bool, recheckFails: bool)
    : (seq<SignatoryRow>, seq<RequestRow>, seq<AuditEvent>)
  {
    var found := Single(signatories, SignatoryWithId(id));
    if found.None? || ip.None? || updateFails then (signatories, requests, events)
    else
      var rid := found.value.signatureRequestId;
      var answered := SignatureContext.RecordAnswer(signatories, id, status, now, ip.value, image);
      (answered,
       if recheckFails then requests else SignatureContext.Settle(requests, rid, answered),
       events + [SignatureContext.AnswerEvent(rid, id, status, Some(comment), ip.value)])
  }

  /** The page's call to `UpdateSignatureStatus`, seen from the page: it
    * succeeds exactly when the signatory is found, the IP lookup answers and
    * neither database call fails; the answer is written whenever the update
    * itself goes through. */
  method SubmitAnswer(db: Db, id: Id, status: SignatoryStatus, image: Option<string>, comment: string,
                      now: int, ip: Option<string>, updateFails: bool, recheckFails: bool)
    returns (ok: bool)
    requires status != Pending
    requires db.SignatureTablesValid()
    modifies db
    ensures db.SignatureTablesValid()
    ensures var found := Single(old(db.signatories), SignatoryWithId(id));
            ok <==> found.Some? && ip.Some? && !updateFails && !recheckFails
    ensures (db.signatories, db.signatureRequests, db.auditEvents) ==
                AnswerTables(old(db.signatories), old(db.signatureRequests), old(db.auditEvents),
                             id, status, image,
                             comment, now, ip, updateFails, recheckFails)
    ensures db.proposals == old(db.proposals) && db.proposalItems == old(db.proposalItems)
    ensures db.contracts == old(db.contracts)
  {
    var r := SignatureContext.UpdateSignatureStatus(db, id, status, image, Some(comment), now, ip, updateFails, recheckFails);
    ok := r.Success?;
  }

  class Page {
    var loading: bool
    var error: Option<string>
    var signatory: Option<SignatoryRow>
    var contract: Option<ContractRow>
    var signatureImage: Option<string>
    var comment: string
    var isSubmitting: bool
    var completed: bool
    var action: Option<string>

    constructor()
      ensures loading && error.None? && signatory.None? && contract.None?
      ensures signatureImage.None? && comment == "" && !isSubmitting && !completed && action.None?
    {
      loading, error, signatory, contract := true, None, None, None;
      signatureImage, comment, isSubmitting, completed, action := None, "", false, false, None;
    }

    /** The page's render decision. */
    function View(): (v: View)
      reads this
      ensures v == LoadingView <==> loading
      ensures v.FormView? <==> !loading && error.None? && !completed
    {
      if loading then LoadingView
      else if error.Some? then ErrorView(error.value)
      else if completed then CompletedView(CompletedTitle(action))
      else FormView
    }

    /** The page's initial load for the route's token. */
    method Load(db: Db, token: Option<string>)
      modifies this
      ensures !loading
      ensures signatureImage == old(signatureImage) && comment == old(comment) && isSubmitting == old(isSubmitting)
      ensures !HasToken(token) ==>
                error == Some(InvalidTokenMessage) && signatory == old(signatory) && contract == old(contract)
                && completed == old(completed) && action == old(action)
      ensures HasToken(token) ==>
                var s := Single(db.signatories, SignatoryWithToken(token.value));
                var q := if s.Some? then Single(db.signatureRequests, RequestWithId(s.value.signatureRequestId)) else None;
                var c := if q.Some? then Single(db.contracts, ContractWithId(q.value.contractId)) else None;
                && (s.None? ==> error == Some(InvalidOrExpiredMessage) && signatory == old(signatory)
                                && completed == old(completed) && action == old(action))
                && (s.Some? ==> signatory == s
                                && (s.value.status == Pending ==> completed == old(completed) && action == old(action))
                                && (s.value.status != Pending ==> completed && action == Some(ActionForStatus(s.value.status))))
                && (s.Some? && q.None? ==> error == Some(NullRequestMessage))
                && (q.Some? && c.None? ==> error == Some(DocumentNotFoundMessage))
                && (c.Some? ==> error == old(error) && contract == c)
                && (c.None? ==> contract == old(contract))
    {
      if !HasToken(token) {
        error := Some(InvalidTokenMessage);
        loading := false;
      } else {
        LoadSignatory(db, token.value);
      }
    }

    /** The load once a token is present: its signatory, then the document. */
    method LoadSignatory(db: Db, token: string)
      modifies this
      ensures !loading
      ensures signatureImage == old(signatureImage) && comment == old(comment) && isSubmitting == old(isSubmitting)
      ensures var s := Single(db.signatories, SignatoryWithToken(token));
              var q := if s.Some? then Single(db.signatureRequests, RequestWithId(s.value.signatureRequestId)) else None;
              var c := if q.Some? then Single(db.contracts, ContractWithId(q.value.contractId)) else None;
              && (s.None? ==> error == Some(InvalidOrExpiredMessage) && signatory == old(signatory)
                              && completed == old(completed) && action == old(action))
              && (s.Some? ==> signatory == s
                              && (s.value.status == Pending ==> completed == old(completed) && action == old(action))
                              && (s.value.status != Pending ==> completed && action == Some(ActionForStatus(s.value.status))))
              && (s.Some? && q.None? ==> error == Some(NullRequestMessage))
              && (q.Some? && c.None? ==> error == Some(DocumentNotFoundMessage))
              && (c.Some? ==> error == old(error) && contract == c)
              && (c.None? ==> contract == old(contract))
    {
      var s := Single(db.signatories, SignatoryWithToken(token));
      if s.None? {
        error := Some(InvalidOrExpiredMessage);
        loading := false;
        return;
      }
      signatory := s;
      if s.value.status != Pending {
        completed := true;
        action := Some(ActionForStatus(s.value.status));
      }
      LoadDocument(db.signatureRequests, db.contracts, s.value);
    }

    /** The second half of the load, once the signatory is known: its
      * request, then the request's contract. */
    method LoadDocument(requests: seq<RequestRow>, contracts: seq<ContractRow>, s: SignatoryRow)
      modifies this
      ensures !loading
      ensures signatureImage == old(signatureImage) && comment == old(comment) && isSubmitting == old(isSubmitting)
      ensures signatory == old(signatory) && completed == old(completed) && action == old(action)
      ensures var q := Single(requests, RequestWithId(s.signatureRequestId));
              var c := if q.Some? then Single(contracts, ContractWithId(q.value.contractId)) else None;
              && (q.None? ==> error == Some(NullRequestMessage))
              && (q.Some? && c.None? ==> error == Some(DocumentNotFoundMessage))
              && (c.Some? ==> error == old(error) && contract == c)
              && (c.None? ==> contract == old(contract))
    {
      var q := Single(requests, RequestWithId(s.signatureRequestId));
      if q.None? {
        error := Some(NullRequestMessage);
        loading := false;
        return;
      }
      var c := Single(contracts, ContractWithId(q.value.contractId));
      if c.None? {
        error := Some(DocumentNotFoundMessage);
        loading := false;
        return;
      }
      contract := c;
      loading := false;
    }

    /** The signature pad reports a drawn image, or clears it. */
    method DrawSignature(image: Option<string>)
      modifies this
      ensures signatureImage == image
      ensures loading == old(loading) && error == old(error) && signatory == old(signatory)
      ensures contract == old(contract) && comment == old(comment) && isSubmitting == old(isSubmitting)
      ensures completed == old(completed) && action == old(action)
    {
      signatureImage := image;
    }

    /** `handleSign`: refused without a drawn signature; otherwise records
      * the answer through `UpdateSignatureStatus` and, if that succeeds,
      * shows the signed screen. */
    method HandleSign(db: Db, now: int, ip: Option<string>, updateFails: bool, recheckFails: bool)
      requires db.SignatureTablesValid()
      modifies this, db
      ensures db.SignatureTablesValid()
      ensures loading == old(loading) && error == old(error) && signatory == old(signatory)
      ensures contract == old(contract) && signatureImage == old(signatureImage) && comment == old(comment)
      ensures SignatureContext.HasImage(signatureImage) ==> !isSubmitting
      ensures !SignatureContext.HasImage(signatureImage) ==>
                completed == old(completed) && action == old(action) && isSubmitting == old(isSubmitting)
                && unchanged(db)
      ensures SignatureContext.HasImage(signatureImage) ==>
                var found := if signatory.Some? then Single(old(db.signatories), SignatoryWithId(signatory.value.id)) else None;
                var succeeded := found.Some? && ip.Some? && !updateFails && !recheckFails;
                && (succeeded ==> completed && action == Some("sign"))
                && (!succeeded ==> completed == old(completed) && action == old(action))
      ensures SignatureContext.HasImage(signatureImage) && signatory.None? ==> unchanged(db)
      ensures SignatureContext.HasImage(signatureImage) && signatory.Some? ==>
                (db.signatories, db.signatureRequests, db.auditEvents) ==
                AnswerTables(old(db.signatories), old(db.signatureRequests), old(db.auditEvents),
                             signatory.value.id, Signed, signatureImage,
                             comment, now, ip, updateFails, recheckFails)
      ensures db.proposals == old(db.proposals) && db.proposalItems == old(db.proposalItems)
      ensures db.contracts == old(db.contracts)
    {
      if !SignatureContext.HasImage(signatureImage) {
        return;
      }
      isSubmitting := true;
      if signatory.None? {
        isSubmitting := false;
        return;
      }
      var ok := SubmitAnswer(db, signatory.value.id, Signed, signatureImage, comment, now, ip, updateFails, recheckFails);
      // on success the signed screen, and in every case the end of submitting
      completed, action, isSubmitting := completed || ok, if ok then Some("sign") else action, false;
    }

    /** `handleReject`: records a rejection without an image and, if that
      * succeeds, shows the rejection screen. */
    method HandleReject(db: Db, now: int, ip: Option<string>, updateFails: bool, recheckFails: bool)
      requires db.SignatureTablesValid()
      modifies this, db
      ensures db.SignatureTablesValid()
      ensures !isSubmitting && loading == old(loading) && error == old(error) && signatory == old(signatory)
      ensures contract == old(contract) && signatureImage == old(signatureImage) && comment == old(comment)
      ensures var found := if signatory.Some? then Single(old(db.signatories), SignatoryWithId(signatory.value.id)) else None;
              var succeeded := found.Some? && ip.Some? && !updateFails && !recheckFails;
              && (succeeded ==> completed && action == Some("reject"))
              && (!succeeded ==> completed == old(completed) && action == old(action))
      ensures signatory.None? ==> unchanged(db)
      ensures signatory.Some? ==>
                (db.signatories, db.signatureRequests, db.auditEvents) ==
                AnswerTables(old(db.signatories), old(db.signatureRequests), old(db.auditEvents),
                             signatory.value.id, Rejected, None,
                             comment, now, ip, updateFails, recheckFails)
      ensures db.proposals == old(db.proposals) && db.proposalItems == old(db.proposalItems)
      ensures db.contracts == old(db.contracts)
    {
      isSubmitting := true;
      if signatory.None? {
        isSubmitting := false;
        return;
      }
      var ok := SubmitAnswer(db, signatory.value.id, Rejected, None, comment, now, ip, updateFails, recheckFails);
      // on success the rejection screen, and in every case the end of submitting
      completed, action, isSubmitting := completed || ok, if ok then Some("reject") else action, false;
    }
  }
}

/** The form that asks one person to sign a contract: a name and an e-mail
  * address, submitted as a new signature request with that single
  * signatory. */
module RequestSignatureModal {
  import opened Outcome
  import opened Database
  import Text
  import SignatureContext

  /** The parent's callbacks, in the order the form invokes them. */
  datatype Callback = OnSuccess | OnClose

  /** `!signatoryName.trim() || !signatoryEmail.trim()` is false. */
  function CanSubmit(name: string, email: string): (r: bool)
    ensures r ==> name != "" && email != ""
  {
    Text.Trim(name) != "" && Text.Trim(email) != ""
  }

  /** A submission is refused exactly when one of the fields holds nothing
    * but white space. */
  lemma CanSubmitIffNotBlank(name: string, email: string)
    ensures CanSubmit(name, email) <==> !Text.IsBlank(name) && !Text.IsBlank(email)
  {
    Text.TrimEmptyIffBlank(name);
    Text.TrimEmptyIffBlank(email);
  }

  /** The signatory list the form submits: the fields as typed, untrimmed,
    * with status pending. */
  function Submission(name: string, email: string): (r: seq<SignatureContext.SignatoryInput>)
    ensures |r| == 1 && r[0].name == name && r[0].email == email
    ensures r[0].status == Pending && r[0].signedAt.None? && r[0].signatureImage.None?
  {
    [SignatureContext.SignatoryInput(name, email, Pending, None, None)]
  }

  /** The callbacks a successful submission invokes. */
  function SuccessCallbacks(hasOnSuccess: bool): (r: seq<Callback>)
    ensures |r| >= 1 && r[|r| - 1] == OnClose
    ensures OnSuccess in r <==> hasOnSuccess
  {
    if hasOnSuccess then [OnSuccess, OnClose] else [OnClose]
  }

  /** The form's call to `CreateSignatureRequest`, seen from the form: a
    * request is written whenever there is a user and its insert goes
    * through, and the one signatory row too when the call succeeds. */
  method SubmitRequest(db: Db, user: Option<Id>, contractId: Id, name: string, email: string, now: int,
                       requestId: Id, signatoryId: Id, token: string, delivered: bool,
                       requestInsertFails: bool, signatoriesInsertFails: bool)
    returns (ok: bool)
    requires db.SignatureTablesValid()
    requires SignatureContext.FreshFor(db, requestId, [signatoryId], [token])
    modifies db
    ensures db.SignatureTablesValid()
    ensures ok <==> user.Some? && !requestInsertFails && !signatoriesInsertFails
    ensures user.Some? && !requestInsertFails ==>
              db.signatureRequests == old(db.signatureRequests)
                                      + [SignatureContext.NewRequest(requestId, user.value, contractId, now)]
    ensures ok ==>
              db.signatories == old(db.signatories)
                                + SignatureContext.NewSignatories(Submission(name, email), [signatoryId], [token], requestId)
    ensures !ok ==> db.signatories == old(db.signatories)
    ensures !(user.Some? && !requestInsertFails) ==> db.signatureRequests == old(db.signatureRequests)
    ensures ok ==>
              db.auditEvents == old(db.auditEvents)
                + SignatureContext.SentEvents(db.signatories, db.signatureRequests, db.contracts,
                                              SignatureContext.NewSignatories(Submission(name, email), [signatoryId],
                                                                              [token], requestId),
                                              [delivered])
                + [AuditEvent(requestId, None, "signature_request_created", CreatedBy(user), None)]
    ensures !ok ==> db.auditEvents == old(db.auditEvents)
    ensures db.proposals == old(db.proposals) && db.proposalItems == old(db.proposalItems)
    ensures db.contracts == old(db.contracts)
  {
    var r := SignatureContext.CreateSignatureRequest(db, user, contractId, Submission(name, email), now, requestId,
                                                    [signatoryId], [token], [delivered],
                                                    requestInsertFails, signatoriesInsertFails);
    ok := r.Success?;
  }

  class Modal {
    const contractId: Id
    /** Whether the parent passed `onSuccess`. */
    const hasOnSuccess: bool
    var signatoryName: string
    var signatoryEmail: string
    var isSubmitting: bool
    /** The callbacks invoked so far. */
    var calls: seq<Callback>

    constructor(contractId: Id, hasOnSuccess: bool)
      ensures this.contractId == contractId && this.hasOnSuccess == hasOnSuccess
      ensures signatoryName == "" && signatoryEmail == "" && !isSubmitting && calls == []
    {
      this.contractId := contractId;
      this.hasOnSuccess := hasOnSuccess;
      signatoryName, signatoryEmail, isSubmitting, calls := "", "", false, [];
    }

    method SetName(name: string)
      modifies this
      ensures signatoryName == name
      ensures signatoryEmail == old(signatoryEmail) && isSubmitting == old(isSubmitting) && calls == old(calls)
    {
      signatoryName := name;
    }

    method SetEmail(email: string)
      modifies this
      ensures signatoryEmail == email
      ensures signatoryName == old(signatoryName) && isSubmitting == old(isSubmitting) && calls == old(calls)
    {
      signatoryEmail := email;
    }

    /** `handleSubmit`. The fresh ids and token and the failure flags are
      * those `CreateSignatureRequest` takes. */
    method HandleSubmit(db: Db, user: Option<Id>, now: int, requestId: Id, signatoryId: Id, token: string,
                        delivered: bool, requestInsertFails: bool, signatoriesInsertFails: bool)
      requires db.SignatureTablesValid()
      requires SignatureContext.FreshFor(db, requestId, [signatoryId], [token])
      modifies this, db
      ensures db.SignatureTablesValid()
      ensures !CanSubmit(old(signatoryName), old(signatoryEmail)) ==>
                unchanged(db) && unchanged(this)
      ensures CanSubmit(old(signatoryName), old(signatoryEmail)) ==> !isSubmitting
      ensures CanSubmit(old(signatoryName), old(signatoryEmail)) ==>
                var created := user.Some? && !requestInsertFails && !signatoriesInsertFails;
                && (user.Some? && !requestInsertFails ==>
                      db.signatureRequests == old(db.signatureRequests)
                                              + [SignatureContext.NewRequest(requestId, user.value, contractId, now)])
                && (created ==>
                      db.signatories == old(db.signatories)
                                        + SignatureContext.NewSignatories(Submission(old(signatoryName), old(signatoryEmail)),
                                                                          [signatoryId], [token], requestId)
                      && signatoryName == "" && signatoryEmail == ""
                      && calls == old(calls) + SuccessCallbacks(hasOnSuccess))
                && (!(user.Some? && !requestInsertFails) ==> db.signatureRequests == old(db.signatureRequests))
                && (created ==>
                      db.auditEvents == old(db.auditEvents)
                        + SignatureContext.SentEvents(db.signatories, db.signatureRequests, db.contracts,
                                                      SignatureContext.NewSignatories(
                                                        Submission(old(signatoryName), old(signatoryEmail)),
                                                        [signatoryId], [token], requestId),
                                                      [delivered])
                        + [AuditEvent(requestId, None, "signature_request_created",
                                      CreatedBy(user), None)])
                && (!created ==>
                      db.signatories == old(db.signatories) && db.auditEvents == old(db.auditEvents)
                      && signatoryName == old(signatoryName) && signatoryEmail == old(signatoryEmail)
                      && calls == old(calls))
      ensures db.proposals == old(db.proposals) && db.proposalItems == old(db.proposalItems)
      ensures db.contracts == old(db.contracts)
    {
      if CanSubmit(signatoryName, signatoryEmail) {
        SubmitChecked(db, user, now, requestId, signatoryId, token, delivered, requestInsertFails, signatoriesInsertFails);
      }
    }

    /** `handleSubmit` past its check that both fields are filled in. */
    method SubmitChecked(db: Db, user: Option<Id>, now: int, requestId: Id, signatoryId: Id, token: string,
                         delivered: bool, requestInsertFails: bool, signatoriesInsertFails: bool)
      requires db.SignatureTablesValid()
      requires SignatureContext.FreshFor(db, requestId, [signatoryId], [token])
      modifies this, db
      ensures db.SignatureTablesValid()
      ensures !isSubmitting
      ensures var created := user.Some? && !requestInsertFails && !signatoriesInsertFails;
              && (user.Some? && !requestInsertFails ==>
                    db.signatureRequests == old(db.signatureRequests)
                                            + [SignatureContext.NewRequest(requestId, user.value, contractId, now)])
              && (created ==>
                    db.signatories == old(db.signatories)
                                      + SignatureContext.NewSignatories(Submission(old(signatoryName), old(signatoryEmail)),
                                                                        [signatoryId], [token], requestId)
                    && signatoryName == "" && signatoryEmail == ""
                    && calls == old(calls) + SuccessCallbacks(hasOnSuccess))
              && (!(user.Some? && !requestInsertFails) ==> db.signatureRequests == old(db.signatureRequests))
              && (created ==>
                    db.auditEvents == old(db.auditEvents)
                      + SignatureContext.SentEvents(db.signatories, db.signatureRequests, db.contracts,
                                                    SignatureContext.NewSignatories(
                                                      Submission(old(signatoryName), old(signatoryEmail)),
                                                      [signatoryId], [token], requestId),
                                                    [delivered])
                      + [AuditEvent(requestId, None, "signature_request_created",
                                    CreatedBy(user), None)])
              && (!created ==>
                    db.signatories == old(db.signatories) && db.auditEvents == old(db.auditEvents)
                    && signatoryName == old(signatoryName) && signatoryEmail == old(signatoryEmail)
                    && calls == old(calls))
      ensures db.proposals == old(db.proposals) && db.proposalItems == old(db.proposalItems)
      ensures db.contracts == old(db.contracts)
    {
      var name, email := signatoryName, signatoryEmail;
      isSubmitting := true;
      var ok := SubmitRequest(db, user, contractId, name, email, now, requestId, signatoryId, token,
                              delivered, requestInsertFails, signatoriesInsertFails);
      if ok {
        signatoryName := "";
        signatoryEmail := "";
        calls := calls + SuccessCallbacks(hasOnSuccess);
      }
      isSubmitting := false;
    }
  }
}

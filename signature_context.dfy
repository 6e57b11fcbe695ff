/** The signature workflow shared by the application's pages: creating a
  * request with its signatories, looking requests and signatories up,
  * recording a signatory's answer and settling the request, resending and
  * cancelling. Each operation reads and writes the tables of `Db`.
  *
  * As in the application, recording an answer checks neither that the
  * signatory is still pending nor that the request is still open, and the
  * settling step overwrites whatever status the request had.
  * `UpdateSignatureStatusGuarded` adds those checks. */
module SignatureContext {
  import opened Outcome
  import opened Seqs
  import opened Database
  import Email = SendSignatureEmail

  /** A request expires seven days after it is created. */
  const ExpiryMs: int := 7 * 24 * 60 * 60 * 1000

  /** What the caller supplies per signatory: a signatory without its id,
    * request id and verification token. */
  datatype SignatoryInput = SignatoryInput(
    name: string, email: string, status: SignatoryStatus,
    signedAt: Option<int>, signatureImage: Option<string>)

  datatype RequestWithSignatories = RequestWithSignatories(request: RequestRow, signatories: seq<SignatoryRow>)

  function NewRequest(id: Id, createdBy: Id, contractId: Id, now: int): (r: RequestRow)
    ensures r.status == RequestPending && r.expiresAt == r.createdAt + ExpiryMs
  {
    RequestRow(id, now, now, createdBy, contractId, RequestPending, now + ExpiryMs)
  }

  /** The input rows, each given its id, the request's id and its token. */
  function NewSignatories(inputs: seq<SignatoryInput>, ids: seq<Id>, tokens: seq<string>, rid: Id): (rows: seq<SignatoryRow>)
    requires |ids| == |inputs| && |tokens| == |inputs|
    ensures |rows| == |inputs|
    ensures forall k :: 0 <= k < |rows| ==>
      rows[k] == SignatoryRow(ids[k], inputs[k].name, inputs[k].email, inputs[k].status,
                              inputs[k].signedAt, tokens[k], inputs[k].signatureImage, None, rid)
  {
    seq(|inputs|, k requires 0 <= k < |inputs| =>
      SignatoryRow(ids[k], inputs[k].name, inputs[k].email, inputs[k].status,
                   inputs[k].signedAt, tokens[k], inputs[k].signatureImage, None, rid))
  }

  /** The audit events the e-mail calls append, in order, for the new
    * signatories whose call reached the function. */
  function SentEvents(signatories: seq<SignatoryRow>, requests: seq<RequestRow>, contracts: seq<ContractRow>,
                      rows: seq<SignatoryRow>, delivered: seq<bool>): (r: seq<AuditEvent>)
    requires |rows| == |delivered|
    ensures |r| <= |rows|
    ensures forall k :: 0 <= k < |r| ==> r[k].eventType == "signature_email_sent"
  {
    SentEventsUpTo(signatories, requests, contracts, rows, delivered, |rows|)
  }

  /** The events of the first `n` e-mail calls. */
  function SentEventsUpTo(signatories: seq<SignatoryRow>, requests: seq<RequestRow>, contracts: seq<ContractRow>,
                          rows: seq<SignatoryRow>, delivered: seq<bool>, n: nat): (r: seq<AuditEvent>)
    requires n <= |rows| == |delivered|
    ensures |r| <= n
    ensures forall k :: 0 <= k < |r| ==> r[k].eventType == "signature_email_sent"
  {
    if n == 0 then []
    else
      SentEventsUpTo(signatories, requests, contracts, rows, delivered, n - 1)
      + (if delivered[n - 1]
         then Email.EventList(Email.EmailEvent(signatories, requests, contracts, Email.Body(Some(rows[n - 1].id), None)))
         else [])
  }

  ghost predicate FreshFor(db: Db, requestId: Id, ids: seq<Id>, tokens: seq<string>)
    reads db
  {
    (forall k :: 0 <= k < |db.signatureRequests| ==> db.signatureRequests[k].id != requestId)
    && (forall a, b :: 0 <= a < b < |ids| ==> ids[a] != ids[b])
    && (forall a, b :: 0 <= a < b < |tokens| ==> tokens[a] != tokens[b])
    && (forall a, k :: 0 <= a < |ids| && 0 <= k < |db.signatories| ==> db.signatories[k].id != ids[a])
    && (forall a, k :: 0 <= a < |tokens| && 0 <= k < |db.signatories| ==>
          db.signatories[k].verificationToken != tokens[a])
  }

  lemma AppendKeepsValid(oldRequests: seq<RequestRow>, oldSignatories: seq<SignatoryRow>,
                         request: RequestRow, rows: seq<SignatoryRow>)
    requires SignatureTablesConsistent(oldRequests, oldSignatories)
    requires forall k :: 0 <= k < |oldRequests| ==> oldRequests[k].id != request.id
    requires forall a, b :: 0 <= a < b < |rows| ==> rows[a].id != rows[b].id
    requires forall a, b :: 0 <= a < b < |rows| ==> rows[a].verificationToken != rows[b].verificationToken
    requires forall a, k :: 0 <= a < |rows| && 0 <= k < |oldSignatories| ==> oldSignatories[k].id != rows[a].id
    requires forall a, k :: 0 <= a < |rows| && 0 <= k < |oldSignatories| ==>
               oldSignatories[k].verificationToken != rows[a].verificationToken
    requires forall a :: 0 <= a < |rows| ==> rows[a].signatureRequestId == request.id
    ensures SignatureTablesConsistent(oldRequests + [request], oldSignatories + rows)
  {
    var rs := oldRequests + [request];
    var ss := oldSignatories + rows;
    assert RequestIds(rs) == RequestIds(oldRequests) + {request.id} by {
      forall x | x in RequestIds(rs) ensures x in RequestIds(oldRequests) + {request.id} {
        var k :| 0 <= k < |rs| && rs[k].id == x;
        if k < |oldRequests| { assert oldRequests[k].id == x; }
      }
      forall x | x in RequestIds(oldRequests) ensures x in RequestIds(rs) {
        var k :| 0 <= k < |oldRequests| && oldRequests[k].id == x;
        assert rs[k].id == x;
      }
      assert rs[|oldRequests|].id == request.id;
    }
    forall i | 0 <= i < |ss| ensures ss[i].signatureRequestId in RequestIds(rs) {
      if i < |oldSignatories| {
        assert ss[i] == oldSignatories[i];
      } else {
        assert ss[i] == rows[i - |oldSignatories|];
      }
    }
  }

  /** One call of the e-mail function for a new signatory, as the loop
    * sees it: only the logged event is added. */
  method SendEmail(db: Db, signatoryId: Id)
    modifies db`auditEvents
    ensures db.proposals == old(db.proposals) && db.proposalItems == old(db.proposalItems)
    ensures db.contracts == old(db.contracts) && db.signatureRequests == old(db.signatureRequests)
    ensures db.signatories == old(db.signatories)
    ensures db.auditEvents == old(db.auditEvents)
              + Email.EventList(Email.EmailEvent(db.signatories, db.signatureRequests, db.contracts,
                                                 Email.Body(Some(signatoryId), None)))
  {
    // The response is discarded, so the function's `APP_URL` is immaterial.
    var _ := Email.Handle(db, Email.Post(Some(Email.Body(Some(signatoryId), None))), None);
  }

  /** The e-mail loop of `createSignatureRequest`: one call of the e-mail
    * function per new signatory; a call that fails is only logged. */
  method NotifySignatories(db: Db, rows: seq<SignatoryRow>, delivered: seq<bool>)
    requires |delivered| == |rows|
    modifies db`auditEvents
    ensures db.proposals == old(db.proposals) && db.proposalItems == old(db.proposalItems)
    ensures db.contracts == old(db.contracts) && db.signatureRequests == old(db.signatureRequests)
    ensures db.signatories == old(db.signatories)
    ensures db.auditEvents == old(db.auditEvents)
              + SentEvents(db.signatories, db.signatureRequests, db.contracts, rows, delivered)
  {
    var signatories, requests, contracts := db.signatories, db.signatureRequests, db.contracts;
    var i := 0;
    while i < |rows|
      invariant 0 <= i <= |rows|
      invariant db.signatories == signatories && db.signatureRequests == requests && db.contracts == contracts
      invariant db.auditEvents == old(db.auditEvents) + SentEventsUpTo(signatories, requests, contracts, rows, delivered, i)
    {
      if delivered[i] {
        SendEmail(db, rows[i].id);
      }
      i := i + 1;
    }
  }

  /** `createSignatureRequest`. The database's ids and the generated tokens
    * are parameters, fresh and pairwise distinct; `delivered[k]` says
    * whether the e-mail call for the k-th signatory reached the function.
    * A missing user fails the insert, since `created_by` is required. */
  method CreateSignatureRequest(db: Db, user: Option<Id>, contractId: Id, inputs: seq<SignatoryInput>, now: int,
                                requestId: Id, signatoryIds: seq<Id>, tokens: seq<string>, delivered: seq<bool>,
                                requestInsertFails: bool, signatoriesInsertFails: bool)
    returns (r: Result<RequestWithSignatories>)
    requires |signatoryIds| == |inputs| && |tokens| == |inputs| && |delivered| == |inputs|
    requires db.SignatureTablesValid()
    requires FreshFor(db, requestId, signatoryIds, tokens)
    modifies db
    ensures db.SignatureTablesValid()
    ensures db.proposals == old(db.proposals) && db.proposalItems == old(db.proposalItems)
    ensures db.contracts == old(db.contracts)
    ensures user.None? || requestInsertFails ==>
              r.Failure? && db.signatureRequests == old(db.signatureRequests)
              && db.signatories == old(db.signatories) && db.auditEvents == old(db.auditEvents)
    ensures user.Some? && !requestInsertFails ==>
              db.signatureRequests == old(db.signatureRequests) + [NewRequest(requestId, user.value, contractId, now)]
    ensures user.Some? && !requestInsertFails && signatoriesInsertFails ==>
              r.Failure? && db.signatories == old(db.signatories) && db.auditEvents == old(db.auditEvents)
    ensures user.Some? && !requestInsertFails && !signatoriesInsertFails ==>
              var request := NewRequest(requestId, user.value, contractId, now);
              var rows := NewSignatories(inputs, signatoryIds, tokens, requestId);
              && r == Success(RequestWithSignatories(request, rows))
              && db.signatories == old(db.signatories) + rows
              && db.auditEvents == old(db.auditEvents)
                   + SentEvents(db.signatories, db.signatureRequests, db.contracts, rows, delivered)
                   + [AuditEvent(requestId, None, "signature_request_created", CreatedBy(user), None)]
  {
    if user.None? || requestInsertFails {
      return Failure("could not insert the signature request");
    }
    var request := NewRequest(requestId, user.value, contractId, now);
    db.signatureRequests := db.signatureRequests + [request];
    if signatoriesInsertFails {
      AppendKeepsValid(old(db.signatureRequests), old(db.signatories), request, []);
      assert old(db.signatories) + [] == db.signatories;
      return Failure("could not insert the signatories");
    }
    var rows := NewSignatories(inputs, signatoryIds, tokens, requestId);
    db.signatories := db.signatories + rows;
    NotifySignatories(db, rows, delivered);
    db.auditEvents := db.auditEvents + [AuditEvent(requestId, None, "signature_request_created", CreatedBy(user), None)];
    AppendKeepsValid(old(db.signatureRequests), old(db.signatories), request, rows);
    return Success(RequestWithSignatories(request, rows));
  }

  /** `getSignatureRequestsByUser`: every request, newest first, each with
    * its signatories; the empty list when either read fails
    * (`readFails`). Which rows a user may see is decided by the database's
    * access policies, outside this model. */
  function GetSignatureRequestsByUser(db: Db, readFails: bool): (r: seq<RequestWithSignatories>)
    reads db
    ensures readFails ==> r == []
    ensures !readFails ==> |r| == |db.signatureRequests|
    ensures !readFails ==> multiset(seq(|r|, k requires 0 <= k < |r| => r[k].request)) == multiset(db.signatureRequests)
    ensures forall i, j :: 0 <= i < j < |r| ==> r[i].request.createdAt >= r[j].request.createdAt
    ensures forall k :: 0 <= k < |r| ==> r[k].signatories == Filter(db.signatories, SignatoryOfRequest(r[k].request.id))
  {
    if readFails then [] else
    var key := (q: RequestRow) => q.createdAt;
    var sorted := SortDesc(db.signatureRequests, key);
    SortDescSorted(db.signatureRequests, key);
    var signatories := db.signatories;
    var r := seq(|sorted|, k requires 0 <= k < |sorted| =>
                 RequestWithSignatories(sorted[k], Filter(signatories, SignatoryOfRequest(sorted[k].id))));
    assert seq(|r|, k requires 0 <= k < |r| => r[k].request) == sorted;
    r
  }

  /** `getSignatureRequestById`: `None` when a read fails (`readFails`)
    * or unless exactly one request has the id. */
  function GetSignatureRequestById(db: Db, id: Id, readFails: bool): (r: Option<RequestWithSignatories>)
    reads db
    ensures r.Some? <==> !readFails && Single(db.signatureRequests, RequestWithId(id)).Some?
    ensures r.Some? ==> r.value.request in db.signatureRequests && r.value.request.id == id
    ensures r.Some? ==> forall s :: s in r.value.signatories <==> s in db.signatories && s.signatureRequestId == id
  {
    var q := Single(db.signatureRequests, RequestWithId(id));
    if readFails || q.None? then None
    else Some(RequestWithSignatories(q.value, Filter(db.signatories, SignatoryOfRequest(id))))
  }

  /** A request can still be answered: neither cancelled nor expired, by
    * status or by date (`expires_at < now` counts as expired). */
  function IsOpen(q: RequestRow, now: int): (r: bool)
    ensures r ==> q.status == RequestPending || q.status == Completed
    ensures r ==> now <= q.expiresAt
  {
    !(q.status == Cancelled || q.status == Expired || q.expiresAt < now)
  }

  /** `getSignatoryByToken`: the signatory holding the token, provided its
    * request is open; `None` on any failed lookup, including a failed
    * read (`readFails`). */
  function GetSignatoryByToken(db: Db, token: string, now: int, readFails: bool): (r: Option<SignatoryRow>)
    reads db
    ensures readFails ==> r.None?
    ensures r.Some? ==> r.value in db.signatories && r.value.verificationToken == token
    ensures r.Some? ==> exists q :: q in db.signatureRequests && q.id == r.value.signatureRequestId && IsOpen(q, now)
  {
    var s := Single(db.signatories, SignatoryWithToken(token));
    if readFails || s.None? then None
    else
      var q := Single(db.signatureRequests, RequestWithId(s.value.signatureRequestId));
      if q.None? || !IsOpen(q.value, now) then None else s
  }

  /** In consistent tables, a signatory's token resolves exactly when the
    * reads go through and its request is open. */
  lemma TokenResolvesIffOpen(db: Db, i: int, j: int, now: int, readFails: bool)
    requires db.SignatureTablesValid()
    requires 0 <= i < |db.signatories| && 0 <= j < |db.signatureRequests|
    requires db.signatureRequests[j].id == db.signatories[i].signatureRequestId
    ensures GetSignatoryByToken(db, db.signatories[i].verificationToken, now, readFails)
            == if !readFails && IsOpen(db.signatureRequests[j], now) then Some(db.signatories[i]) else None
  {
    SignatoryByToken(db.signatories, i);
    RequestById(db.signatureRequests, j);
  }

  /** `allSignatories.every(s => s.status === 'signed')`. */
  function AllSigned(statuses: seq<SignatoryStatus>): (r: bool)
    ensures r <==> forall k :: 0 <= k < |statuses| ==> statuses[k] == Signed
  {
    statuses == [] || (statuses[0] == Signed && AllSigned(statuses[1..]))
  }

  /** `allSignatories.some(s => s.status === 'rejected')`. */
  function AnyRejected(statuses: seq<SignatoryStatus>): (r: bool)
    ensures r <==> exists k :: 0 <= k < |statuses| && statuses[k] == Rejected
  {
    statuses != [] && (statuses[0] == Rejected || AnyRejected(statuses[1..]))
  }

  /** The status a request is settled to after an answer, if any: completed
    * once everyone has signed, cancelled once someone has rejected. */
  function Reconcile(statuses: seq<SignatoryStatus>): (r: Option<RequestStatus>)
    ensures r == Some(Completed) <==> forall k :: 0 <= k < |statuses| ==> statuses[k] == Signed
    ensures r == Some(Cancelled) <==>
              (exists k :: 0 <= k < |statuses| && statuses[k] == Rejected)
              && !(forall k :: 0 <= k < |statuses| ==> statuses[k] == Signed)
    ensures r.None? <==>
              (exists k :: 0 <= k < |statuses| && statuses[k] != Signed)
              && (forall k :: 0 <= k < |statuses| ==> statuses[k] != Rejected)
  {
    var allSigned := AllSigned(statuses);
    var anyRejected := AnyRejected(statuses);
    if allSigned || anyRejected then Some(if allSigned then Completed else Cancelled) else None
  }

  function StatusesOf(rows: seq<SignatoryRow>): (r: seq<SignatoryStatus>)
    ensures |r| == |rows| && forall k :: 0 <= k < |rows| ==> r[k] == rows[k].status
  {
    seq(|rows|, k requires 0 <= k < |rows| => rows[k].status)
  }

  /** `if (signatureImage)`: an absent or empty image is not stored. */
  predicate HasImage(image: Option<string>)
  {
    image.Some? && image.value != ""
  }

  /** The `signatories` update of `updateSignatureStatus`. */
  function RecordAnswer(rows: seq<SignatoryRow>, id: Id, status: SignatoryStatus, now: int, ip: string,
                        image: Option<string>): (r: seq<SignatoryRow>)
    ensures |r| == |rows|
    ensures forall k :: 0 <= k < |rows| ==>
      r[k] == if rows[k].id != id then rows[k]
              else rows[k].(status := status, signedAt := Some(now), ipAddress := Some(ip),
                            signatureImage := if HasImage(image) then image else rows[k].signatureImage)
  {
    seq(|rows|, k requires 0 <= k < |rows| =>
      if rows[k].id != id then rows[k]
      else rows[k].(status := status, signedAt := Some(now), ipAddress := Some(ip),
                    signatureImage := if HasImage(image) then image else rows[k].signatureImage))
  }

  /** Recording an answer keeps ids, tokens and request links, so the tables
    * stay consistent. */
  lemma RecordAnswerKeepsValid(requests: seq<RequestRow>, rows: seq<SignatoryRow>, id: Id, status: SignatoryStatus,
                               now: int, ip: string, image: Option<string>)
    requires SignatureTablesConsistent(requests, rows)
    ensures SignatureTablesConsistent(requests, RecordAnswer(rows, id, status, now, ip, image))
  {
  }

  /** Settling a request keeps the tables consistent. */
  lemma SetRequestStatusKeepsValid(requests: seq<RequestRow>, rows: seq<SignatoryRow>, id: Id, status: RequestStatus)
    requires SignatureTablesConsistent(requests, rows)
    ensures SignatureTablesConsistent(SetRequestStatus(requests, id, status), rows)
  {
    SetRequestStatusIds(requests, id, status);
    var r := SetRequestStatus(requests, id, status);
    assert forall k :: 0 <= k < |r| ==> r[k].id == requests[k].id;
  }

  function AnswerEvent(rid: Id, signatoryId: Id, status: SignatoryStatus, comment: Option<string>, ip: string): AuditEvent
  {
    AuditEvent(rid, Some(signatoryId), "signature_" + SignatoryStatusText(status), WithComment(comment), Some(ip))
  }

  /** The requests after settling request `rid`: `Reconcile` of its
    * signatories' statuses (`StatusesOfRequestIsFilterMap` shows this list is
    * the page's filter-then-map), the table unchanged when it decides
    * nothing. */
  function Settle(requests: seq<RequestRow>, rid: Id, signatories: seq<SignatoryRow>): seq<RequestRow>
  {
    var next := Reconcile(StatusesOfRequest(signatories, rid));
    if next.Some? then SetRequestStatus(requests, rid, next.value) else requests
  }

  /** The statuses of the signatories of request `rid`, in table order. */
  function StatusesOfRequest(rows: seq<SignatoryRow>, rid: Id): seq<SignatoryStatus>
  {
    if rows == [] then []
    else (if rows[0].signatureRequestId == rid then [rows[0].status] else []) + StatusesOfRequest(rows[1..], rid)
  }

  /** It is the page's `filter` by request followed by `map` to statuses. */
  lemma {:induction false} StatusesOfRequestIsFilterMap(rows: seq<SignatoryRow>, rid: Id)
    ensures StatusesOfRequest(rows, rid) == StatusesOf(Filter(rows, SignatoryOfRequest(rid)))
  {
    if rows != [] {
      var p := SignatoryOfRequest(rid);
      var tail := Filter(rows[1..], p);
      StatusesOfRequestIsFilterMap(rows[1..], rid);
      if rows[0].signatureRequestId == rid {
        assert p(rows[0]);
        assert Filter(rows, p) == [rows[0]] + tail;
        StatusesOfAppend([rows[0]], tail);
        assert StatusesOf([rows[0]]) == [rows[0].status];
      } else {
        assert !p(rows[0]);
        assert Filter(rows, p) == [] + tail;
        assert [] + tail == tail;
      }
    }
  }

  lemma StatusesOfAppend(a: seq<SignatoryRow>, b: seq<SignatoryRow>)
    ensures StatusesOf(a + b) == StatusesOf(a) + StatusesOf(b)
  {
    var l, r := StatusesOf(a + b), StatusesOf(a) + StatusesOf(b);
    assert |l| == |r|;
    forall k | 0 <= k < |l| ensures l[k] == r[k] {
      if k < |a| {
        assert (a + b)[k] == a[k];
      } else {
        assert (a + b)[k] == b[k - |a|];
      }
    }
  }

  /** `updateSignatureStatus` checks no status, so the last signature on a
    * cancelled request, whose other signatories all signed, settles it as
    * completed: the cancelled request is reopened. */
  lemma AnswerReopensCancelled(requests: seq<RequestRow>, signatories: seq<SignatoryRow>, k: int, signatoryId: Id,
                               now: int, ip: string, image: Option<string>)
    requires 0 <= k < |requests| && requests[k].status == Cancelled
    requires forall s :: s in signatories && s.signatureRequestId == requests[k].id && s.id != signatoryId ==>
               s.status == Signed
    ensures var answered := RecordAnswer(signatories, signatoryId, Signed, now, ip, image);
            Settle(requests, requests[k].id, answered)[k].status == Completed
  {
    var rid := requests[k].id;
    var answered := RecordAnswer(signatories, signatoryId, Signed, now, ip, image);
    var mine := Filter(answered, SignatoryOfRequest(rid));
    var statuses := StatusesOf(mine);
    StatusesOfRequestIsFilterMap(answered, rid);
    forall j | 0 <= j < |statuses| ensures statuses[j] == Signed {
      assert mine[j] in answered && SignatoryOfRequest(rid)(mine[j]);
      var m :| 0 <= m < |answered| && answered[m] == mine[j];
      if signatories[m].id != signatoryId {
        assert signatories[m] in signatories;
      }
    }
  }

  /** `updateSignatureStatus`. `ip` is the text the IP lookup service
    * returns, `None` when that request fails; `updateFails` and
    * `recheckFails` are errors reported by the database. */
  method UpdateSignatureStatus(db: Db, signatoryId: Id, status: SignatoryStatus, image: Option<string>,
                               comment: Option<string>, now: int, ip: Option<string>,
                               updateFails: bool, recheckFails: bool)
    returns (r: Result<()>)
    requires status != Pending
    requires db.SignatureTablesValid()
    modifies db
    ensures db.SignatureTablesValid()
    ensures db.proposals == old(db.proposals) && db.proposalItems == old(db.proposalItems)
    ensures db.contracts == old(db.contracts)
    ensures var found := Single(old(db.signatories), SignatoryWithId(signatoryId));
            (found.None? || ip.None? || updateFails ==>
               r.Failure? && db.signatories == old(db.signatories)
               && db.signatureRequests == old(db.signatureRequests) && db.auditEvents == old(db.auditEvents))
            && (found.Some? && ip.Some? && !updateFails ==>
               var rid := found.value.signatureRequestId;
               && db.signatories == RecordAnswer(old(db.signatories), signatoryId, status, now, ip.value, image)
               && db.auditEvents == old(db.auditEvents) + [AnswerEvent(rid, signatoryId, status, comment, ip.value)]
               && (recheckFails ==> r.Failure? && db.signatureRequests == old(db.signatureRequests))
               && (!recheckFails ==> r == Success(()) && db.signatureRequests == Settle(old(db.signatureRequests), rid, db.signatories)))
  {
    var found := Single(db.signatories, SignatoryWithId(signatoryId));
    if found.None? {
      return Failure("signatory lookup failed");
    }
    var rid := found.value.signatureRequestId;
    if ip.None? {
      return Failure("IP address lookup failed");
    }
    if updateFails {
      return Failure("signatory update failed");
    }
    RecordAnswerKeepsValid(db.signatureRequests, db.signatories, signatoryId, status, now, ip.value, image);
    db.signatories := RecordAnswer(db.signatories, signatoryId, status, now, ip.value, image);
    db.auditEvents := db.auditEvents + [AnswerEvent(rid, signatoryId, status, comment, ip.value)];
    if recheckFails {
      return Failure("status check failed");
    }
    var next := Reconcile(StatusesOf(Filter(db.signatories, SignatoryOfRequest(rid))));
    StatusesOfRequestIsFilterMap(db.signatories, rid);
    if next.Some? {
      SetRequestStatusKeepsValid(db.signatureRequests, db.signatories, rid, next.value);
      db.signatureRequests := SetRequestStatus(db.signatureRequests, rid, next.value);
    }
    return Success(());
  }

  /** A request still takes answers: pending and not past its expiry. */
  predicate AcceptsAnswers(q: RequestRow, now: int)
  {
    q.status == RequestPending && q.expiresAt >= now
  }

  /** The guard of `UpdateSignatureStatusGuarded`: exactly one signatory has
    * the id, it is still pending, and exactly one request is its own and
    * still takes answers. */
  predicate AnswerAllowed(signatories: seq<SignatoryRow>, requests: seq<RequestRow>, signatoryId: Id, now: int)
  {
    var found := Single(signatories, SignatoryWithId(signatoryId));
    && found.Some? && found.value.status == Pending
    && var q := Single(requests, RequestWithId(found.value.signatureRequestId));
    q.Some? && AcceptsAnswers(q.value, now)
  }

  /** `updateSignatureStatus` with the checks the workflow calls for: the
    * signatory must still be pending and its request pending and not past
    * its expiry. Under these checks an answered signatory and a settled
    * request never change again. */
  method UpdateSignatureStatusGuarded(db: Db, signatoryId: Id, status: SignatoryStatus, image: Option<string>,
                                      comment: Option<string>, now: int, ip: Option<string>,
                                      updateFails: bool, recheckFails: bool)
    returns (r: Result<()>)
    requires status != Pending
    requires db.SignatureTablesValid()
    modifies db
    ensures db.SignatureTablesValid()
    ensures db.proposals == old(db.proposals) && db.proposalItems == old(db.proposalItems)
    ensures db.contracts == old(db.contracts)
    ensures |db.signatories| == |old(db.signatories)| && |db.signatureRequests| == |old(db.signatureRequests)|
    ensures forall k :: 0 <= k < |old(db.signatories)| && old(db.signatories)[k].status != Pending ==>
              db.signatories[k] == old(db.signatories)[k]
    ensures forall k :: 0 <= k < |old(db.signatureRequests)| && old(db.signatureRequests)[k].status != RequestPending ==>
              db.signatureRequests[k] == old(db.signatureRequests)[k]
    ensures !AnswerAllowed(old(db.signatories), old(db.signatureRequests), signatoryId, now) ==>
              r.Failure? && db.signatories == old(db.signatories)
              && db.signatureRequests == old(db.signatureRequests) && db.auditEvents == old(db.auditEvents)
    ensures AnswerAllowed(old(db.signatories), old(db.signatureRequests), signatoryId, now) ==>
              var rid := Single(old(db.signatories), SignatoryWithId(signatoryId)).value.signatureRequestId;
              && (ip.None? || updateFails ==>
                    r.Failure? && db.signatories == old(db.signatories)
                    && db.signatureRequests == old(db.signatureRequests) && db.auditEvents == old(db.auditEvents))
              && (ip.Some? && !updateFails ==>
                    && db.signatories == RecordAnswer(old(db.signatories), signatoryId, status, now, ip.value, image)
                    && db.auditEvents == old(db.auditEvents) + [AnswerEvent(rid, signatoryId, status, comment, ip.value)]
                    && (recheckFails ==> r.Failure? && db.signatureRequests == old(db.signatureRequests))
                    && (!recheckFails ==> r == Success(())
                                          && db.signatureRequests == Settle(old(db.signatureRequests), rid, db.signatories)))
  {
    var found := Single(db.signatories, SignatoryWithId(signatoryId));
    if found.None? || found.value.status != Pending {
      return Failure("the signatory has already answered");
    }
    var q := Single(db.signatureRequests, RequestWithId(found.value.signatureRequestId));
    if q.None? || !AcceptsAnswers(q.value, now) {
      return Failure("the request is no longer open");
    }
    ghost var rows, requests := db.signatories, db.signatureRequests;
    r := UpdateSignatureStatus(db, signatoryId, status, image, comment, now, ip, updateFails, recheckFails);
    forall k | 0 <= k < |rows| && rows[k].status != Pending
      ensures db.signatories[k] == rows[k]
    {
      if rows[k].id == signatoryId {
        assert rows[k] in rows && SignatoryWithId(signatoryId)(rows[k]);
      }
    }
    forall k | 0 <= k < |requests| && requests[k].status != RequestPending
      ensures db.signatureRequests[k] == requests[k]
    {
      if requests[k].id == found.value.signatureRequestId {
        assert requests[k] in requests && RequestWithId(found.value.signatureRequestId)(requests[k]);
      }
    }
  }

  /** `cancelSignatureRequest`: marks the request cancelled, whatever its
    * status, and logs who cancelled it. A failed update is only reported
    * to the user; `cancelled` says which notification is shown. */
  method CancelSignatureRequest(db: Db, user: Option<Id>, requestId: Id, updateFails: bool)
    returns (cancelled: bool)
    requires db.SignatureTablesValid()
    modifies db
    ensures db.SignatureTablesValid()
    ensures db.proposals == old(db.proposals) && db.proposalItems == old(db.proposalItems)
    ensures db.contracts == old(db.contracts) && db.signatories == old(db.signatories)
    ensures cancelled == !updateFails
    ensures updateFails ==>
              db.signatureRequests == old(db.signatureRequests) && db.auditEvents == old(db.auditEvents)
    ensures !updateFails ==>
              db.signatureRequests == SetRequestStatus(old(db.signatureRequests), requestId, Cancelled)
              && db.auditEvents == old(db.auditEvents)
                   + [AuditEvent(requestId, None, "signature_request_cancelled", CancelledBy(user), None)]
  {
    if updateFails {
      return false;
    }
    SetRequestStatusKeepsValid(db.signatureRequests, db.signatories, requestId, Cancelled);
    db.signatureRequests := SetRequestStatus(db.signatureRequests, requestId, Cancelled);
    db.auditEvents := db.auditEvents
      + [AuditEvent(requestId, None, "signature_request_cancelled", CancelledBy(user), None)];
    return true;
  }

  /** `resendSignatureRequest`: calls the e-mail function with
    * `resend: true` and ignores its answer; `delivered` says whether the
    * call reached the function. No status is checked. */
  method ResendSignatureRequest(db: Db, signatoryId: Id, delivered: bool)
    modifies db
    ensures db.proposals == old(db.proposals) && db.proposalItems == old(db.proposalItems)
    ensures db.contracts == old(db.contracts) && db.signatureRequests == old(db.signatureRequests)
    ensures db.signatories == old(db.signatories)
    ensures db.auditEvents == old(db.auditEvents)
              + if delivered
                then Email.EventList(Email.EmailEvent(db.signatories, db.signatureRequests, db.contracts,
                                                      Email.Body(Some(signatoryId), Some(true))))
                else []
  {
    if delivered {
      var _ := Email.Handle(db, Email.Post(Some(Email.Body(Some(signatoryId), Some(true)))), None);
    }
  }
}

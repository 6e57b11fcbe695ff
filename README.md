# PropostaPro (proposta) — a Dafny model of its core

PropostaPro is a React and Supabase app. Freelancers and small firms use it to write commercial proposals, turn an accepted proposal into a contract, and have that contract signed online. This project models the app's logic as Dafny and proves properties of that model:

- the proposal store and its Supabase queries (`ProposalContext`), the proposal form, list and page;
- the plans and monthly quota (`plans.ts`, `SubscriptionContext`), the plan gates in front of the routes (`ProtectedRoute`), the dashboard hooks for recent proposals and metrics;
- the signature flow: the approval banner that creates the contract draft, the request modal, the `SignatureContext` operations on the signature tables, the e-mail edge function, the public signing page and the requests dialog;
- the contract wizard and its configuration: the service-type templates and questionnaires, the dynamic questions, the scope and timeline steps, and the contract preview;
- sign-up validation, the environment's base address and the page head.

The Supabase tables are `seq` fields of one `Database.Db` object. A query is a filter over a table. `.single()` succeeds exactly when one row matches. An update maps over the matching rows. The model has no network, so a database error is an input to the operation that can meet it: the operation takes a flag or an `Outcome` saying whether the call fails. The same goes for the current time in milliseconds, fresh ids and tokens, the browser's formatted dates and numbers, the client IP and the page's host. React components whose state changes become classes. Their handlers are methods, and each method states the whole new state. The helpers that only compute become functions, each with a lemma giving it a partner property.

Some behaviour of the source is modelled as written even though it looks unintended. Lemmas show where each case leads:

- `updateSignatureStatus` does not check that the request is still pending or unexpired. The signing page checks neither when it loads. So an answer can reopen a cancelled request (`SignatureContext.AnswerReopensCancelled`; a guarded variant is proved separately as `SignatureContext.UpdateSignatureStatusGuarded`).
- Cancelling a request is unconditional, and the requests dialog still offers the link of a cancelled request.
- `updateProposal` deletes the items by proposal id with no owner filter on that delete.
- A plan id stored under an unknown name passes every plan gate. It gets the logo but the basic template.
- The monthly reset marker in local storage is shared by every user of the browser (`SubscriptionContext.SharedMarkerSkipsSecondUser`).
- When a proposal already has two contracts, the banner's `.single()` fails and inserts a third draft.
- An id without a `-` has no proposal number.
- `handleNext` of the wizard does not consult `canContinue`; only the disabled button does.
- Clearing the custom service name keeps the name typed before it (`ContractWizard.ClearedCustomNameKept`).

## Model

| member | source | states |
|---|---|---|
| Database.Single | proposta/src/contexts/SignatureContext.tsx:185-191 | `.single()` yields a row exactly when one row matches the filter, and then it is that row, taken from the table |
| Database.SignatoryStatusTextInjective | proposta/src/contexts/SignatureContext.tsx:252 | the three signatory statuses are stored as three different texts, so `signature_${status}` names the answer given |
| Database.SignatoryById | proposta/src/contexts/SignatureContext.tsx:220-224 | with unique signatory ids, the lookup by id finds the one row with that id |
| Database.SignatoryByToken | proposta/src/contexts/SignatureContext.tsx:185-189 | with unique tokens, the lookup by token finds the one row holding it |
| Database.RequestById | proposta/src/contexts/SignatureContext.tsx:194-198 | with unique request ids, the lookup by id finds the one request with that id |
| Database.SetRequestStatus | proposta/src/contexts/SignatureContext.tsx:271-274 | the update changes the status of every row with the id and nothing else, keeping the row count |
| Database.SetRequestStatusIds | proposta/src/contexts/SignatureContext.tsx:271-274 | a status update keeps the set of request ids |
| SignatureContext.NewRequest | proposta/src/contexts/SignatureContext.tsx:53-60 | a new request is pending and expires exactly seven days (604 800 000 ms) after it is created |
| SignatureContext.NewSignatories | proposta/src/contexts/SignatureContext.tsx:67-71 | one row per input, in order, with the input's fields unchanged plus its own id, the new request's id and its own token |
| SignatureContext.SentEvents | proposta/src/contexts/SignatureContext.tsx:81-89 | the calls that reached the e-mail function add at most one `signature_email_sent` event per new signatory |
| SignatureContext.AppendKeepsValid | proposta/src/contexts/SignatureContext.tsx:53-78 | appending a fresh request and its fresh signatories keeps ids and tokens unique and every signatory linked to an existing request |
| SignatureContext.NotifySignatories | proposta/src/contexts/SignatureContext.tsx:81-89 | the e-mail loop writes only the audit log, appending the delivered calls' events in order; a failed call does not stop the loop |
| SignatureContext.SendEmail | proposta/src/contexts/SignatureContext.tsx:81-89 | one call of the e-mail function for a new signatory adds exactly the event the function logs, and writes nothing else |
| SignatureContext.CreateSignatureRequest | proposta/src/contexts/SignatureContext.tsx:48-120 | with no user or a failed request insert, nothing is written and an error is returned. If the signatory insert fails, the request row stays and an error is returned. On success: one pending request, its signatories, the e-mail events, then one `signature_request_created` event; the tables stay consistent |
| SignatureContext.GetSignatureRequestsByUser | proposta/src/contexts/SignatureContext.tsx:122-152 | when a read fails, the empty list, as the catch returns. Otherwise every request exactly once, newest first, each with exactly the signatories that point to it |
| SignatureContext.GetSignatureRequestById | proposta/src/contexts/SignatureContext.tsx:154-181 | a result exactly when no read fails and one request has the id (a failed read gives null, as the catch returns); it carries exactly the signatories of that id |
| SignatureContext.GetSignatoryByToken | proposta/src/contexts/SignatureContext.tsx:183-213 | a failed read gives null, as the catch returns. A signatory is returned only when it holds the token and its request is neither cancelled nor expired, by status or by date |
| SignatureContext.IsOpen | proposta/src/contexts/SignatureContext.tsx:203-206 | an open request is pending or completed and not past its expiry |
| SignatureContext.TokenResolvesIffOpen | proposta/src/contexts/SignatureContext.tsx:183-213 | in consistent tables a signatory's token resolves to it exactly when the reads go through and its request is open, and to nothing otherwise |
| SignatureContext.AllSigned | proposta/src/contexts/SignatureContext.tsx:265 | true exactly when every status is signed (also for no signatories) |
| SignatureContext.AnyRejected | proposta/src/contexts/SignatureContext.tsx:266 | true exactly when some status is rejected |
| SignatureContext.Reconcile | proposta/src/contexts/SignatureContext.tsx:265-275 | completed exactly when all signed; cancelled exactly when some rejected and not all signed; no write exactly when someone has not signed and nobody rejected |
| SignatureContext.StatusesOfRequestIsFilterMap | proposta/src/contexts/SignatureContext.tsx:257-266 | the statuses `Settle` reconciles are exactly those of the re-read: the signatories of the request, filtered by request id in table order, mapped to their statuses |
| SignatureContext.RecordAnswer | proposta/src/contexts/SignatureContext.tsx:229-244 | only the signatory with the id changes: its status, `signed_at` = now and the IP; the image is written only when a non-empty one is given |
| SignatureContext.RecordAnswerKeepsValid | proposta/src/contexts/SignatureContext.tsx:239-244 | recording an answer keeps ids, tokens and request links, so the tables stay consistent |
| SignatureContext.SetRequestStatusKeepsValid | proposta/src/contexts/SignatureContext.tsx:271-274 | settling or cancelling a request keeps the tables consistent |
| SignatureContext.UpdateSignatureStatus | proposta/src/contexts/SignatureContext.tsx:215-294 | an unknown signatory, a failed IP lookup or a failed update writes nothing and fails. Otherwise it records the answer and appends `signature_<status>` with the comment and the IP. If the re-read then succeeds, it settles the request by `Reconcile`. Neither the signatory's nor the request's status is checked first |
| SignatureContext.AnswerReopensCancelled | proposta/src/contexts/SignatureContext.tsx:255-275 | a cancelled request whose other signatories all signed is settled as completed when the last one signs, because no status is checked first |
| SignatureContext.UpdateSignatureStatusGuarded | proposta/src/contexts/SignatureContext.tsx:215-275 | the guarded variant. Unless the signatory is pending and its request pending and unexpired (`AnswerAllowed`), it fails and writes nothing. Otherwise the outcome is exactly `UpdateSignatureStatus`'s: the same failures, the recorded answer, its event and the settled request. A signatory that already answered and a request no longer pending are never changed |
| SignatureContext.CancelSignatureRequest | proposta/src/contexts/SignatureContext.tsx:320-354 | a failed update writes nothing. Otherwise the request becomes cancelled whatever its status, its signatories are untouched and one `signature_request_cancelled` event is appended |
| SignatureContext.ResendSignatureRequest | proposta/src/contexts/SignatureContext.tsx:296-318 | no table changes except the one e-mail event appended when the call reaches the function with `resend: true` |
| SendSignatureEmail.BaseUrl | proposta/supabase/functions/send-signature-email/index.ts:88 | the configured `APP_URL` when it is set and not empty, the fixed default otherwise; never empty |
| SendSignatureEmail.SignatureUrl | proposta/supabase/functions/send-signature-email/index.ts:89 | the link is the base address, then `/assinatura/`, then the token, so it starts with the base and ends with the token |
| SendSignatureEmail.SignatureUrlToken | proposta/supabase/functions/send-signature-email/index.ts:89 | the token can be read back from the link after the base and the path |
| SendSignatureEmail.EmailEventType | proposta/supabase/functions/send-signature-email/index.ts:103 | `signature_email_resent` exactly when `resend` is true, `signature_email_sent` otherwise |
| SendSignatureEmail.EmailEvent | proposta/supabase/functions/send-signature-email/index.ts:30-105 | an event is logged only for a non-empty id whose signatory, request and contract are all found; it names that signatory, its request and its e-mail address |
| SendSignatureEmail.Handle | proposta/supabase/functions/send-signature-email/index.ts:11-128 | preflight gives 200 with no body; a body that is not JSON gives 500; a missing id gives 400; an unknown signatory gives 404; a missing request gives 500; a missing contract gives 404; otherwise 200 with the signing link. Only the audit log changes, by one event and only on success |
| SignaturePage.CompletedTitle | proposta/src/pages/SignaturePage.tsx:201 | the signed title exactly when the action is `sign`, the rejected title for anything else, a missing action included |
| SignaturePage.ActionAsWritten | proposta/src/pages/SignaturePage.tsx:61-64 | as written, a returning signatory's action is the stored status text (`signed` or `rejected`) |
| SignaturePage.AsWrittenShowsSignedAsRejected | proposta/src/pages/SignaturePage.tsx:61-64 | as written, a signatory who already signed and opens the link again is shown "Documento Rejeitado" |
| SignaturePage.ActionForStatus | proposta/src/pages/SignaturePage.tsx:61-64 | corrected: a signed answer maps to `sign` and a rejected one to `reject`, both ways |
| SignaturePage.CorrectedTitleMatchesAnswer | proposta/src/pages/SignaturePage.tsx:195-202 | with the corrected action, the completed screen's title always matches the stored answer |
| SignaturePage.Page.View | proposta/src/pages/SignaturePage.tsx:163-229 | loading comes first; the signing form is shown exactly when loading is over, there is no error and the answer is not complete |
| SignaturePage.Page.Load | proposta/src/pages/SignaturePage.tsx:38-100 | a missing token, an unknown token, a missing request and a missing contract each set their own error. A signatory that already answered marks the page completed, with the corrected action of the first finding (`ActionForStatus`, not the stored status text). A found contract is kept. Loading always ends. Cancellation and expiry are not checked |
| SignaturePage.Page.LoadSignatory | proposta/src/pages/SignaturePage.tsx:46-96 | with a token: an unknown token sets its error; a found signatory is kept, and one that already answered marks the page completed with the corrected action `ActionForStatus` of the first finding; then the request and contract lookups follow. Loading ends |
| SignaturePage.Page.LoadDocument | proposta/src/pages/SignaturePage.tsx:66-96 | a missing request and a missing contract each set their own error; a found contract is kept and the error left as it was. Loading ends |
| SignaturePage.SubmitAnswer | proposta/src/pages/SignaturePage.tsx:115-146 | the page's answer succeeds exactly when the signatory is found, the IP lookup answers and neither write fails. The three signature tables become `AnswerTables`'s: with a found signatory, an IP and a successful update, the answer is recorded (`RecordAnswer`), its `signature_<status>` event with the comment and IP is appended, and the request is settled by `Settle` unless the recheck fails; otherwise nothing changes. The proposal, item and contract tables are unchanged and the tables stay consistent |
| SignaturePage.Page.DrawSignature | proposta/src/components/signature/SigningPad.tsx:1-186 | the pad's report replaces the stored image and nothing else |
| SignaturePage.Page.HandleSign | proposta/src/pages/SignaturePage.tsx:102-135 | without a drawn image nothing changes. Otherwise it records `signed` with the image and the comment through `UpdateSignatureStatus`, and shows the signed screen only when that succeeds. Without a loaded signatory the database is unchanged; with one, the signature tables become `AnswerTables`'s (the answer, its event, the settled request, each on exactly the paths where the source writes it). The proposal, item and contract tables never change, the tables stay consistent, and submitting ends |
| SignaturePage.Page.HandleReject | proposta/src/pages/SignaturePage.tsx:137-161 | it records `rejected` without an image and shows the rejection screen only on success; a failure leaves the screen as it was. Without a loaded signatory the database is unchanged; with one, the signature tables become `AnswerTables`'s. The proposal, item and contract tables never change, the tables stay consistent, and submitting ends |
| SignaturePage.Page.constructor | proposta/src/pages/SignaturePage.tsx:23-33 | the page starts loading, with nothing fetched, drawn, typed or chosen |
| ViewSignatureRequests.DisplayStatus | proposta/src/components/signature/ViewSignatureRequests.tsx:123-129 | the badge shows "expired" exactly for a stored expired request or a pending one past its date; any other request shows its stored status |
| ViewSignatureRequests.ButtonsFollowBadge | proposta/src/components/signature/ViewSignatureRequests.tsx:123-145 | cancel is offered exactly when the badge shows pending; the expiry note appears exactly when a stored pending request shows as expired |
| ViewSignatureRequests.OfferedLinkResolvesUnlessClosed | proposta/src/components/signature/ViewSignatureRequests.tsx:159 | for a signatory the dialog offers buttons for, the handed-out link resolves exactly when the reads go through and its request is neither cancelled nor marked expired, so a cancelled request's link is offered but dead |
| ViewSignatureRequests.CopiedLink | proposta/src/components/signature/ViewSignatureRequests.tsx:51-52 | the copied link starts with the page's origin and ends with the token |
| ViewSignatureRequests.CopiedLinkMatchesEmailLink | proposta/src/components/signature/ViewSignatureRequests.tsx:50-52 | with the e-mail function's `APP_URL` set to the page's origin, the copied link is the link the e-mail function reports |
| ViewSignatureRequests.ListedRequests | proposta/src/components/signature/ViewSignatureRequests.tsx:36-48 | none when the read fails, since `getSignatureRequestsByUser` then returns `[]`; otherwise exactly the contract's requests, each once, each with exactly its own signatories |
| ViewSignatureRequests.Dialog.constructor | proposta/src/components/signature/ViewSignatureRequests.tsx:23-25 | the dialog starts loading, with no requests and no copied marks |
| ViewSignatureRequests.Dialog.FetchRequests | proposta/src/components/signature/ViewSignatureRequests.tsx:36-48 | the list becomes `ListedRequests` for the contract, empty after a failed read, and loading ends; copy marks are kept |
| ViewSignatureRequests.Dialog.HandleCopyLink | proposta/src/components/signature/ViewSignatureRequests.tsx:50-72 | the clipboard holds the token's link; that token's button reads "Copiado" and no other button changes |
| ViewSignatureRequests.Dialog.CopiedTimerFires | proposta/src/components/signature/ViewSignatureRequests.tsx:61-66 | three seconds later that token's button reverts; no other button changes |
| ViewSignatureRequests.Dialog.HandleResend | proposta/src/components/signature/ViewSignatureRequests.tsx:74-81 | the audit log gains the resend event when the call is delivered and nothing otherwise; no table row changes, proposals and items included, and the list is reloaded |
| ViewSignatureRequests.Dialog.HandleCancel | proposta/src/components/signature/ViewSignatureRequests.tsx:83-92 | without confirmation nothing changes. With it the request is cancelled and the list reloaded; the audit log gains the cancel event exactly when confirmed and the update goes through, and a failed update keeps the requests. Signatories, contracts, proposals and items are untouched and the tables stay consistent |
| ViewSignatureRequests.ListedRequestsPermutation | proposta/src/components/signature/ViewSignatureRequests.tsx:36-48 | the requests the dialog lists for a contract are, as a multiset, exactly that contract's rows in the requests table |
| RequestSignatureModal.CanSubmitIffNotBlank | proposta/src/components/signature/RequestSignatureModal.tsx:40 | a submission is refused exactly when the name or the e-mail holds nothing but white space |
| RequestSignatureModal.CanSubmit | proposta/src/components/signature/RequestSignatureModal.tsx:40 | submitting needs a non-empty name and a non-empty e-mail |
| RequestSignatureModal.Submission | proposta/src/components/signature/RequestSignatureModal.tsx:52-56 | exactly one signatory, with the name and e-mail as typed (not trimmed), pending, with no date and no image |
| RequestSignatureModal.SuccessCallbacks | proposta/src/components/signature/RequestSignatureModal.tsx:62-66 | `onSuccess` is called exactly when the parent gave one, and `onClose` always comes last |
| RequestSignatureModal.Modal.constructor | proposta/src/components/signature/RequestSignatureModal.tsx:31-33 | empty fields, not submitting, no callback made |
| RequestSignatureModal.Modal.SetName | proposta/src/components/signature/RequestSignatureModal.tsx:31 | typing replaces the name and nothing else |
| RequestSignatureModal.Modal.SetEmail | proposta/src/components/signature/RequestSignatureModal.tsx:32 | typing replaces the e-mail and nothing else |
| RequestSignatureModal.Modal.HandleSubmit | proposta/src/components/signature/RequestSignatureModal.tsx:37-72 | blank fields change nothing. Otherwise the request table gains the request exactly when there is a user and its insert goes through. On full success the signatory is added, the audit log gains the sent events and then the created event, the fields are cleared and the callbacks made; otherwise signatories, audit log, fields and callbacks are kept. Proposals, items and contracts never change and the tables stay consistent |
| RequestSignatureModal.Modal.SubmitChecked | proposta/src/components/signature/RequestSignatureModal.tsx:49-71 | with both fields filled in: the request table gains the request exactly when there is a user and its insert goes through; on full success the signatory, the sent events and the created event are added, the fields cleared and the callbacks made; otherwise signatories, audit log, fields and callbacks are kept. Proposals, items and contracts never change. Submitting ends |
| RequestSignatureModal.SubmitRequest | proposta/src/components/signature/RequestSignatureModal.tsx:51-55 | the form's call succeeds exactly when there is a user and neither insert fails; the request is written exactly when there is a user and its insert goes through, and the signatory only on success. On success the audit log gains the sent events and then the created event; otherwise it is kept. Proposals, items and contracts never change and the tables stay consistent |
| ProposalApprovalBanner.ContractValues | proposta/src/components/ProposalApprovalBanner.tsx:141-176 | the eight values in the template's order: the client twice, the description or its default, the total, both dates, the notes or their default, and today |
| ProposalApprovalBanner.GenerateContractContent | proposta/src/components/ProposalApprovalBanner.tsx:136-182 | the draft names the client, the object (or the default sentence), the additional clauses (or theirs) and the provider placeholder |
| ProposalApprovalBanner.ContractsOf | proposta/src/components/ProposalApprovalBanner.tsx:89-93 | exactly the contracts whose `proposal_id` is the proposal's |
| ProposalApprovalBanner.CreateOrGet | proposta/src/components/ProposalApprovalBanner.tsx:86-119 | with exactly one contract for the proposal, its id and no write. Otherwise, with none or several, one new draft is inserted and its id returned, or, when the insert fails, a failure and no write |
| ProposalApprovalBanner.CreateOrGetBelongs | proposta/src/components/ProposalApprovalBanner.tsx:86-119 | a returned id is the id of a contract of this proposal in the table afterwards |
| ProposalApprovalBanner.CreateOrGetIdempotent | proposta/src/components/ProposalApprovalBanner.tsx:86-119 | from at most one contract, a success leaves exactly one, and a second call returns the same id and writes nothing |
| ProposalApprovalBanner.DuplicateContractsGrow | proposta/src/components/ProposalApprovalBanner.tsx:89-108 | with two or more contracts for the proposal `.single()` fails, so every send adds one more draft |
| ProposalApprovalBanner.SentModeIffRequestExists | proposta/src/components/ProposalApprovalBanner.tsx:48-58 | `requests.length > 0` exactly when some request names the contract |
| ProposalApprovalBanner.Banner.constructor | proposta/src/components/ProposalApprovalBanner.tsx:22-27 | not loading, no contract, not agreed, no dialog open, not in the sent state |
| ProposalApprovalBanner.Banner.CheckSignatureRequests | proposta/src/components/ProposalApprovalBanner.tsx:30-65 | when the proposal has exactly one contract its id is kept, and the sent state becomes "some request names it" unless that query fails; otherwise nothing is set |
| ProposalApprovalBanner.Banner.ToggleAgreed | proposta/src/components/ProposalApprovalBanner.tsx:248 | flips the confirmation and nothing else |
| ProposalApprovalBanner.Banner.HandleSendApproval | proposta/src/components/ProposalApprovalBanner.tsx:67-133 | on the free plan only the upgrade dialog opens. Without the confirmation only the error shows. Otherwise the contracts table becomes `CreateOrGet`'s; a success opens the request form for that id and a failure shows the error. No other table changes, and of the subscription only the share-upgrade dialog can change: the plan, the count, the loading flag, the other dialog, the saved records and the reset marker are kept |
| ProposalApprovalBanner.Banner.SendAgreed | proposta/src/components/ProposalApprovalBanner.tsx:83-132 | the contracts table becomes `CreateOrGet`'s over the generated draft and loading ends. A success stores the id and opens the request form; a failure keeps them and shows the error. No other table and no other flag changes |
| ProposalApprovalBanner.Banner.HandleViewRequests | proposta/src/components/ProposalApprovalBanner.tsx:185-201 | on the free plan only the upgrade dialog opens. Otherwise a known contract opens the list, and with none the error shows. Of the subscription only the share-upgrade dialog can change: the plan, the count, the loading flag, the other dialog, the saved records and the reset marker are kept |
| ProposalApprovalBanner.Banner.OnRequestSuccess | proposta/src/components/ProposalApprovalBanner.tsx:279 | the banner switches to its sent state and nothing else changes |
| Plans.ParsePlanId | proposta/src/contexts/SubscriptionContext.tsx:83-84 | a stored plan id is read as an unknown plan exactly when it is none of the three ids |
| Plans.PlanIdRoundTrip | proposta/src/contexts/SubscriptionContext.tsx:83-84 | reading a stored id and writing it back gives the same text, for every text |
| Plans.ParsePlanIdRoundTrip | proposta/src/config/plans.ts:2 | each of the three plan ids reads back as its own plan |
| Plans.Find | proposta/src/config/plans.ts:71 | a found plan is in the table and has the id; no plan found means no plan in the table has it |
| Plans.GetPlan | proposta/src/config/plans.ts:70-72 | the plan with the id, or the free plan when no plan has it; always a plan of the table |
| Plans.PlanLimits | proposta/src/config/plans.ts:21-68 | free allows 2 proposals, intermediate 10, professional unlimited, and an unknown id gets the free plan |
| Plans.PlanIdsDistinct | proposta/src/config/plans.ts:21-68 | the three plans have different ids, so the lookup cannot pick a wrong entry |
| Plans.ProposalsRemaining | proposta/src/config/plans.ts:74-78 | unlimited exactly for the unlimited plan; otherwise the limit minus the count, and never below zero |
| Plans.CanCreateIffBelowLimit | proposta/src/config/plans.ts:80-82 | another proposal is allowed exactly when the plan is unlimited or the count is below its limit |
| Plans.CanCreateProposal | proposta/src/config/plans.ts:80-82 | the professional plan can always create, and so can any plan before its first proposal |
| Plans.ProfessionalAlwaysCreates | proposta/src/config/plans.ts:57 | the professional plan allows another proposal for every count |
| Plans.RemainingNonIncreasing | proposta/src/config/plans.ts:74-82 | a higher count never leaves more remaining, and what a higher count allows a lower one allows too |
| SubscriptionContext.EarlierIsMonthOrder | proposta/src/contexts/SubscriptionContext.tsx:57 | for real months, the reset test is the order of months counted from year zero |
| SubscriptionContext.UserKey | proposta/src/contexts/SubscriptionContext.tsx:79 | the key is the fixed prefix followed by the user id |
| SubscriptionContext.UserKeyInjective | proposta/src/contexts/SubscriptionContext.tsx:79 | two different users never share a saved record |
| SubscriptionContext.LoadingAfterLoadAsWritten | proposta/src/contexts/SubscriptionContext.tsx:33-94 | as written, loading is still on after the load exactly when it was on and there is no user |
| SubscriptionContext.VisitorWithoutSessionSeesSpinner | proposta/src/contexts/SubscriptionContext.tsx:76-94 | as written, a visitor without a session who opens a protected page sees the spinner for ever instead of the login page |
| SubscriptionContext.LoadingAfterLoad | proposta/src/contexts/SubscriptionContext.tsx:76-94 | corrected: loading is off after the load, with or without a user |
| SubscriptionContext.VisitorWithoutSessionRedirected | proposta/src/components/ProtectedRoute.tsx:16-27 | with the corrected flag, a visitor without a session is sent to the login page |
| SubscriptionContext.Subscription.constructor | proposta/src/contexts/SubscriptionContext.tsx:31-35 | free plan, count zero, loading, both upgrade dialogs closed; the storage is what the browser holds |
| SubscriptionContext.Subscription.ProposalsRemaining | proposta/src/contexts/SubscriptionContext.tsx:38 | unlimited exactly on the professional plan; otherwise never more than the plan's limit for a count that is not negative |
| SubscriptionContext.Subscription.CanCreateNewProposal | proposta/src/contexts/SubscriptionContext.tsx:39 | another proposal is allowed exactly when the remaining count is unlimited or above zero |
| SubscriptionContext.Subscription.CheckAndResetMonthlyUsage | proposta/src/contexts/SubscriptionContext.tsx:42-73 | afterwards a marker is stored and is not before this month. With no marker it is set and the count kept; with an earlier month the count drops to zero; otherwise nothing changes |
| SubscriptionContext.MonthlyReset | proposta/src/contexts/SubscriptionContext.tsx:42-73 | afterwards a marker is stored and is not before this month. The count drops to zero exactly when the stored marker is from an earlier month |
| SubscriptionContext.SharedMarkerSkipsSecondUser | proposta/src/contexts/SubscriptionContext.tsx:42-73 | the marker is shared by every user of the browser: once one user's visit in a new month has reset it, a second user that month keeps the count from the month before |
| SubscriptionContext.Subscription.LoadForUserAsWritten | proposta/src/contexts/SubscriptionContext.tsx:76-94 | a signed-in user gets the saved plan and count, or free and zero with no record, and loading ends. Without a user nothing changes, so loading stays on |
| SubscriptionContext.Subscription.LoadForUser | proposta/src/contexts/SubscriptionContext.tsx:76-94 | corrected load: the same plan and count, and loading always ends |
| SubscriptionContext.Subscription.Save | proposta/src/contexts/SubscriptionContext.tsx:97-102 | a signed-in user's record becomes the current plan and count; other records and the state are kept |
| SubscriptionContext.Subscription.UpdatePlan | proposta/src/contexts/SubscriptionContext.tsx:104-110 | the plan changes and the count is kept |
| SubscriptionContext.Subscription.IncrementUsedProposals | proposta/src/contexts/SubscriptionContext.tsx:112-114 | the count goes up by one and what remains never grows |
| SubscriptionContext.Subscription.ResetUsedProposals | proposta/src/contexts/SubscriptionContext.tsx:116-118 | the count becomes zero and the plan is kept |
| SubscriptionContext.Subscription.ShowUpgradeModal | proposta/src/contexts/SubscriptionContext.tsx:120-122 | opens the quota upgrade dialog only |
| SubscriptionContext.Subscription.ShowShareUpgradeModal | proposta/src/contexts/SubscriptionContext.tsx:124-126 | opens the sharing upgrade dialog only |
| SubscriptionContext.FreeQuotaIsTwo | proposta/src/config/plans.ts:26-82 | a free user at zero can create two proposals in a month, and the third is refused |
| ProtectedRoute.Rank | proposta/src/components/ProtectedRoute.tsx:31-35 | exactly the three known plans have a rank |
| ProtectedRoute.RanksOrdered | proposta/src/components/ProtectedRoute.tsx:31-35 | free ranks below intermediate, which ranks below professional |
| ProtectedRoute.Decide | proposta/src/components/ProtectedRoute.tsx:12-44 | the spinner exactly while the session or the subscription loads. Once settled, the login page exactly without a session. The plans page exactly when a non-free plan is required and the user's plan ranks below it. Otherwise the page |
| ProtectedRoute.NoRequirementRenders | proposta/src/components/ProtectedRoute.tsx:30 | a route requiring nothing, or the free plan, renders for every settled, signed-in user |
| ProtectedRoute.AccessMonotone | proposta/src/components/ProtectedRoute.tsx:38 | a plan ranked at least as high never loses access to a page |
| ProtectedRoute.UnknownPlanPassesEveryGate | proposta/src/components/ProtectedRoute.tsx:38 | a stored plan id outside the table has no rank, so the comparison is false and every plan check passes |
| ProposalContext.OrEmpty | proposta/src/contexts/ProposalContext.tsx:88 | a stored text is kept, a missing one reads as empty |
| ProposalContext.NonEmpty | proposta/src/contexts/ProposalContext.tsx:92-95 | a text is present after the mapping exactly when it was stored and not empty |
| ProposalContext.OrFalse | proposta/src/contexts/ProposalContext.tsx:96 | true exactly when true was stored |
| ProposalContext.ToProposal | proposta/src/contexts/ProposalContext.tsx:85-102 | the mapped proposal keeps the row's id, owner and creation time; optional notes and template are never present and empty |
| ProposalContext.ToProposalNormalises | proposta/src/contexts/ProposalContext.tsx:85-102 | a mapped proposal written back as rows and mapped again is the same proposal |
| ProposalContext.ItemsOf | proposta/src/contexts/ProposalContext.tsx:70-74 | exactly the item rows of that proposal |
| ProposalContext.WithItems | proposta/src/contexts/ProposalContext.tsx:85-102 | one proposal per row, in order, each with its own items |
| ProposalContext.OwnedSorted | proposta/src/contexts/ProposalContext.tsx:76-77 | the user's rows sorted newest first are exactly the user's rows, in non-increasing creation time |
| ProposalContext.FetchProposals | proposta/src/contexts/ProposalContext.tsx:47-103 | nothing without a user, and nothing when the query fails: it throws, and the list falls back to its default `[]`. Otherwise one proposal per row the user owns, each owned by the user, newest first, and every such row appears mapped with its items |
| ProposalContext.FilteredProposals | proposta/src/contexts/ProposalContext.tsx:339-345 | the free plan sees the first three (or fewer), the other plans the whole list; always a prefix of the list |
| ProposalContext.FindProposal | proposta/src/contexts/ProposalContext.tsx:352 | a found proposal is in the list and has the id; none is found exactly when no proposal has it |
| ProposalContext.FindProposalIsFirst | proposta/src/contexts/ProposalContext.tsx:352 | the proposal found is the first one with the id |
| ProposalContext.GetProposal | proposta/src/contexts/ProposalContext.tsx:348-359 | nothing without a user; otherwise the first cached proposal with the id |
| ProposalContext.TempIdsDistinct | proposta/src/contexts/ProposalContext.tsx:223 | placeholder ids of different positions differ |
| ProposalContext.TempItems | proposta/src/contexts/ProposalContext.tsx:221-224 | the input items in order, each with its position's placeholder id |
| ProposalContext.NewItemRows | proposta/src/contexts/ProposalContext.tsx:134-138 | one row per item, in order, tied to the proposal, with the item's name and value |
| ProposalContext.ContractValues | proposta/src/contexts/ProposalContext.tsx:148-192 | the eleven values in template order: the client twice, the description or its default, the total, the delivery date, the notes or their default, and today |
| ProposalContext.ContractContent | proposta/src/contexts/ProposalContext.tsx:148-192 | the contract names the client, the object (or its default), the additional clauses (or theirs), the total and the delivery date |
| ProposalContext.NewContracts | proposta/src/contexts/ProposalContext.tsx:147-206 | one draft with content for the proposal exactly when it includes a contract and the insert succeeds, otherwise none |
| ProposalContext.CreatedProposal | proposta/src/contexts/ProposalContext.tsx:209-225 | the returned proposal has the new id, the user, the creation time, the input's client, description and total, and as many items as the input |
| ProposalContext.CreateProposal | proposta/src/contexts/ProposalContext.tsx:108-244 | no user or no quota: a failure and no write. A failed proposal insert writes nothing. A failed items insert leaves the proposal row behind and the count unchanged. Otherwise: the row, its items and the contract draft when asked for (a failed contract insert is ignored); the count goes up by one |
| ProposalContext.Patch | proposta/src/contexts/ProposalContext.tsx:254-263 | a patch never changes a row's id, owner or creation time |
| ProposalContext.PatchIdempotent | proposta/src/contexts/ProposalContext.tsx:254-263 | writing a patch twice is writing it once, and a patch with no fields writes nothing |
| ProposalContext.UpdateRows | proposta/src/contexts/ProposalContext.tsx:252-265 | exactly the rows with the id owned by the user are patched; every other row is kept |
| ProposalContext.UpdateRowsKeepsOthers | proposta/src/contexts/ProposalContext.tsx:264-265 | every row keeps its id and owner, and other users' rows are untouched |
| ProposalContext.UpdateProposal | proposta/src/contexts/ProposalContext.tsx:247-307 | no user or a failed update: no write. Otherwise the user's row is patched. With items, the proposal's item rows are deleted by id alone (no owner check) and the new ones inserted; a failed step stops without undoing earlier ones |
| ProposalContext.ReplacedItemsAreTheNewOnes | proposta/src/contexts/ProposalContext.tsx:270-291 | after a successful update with items, the proposal's items are exactly the new ones |
| ProposalContext.DeleteProposal | proposta/src/contexts/ProposalContext.tsx:310-336 | no user or a failed delete: no write. Otherwise only the user's row with the id is removed; items and contracts are kept |
| ProposalContext.DeleteRemovesExactlyThat | proposta/src/contexts/ProposalContext.tsx:314-318 | after the delete, a row is present exactly when it was before and is not the user's row with that id |
| CreateProposal.BlankItem | proposta/src/pages/CreateProposal.tsx:41 | a new item has the generated id, an empty name and value zero |
| CreateProposal.AddKeepsTotal | proposta/src/pages/CreateProposal.tsx:38-42 | adding a blank item leaves the total as it was |
| CreateProposal.RemoveDropsAtMostOne | proposta/src/pages/CreateProposal.tsx:44-48 | with distinct ids, removing by id drops at most one item |
| CreateProposal.FilterKeepsIdsDistinct | proposta/src/pages/CreateProposal.tsx:46 | removing items keeps the ids distinct |
| CreateProposal.ChangeItems | proposta/src/pages/CreateProposal.tsx:50-57 | only the item with the id changes, and only the edited field: the name as typed, or the value as parsed (zero for a text that does not parse) |
| CreateProposal.RenameKeepsTotal | proposta/src/pages/CreateProposal.tsx:38 | renaming an item leaves the total as it was |
| CreateProposal.SomeNameBlankIff | proposta/src/pages/CreateProposal.tsx:79 | the item check fails exactly when some item's name is nothing but white space |
| CreateProposal.FirstInvalid | proposta/src/pages/CreateProposal.tsx:69-95 | in order: a blank client name; else a blank item name; else a missing delivery or validity date; each iff its condition holds and the earlier ones pass, and no error exactly when all pass |
| CreateProposal.FirstInvalidChecks | proposta/src/pages/CreateProposal.tsx:69-95 | the same order stated over the fields: the item error iff the client name is filled and some item's name is only white space; the date error iff no item name is blank and a date is missing; the form may be sent iff every check passes |
| CreateProposal.Submitted | proposta/src/pages/CreateProposal.tsx:102-111 | the input carries the client, the items, their sum as total, the notes and the contract choice |
| CreateProposal.ProposalPath | proposta/src/pages/CreateProposal.tsx:120 | the path is `/propostas/` followed by the proposal id |
| CreateProposal.CreateFromForm | proposta/src/pages/CreateProposal.tsx:102-113 | the form's `createProposal` call yields the new proposal's id exactly when a signed-in user under the plan limit gets both inserts through; then the proposal and its items are appended and the count goes up by one, otherwise no item is written and the count is kept. The proposal row stays when only the items insert fails. The contract draft is added exactly when the proposal and items were created and the contract is included and inserted. Signature tables, audit log and the other subscription fields never change |
| CreateProposal.Form.constructor | proposta/src/pages/CreateProposal.tsx:26-36 | one blank item, empty texts, contract included, not submitting |
| CreateProposal.Form.AddItem | proposta/src/pages/CreateProposal.tsx:40-42 | a blank item is appended, the total is kept, and the list stays non-empty with distinct ids; every other form field (client name, description, dates, notes, the contract switch) and the submission state are kept |
| CreateProposal.Form.RemoveItem | proposta/src/pages/CreateProposal.tsx:44-48 | a lone item is never removed; otherwise the items with the id go, at most one item; the list stays non-empty with distinct ids; every other form field and the submission state are kept |
| CreateProposal.Form.ItemChange | proposta/src/pages/CreateProposal.tsx:50-57 | the list becomes `ChangeItems`'s, keeping the invariant; every other form field and the submission state are kept |
| CreateProposal.Form.HandleSubmit | proposta/src/pages/CreateProposal.tsx:66-133 | a failed check shows its title and writes nothing. Otherwise `createProposal` runs: when the proposal and its items are created, the form opens its page, the contract draft is added as `createProposal` adds it and the count goes up; otherwise it shows the creation error and stops submitting, with the proposal row left behind when only the items insert failed. Signature tables, audit log, the other subscription fields and the form's own fields never change |
| CreateProposal.Form.SubmitChecked | proposta/src/pages/CreateProposal.tsx:97-132 | with the checks passed, the form is marked submitting and `createProposal` runs; a created proposal and items open its page, add the contract draft and count once, and a failure shows the creation error and clears the submitting flag, keeping a proposal row whose items failed. Signature tables, audit log, the other subscription fields and the form's fields are kept |
| CreateProposal.Form.Refuse | proposta/src/pages/CreateProposal.tsx:69-95 | a failed check shows its title; items, fields, the submitting flag and navigation are kept |
| ProposalsList.Search | proposta/src/pages/ProposalsList.tsx:20-23 | exactly the proposals whose client or description contains the term, ignoring case; never more than the list |
| ProposalsList.EmptySearchKeepsAll | proposta/src/pages/ProposalsList.tsx:20-23 | an empty search lists every proposal, in order |
| ProposalsList.SearchIgnoresTermCase | proposta/src/pages/ProposalsList.tsx:21-22 | two terms that lower-case alike give the same list |
| ProposalsList.ContractStatus | proposta/src/pages/ProposalsList.tsx:55-67 | completed exactly when some request is; else pending exactly when some request is; else the first request's status; always one of the requests' statuses |
| ProposalsList.StatusMapKeys | proposta/src/pages/ProposalsList.tsx:52-69 | a proposal gets a status exactly when one of its contracts has requests |
| ProposalsList.StatusMap | proposta/src/pages/ProposalsList.tsx:52-69 | the map holds at most one entry per contract seen |
| ProposalsList.LastContractWins | proposta/src/pages/ProposalsList.tsx:52-69 | a proposal's status is that of its last contract with requests, because later contracts overwrite earlier ones |
| ProposalsList.StatusesOnlyForListed | proposta/src/pages/ProposalsList.tsx:32-69 | statuses are kept only for the ids of listed proposals |
| ProposalsList.ListPage.constructor | proposta/src/pages/ProposalsList.tsx:17-18 | empty search, no statuses |
| ProposalsList.ListPage.SetSearchTerm | proposta/src/pages/ProposalsList.tsx:17 | the term is replaced and the statuses are kept |
| ProposalsList.ListPage.Shown | proposta/src/pages/ProposalsList.tsx:20-23 | the page lists exactly the proposals matching the current term |
| ProposalsList.CollectStatuses | proposta/src/pages/ProposalsList.tsx:50-69 | the loop over the contracts in order yields the status map, each requested contract setting its proposal's entry to the status of its own requests |
| ProposalsList.ListPage.FetchSignatureStatuses | proposta/src/pages/ProposalsList.tsx:26-78 | only the professional plan with proposals, contracts and no failed query replaces the statuses, with the loop's map over the listed proposals' contracts; otherwise they are kept |
| ViewProposal.CeilDiv | proposta/src/pages/ViewProposal.tsx:548 | the least whole number of divisors that covers the dividend, as `Math.ceil` of the quotient |
| ViewProposal.DaysDifference | proposta/src/pages/ViewProposal.tsx:544-550 | at least one day; one day for spans up to a day; otherwise the span rounded up to whole days |
| ViewProposal.DaysDifferenceMonotone | proposta/src/pages/ViewProposal.tsx:544-550 | a later delivery date never gives fewer days |
| ViewProposal.WholeDays | proposta/src/pages/ViewProposal.tsx:544-550 | a delivery date exactly k days later gives k days, and at least one |
| ViewProposal.TemplateClass | proposta/src/pages/ViewProposal.tsx:143-153 | premium exactly for professional, standard exactly for intermediate, basic for free and for any unknown plan |
| ViewProposal.ChromeByPlan | proposta/src/pages/ViewProposal.tsx:215-231 | branding and logo never appear together; the banner appears only with the premium template; an unknown plan gets the basic template, no branding, no banner, and the logo when the user has one |
| ViewProposal.ProposalNumber | proposta/src/pages/ViewProposal.tsx:255 | a number exists exactly when the id contains '-'; it has at most six characters and no '-' |
| ViewProposal.NumberOfSegmentedId | proposta/src/pages/ViewProposal.tsx:255 | for an id `a-b-rest` the number is the first six characters of `b` |
| ViewProposal.ShareUrl | proposta/src/pages/ViewProposal.tsx:121 | the link is the origin, then `/share/`, then the id |
| ViewProposal.ViewPage.constructor | proposta/src/pages/ViewProposal.tsx:43-47 | no proposal, no contract text, not copied, not printing, contract section open |
| ViewProposal.ViewPage.Load | proposta/src/pages/ViewProposal.tsx:49-84 | without an id the page goes to the list. Otherwise the proposal is the cached one with the id. The stored contract text is taken only when the proposal has exactly one contract and the query succeeds, else the text is kept |
| ViewProposal.ViewPage.ContractText | proposta/src/pages/ViewProposal.tsx:352-353 | the stored contract text when there is a non-empty one, the page's own rendering otherwise |
| ViewProposal.ViewPage.ToggleContract | proposta/src/pages/ViewProposal.tsx:155-157 | flips the contract section and nothing else |
| ViewProposal.ViewPage.HandleShare | proposta/src/pages/ViewProposal.tsx:117-135 | only the professional plan copies the share link and marks it copied; every other plan gets the upgrade dialog and nothing is copied. The plan, the count, the loading flag, the share-upgrade dialog, the saved records and the reset marker are kept |
| ViewProposal.ViewPage.CopiedExpires | proposta/src/pages/ViewProposal.tsx:130 | three seconds later the copied mark is cleared and nothing else changes |
| ViewProposal.ViewPage.StartPrint | proposta/src/pages/ViewProposal.tsx:102-104 | printing starts and nothing else changes |
| ViewProposal.ViewPage.FinishPrint | proposta/src/pages/ViewProposal.tsx:106-109 | after the print dialog, printing ends and nothing else changes |
| RecentProposals.Label | proposta/src/hooks/useRecentProposals.ts:18-28 | "nova" exactly when less than a day old (future dates included), "recente" exactly from one day to under seven, "anterior" exactly from seven days on |
| RecentProposals.LabelAges | proposta/src/hooks/useRecentProposals.ts:20-28 | an older proposal never gets a fresher label |
| RecentProposals.Labelled | proposta/src/hooks/useRecentProposals.ts:17-34 | each proposal kept in place, with its label added |
| RecentProposals.Recent | proposta/src/hooks/useRecentProposals.ts:9-38 | the first `limit` proposals of the newest-first order (all of them when fewer), each from the input and labelled by its age |
| RecentProposals.NewestFirst | proposta/src/hooks/useRecentProposals.ts:12-14 | the list runs from the newest proposal to the oldest |
| RecentProposals.NewerAlsoListed | proposta/src/hooks/useRecentProposals.ts:12-17 | no proposal left out is newer than one listed |
| RecentProposals.DefaultLimitBound | proposta/src/hooks/useRecentProposals.ts:9 | with the default limit, at most five proposals, and exactly five when there are at least five |
| ProposalMetrics.Recent | proposta/src/hooks/useProposalMetrics.ts:17-20 | exactly the proposals created at or after the cutoff |
| ProposalMetrics.Quotient | proposta/src/hooks/useProposalMetrics.ts:23 | the quotient times the divisor gives back the dividend |
| ProposalMetrics.Compute | proposta/src/hooks/useProposalMetrics.ts:11-34 | the count of proposals, the sum of their totals, the number of recent ones (never more than the count), and an average that is the sum divided by the count, or zero for no proposals |
| ProposalMetrics.SumBetween | proposta/src/hooks/useProposalMetrics.ts:22 | the sum lies between the count times the smallest and the count times the largest total |
| ProposalMetrics.AverageBetween | proposta/src/hooks/useProposalMetrics.ts:23 | the average lies between the smallest and the largest total |
| ProposalMetrics.MetricsOfAppend | proposta/src/hooks/useProposalMetrics.ts:17-22 | the sum and the recent count of two lists joined are the sums of theirs |
| ProposalMetrics.LaterCutoffFewerRecent | proposta/src/hooks/useProposalMetrics.ts:14-20 | a later cutoff never counts more proposals as recent |
| ContractTemplates.AllServiceTypesListed | proposta/src/config/contractTemplates.ts:2-12 | each of the ten service types is listed exactly once, and their ids differ |
| ContractTemplates.TemplateTitle | proposta/src/config/contractTemplates.ts:55-237 | every service type's contract name is non-empty |
| ContractTemplates.TemplateScope | proposta/src/config/contractTemplates.ts:55-237 | every service type's scope clause is non-empty |
| ContractTemplates.ContractorDuties | proposta/src/config/contractTemplates.ts:55-237 | every service type lists three obligations for the client |
| ContractTemplates.ContractedDuties | proposta/src/config/contractTemplates.ts:55-237 | every service type lists three obligations for the provider |
| ContractTemplates.ServiceTypesTable | proposta/src/config/contractTemplates.ts:240-682 | the table lists the service types once each, in declaration order, with the id as icon; only development and design have questions |
| ContractTemplates.FindConfig | proposta/src/config/contractTemplates.ts:240-682 | a configuration is found exactly when one has the id, and it is that entry of the table |
| ContractTemplates.ConfigOfEveryType | proposta/src/config/contractTemplates.ts:240-682 | every service type finds its own row of the table |
| ContractTemplates.QuestionsOf | proposta/src/config/contractTemplates.ts:240-682 | a service type has questions exactly when it is development or design |
| ContractTemplates.DevelopmentIdsUnique | proposta/src/config/contractTemplates.ts:245-432 | the development questions have distinct ids |
| ContractTemplates.DevelopmentConditions | proposta/src/config/contractTemplates.ts:317-420 | every development follow-up depends on an earlier question that it fits: a checkbox for a flag, a radio offering the value for a text |
| ContractTemplates.DesignIdsUnique | proposta/src/config/contractTemplates.ts:438-590 | the design questions have distinct ids |
| ContractTemplates.DesignConditions | proposta/src/config/contractTemplates.ts:558-578 | every design follow-up depends on an earlier question that it fits |
| ContractTemplates.QuestionnairesWellFormed | proposta/src/config/contractTemplates.ts:240-682 | every questionnaire has distinct ids and well-formed conditions |
| DynamicQuestions.VisibilityFollowsParent | proposta/src/components/contract/wizard/DynamicQuestions.tsx:55-62 | a question without a condition is always shown; a conditional one is hidden while its parent is unanswered, shown once the parent gets the awaited value, hidden by any other value |
| DynamicQuestions.ShouldShow | proposta/src/components/contract/wizard/DynamicQuestions.tsx:55-62 | a question without a condition is shown; a conditional one whose parent has no answer is hidden |
| DynamicQuestions.VisibilityOnlyReadsParent | proposta/src/components/contract/wizard/DynamicQuestions.tsx:58-61 | whether a conditional question shows depends only on its parent's answer |
| DynamicQuestions.CurrentPicks | proposta/src/components/contract/wizard/DynamicQuestions.tsx:139 | the ticked options are the recorded list, or empty when none is recorded |
| DynamicQuestions.TickOption | proposta/src/components/contract/wizard/DynamicQuestions.tsx:147-152 | ticking appends the option and keeps the earlier ones in order; unticking removes every copy of it and keeps the other options |
| DynamicQuestions.TickThenUntick | proposta/src/components/contract/wizard/DynamicQuestions.tsx:147-152 | ticking then unticking an option leaves what unticking alone leaves |
| DynamicQuestions.UntickIdempotent | proposta/src/components/contract/wizard/DynamicQuestions.tsx:151 | unticking twice is unticking once |
| DynamicQuestions.AnswerFor | proposta/src/components/contract/wizard/DynamicQuestions.tsx:65-188 | each input kind records its own kind of answer: text, date and choice inputs a text, the number input a number, a plain checkbox a flag, a multi-option checkbox the ticked list |
| DynamicQuestions.FollowUpReachable | proposta/src/components/contract/wizard/DynamicQuestions.tsx:55-188 | in a well-formed questionnaire every follow-up question can be made visible by answering an earlier question through that question's own input |
| DynamicQuestions.SectionsInOrder | proposta/src/components/contract/wizard/DynamicQuestions.tsx:32-38 | no section key appears twice |
| DynamicQuestions.SectionsInOrderMembers | proposta/src/components/contract/wizard/DynamicQuestions.tsx:32-38 | the section keys are exactly the sections the questions are in |
| DynamicQuestions.GroupsPartition | proposta/src/components/contract/wizard/DynamicQuestions.tsx:32-38 | the groups together hold every question exactly once |
| DynamicQuestions.GroupsAfterSnoc | proposta/src/components/contract/wizard/DynamicQuestions.tsx:33-36 | one step of the reduce creates the section's list when missing and appends the question to it |
| DynamicQuestions.GroupsAfterSpec | proposta/src/components/contract/wizard/DynamicQuestions.tsx:32-38 | after the reduce a section has a group iff one of the questions is in it, and the group is that section's questions in list order |
| DynamicQuestions.GroupBySection | proposta/src/components/contract/wizard/DynamicQuestions.tsx:32-38 | the loop yields the sections in first-appearance order, each with its questions in list order |
| DynamicQuestions.SectionTitle | proposta/src/components/contract/wizard/DynamicQuestions.tsx:41-52 | a known section gets its fixed Portuguese title; any other key gets its first character upper-cased and the rest unchanged |
| DynamicQuestions.SectionTitlesDistinct | proposta/src/components/contract/wizard/DynamicQuestions.tsx:42-49 | the seven known sections have seven different titles |
| DynamicQuestions.Panel.constructor | proposta/src/components/contract/wizard/DynamicQuestions.tsx:25 | the accordion starts with the scope section open |
| DynamicQuestions.Panel.ToggleSection | proposta/src/components/contract/wizard/DynamicQuestions.tsx:190-196 | toggling closes an open section or opens a closed one at the end; every other section keeps its state |
| TimelineStep.HandleChange | proposta/src/components/contract/wizard/TimelineStep.tsx:25-30 | the record handed on differs from the current one in the changed field only |
| TimelineStep.CurrentMilestones | proposta/src/components/contract/wizard/TimelineStep.tsx:33 | an absent milestone list reads as the empty list |
| TimelineStep.AddMilestone | proposta/src/components/contract/wizard/TimelineStep.tsx:32-38 | the dates are kept and the list grows by one empty milestone at the end |
| TimelineStep.WithoutIndex | proposta/src/components/contract/wizard/TimelineStep.tsx:43 | an index in range drops exactly that element and keeps the others in order; any other index keeps the list |
| TimelineStep.RemoveMilestone | proposta/src/components/contract/wizard/TimelineStep.tsx:40-45 | the dates are kept and the milestone at the index is dropped from the list |
| TimelineStep.WithField | proposta/src/components/contract/wizard/TimelineStep.tsx:51 | an edit sets the chosen field and keeps the other |
| TimelineStep.UpdateAt | proposta/src/components/contract/wizard/TimelineStep.tsx:49-54 | the list keeps its length; the element at the index gets the new field and every other element is unchanged |
| TimelineStep.UpdateMilestone | proposta/src/components/contract/wizard/TimelineStep.tsx:47-56 | the dates are kept and only the milestone at the index is edited |
| TimelineStep.AddThenRemove | proposta/src/components/contract/wizard/TimelineStep.tsx:32-45 | removing the milestone just added gives back the earlier list |
| TimelineStep.RemoveKeepsOthers | proposta/src/components/contract/wizard/TimelineStep.tsx:43 | removal by an index in range is the list before it joined to the list after it |
| TimelineStep.UpdateUndone | proposta/src/components/contract/wizard/TimelineStep.tsx:47-56 | writing back a field's old text undoes an edit |
| TimelineStep.OutOfRangeChangesNothing | proposta/src/components/contract/wizard/TimelineStep.tsx:40-56 | removing or editing at an index outside the list leaves the milestones as they were |
| ContractWizard.StepsListed | proposta/src/components/contract/ContractWizard.tsx:61-80 | the wizard walks eight steps, each once, and their ids tell them apart |
| ContractWizard.StepTitlesDistinct | proposta/src/components/contract/ContractWizard.tsx:167-188 | different steps get different titles, and no listed step falls back to "Contrato" |
| ContractWizard.StepTitle | proposta/src/components/contract/ContractWizard.tsx:167-188 | every listed step has a non-empty title other than the fallback "Contrato" |
| ContractWizard.InitialFormBlocks | proposta/src/components/contract/ContractWizard.tsx:246-265 | the blank form lets Next through on the clauses step only |
| ContractWizard.CanContinue | proposta/src/components/contract/ContractWizard.tsx:246-265 | the clauses step always lets Next through; any other step lets it through only for a form that is no longer the blank one |
| ContractWizard.Current | proposta/src/components/contract/ContractWizard.tsx:128-133 | reading a field back yields an update of that same field |
| ContractWizard.Apply | proposta/src/components/contract/ContractWizard.tsx:128-133 | after an update the named field reads as the new value and every other field, the answers included, reads as before |
| ContractWizard.ApplyUndone | proposta/src/components/contract/ContractWizard.tsx:128-133 | writing a field's old value back undoes an update |
| ContractWizard.UpdatesCommute | proposta/src/components/contract/ContractWizard.tsx:128-133 | updates of two different fields give the same form in either order |
| ContractWizard.StepAfterNext | proposta/src/components/contract/ContractWizard.tsx:145-159 | Next moves one step on below the last step and stays on the last step |
| ContractWizard.StepAfterBack | proposta/src/components/contract/ContractWizard.tsx:161-165 | Back moves one step back above the first step and stays on the first |
| ContractWizard.NextBackInverse | proposta/src/components/contract/ContractWizard.tsx:145-165 | Back undoes Next below the last step, and Next undoes Back above the first |
| ContractWizard.NextTimesReaches | proposta/src/components/contract/ContractWizard.tsx:145-159 | n presses of Next from a valid step reach that step plus n, capped at the last step |
| ContractWizard.Wizard.constructor | proposta/src/components/contract/ContractWizard.tsx:88-126 | the wizard starts on the first step with the blank form and nothing handed on |
| ContractWizard.Wizard.HandleNext | proposta/src/components/contract/ContractWizard.tsx:145-159 | the step advances below the last step; on the last step the unchanged form is handed to the completion callback once |
| ContractWizard.Wizard.HandleBack | proposta/src/components/contract/ContractWizard.tsx:161-165 | the step moves back unless on the first step; the form is unchanged |
| ContractWizard.Wizard.UpdateFormData | proposta/src/components/contract/ContractWizard.tsx:128-133 | the form gets the update and the step is unchanged |
| ContractWizard.Wizard.HandleQuestionResponseChange | proposta/src/components/contract/ContractWizard.tsx:135-143 | one answer is set and every other answer and field is kept |
| ContractWizard.Wizard.ChooseServiceType | proposta/src/components/contract/ContractWizard.tsx:196-201 | the form becomes `ChosenServiceType`'s: the type is always set; the custom name only when a non-empty one comes with it, otherwise the earlier name stays |
| ContractWizard.ChosenServiceType | proposta/src/components/contract/ContractWizard.tsx:196-201 | the type is set; the custom name is replaced by a non-empty one and otherwise kept; nothing else changes |
| ContractWizard.ClearedCustomNameKept | proposta/src/components/contract/ContractWizard.tsx:196-201 | after any non-empty custom name, clearing the box or choosing a type without a name keeps that name in the form |
| ServiceScopeStep.ScopeSuggestion | proposta/src/components/contract/wizard/ServiceScopeStep.tsx:28-31 | the suggestion is empty exactly when no service type is chosen, and otherwise is the template's scope |
| ServiceScopeStep.QuestionnaireTypes | proposta/src/components/contract/wizard/ServiceScopeStep.tsx:34-38 | a questionnaire is on offer exactly for development and design |
| ServiceScopeStep.ScopeStep.constructor | proposta/src/components/contract/wizard/ServiceScopeStep.tsx:25 | the step starts with the text editor, not the questionnaire |
| ServiceScopeStep.ScopeStep.ToggleQuestions | proposta/src/components/contract/wizard/ServiceScopeStep.tsx:40-53 | the toggle switches between questionnaire and editor |
| ServiceScopeStep.ScopeStep.ViewsExclusive | proposta/src/components/contract/wizard/ServiceScopeStep.tsx:63-115 | the step shows exactly one of editor and questionnaire, the questionnaire only for development or design and never with the suggestion; the suggestion button shows whenever a type is chosen and the toggle is off |
| ServiceScopeStep.UseSuggestion | proposta/src/components/contract/wizard/ServiceScopeStep.tsx:105-112 | the suggestion button hands on the template's scope, which is never empty |
| ContractPreview.FormatDate | proposta/src/components/contract/ContractPreview.tsx:12-16 | an empty date prints as nothing, any other as the browser's pt-BR rendering |
| ContractPreview.ContractTitle | proposta/src/components/contract/ContractPreview.tsx:18-26 | no service type gives the generic title; "other" with a custom name gives the generic title followed by the name in capitals; any other type gives its template's name in capitals |
| ContractPreview.TitleInCapitals | proposta/src/components/contract/ContractPreview.tsx:18-26 | whatever the form, the title is already in capitals |
| ContractPreview.DocumentKind | proposta/src/components/contract/ContractPreview.tsx:39-50 | a company is described by its CNPJ and a person by their CPF |
| ContractPreview.PersonHasNoRepresentative | proposta/src/components/contract/ContractPreview.tsx:42-54 | a person is never shown with a legal representative, even when the form still holds one |
| ContractPreview.ScopeText | proposta/src/components/contract/ContractPreview.tsx:66 | the object clause is the scope typed, or the default sentence when it is empty; it is never empty |
| ContractPreview.PaymentLabel | proposta/src/components/contract/ContractPreview.tsx:73-81 | each known means of payment has its fixed wording, instalments name their number, and an unknown means prints as given |
| ContractPreview.InstallmentsReadBack | proposta/src/components/contract/ContractPreview.tsx:78 | the number of instalments can be read back from the wording |
| ContractPreview.MilestonesAfterAdd | proposta/src/components/contract/ContractPreview.tsx:98-109 | no milestone list shows before the first milestone is added, and one shows after |
| ContractPreview.Items | proposta/src/components/contract/ContractPreview.tsx:115-126 | each template item is rendered in order with a closing semicolon |
| ContractPreview.Obligations | proposta/src/components/contract/ContractPreview.tsx:113-129 | an obligation list is the template's items, when a type is chosen, followed by the two fixed lines |
| ContractPreview.ObligationLines | proposta/src/components/contract/ContractPreview.tsx:113-129 | every obligation line ends with a semicolon, and a chosen service type gives five lines |
| ContractPreview.OptionalClauses | proposta/src/components/contract/ContractPreview.tsx:131-181 | an optional clause appears exactly when its flag is ticked, each once, in a fixed order |
| ContractPreview.ClausesFollowFlags | proposta/src/components/contract/ContractPreview.tsx:131-181 | the blank form shows no optional clause, and ticking insurance adds exactly that clause at the end |
| Register.Validate | proposta/src/pages/Register.tsx:29-42 | the first failing check, in order: a blank field, then different passwords, then a password under six characters; none when the account may be registered |
| Register.ErrorText | proposta/src/pages/Register.tsx:60-65 | a duplicate-address error gets its own message; any other error shows its own message, or a generic one when that is empty; the text is never empty |
| Register.DuplicateWordedOnce | proposta/src/pages/Register.tsx:61-62 | a duplicate-address error reads the same however the rest of the service's message is worded |
| Register.RegisterForm.constructor | proposta/src/pages/Register.tsx:14-20 | the form starts blank, with no error, no success and nothing registered |
| Register.RegisterForm.HandleSubmit | proposta/src/pages/Register.tsx:25-69 | a failed check shows its message and registers nothing; otherwise register is called once with the fields, success follows a clean return, a thrown error gets its message, and submitting ends either way |
| EnvironmentUtils.BaseUrl | proposta/src/utils/environmentUtils.ts:7-18 | any host other than localhost and 127.0.0.1 gets the production address; a local one gets its own protocol and host |
| EnvironmentUtils.IsProduction | proposta/src/utils/environmentUtils.ts:7-10 | localhost and 127.0.0.1 are not production, and any longer host name is |
| EnvironmentUtils.AuthRedirectUrl | proposta/src/utils/environmentUtils.ts:21-23 | the redirect is the base address followed by the dashboard path |
| EnvironmentUtils.RedirectByEnvironment | proposta/src/utils/environmentUtils.ts:7-23 | in production the redirect is one fixed address whatever the host; locally it stays on the host the page came from |
| Head.FullTitle | proposta/src/components/Head.tsx:24 | a non-empty title gets the site suffix; a missing or empty one gives the default title |
| Head.Absolute | proposta/src/components/Head.tsx:26 | an address starting with "http" is kept; any other gets the production address in front |
| Head.AbsoluteStartsWithHttp | proposta/src/components/Head.tsx:26 | every address made absolute starts with "http" |
| Head.AbsoluteIdempotent | proposta/src/components/Head.tsx:26-27 | making an address absolute twice is making it absolute once |
| Head.Resolve | proposta/src/components/Head.tsx:17-27 | defaults fill only props left out; the image is made absolute; a canonical address is published, made absolute, exactly when a non-empty one is given |
| Head.AddressesAbsolute | proposta/src/components/Head.tsx:26-27 | every address the head publishes is absolute, and making it absolute again changes nothing |
| Text.Trim | proposta/src/components/signature/RequestSignatureModal.tsx:40 | `trim` never lengthens a text, and what it keeps neither starts nor ends with white space |
| Text.TrimSpec | proposta/src/components/signature/RequestSignatureModal.tsx:40 | what `trim` keeps is a contiguous piece of the input, and the prefix and suffix it drops are only white space |
| Text.Lower | proposta/src/pages/ProposalsList.tsx:21-22 | `toLowerCase` keeps the length and lower-cases each character |
| Text.Upper | proposta/src/components/contract/ContractPreview.tsx:22 | `toUpperCase` keeps the length and upper-cases each character |
| Text.Contains | proposta/src/pages/ProposalsList.tsx:21-22 | `includes` holds only for a needle no longer than the text, and a text includes itself |
| Text.Split | proposta/src/pages/ViewProposal.tsx:255 | `split` on one character gives at least one piece, and no piece holds the separator |

## Left out

- Supabase itself is not modelled: the network, row-level security, authentication sessions and the client library. A query is a filter over a table, and a failure is a flag given to the operation.
- The browser context comes in as parameters: the clock, ids and tokens from `uuid`/`crypto`, `generateId`, the client IP from the ipify service, and `window.location`.
- Dates are whole milliseconds. Locale formatting (`toLocaleDateString`, `toLocaleString` as currency, `toFixed`) comes in as ready-made text.
- Toasts, `console` output, the clipboard, `window.print`, navigation and the DOM meta-tag writes of `Head` have no state in the model. Only the values they would show or write are modelled.
- A timer (`setTimeout`) is an explicit method call, for example `ViewSignatureRequests.Dialog.CopiedTimerFires` and `ViewProposal.ViewPage.CopiedExpires`. React's batching and re-render order, and two handlers racing each other, are not modelled.
- `Text.Upper` and `Text.Lower` map ASCII and Latin-1 letters only. JavaScript's full Unicode case mapping is not modelled.
- String lengths count characters rather than UTF-16 code units.
- Money totals and item values are whole numbers (cents), so `parseFloat` rounding is not modelled. The wizard's payment amount is a `real`. The dashboard average is a real division.
- `RecentProposals.Recent`, `ProposalContext.FetchProposals`: the order of proposals with the same creation time is not stated. JavaScript's sort is stable, and the database order of ties is unspecified.
- The labels, hints, placeholders and options' display texts of the questionnaires are not modelled. Neither are the default clause texts of `serviceTypes` or the body texts of the preview's clauses. The question ids, kinds, sections, options and conditions are modelled.
- The remaining wizard steps (`ServiceTypeStep`, `ContractorInfoStep`, `ContractedInfoStep`, `PaymentInfoStep`, `AdditionalClausesStep`, `JurisdictionStep`) are form inputs without logic of their own. They appear only as the field updates they send (`ContractWizard.FieldUpdate`).
- The sender-profile lookups of the e-mail function and the signing page only decorate text, so they are not modelled.
- `SendSignatureEmail.Handle`: `resend` is an optional boolean, so JavaScript truthiness of other values is not modelled. No mail is sent: the handler records the event it would log.
- The `SigningPad` canvas is reduced to the image it hands back (`SignaturePage.Page.DrawSignature`). Mouse and touch drawing is not modelled.
- Audit-event inserts and the reconciling status update after an answer are taken to succeed, because the source does not check their errors.
- SignaturePage.Page.LoadSignatory: a returning signatory's `action` is the corrected `ActionForStatus` (`sign`/`reject`), not the stored status text that SignaturePage.tsx:63 sets. The as-written mapping and the wrong title it shows are kept as `SignaturePage.ActionAsWritten` and `SignaturePage.AsWrittenShowsSignedAsRejected`; see the first finding.
- SignaturePage.Page.Load: the same corrected action, through `LoadSignatory`.
- ProposalContext.FetchProposals: after a failed refetch React Query keeps the data it cached before; the model gives the first fetch's fallback, the empty list.

## Findings

| source | as written | input that shows it | evidently intended | confidence | as-written member | corrected member |
|---|---|---|---|---|---|---|
| proposta/src/pages/SignaturePage.tsx:61-64 | a signatory who already answered gets `action` set to the stored status, `'signed'` or `'rejected'`. The completed view checks for `'sign'`, so it shows "Documento Rejeitado" | open the link of a signatory whose status is `signed` | `action` is `'sign'` for a signed answer and `'reject'` for a rejected one, so the title matches the answer | not executed | SignaturePage.AsWrittenShowsSignedAsRejected | SignaturePage.CorrectedTitleMatchesAnswer |
| proposta/src/contexts/SubscriptionContext.tsx:33-94 | `isLoading` starts true and is cleared only when a user is signed in. `ProtectedRoute` shows the spinner while loading, before it checks the session | a visitor with no session opens `/dashboard` | loading ends without a user too, and the visitor is sent to `/login` | not executed | SubscriptionContext.VisitorWithoutSessionSeesSpinner | SubscriptionContext.VisitorWithoutSessionRedirected |

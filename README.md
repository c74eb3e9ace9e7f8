# Wallet withdrawals, follows and project permissions — a Dafny model

This project models the money-handling core of a Django back end.

**Wallet tables.** Each user has one `UserWallet` with two decimal balances, `withdrawable_balance` and `locked_balance`. Withdrawal requests are permanent `WithdrawalRequest` records, and each one moves through a closed set of statuses.

**Where the state changes:**
- the two admin bulk actions, *approve selected* and *reject selected*. Each handles every request in its own atomic transaction;
- the simulated payout service, which bulk approve calls;
- the admin API endpoint: approve or reject one request by id.

**Read-only views:**
- the balance view (get-or-create);
- the history query;
- the admin form's read-only field list.

**Secondary cores.** Two pure pieces are modelled beside the wallet:
- the follow relation between users;
- the three object-level permission checks of the collaboration app.

How the model is built:

- **Money.** Amounts are integer paise (hundredths). A database row is a Dafny object: `UserWallet` and `WithdrawalRequest` are classes, and the columns the core never writes are `const`. The two tables are the maps of a `Database` object.
- **Snapshots.** `Database.Snapshot()` reads the tables as a pure `Ledger` value. Every state-changing method is specified by a pure step function on that value:
  - `ApproveStep` and `RejectStep` for one bulk-action transaction;
  - `ApproveAll` and `RejectAll` for the loops;
  - `PostStep` for the endpoint.

  Each method's `ensures` says the new snapshot and the result are exactly that function of the old snapshot. Lemmas then state what the step functions mean:
  - the status guard;
  - the exact balance effect of each branch;
  - conservation of the total on reject or failure;
  - the decrease by the amount on completion;
  - that nothing else changes.
- **Environment.** I/O, the clock and random ids are parameters:
  - `now`: one instant per call;
  - `uuid`: the text of `uuid4()`;
  - `saveFailure` / `saveFailures`: the error text when the payout's `save` raises.

Files, one per source file of the core:

| file | models |
|---|---|
| `options.dfy` | an `Option` type |
| `wallet_models.dfy` | `auth_backend/wallet/models.py`: columns, enums, money bounds, the two row classes, the tables |
| `wallet_services.dfy` | `auth_backend/wallet/services.py`: the simulated payout |
| `wallet_admin.dfy` | `auth_backend/wallet/admin.py`: read-only fields and the two bulk actions |
| `wallet_views.dfy` | `auth_backend/wallet/views.py`: balance, history, the approve/reject endpoint |
| `followers.dfy` | `auth_backend/custom_user/models.py`: follow / unfollow and the queries |
| `vision_permissions.dfy` | `auth_backend/visions/permissions.py`: the access predicates |

Behaviour of the code worth knowing, as the model captures it:
- **Negative balances.** The code subtracts from `locked_balance` with no guard (`auth_backend/wallet/admin.py:177`, `auth_backend/wallet/views.py:154`), so balances can go negative and the model keeps no non-negativity invariant. Non-negativity is proved under the condition that the locked balance covers the amounts:
  - for the endpoint's reject (`WalletViews.PostRejectKeepsBalancesNonNegative`);
  - for both bulk actions (`WalletAdmin.BulkApproveKeepsBalancesNonNegative`, `WalletAdmin.BulkRejectKeepsBalancesNonNegative`).
- **Approving through the endpoint.** It never reaches COMPLETED and never debits the wallet: it sets APPROVED and leaves the funds locked.
- **Payout failures.** The only failure the simulated payout can raise is that of its own `save`, which happens inside the admin action's atomic block. Django then marks the block for rollback, so the handler's attempt to record FAILED raises in turn, and the whole transaction rolls back. The request stays PENDING with its funds locked, and only the failure counter moves (see "## Findings").
- **Deciding twice.** A second decision on an already decided request is answered with the "already in status" error (`WalletViews.PostTwiceRefused`) or counted as already processed (`WalletAdmin.ApproveTwice`). A request whose approval rolled back is still PENDING and is approved afresh.

## Model

| member | source | states |
|---|---|---|
| `WalletModels.MoneyColumnRange` | auth_backend/wallet/models.py:68-72 | a 12-digit, 2-place decimal holds exactly the paise strictly between -10^12 and 10^12; a valid amount (at least 1.00) is 100 to 999 999 999 999 paise |
| `WalletModels.ParseStatus` | auth_backend/wallet/models.py:49-56 | reading a `status` value back yields the status whose stored value it is, and yields one for every stored value (round trip with `StatusValue`) |
| `WalletModels.StatusChoicesClosed` | auth_backend/wallet/models.py:49-56 | there are exactly seven statuses, CANCELLED included, with pairwise distinct stored values |
| `WalletModels.ParseMethod` | auth_backend/wallet/models.py:58-60 | exactly "upi" and "bank" are payout methods, and they round-trip with `MethodValue` |
| `WalletModels.UserWallet.constructor` | auth_backend/wallet/models.py:19-31 | a new wallet belongs to its user and has both balances 0 |
| `WalletModels.WithdrawalRequest.constructor` | auth_backend/wallet/models.py:73-78 | a new request is PENDING with every nullable column (processed at/by, reason, payout id and status) empty |
| `WalletServices.InitiateRazorpayPayout` | auth_backend/wallet/services.py:15-59 | whatever the prior status, the request ends COMPLETED with `processed_at` = now and no reason; only those three fields may change; the result is True when the save succeeds and the save's error re-raised otherwise, never False |
| `WalletAdmin.RemoveFirst` | auth_backend/wallet/admin.py:130-132 | `list.remove` drops one occurrence: the multiset loses one copy, the length drops by one when present, and every other field keeps its membership |
| `WalletAdmin.RemoveFirstDropsFirst` | auth_backend/wallet/admin.py:130-132 | it is the first occurrence that goes: the result is the list cut around the first index holding the field |
| `WalletAdmin.GetReadonlyFields` | auth_backend/wallet/admin.py:117-133 | the reason field is appended when missing in PENDING, APPROVED, PROCESSING and COMPLETED, and removed otherwise (also on the add form); other fields are kept; given at most one copy in the base, the reason is read-only iff the status is one of those four |
| `WalletAdmin.DetailFieldsOmitReason` | auth_backend/wallet/admin.py:48-54 | the class's own read-only list does not name "rejection_reason" |
| `WalletAdmin.DetailReadonlyFieldsFor` | auth_backend/wallet/admin.py:117-133 | on the change form the reason is read-only exactly when the status is PENDING, APPROVED, PROCESSING or COMPLETED; every other field is as declared |
| `WalletAdmin.PendingAmong` | auth_backend/wallet/admin.py:145 | the filtered selection holds exactly the selected requests that exist and are PENDING, with no repeats when the selection has none |
| `WalletAdmin.OwedSplits` | auth_backend/wallet/admin.py:172-214 | the amounts a user owes over the loop split exactly into the ones rolled back (payout save raised) and the ones paid out |
| `WalletAdmin.OwedBounds` | auth_backend/wallet/admin.py:172-214 | with non-negative amounts, the rolled-back part and the paid-out part each lie between 0 and the amount owed |
| `WalletAdmin.ApproveStepEffect` | auth_backend/wallet/admin.py:152-214 | one approve transaction. A missing request or wallet counts as failed; a non-PENDING request counts as already processed. A PENDING request whose payout save raises is rolled back and counts as failed. None of the three changes anything. Otherwise the request is COMPLETED by the admin at `now` with no reason, `locked` drops by the amount, `withdrawable` is unchanged and the total drops by exactly the amount. No other row or wallet changes |
| `WalletAdmin.ApproveTwice` | auth_backend/wallet/admin.py:160-162 | a second approve transaction on a request the first one completed is counted as already processed and changes nothing; after a rollback the request is treated again exactly as the first time |
| `WalletAdmin.PayoutSaveFailureRollsBack` | auth_backend/wallet/services.py:54-59 | as written, a PENDING request whose payout save raises ends the transaction with no change at all, where the handler meant to commit something else |
| `WalletAdmin.IntendedPayoutFailureRefunds` | auth_backend/wallet/admin.py:198-207 | the handler's intended outcome: FAILED with the "Unexpected Admin Error: " reason, the amount moved from locked to withdrawable, the total conserved, nothing else changed; with no payout failure it agrees with the code |
| `WalletAdmin.ApproveAllCounts` | auth_backend/wallet/admin.py:151-214 | every request of the loop increments exactly one of approved, failed, already processed |
| `WalletAdmin.ApproveAllFrame` | auth_backend/wallet/admin.py:151-214 | the loop touches no request outside the filtered list, adds or removes no row, and never changes a request's owner or amount |
| `WalletAdmin.ApproveAllReport` | auth_backend/wallet/admin.py:151-214 | for distinct requests all PENDING at the filter, nothing counts as already processed; the approved count is the number with both rows whose payout completed, and the rest count as failed |
| `WalletAdmin.ApproveAllRows` | auth_backend/wallet/admin.py:164-214 | each such request with both rows whose payout save succeeds ends COMPLETED as `ApprovedRow` says; the ones with a missing row or a rolled-back payout are untouched |
| `WalletAdmin.ApproveAllWallets` | auth_backend/wallet/admin.py:172-214 | each wallet's locked balance drops by the sum of its owner's amounts whose payout completed; rolled-back amounts stay locked; withdrawable never changes |
| `WalletAdmin.BulkApproveOutcome` | auth_backend/wallet/admin.py:138-214 | on a selection without repeats: the counters cover the pending requests once with none already processed. Only selected PENDING requests whose payout save succeeds change, and each ends COMPLETED by the admin; rolled-back ones stay PENDING. Each wallet's locked balance and total drop by exactly its completed amounts, and withdrawable is unchanged |
| `WalletAdmin.BulkApproveKeepsBalancesNonNegative` | auth_backend/wallet/admin.py:172-177 | with non-negative amounts and withdrawable balances, and each locked balance covering its owner's pending amounts, bulk approve leaves every balance non-negative |
| `WalletAdmin.SettlePayout` | auth_backend/wallet/admin.py:172-207 | after the payout. True: locked down by the amount, status kept. False: the amount back to withdrawable, status left as the service left it. Raised: FAILED with the "Admin Approval Error: " or "Unexpected Admin Error: " reason and the amount back to withdrawable. The total drops by the amount only on True. When the atomic block is already marked for rollback, the branch's first `save` raises and the result is a rollback |
| `WalletAdmin.ApproveLockedRows` | auth_backend/wallet/admin.py:164-207 | the APPROVED marks, the payout and its settlement: on success the request and the wallet end exactly as `ApprovedRow` / `ApprovedWallet` say; when the payout save raised the result is a rollback, with the request FAILED only in memory |
| `WalletAdmin.RollBack` | auth_backend/wallet/admin.py:153 | leaving the atomic block after an exception restores both locked rows to what they were |
| `WalletAdmin.ApproveRequest` | auth_backend/wallet/admin.py:152-214 | the tables after one transaction (rolled back when a save raised), and the counter it bumps, are exactly `ApproveStep` of the tables before |
| `WalletAdmin.ApproveSelectedRequests` | auth_backend/wallet/admin.py:138-214 | "none selected" iff no selected request is PENDING; the tables and the three counters are exactly `ApproveAll` over the requests PENDING at the filter |
| `WalletAdmin.RejectStepEffect` | auth_backend/wallet/admin.py:240-262 | one reject transaction: a missing row is skipped silently and a non-PENDING request counts as already processed, neither with a change. Otherwise the request becomes REJECTED by the admin with the fixed reason, and the amount moves from locked to withdrawable with the total unchanged. No other row or wallet changes |
| `WalletAdmin.RejectTwiceSkipped` | auth_backend/wallet/admin.py:246-248 | a second reject transaction on a rejected request is counted as already processed and changes nothing |
| `WalletAdmin.RejectAllFrame` | auth_backend/wallet/admin.py:239-267 | the reject loop touches no request outside the filtered list and adds or removes no row |
| `WalletAdmin.RejectAllSettles` | auth_backend/wallet/admin.py:239-267 | for distinct requests PENDING at the filter: nothing counts as already processed; the rejected count is the number with both rows, each of which ends REJECTED; each wallet moves exactly its owner's sum from locked back to withdrawable |
| `WalletAdmin.BulkRejectOutcome` | auth_backend/wallet/admin.py:226-267 | on a selection without repeats only selected PENDING requests change, each with both rows ends REJECTED, and every wallet's total is unchanged |
| `WalletAdmin.BulkActionsKeepPayoutIds` | auth_backend/wallet/models.py:119-125 | neither bulk action breaks the uniqueness of set payout ids |
| `WalletAdmin.BulkRejectKeepsBalancesNonNegative` | auth_backend/wallet/admin.py:257-260 | with non-negative amounts and withdrawable balances, and each locked balance covering its owner's pending amounts, bulk reject leaves every balance non-negative |
| `WalletAdmin.RejectLockedRows` | auth_backend/wallet/admin.py:250-260 | the locked request becomes `RejectedRow` and the wallet `Unlock` of its amount |
| `WalletAdmin.RejectRequest` | auth_backend/wallet/admin.py:240-267 | the tables after one reject transaction, and its contribution to the report, are exactly `RejectStep` of the tables before |
| `WalletAdmin.RejectSelectedRequests` | auth_backend/wallet/admin.py:226-267 | "none selected" iff no selected request is PENDING; the tables and the two counters are exactly `RejectAll` over the requests PENDING at the filter |
| `WalletViews.GetOrCreateWallet` | auth_backend/wallet/views.py:26 | returns the caller's existing wallet untouched, or adds a fresh wallet with zero balances under the caller; no request and no other wallet changes |
| `WalletViews.GetWalletBalance` | auth_backend/wallet/views.py:25-28 | the caller now has a wallet; a caller who had none gains one and every other wallet is unchanged; the response shows its two balances and a total equal to their sum (auth_backend/wallet/models.py:41-43); a new caller sees 0, 0, 0 |
| `WalletViews.GetOrCreateTwice` | auth_backend/wallet/views.py:26 | a second get-or-create returns the same wallet and creates nothing |
| `WalletViews.InsertNewest` | auth_backend/wallet/views.py:44 | inserting one request into a newest-first list keeps it newest-first and adds exactly that request |
| `WalletViews.NewestFirst` | auth_backend/wallet/views.py:44 | a set of requests arranged newest `requested_at` first, with the same elements |
| `WalletViews.History` | auth_backend/wallet/views.py:39-44 | the history lists exactly the caller's requests, each once, newest first |
| `WalletViews.Lower` | auth_backend/wallet/views.py:105 | lowering keeps the length and lowers each ASCII capital |
| `WalletViews.ParseAction` | auth_backend/wallet/views.py:105-109 | the action is Approve iff it lowers to "approve", Reject iff it lowers to "reject" |
| `WalletViews.ActionCaseInsensitive` | auth_backend/wallet/views.py:105 | "APPROVE" is accepted as approve |
| `WalletViews.RejectCaseInsensitive` | auth_backend/wallet/views.py:105 | "Reject" is accepted as reject |
| `WalletViews.UnknownActionInvalid` | auth_backend/wallet/views.py:105-109 | a missing action and "cancel" are both invalid |
| `WalletViews.PostGuards` | auth_backend/wallet/views.py:104-168 | every answer other than the two successes leaves both tables unchanged. An invalid action, and a request that is not PENDING (reported with its status), are recognised exactly. A success needs the right action, a PENDING request and its owner's wallet. When all of those hold for reject, the answer is "reason required" iff the reason is empty or missing |
| `WalletViews.PostApproveEffect` | auth_backend/wallet/views.py:140-146 | approve through the endpoint: APPROVED by the admin at `now` with a payout id starting "sim_pout_"; owner, amount and reason kept; no wallet changes, so the funds stay locked; no other request changes |
| `WalletViews.PostRejectEffect` | auth_backend/wallet/views.py:153-163 | reject through the endpoint: REJECTED by the admin with the given reason, payout id kept; the amount moves from locked to withdrawable and the total is conserved; no other row or wallet changes |
| `WalletViews.PostRejectKeepsBalancesNonNegative` | auth_backend/wallet/views.py:153-156 | when the locked balance covered the amount (and it and the withdrawable balance were non-negative), both balances stay non-negative |
| `WalletViews.PostTwiceRefused` | auth_backend/wallet/views.py:117-122 | after a successful decision, a second valid decision on the same request answers "already in APPROVED/REJECTED status" and changes nothing |
| `WalletViews.PostKeepsPayoutIdsUnique` | auth_backend/wallet/views.py:143 | the endpoint never creates a duplicate payout id: a clash is refused, and reject keeps the id |
| `WalletViews.PostStatusCodes` | auth_backend/wallet/views.py:104-168 | 200 exactly when the tables changed; 400 exactly for an unknown action, a request already decided, or a reject without a reason on a PENDING request with a wallet; 500 for every other failure as written; with the intended handler 404 exactly for a valid action on an unknown id |
| `WalletViews.UnknownIdAnswers500` | auth_backend/wallet/views.py:111-114 | an unknown id with a valid action reaches the lookup and answers 500 where 404 was intended, and no other answer differs |
| `WalletViews.Post` | auth_backend/wallet/views.py:104-168 | the tables after the endpoint, and its answer, are exactly `PostStep` of the tables before |
| `WalletViews.ApprovePending` | auth_backend/wallet/views.py:140-146 | the approve branch: a payout id already in use is refused with no change; otherwise the tables become `ApiApproveStep` of the old ones |
| `WalletViews.RejectPending` | auth_backend/wallet/views.py:150-163 | the reject branch: an empty or missing reason is refused with no change; otherwise the tables become `ApiRejectStep` of the old ones |
| `WalletViews.ApproveThroughApi` | auth_backend/wallet/views.py:140-143 | the four assignments: APPROVED, processed by and at, payout id; nothing else in the row |
| `WalletViews.RejectThroughApi` | auth_backend/wallet/views.py:154-163 | the amount moves from locked to withdrawable; REJECTED with the reason, by the admin, at `now` |
| `Followers.SidesAgree` | auth_backend/custom_user/models.py:18 | `b` is in `a.following` iff `a` is in `b.followers` iff the pair (a, b) is stored |
| `Followers.Followed` | auth_backend/custom_user/models.py:20-23 | `follow` adds at most the pair (a, b), and adds it exactly when `b` is not `a` |
| `Followers.Unfollowed` | auth_backend/custom_user/models.py:25-28 | `unfollow` removes at most the pair (a, b), and afterwards it is absent |
| `Followers.FollowSelfIsNoop` | auth_backend/custom_user/models.py:20-23 | following oneself changes nothing |
| `Followers.FollowThenQueries` | auth_backend/custom_user/models.py:30-36 | after `a.follow(b)` with b ≠ a, both `a.is_following(b)` and `b.is_followed_by(a)` hold |
| `Followers.FollowIdempotent` | auth_backend/custom_user/models.py:18-23 | following twice is following once |
| `Followers.UnfollowThenQueries` | auth_backend/custom_user/models.py:25-36 | after `a.unfollow(b)` neither query holds; unfollowing someone not followed changes nothing |
| `Followers.FollowUnfollowRoundTrip` | auth_backend/custom_user/models.py:20-28 | unfollow undoes a fresh follow |
| `Followers.AddEdgeSides` | auth_backend/custom_user/models.py:23 | adding the pair adds `b` to `a.following` and `a` to `b.followers`, and changes no other user's sets |
| `Followers.RemoveEdgeSides` | auth_backend/custom_user/models.py:28 | removing the pair removes `b` from `a.following` and `a` from `b.followers`, and changes no other user's sets |
| `Followers.FollowCounts` | auth_backend/custom_user/models.py:38-44 | a follow that adds a pair raises `a`'s following count and `b`'s follower count by one; every other count is unchanged; a repeated follow or a self-follow changes no count |
| `Followers.UnfollowCounts` | auth_backend/custom_user/models.py:38-44 | an unfollow of someone followed lowers both counts by one; every other count is unchanged |
| `Followers.FollowRelation.constructor` | auth_backend/custom_user/models.py:18 | the relation starts empty |
| `Followers.FollowRelation.Follow` | auth_backend/custom_user/models.py:20-23 | the shared relation becomes `Followed` of the old one |
| `Followers.FollowRelation.Unfollow` | auth_backend/custom_user/models.py:25-28 | the shared relation becomes `Unfollowed` of the old one |
| `VisionPermissions.HasObjectPermission` | auth_backend/visions/permissions.py:13-32 | access is granted iff the governing project exists and the user is its creator or one of its collaborators |
| `VisionPermissions.CreatorAlwaysGranted` | auth_backend/visions/permissions.py:26-28 | the creator is granted, on the project and on anything linked to it |
| `VisionPermissions.CollaboratorGranted` | auth_backend/visions/permissions.py:29-31 | every collaborator is granted |
| `VisionPermissions.OutsiderDenied` | auth_backend/visions/permissions.py:32 | anyone neither creator nor collaborator is denied |
| `VisionPermissions.RelatedObjectFollowsProject` | auth_backend/visions/permissions.py:15-22 | a linked object is judged exactly as its project; an object without a project is denied to everyone |
| `VisionPermissions.ProposalChecks` | auth_backend/visions/permissions.py:34-43 | the proposer passes the proposer check; at most one user passes each proposal check; the owner of the proposal's project also passes the project check |
| `VisionPermissions.ProposerIsNotProjectOwner` | auth_backend/visions/permissions.py:34-43 | the two proposal checks are independent: a collaborator who proposed passes the proposer check but not the project-owner check |

## Left out

- Withdrawal creation and fund locking are not part of this model. `WithdrawalCreateSerializer` and `WithdrawalHistorySerializer`, imported at auth_backend/wallet/views.py:11-15, are not defined in auth_backend/wallet/serializers.py, and auth_backend/wallet/views.py:75 uses an unimported `serializers`. That "the locked balance covers the open requests" is stated only as a precondition of the non-negativity lemmas, never kept as an invariant.
- As written, auth_backend/wallet/views.py cannot be imported, because of those two missing serializers. The root URLconf also never includes the wallet routes (auth_backend/auth_backend/urls.py:15-20). The three view models describe the handlers' code as if the module loaded and were routed.
- As written, auth_backend/visions/permissions.py cannot be imported either. Its line 3 imports `OpenSourceVisionRequest` and `CodeChangeProposal`, and auth_backend/visions/models.py (lines 6-41) defines neither; it defines only `AnimationRequest`, `Contribution`, `Engagement` and `Notification`. The permission model describes the checks as if the module loaded.
- Concurrency is not modelled. Each `transaction.atomic` block with `select_for_update` is one method call, and the calls run one after another. So the endpoint's status check before taking the lock (auth_backend/wallet/views.py:118-126) cannot race. Nor can the bulk actions' re-check under lock (auth_backend/wallet/admin.py:160-162); it is modelled, and "already processed" is provably 0 when the selection has no repeats.
- The clock and random ids are parameters. `timezone.now()` becomes one `now` per call, although auth_backend/wallet/admin.py:167 and auth_backend/wallet/services.py:41 read it separately. `uuid.uuid4()` becomes the `uuid` text.
- Database errors are not modelled, except the failure of the payout's own `save`, which is the `saveFailure` parameter. That failure is modelled with Django's rollback: it marks the atomic block for rollback, the handler's next `save` raises, the outer `except Exception` (auth_backend/wallet/admin.py:212-214) counts a failure, and both rows are restored. Not modelled:
  - other failing saves of the request or the wallet, in the approve action or in the reject action (auth_backend/wallet/admin.py:266-267), and in the endpoint;
  - an exception the payout service might raise from outside the database write. The code raises none, so `SettlePayout` is the only member that sees a raise without a rollback.
- The order of the admin's queryset is the order of the `selected` sequence; the effects do not depend on it.
- Requests with equal `requested_at` come in some order the database chooses. `WalletViews.History` fixes one such order and promises only that the list is newest first.
- `WalletViews.Lower` lowers ASCII letters only, where Python's `str.lower` covers all of Unicode. For the comparison with "approve" and "reject" the two agree: the only non-ASCII characters that lower into ASCII letters are the Kelvin sign (to "k") and the dotted capital I (to "i" plus a combining dot), and neither word contains a k or an i.
- Non-string JSON values for `action` (which raise in `.lower()`) are not modelled, and neither are the structure of the response bodies or their texts.
- Authentication and the permission classes of the views (`IsAuthenticated`, `IsAdminUser`) are not modelled. Neither is the parsing of `request_uuid`: a request id is an abstract number.
- The money columns' 12-digit bound is stated (`WalletModels.MoneyColumnRange`) but not enforced on updates: balances are unbounded integers, and an out-of-range save is not modelled.
- `last_updated` (auto_now) is not modelled, and the balance response omits it.
- `razorpay_contact_id`, `razorpay_fund_account_id`, `get_display_details` and the string conversions are not modelled, because no core operation reads them.
- Admin presentation is not modelled: list and search configuration, links, the coloured status, and the `message_user` and `messages.error` texts.
- Logging in auth_backend/wallet/services.py:30-37 is not modelled; the warning for a non-APPROVED request changes nothing.
- The models behind the permission checks are not part of this model. They are records with the fields the checks read: creator, collaborators, proposer and project. A linked object whose `project` foreign key is null (where `.creator` would raise) is not modelled.
- `WalletAdmin.BulkApproveOutcome`, `WalletAdmin.BulkRejectOutcome`, `WalletAdmin.BulkActionsKeepPayoutIds` and the two non-negativity lemmas require a selection without repeats, which a queryset always is.

## Findings

| source | as written | input that shows it | evidently intended | confidence | as-written member | corrected member |
|---|---|---|---|---|---|---|
| auth_backend/wallet/views.py:111-114 | the `except` clause names `uuid.UUID.DoesNotExist`, which does not exist. When `get_object_or_404` raises for an unknown id, evaluating the clause raises `AttributeError`, and the view answers 500 | a POST with action "approve" and a `request_uuid` that no request has | the handler's own 404 "Invalid or not found withdrawal request ID." | not executed | `WalletViews.UnknownIdAnswers500` (with `WalletViews.HttpStatus`) | `WalletViews.IntendedHttpStatus` (with `WalletViews.PostStatusCodes`) |
| auth_backend/wallet/admin.py:198-207 | when the payout's `save` raises inside the atomic block of line 153, Django marks the block for rollback. The handler's `req_locked.save()` at line 203 then raises `TransactionManagementError`, the outer handler at lines 212-214 counts a failure, and the block rolls back. The request stays PENDING with its funds locked, and the FAILED status and the refund are never committed | bulk approve of a PENDING request whose payout save raises a database error | the handler's FAILED status with the "Unexpected Admin Error: " reason and the amount back in withdrawable | not executed; medium, since auth_backend/wallet/services.py:57-58 says the re-raise is meant to roll the transaction back | `WalletAdmin.PayoutSaveFailureRollsBack` (with `WalletAdmin.ApproveStep`) | `WalletAdmin.IntendedApproveStep` (with `WalletAdmin.IntendedPayoutFailureRefunds`) |

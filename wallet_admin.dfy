/**
 * The wallet admin screen (auth_backend/wallet/admin.py): which detail fields are
 * read-only, and the two bulk actions over the selected withdrawal requests.
 *
 * Each selected request is handled in its own atomic transaction, modelled as
 * one call of ApproveRequest or RejectRequest; the bulk actions loop over the
 * requests that were PENDING when the selection was filtered.
 */
module WalletAdmin {
  import opened Options
  import opened WalletModels
  import opened WalletServices

  // ---------------------------------------------------------------------------
  // get_readonly_fields
  // ---------------------------------------------------------------------------

  const RejectionReasonField: string := "rejection_reason"

  /** The class's `readonly_fields`, which `super().get_readonly_fields` returns. */
  const DetailReadonlyFields: seq<string> := [
    "request_id", "user_link", "amount", "method", "requested_at",
    "status_display_colored",
    "razorpay_contact_id", "razorpay_fund_account_id",
    "processed_at", "processed_by_link",
    "razorpay_payout_id_link", "razorpay_payout_status"
  ]

  /** The statuses in which the rejection reason may not be edited. */
  predicate ReasonReadonly(s: Status) {
    s == Pending || s == Approved || s == Processing || s == Completed
  }

  /** Python's `list.remove(x)` when `x` is present: the first occurrence goes. */
  function RemoveFirst(s: seq<string>, x: string): (r: seq<string>)
    ensures x !in s ==> r == s
    ensures x in s ==> |r| == |s| - 1
    ensures multiset(r) == multiset(s) - multiset{x}
    ensures forall y :: y != x ==> (y in r <==> y in s)
  {
    if s == [] then []
    else if s[0] == x then
      assert s == [s[0]] + s[1..];
      s[1..]
    else
      assert s == [s[0]] + s[1..];
      [s[0]] + RemoveFirst(s[1..], x)
  }

  /** `RemoveFirst(s, x)` is `s` cut around index `i`, the first index holding `x`. */
  ghost predicate CutAtFirst(s: seq<string>, x: string, i: int)
  {
    0 <= i < |s| && s[i] == x && x !in s[..i] && RemoveFirst(s, x) == s[..i] + s[i + 1..]
  }

  /** It is the first occurrence of `x` that goes: the list is cut around it. */
  lemma {:induction false} RemoveFirstDropsFirst(s: seq<string>, x: string)
    requires x in s
    ensures exists i :: CutAtFirst(s, x, i)
  {
    if s[0] == x {
      assert RemoveFirst(s, x) == s[..0] + s[1..];
      assert CutAtFirst(s, x, 0);
    } else {
      var t := s[1..];
      assert x in t;
      RemoveFirstDropsFirst(t, x);
      var j :| CutAtFirst(t, x, j);
      assert RemoveFirst(s, x) == [s[0]] + RemoveFirst(t, x);
      ConsCut(s, x, j, RemoveFirst(t, x));
      assert CutAtFirst(s, x, j + 1);
    }
  }

  /** The first index of `x` in the tail, shifted by one, is its first index in the whole list. */
  lemma ConsCut(s: seq<string>, x: string, j: int, r: seq<string>)
    requires 0 <= j < |s| - 1 && s[0] != x
    requires s[1..][j] == x && x !in s[1..][..j] && r == s[1..][..j] + s[1..][j + 1..]
    ensures s[j + 1] == x && x !in s[..j + 1] && [s[0]] + r == s[..j + 1] + s[j + 2..]
  {
    var t := s[1..];
    assert s[..j + 1] == [s[0]] + t[..j];
    assert s[j + 2..] == t[j + 1..];
  }

  /**
   * `get_readonly_fields`: starting from `base`, append "rejection_reason" when
   * the request's status is PENDING, APPROVED, PROCESSING or COMPLETED, and
   * otherwise remove it if present. `obj` is the status of the request being
   * edited, or None on the add form.
   */
  method GetReadonlyFields(base: seq<string>, obj: Option<Status>) returns (readonly: seq<string>)
    ensures forall f :: f != RejectionReasonField ==> (f in readonly <==> f in base)
    ensures obj.Some? && ReasonReadonly(obj.value) ==>
      multiset(readonly) == multiset(base) + (if RejectionReasonField in base then multiset{} else multiset{RejectionReasonField})
    ensures !(obj.Some? && ReasonReadonly(obj.value)) ==>
      multiset(readonly) == multiset(base) - multiset{RejectionReasonField}
    ensures multiset(base)[RejectionReasonField] <= 1 ==>
      (RejectionReasonField in readonly <==> obj.Some? && ReasonReadonly(obj.value))
  {
    readonly := base;
    if obj.Some? && ReasonReadonly(obj.value) {
      if RejectionReasonField !in readonly {
        readonly := readonly + [RejectionReasonField];
      }
    } else if RejectionReasonField in readonly {
      readonly := RemoveFirst(readonly, RejectionReasonField);
    }
  }

  /**
   * The class's own `readonly_fields` never name the reason, so on the change
   * form it is read-only exactly in PENDING, APPROVED, PROCESSING and COMPLETED.
   */
  lemma DetailFieldsOmitReason()
    ensures RejectionReasonField !in DetailReadonlyFields
  {
    forall i | 0 <= i < |DetailReadonlyFields|
      ensures |DetailReadonlyFields[i]| != |RejectionReasonField|
    {
    }
  }

  /** On the change form of a request with status `s`, "rejection_reason" is read-only iff ReasonReadonly(s). */
  method DetailReadonlyFieldsFor(s: Option<Status>) returns (readonly: seq<string>)
    ensures RejectionReasonField in readonly <==> s.Some? && ReasonReadonly(s.value)
    ensures forall f :: f != RejectionReasonField ==> (f in readonly <==> f in DetailReadonlyFields)
  {
    DetailFieldsOmitReason();
    assert multiset(DetailReadonlyFields)[RejectionReasonField] == 0;
    readonly := GetReadonlyFields(DetailReadonlyFields, s);
  }

  // ---------------------------------------------------------------------------
  // The selection
  // ---------------------------------------------------------------------------

  /** `queryset.filter(status=PENDING)`, in the order of the selection. */
  function PendingAmong(rows: map<RequestId, RequestRow>, selected: seq<RequestId>): (p: seq<RequestId>)
    ensures forall id :: id in p <==> id in selected && id in rows && rows[id].status == Pending
    ensures Distinct(selected) ==> Distinct(p)
  {
    if selected == [] then []
    else
      var rest := PendingAmong(rows, selected[1..]);
      assert forall id :: id in selected <==> id == selected[0] || id in selected[1..];
      var id := selected[0];
      if id in rows && rows[id].status == Pending then [id] + rest else rest
  }

  /** Both rows the transaction locks exist: the request and its owner's wallet. */
  predicate RowsFound(L: Ledger, id: RequestId) {
    id in L.rows && L.rows[id].user in L.wallets
  }

  /** The error the payout save of request `id` raises, if any. */
  function SaveFailureOf(saveFailures: map<RequestId, string>, id: RequestId): Option<string> {
    if id in saveFailures then Some(saveFailures[id]) else None
  }

  // ---------------------------------------------------------------------------
  // Sums over the selection
  // ---------------------------------------------------------------------------

  /** The sum of the amounts of the requests among `ids` owned by `u`. */
  function Owed(rows: map<RequestId, RequestRow>, ids: seq<RequestId>, u: UserId): Paise {
    if ids == [] then 0
    else
      var id := ids[|ids| - 1];
      Owed(rows, ids[..|ids| - 1], u) + (if id in rows && rows[id].user == u then rows[id].amount else 0)
  }

  /** The part of `Owed` whose payout save raised (ids in `failing`); the rollback leaves it locked. */
  function Refunds(rows: map<RequestId, RequestRow>, ids: seq<RequestId>, u: UserId, failing: set<RequestId>): Paise {
    if ids == [] then 0
    else
      var id := ids[|ids| - 1];
      Refunds(rows, ids[..|ids| - 1], u, failing)
        + (if id in rows && rows[id].user == u && id in failing then rows[id].amount else 0)
  }

  /** The part of `Owed` whose payout completed: it leaves `locked` for good. */
  function Payouts(rows: map<RequestId, RequestRow>, ids: seq<RequestId>, u: UserId, failing: set<RequestId>): Paise {
    if ids == [] then 0
    else
      var id := ids[|ids| - 1];
      Payouts(rows, ids[..|ids| - 1], u, failing)
        + (if id in rows && rows[id].user == u && id !in failing then rows[id].amount else 0)
  }

  /** Each owed amount is either paid out or rolled back, nothing else. */
  lemma {:induction false} OwedSplits(rows: map<RequestId, RequestRow>, ids: seq<RequestId>, u: UserId, failing: set<RequestId>)
    ensures Owed(rows, ids, u) == Refunds(rows, ids, u, failing) + Payouts(rows, ids, u, failing)
  {
    if ids != [] {
      OwedSplits(rows, ids[..|ids| - 1], u, failing);
    }
  }

  /** With non-negative amounts, refunds and payouts are each between 0 and the owed sum. */
  lemma {:induction false} OwedBounds(rows: map<RequestId, RequestRow>, ids: seq<RequestId>, u: UserId, failing: set<RequestId>)
    requires forall id :: id in rows ==> rows[id].amount >= 0
    ensures 0 <= Refunds(rows, ids, u, failing) <= Owed(rows, ids, u)
    ensures 0 <= Payouts(rows, ids, u, failing) <= Owed(rows, ids, u)
  {
    if ids != [] {
      OwedBounds(rows, ids[..|ids| - 1], u, failing);
      OwedSplits(rows, ids, u, failing);
    }
  }

  /** How many of `ids` have both rows and are not in `failing`. */
  function SettledCount(L: Ledger, ids: seq<RequestId>, failing: set<RequestId>): (n: nat)
    ensures n <= |ids|
  {
    if ids == [] then 0
    else
      var id := ids[|ids| - 1];
      SettledCount(L, ids[..|ids| - 1], failing) + (if RowsFound(L, id) && id !in failing then 1 else 0)
  }

  // ---------------------------------------------------------------------------
  // approve_selected_requests
  // ---------------------------------------------------------------------------

  const ServiceErrorPrefix: string := "Admin Approval Error: "
  const UnexpectedErrorPrefix: string := "Unexpected Admin Error: "

  /** The `rejection_reason` written when the payout call raised. */
  function FailureReason(e: PayoutError): string {
    match e
    case PayoutServiceError(m) => ServiceErrorPrefix + m
    case UnexpectedError(m) => UnexpectedErrorPrefix + m
  }

  /** Which of the action's counters one selected request increments. */
  datatype ApproveItem =
    | Paid               // approved_count
    | PayoutFailed       // failed_count: the payout returned False, or raised and the handler's saves went through
    | RolledBack         // failed_count: a save raised inside the atomic block, which rolled back
    | LookupFailed       // failed_count: the request or wallet row is missing
    | AlreadyProcessed   // already_processed

  /** The three counters of the approve action's report. */
  datatype ApproveReport = ApproveReport(approved: nat, failed: nat, alreadyProcessed: nat)

  function TallyApprove(rep: ApproveReport, item: ApproveItem): ApproveReport {
    match item
    case Paid => rep.(approved := rep.approved + 1)
    case PayoutFailed => rep.(failed := rep.failed + 1)
    case RolledBack => rep.(failed := rep.failed + 1)
    case LookupFailed => rep.(failed := rep.failed + 1)
    case AlreadyProcessed => rep.(alreadyProcessed := rep.alreadyProcessed + 1)
  }

  /**
   * A PENDING request after a committed approve transaction: processed by
   * `admin` at `now`, then COMPLETED by the simulated payout with the reason
   * cleared.
   */
  function ApprovedRow(r: RequestRow, admin: UserId, now: Time): RequestRow {
    r.(status := Completed, processedBy := Some(admin), processedAt := Some(now), rejectionReason := None)
  }

  /** The owner's wallet after a committed approve transaction: the amount leaves `locked`. */
  function ApprovedWallet(b: Balances, amount: Paise): Balances {
    b.(locked := b.locked - amount)
  }

  /**
   * One approve transaction on request `id`, as a function of the tables:
   * both rows are fetched first (a missing one counts as failed), then the
   * status is re-checked (not PENDING counts as already processed). When the
   * payout's save raises, Django marks the atomic block for rollback: the
   * handler's own `save` raises in turn, the outer `except Exception` counts a
   * failure, and the block leaves both rows as they were.
   */
  function ApproveStep(L: Ledger, id: RequestId, admin: UserId, now: Time, saveFailure: Option<string>): (Ledger, ApproveItem) {
    if !RowsFound(L, id) then (L, LookupFailed)
    else if L.rows[id].status != Pending then (L, AlreadyProcessed)
    else if saveFailure.Some? then (L, RolledBack)
    else
      var r := L.rows[id];
      (Ledger(L.rows[id := ApprovedRow(r, admin, now)],
              L.wallets[r.user := ApprovedWallet(L.wallets[r.user], r.amount)]),
       Paid)
  }

  /**
   * The status guard and the exact effect of one approve transaction: only a
   * PENDING request with both rows and a payout whose save succeeds changes;
   * it ends COMPLETED and its owner's total drops by exactly its amount. Every
   * other outcome, rollback included, leaves both tables as they were.
   */
  lemma ApproveStepEffect(L: Ledger, id: RequestId, admin: UserId, now: Time, saveFailure: Option<string>)
    ensures var (L', item) := ApproveStep(L, id, admin, now, saveFailure);
      && L'.rows.Keys == L.rows.Keys && L'.wallets.Keys == L.wallets.Keys
      && (item == LookupFailed <==> !RowsFound(L, id))
      && (item == AlreadyProcessed <==> RowsFound(L, id) && L.rows[id].status != Pending)
      && (item == RolledBack <==> RowsFound(L, id) && L.rows[id].status == Pending && saveFailure.Some?)
      && (item == Paid <==> RowsFound(L, id) && L.rows[id].status == Pending && saveFailure.None?)
      && (item != Paid ==> L' == L)
      && (forall k :: k in L.rows && k != id ==> L'.rows[k] == L.rows[k])
      && (forall v :: v in L.wallets && (id !in L.rows || v != L.rows[id].user) ==> L'.wallets[v] == L.wallets[v])
      && (item == Paid ==>
            var r := L.rows[id];
            var b := L.wallets[r.user];
            && L'.rows[id].status == Completed && L'.rows[id].rejectionReason == None
            && L'.rows[id].processedBy == Some(admin) && L'.rows[id].processedAt == Some(now)
            && L'.rows[id].payoutId == r.payoutId
            && L'.wallets[r.user].locked == b.locked - r.amount
            && L'.wallets[r.user].withdrawable == b.withdrawable
            && L'.wallets[r.user].Total() == b.Total() - r.amount)
  {
  }

  /**
   * Approving the same request again: after a committed approve it counts as
   * already processed and nothing changes; after a rollback it is still
   * PENDING, so the second transaction treats it as the first one did.
   */
  lemma ApproveTwice(L: Ledger, id: RequestId, admin: UserId, now: Time, saveFailure: Option<string>,
                     admin2: UserId, now2: Time, saveFailure2: Option<string>)
    ensures var (L1, item) := ApproveStep(L, id, admin, now, saveFailure);
      && (item == Paid ==> ApproveStep(L1, id, admin2, now2, saveFailure2) == (L1, AlreadyProcessed))
      && (item == RolledBack ==>
            && ApproveStep(L1, id, admin2, now2, saveFailure2) == ApproveStep(L, id, admin2, now2, saveFailure2)
            && ApproveStep(L1, id, admin2, now2, saveFailure2).1 in {Paid, RolledBack})
  {
  }

  /**
   * What the handler at the approve action's `except Exception` branch sets
   * out to commit when the payout raised: the approval marks, then FAILED
   * with the prefixed error text and the amount back in withdrawable.
   */
  function IntendedApproveStep(L: Ledger, id: RequestId, admin: UserId, now: Time, saveFailure: Option<string>)
    : (Ledger, ApproveItem)
  {
    if !RowsFound(L, id) || L.rows[id].status != Pending || saveFailure.None? then
      ApproveStep(L, id, admin, now, saveFailure)
    else
      var r := L.rows[id];
      (Ledger(L.rows[id := r.(status := Failed, processedBy := Some(admin), processedAt := Some(now),
                              rejectionReason := Some(FailureReason(UnexpectedError(saveFailure.value))))],
              L.wallets[r.user := Unlock(L.wallets[r.user], r.amount)]),
       PayoutFailed)
  }

  /**
   * The intended outcome of a payout that raised: the request is FAILED with
   * the "Unexpected Admin Error: " reason, its amount is back in withdrawable
   * and its owner's total is conserved; nothing else changes, and in every
   * other case it is what the code does.
   */
  lemma IntendedPayoutFailureRefunds(L: Ledger, id: RequestId, admin: UserId, now: Time, m: string)
    requires RowsFound(L, id) && L.rows[id].status == Pending
    ensures var (L', item) := IntendedApproveStep(L, id, admin, now, Some(m));
      var r := L.rows[id];
      var b := L.wallets[r.user];
      && item == PayoutFailed
      && L'.rows.Keys == L.rows.Keys && L'.wallets.Keys == L.wallets.Keys
      && (forall k :: k in L.rows && k != id ==> L'.rows[k] == L.rows[k])
      && (forall v :: v in L.wallets && v != r.user ==> L'.wallets[v] == L.wallets[v])
      && L'.rows[id].status == Failed && L'.rows[id].rejectionReason == Some(UnexpectedErrorPrefix + m)
      && L'.rows[id].processedBy == Some(admin)
      && L'.wallets[r.user].locked == b.locked - r.amount
      && L'.wallets[r.user].withdrawable == b.withdrawable + r.amount
      && L'.wallets[r.user].Total() == b.Total()
    ensures IntendedApproveStep(L, id, admin, now, None) == ApproveStep(L, id, admin, now, None)
  {
  }

  /**
   * As written, the same payout failure commits nothing: the transaction
   * rolls back, the request stays PENDING with its funds locked, and only
   * the failure counter moves, where the handler meant to record FAILED and
   * refund.
   */
  lemma PayoutSaveFailureRollsBack(L: Ledger, id: RequestId, admin: UserId, now: Time, m: string)
    requires RowsFound(L, id) && L.rows[id].status == Pending
    ensures ApproveStep(L, id, admin, now, Some(m)) == (L, RolledBack)
    ensures IntendedApproveStep(L, id, admin, now, Some(m)).0 != L
  {
    assert IntendedApproveStep(L, id, admin, now, Some(m)).0.rows[id].status == Failed;
  }

  /** The approve loop over `pending`, in order, as a function of the tables. */
  function ApproveAll(L: Ledger, pending: seq<RequestId>, admin: UserId, now: Time,
                      saveFailures: map<RequestId, string>): (Ledger, ApproveReport)
  {
    if pending == [] then (L, ApproveReport(0, 0, 0))
    else
      var (L1, rep) := ApproveAll(L, pending[..|pending| - 1], admin, now, saveFailures);
      var id := pending[|pending| - 1];
      var (L2, item) := ApproveStep(L1, id, admin, now, SaveFailureOf(saveFailures, id));
      (L2, TallyApprove(rep, item))
  }

  /** One more iteration of the approve loop is one more ApproveStep. */
  lemma ApproveAllExtend(L: Ledger, pending: seq<RequestId>, i: nat, admin: UserId, now: Time,
                         saveFailures: map<RequestId, string>)
    requires i < |pending|
    ensures var (L1, rep) := ApproveAll(L, pending[..i], admin, now, saveFailures);
      var (L2, item) := ApproveStep(L1, pending[i], admin, now, SaveFailureOf(saveFailures, pending[i]));
      ApproveAll(L, pending[..i + 1], admin, now, saveFailures) == (L2, TallyApprove(rep, item))
  {
    assert pending[..i + 1][..i] == pending[..i];
  }

  /** Every request of the loop increments exactly one counter, whatever happens to the others. */
  lemma {:induction false} ApproveAllCounts(L: Ledger, pending: seq<RequestId>, admin: UserId, now: Time,
                                             saveFailures: map<RequestId, string>)
    ensures var rep := ApproveAll(L, pending, admin, now, saveFailures).1;
      rep.approved + rep.failed + rep.alreadyProcessed == |pending|
  {
    if pending != [] {
      ApproveAllCounts(L, pending[..|pending| - 1], admin, now, saveFailures);
    }
  }

  /** The loop touches no request outside `pending`, and no table gains or loses a row. */
  lemma {:induction false} ApproveAllFrame(L: Ledger, pending: seq<RequestId>, admin: UserId, now: Time,
                                            saveFailures: map<RequestId, string>)
    ensures var L' := ApproveAll(L, pending, admin, now, saveFailures).0;
      && L'.rows.Keys == L.rows.Keys && L'.wallets.Keys == L.wallets.Keys
      && (forall id :: id in L.rows && id !in pending ==> L'.rows[id] == L.rows[id])
      && (forall id :: id in L.rows ==> L'.rows[id].user == L.rows[id].user && L'.rows[id].amount == L.rows[id].amount)
  {
    if pending != [] {
      var prefix := pending[..|pending| - 1];
      var id := pending[|pending| - 1];
      ApproveAllFrame(L, prefix, admin, now, saveFailures);
      assert forall k :: k in pending <==> k in prefix || k == id by {
        assert pending == prefix + [id];
      }
      var L1 := ApproveAll(L, prefix, admin, now, saveFailures).0;
      ApproveStepEffect(L1, id, admin, now, SaveFailureOf(saveFailures, id));
    }
  }

  /**
   * When every request of the loop is distinct and PENDING at the start (as
   * the filter guarantees), none is counted as already processed, and the
   * approved ones are exactly those with both rows whose payout completed.
   */
  lemma {:induction false} ApproveAllReport(L: Ledger, pending: seq<RequestId>, admin: UserId, now: Time,
                                             saveFailures: map<RequestId, string>)
    requires Distinct(pending)
    requires forall id :: id in pending ==> id in L.rows && L.rows[id].status == Pending
    ensures var rep := ApproveAll(L, pending, admin, now, saveFailures).1;
      && rep.alreadyProcessed == 0
      && rep.approved == SettledCount(L, pending, saveFailures.Keys)
      && rep.failed == |pending| - rep.approved
  {
    if pending != [] {
      var n := |pending| - 1;
      var prefix := pending[..n];
      var id := pending[n];
      assert pending == prefix + [id];
      assert Distinct(prefix);
      assert id !in prefix;
      ApproveAllReport(L, prefix, admin, now, saveFailures);
      ApproveAllFrame(L, prefix, admin, now, saveFailures);
      ApproveAllCounts(L, prefix, admin, now, saveFailures);
      var L1 := ApproveAll(L, prefix, admin, now, saveFailures).0;
      assert L1.rows[id] == L.rows[id];
      assert RowsFound(L1, id) == RowsFound(L, id);
      assert ApproveStep(L1, id, admin, now, SaveFailureOf(saveFailures, id)).1
        == if !RowsFound(L, id) then LookupFailed else if id in saveFailures then RolledBack else Paid;
    }
  }

  /**
   * Under the same conditions, each request with both rows whose payout save
   * succeeds ends as ApprovedRow says; the others are untouched.
   */
  lemma {:induction false} ApproveAllRows(L: Ledger, pending: seq<RequestId>, admin: UserId, now: Time,
                                           saveFailures: map<RequestId, string>)
    requires Distinct(pending)
    requires forall id :: id in pending ==> id in L.rows && L.rows[id].status == Pending
    ensures var L' := ApproveAll(L, pending, admin, now, saveFailures).0;
      && L'.rows.Keys == L.rows.Keys
      && (forall id :: id in pending && RowsFound(L, id) && id !in saveFailures ==>
            L'.rows[id] == ApprovedRow(L.rows[id], admin, now))
      && (forall id :: id in pending && (!RowsFound(L, id) || id in saveFailures) ==> L'.rows[id] == L.rows[id])
  {
    if pending != [] {
      var n := |pending| - 1;
      var prefix := pending[..n];
      var id := pending[n];
      assert pending == prefix + [id];
      assert Distinct(prefix);
      assert id !in prefix;
      ApproveAllRows(L, prefix, admin, now, saveFailures);
      ApproveAllFrame(L, prefix, admin, now, saveFailures);
      var L1 := ApproveAll(L, prefix, admin, now, saveFailures).0;
      assert L1.rows[id] == L.rows[id];
      assert RowsFound(L1, id) == RowsFound(L, id);
      ApproveStepEffect(L1, id, admin, now, SaveFailureOf(saveFailures, id));
    }
  }

  /**
   * Under the same conditions, each wallet's locked balance drops by the sum
   * of its owner's amounts whose payout completed; the rolled-back amounts
   * stay locked and withdrawable never changes.
   */
  lemma {:induction false} ApproveAllWallets(L: Ledger, pending: seq<RequestId>, admin: UserId, now: Time,
                                              saveFailures: map<RequestId, string>)
    requires Distinct(pending)
    requires forall id :: id in pending ==> id in L.rows && L.rows[id].status == Pending
    ensures var L' := ApproveAll(L, pending, admin, now, saveFailures).0;
      && L'.wallets.Keys == L.wallets.Keys
      && (forall u :: u in L.wallets ==>
            L'.wallets[u] == Balances(L.wallets[u].withdrawable,
                                      L.wallets[u].locked - Payouts(L.rows, pending, u, saveFailures.Keys)))
  {
    if pending != [] {
      var n := |pending| - 1;
      var prefix := pending[..n];
      var id := pending[n];
      assert pending == prefix + [id];
      assert Distinct(prefix);
      assert id !in prefix;
      ApproveAllWallets(L, prefix, admin, now, saveFailures);
      ApproveAllFrame(L, prefix, admin, now, saveFailures);
      var L1 := ApproveAll(L, prefix, admin, now, saveFailures).0;
      assert L1.rows[id] == L.rows[id];
      assert RowsFound(L1, id) == RowsFound(L, id);
      ApproveStepEffect(L1, id, admin, now, SaveFailureOf(saveFailures, id));
    }
  }

  /**
   * The whole bulk approve on a selection without repeats: the counters cover
   * the pending requests exactly once with none already processed; only
   * PENDING requests of the selection whose payout save succeeds change, and
   * each ends COMPLETED, while a rolled-back one stays PENDING; each wallet's
   * locked balance, and so its total, drops by exactly the amounts whose
   * payout completed.
   */
  lemma BulkApproveOutcome(L: Ledger, selected: seq<RequestId>, admin: UserId, now: Time,
                           saveFailures: map<RequestId, string>)
    requires Distinct(selected)
    ensures var pending := PendingAmong(L.rows, selected);
      var (L', rep) := ApproveAll(L, pending, admin, now, saveFailures);
      && rep.approved + rep.failed == |pending| && rep.alreadyProcessed == 0
      && L'.rows.Keys == L.rows.Keys && L'.wallets.Keys == L.wallets.Keys
      && (forall id :: id in L.rows && L'.rows[id] != L.rows[id] ==>
            id in selected && L.rows[id].status == Pending && id !in saveFailures)
      && (forall id :: id in pending && RowsFound(L, id) && id !in saveFailures ==>
            L'.rows[id].status == Completed && L'.rows[id].processedBy == Some(admin))
      && (forall id :: id in pending && id in saveFailures ==> L'.rows[id].status == Pending)
      && (forall u :: u in L.wallets ==>
            && L'.wallets[u].withdrawable == L.wallets[u].withdrawable
            && L'.wallets[u].locked == L.wallets[u].locked - Payouts(L.rows, pending, u, saveFailures.Keys)
            && L'.wallets[u].Total() == L.wallets[u].Total() - Payouts(L.rows, pending, u, saveFailures.Keys))
  {
    var pending := PendingAmong(L.rows, selected);
    ApproveAllReport(L, pending, admin, now, saveFailures);
    ApproveAllRows(L, pending, admin, now, saveFailures);
    ApproveAllWallets(L, pending, admin, now, saveFailures);
    ApproveAllFrame(L, pending, admin, now, saveFailures);
  }

  /**
   * The tail of the approve transaction, after `initiate_razorpay_payout` came
   * back with `payout`. True: the amount leaves `locked_balance`. False: the
   * amount goes back to withdrawable but the status is left as the service left
   * it. Raised: the request becomes FAILED with a prefixed reason and the amount
   * goes back to withdrawable. `needsRollback` is the connection's flag: when
   * an earlier query of the atomic block failed, the branch's first `save`
   * raises TransactionManagementError and nothing after it runs.
   */
  method SettlePayout(req: WithdrawalRequest, wallet: UserWallet, payout: PayoutResult, needsRollback: bool)
    returns (item: ApproveItem)
    modifies req`status, req`rejectionReason, wallet
    ensures item == if needsRollback then RolledBack else if payout == Returned(true) then Paid else PayoutFailed
    ensures payout.Returned? ==> req.status == old(req.status) && req.rejectionReason == old(req.rejectionReason)
    ensures payout.Raised? ==> req.status == Failed && req.rejectionReason == Some(FailureReason(payout.error))
    ensures item != RolledBack ==>
      && wallet.lockedBalance == old(wallet.lockedBalance) - req.amount
      && wallet.withdrawableBalance == old(wallet.withdrawableBalance) + (if item == Paid then 0 else req.amount)
      && wallet.TotalBalance() == old(wallet.TotalBalance()) - (if item == Paid then req.amount else 0)
  {
    var amount := req.amount;
    match payout
    case Returned(initiated) =>
      if initiated {
        wallet.lockedBalance := wallet.lockedBalance - amount;
      } else {
        wallet.lockedBalance := wallet.lockedBalance - amount;
        wallet.withdrawableBalance := wallet.withdrawableBalance + amount;
      }
      item := if needsRollback then RolledBack else if initiated then Paid else PayoutFailed;
    case Raised(e) =>
      req.status := Failed;
      req.rejectionReason := Some(FailureReason(e));
      if needsRollback {
        return RolledBack;
      }
      wallet.lockedBalance := wallet.lockedBalance - amount;
      wallet.withdrawableBalance := wallet.withdrawableBalance + amount;
      item := PayoutFailed;
  }

  /**
   * The body of the approve transaction once both rows are locked and the
   * request is still PENDING: the APPROVED marks, the simulated payout, and
   * the settlement of its result. When the payout's save raised, the objects
   * are left as the handler set them in memory and the block must roll back.
   */
  method ApproveLockedRows(req: WithdrawalRequest, wallet: UserWallet, admin: UserId, now: Time, saveFailure: Option<string>)
    returns (item: ApproveItem)
    modifies req, wallet
    ensures item == if saveFailure.None? then Paid else RolledBack
    ensures item == Paid ==> req.Row() == ApprovedRow(old(req.Row()), admin, now)
    ensures item == Paid ==> wallet.View() == ApprovedWallet(old(wallet.View()), req.amount)
    ensures item == RolledBack ==> req.status == Failed && req.rejectionReason == Some(UnexpectedErrorPrefix + saveFailure.value)
  {
    req.status := Approved;
    req.processedBy := Some(admin);
    req.processedAt := Some(now);
    req.rejectionReason := None;
    var payout := InitiateRazorpayPayout(req, now, saveFailure);
    // The service raises only when its own `save` failed, and a save that
    // fails inside an atomic block marks the block for rollback.
    item := SettlePayout(req, wallet, payout, payout.Raised?);
  }

  /** The atomic block's rollback: both locked rows read again as they did when locked. */
  method RollBack(req: WithdrawalRequest, wallet: UserWallet, row: RequestRow, balances: Balances)
    requires row.user == req.user && row.amount == req.amount && row.requestedAt == req.requestedAt
    modifies req, wallet
    ensures req.Row() == row && wallet.View() == balances
  {
    req.status := row.status;
    req.processedAt := row.processedAt;
    req.processedBy := row.processedBy;
    req.rejectionReason := row.rejectionReason;
    req.razorpayPayoutId := row.payoutId;
    req.razorpayPayoutStatus := row.payoutStatus;
    wallet.withdrawableBalance := balances.withdrawable;
    wallet.lockedBalance := balances.locked;
  }

  /**
   * One iteration of the approve loop: one atomic transaction on request
   * `id`, which marks it APPROVED, runs the simulated payout and applies its
   * result, or rolls back when a save raised. The new tables are exactly
   * ApproveStep of the old ones.
   */
  method ApproveRequest(db: Database, id: RequestId, admin: UserId, now: Time, saveFailure: Option<string>)
    returns (item: ApproveItem)
    requires db.Valid()
    modifies db.RequestFrame(id), db.OwnerWalletFrame(id)
    ensures db.Snapshot() == ApproveStep(old(db.Snapshot()), id, admin, now, saveFailure).0
    ensures item == ApproveStep(old(db.Snapshot()), id, admin, now, saveFailure).1
  {
    ghost var L := db.Snapshot();
    if id !in db.requests || db.requests[id].user !in db.wallets {
      return LookupFailed;
    }
    var req := db.requests[id];
    var wallet := db.wallets[req.user];
    if req.status != Pending {
      return AlreadyProcessed;
    }
    var row, balances := req.Row(), wallet.View();
    item := ApproveLockedRows(req, wallet, admin, now, saveFailure);
    if item == RolledBack {
      RollBack(req, wallet, row, balances);
    }
    SnapshotAfterTransaction(db, id, L);
    if item == RolledBack {
      assert L.rows[id := row] == L.rows && L.wallets[req.user := balances] == L.wallets;
    }
  }

  /**
   * `approve_selected_requests`. `selected` is the admin's queryset and
   * `saveFailures` the requests whose payout save raises, with the error text.
   * The requests PENDING at the filter are approved one transaction each; the
   * new tables and the three counters are exactly ApproveAll of the old
   * tables (see BulkApproveOutcome for what that means).
   */
  method ApproveSelectedRequests(db: Database, selected: seq<RequestId>, admin: UserId, now: Time,
                                 saveFailures: map<RequestId, string>)
    returns (noneSelected: bool, approvedCount: nat, failedCount: nat, alreadyProcessed: nat)
    requires db.Valid()
    modifies db.requests.Values, db.wallets.Values
    ensures var pending := PendingAmong(old(db.Snapshot()).rows, selected);
      && noneSelected == (pending == [])
      && db.Snapshot() == ApproveAll(old(db.Snapshot()), pending, admin, now, saveFailures).0
      && ApproveReport(approvedCount, failedCount, alreadyProcessed)
         == ApproveAll(old(db.Snapshot()), pending, admin, now, saveFailures).1
  {
    ghost var L0 := db.Snapshot();
    var pending := PendingAmong(db.Snapshot().rows, selected);
    noneSelected := pending == [];
    var report := ApproveReport(0, 0, 0);
    var i := 0;
    while i < |pending|
      invariant 0 <= i <= |pending|
      invariant db.Valid()
      invariant db.Snapshot() == ApproveAll(L0, pending[..i], admin, now, saveFailures).0
      invariant report == ApproveAll(L0, pending[..i], admin, now, saveFailures).1
    {
      var id := pending[i];
      ApproveAllExtend(L0, pending, i, admin, now, saveFailures);
      var item := ApproveRequest(db, id, admin, now, SaveFailureOf(saveFailures, id));
      report := TallyApprove(report, item);
      i := i + 1;
    }
    assert pending[..i] == pending;
    approvedCount, failedCount, alreadyProcessed := report.approved, report.failed, report.alreadyProcessed;
  }

  // ---------------------------------------------------------------------------
  // reject_selected_requests
  // ---------------------------------------------------------------------------

  /** The fixed reason bulk rejection writes; admins may edit it afterwards. */
  const BulkRejectionReason: string := "Rejected via admin bulk action."

  /** What one selected request contributes to the reject action's report. */
  datatype RejectItem =
    | Unlocked           // rejected_count
    | RejectLookupFailed // an error message only, no counter
    | RejectSkipped      // already_processed

  /** The two counters of the reject action's report. */
  datatype RejectReport = RejectReport(rejected: nat, alreadyProcessed: nat)

  function TallyReject(rep: RejectReport, item: RejectItem): RejectReport {
    match item
    case Unlocked => rep.(rejected := rep.rejected + 1)
    case RejectLookupFailed => rep
    case RejectSkipped => rep.(alreadyProcessed := rep.alreadyProcessed + 1)
  }

  /** A PENDING request after bulk rejection: REJECTED with the fixed reason, by `admin` at `now`. */
  function RejectedRow(r: RequestRow, admin: UserId, now: Time): RequestRow {
    r.(status := Rejected, rejectionReason := Some(BulkRejectionReason), processedBy := Some(admin), processedAt := Some(now))
  }

  /** The amount goes from locked back to withdrawable. */
  function Unlock(b: Balances, amount: Paise): Balances {
    Balances(b.withdrawable + amount, b.locked - amount)
  }

  /** One reject transaction on request `id`, as a function of the tables. */
  function RejectStep(L: Ledger, id: RequestId, admin: UserId, now: Time): (Ledger, RejectItem) {
    if !RowsFound(L, id) then (L, RejectLookupFailed)
    else if L.rows[id].status != Pending then (L, RejectSkipped)
    else
      var r := L.rows[id];
      (Ledger(L.rows[id := RejectedRow(r, admin, now)], L.wallets[r.user := Unlock(L.wallets[r.user], r.amount)]),
       Unlocked)
  }

  /**
   * The status guard and the exact effect of one reject transaction: only a
   * PENDING request with both rows changes; it ends REJECTED with the fixed
   * reason, its amount moves from locked to withdrawable and its owner's total
   * is unchanged; no other row or wallet changes.
   */
  lemma RejectStepEffect(L: Ledger, id: RequestId, admin: UserId, now: Time)
    ensures var (L', item) := RejectStep(L, id, admin, now);
      && L'.rows.Keys == L.rows.Keys && L'.wallets.Keys == L.wallets.Keys
      && (item == RejectLookupFailed <==> !RowsFound(L, id))
      && (item == RejectSkipped <==> RowsFound(L, id) && L.rows[id].status != Pending)
      && (item != Unlocked ==> L' == L)
      && (forall k :: k in L.rows && k != id ==> L'.rows[k] == L.rows[k])
      && (forall v :: v in L.wallets && (id !in L.rows || v != L.rows[id].user) ==> L'.wallets[v] == L.wallets[v])
      && (item == Unlocked ==>
            var r := L.rows[id];
            var b := L.wallets[r.user];
            && r.status == Pending
            && L'.rows[id].status == Rejected
            && L'.rows[id].rejectionReason == Some(BulkRejectionReason)
            && L'.rows[id].processedBy == Some(admin)
            && L'.wallets[r.user].locked == b.locked - r.amount
            && L'.wallets[r.user].withdrawable == b.withdrawable + r.amount
            && L'.wallets[r.user].Total() == b.Total())
  {
  }

  /** Likewise a second reject transaction on a rejected request. */
  lemma RejectTwiceSkipped(L: Ledger, id: RequestId, admin: UserId, now: Time, admin2: UserId, now2: Time)
    requires RejectStep(L, id, admin, now).1 == Unlocked
    ensures var L1 := RejectStep(L, id, admin, now).0;
      RejectStep(L1, id, admin2, now2) == (L1, RejectSkipped)
  {
  }

  /** The reject loop over `pending`, in order, as a function of the tables. */
  function RejectAll(L: Ledger, pending: seq<RequestId>, admin: UserId, now: Time): (Ledger, RejectReport) {
    if pending == [] then (L, RejectReport(0, 0))
    else
      var (L1, rep) := RejectAll(L, pending[..|pending| - 1], admin, now);
      var (L2, item) := RejectStep(L1, pending[|pending| - 1], admin, now);
      (L2, TallyReject(rep, item))
  }

  /** One more iteration of the reject loop is one more RejectStep. */
  lemma RejectAllExtend(L: Ledger, pending: seq<RequestId>, i: nat, admin: UserId, now: Time)
    requires i < |pending|
    ensures var (L1, rep) := RejectAll(L, pending[..i], admin, now);
      var (L2, item) := RejectStep(L1, pending[i], admin, now);
      RejectAll(L, pending[..i + 1], admin, now) == (L2, TallyReject(rep, item))
  {
    assert pending[..i + 1][..i] == pending[..i];
  }

  /** The loop touches no request outside `pending`, and no table gains or loses a row. */
  lemma {:induction false} RejectAllFrame(L: Ledger, pending: seq<RequestId>, admin: UserId, now: Time)
    ensures var L' := RejectAll(L, pending, admin, now).0;
      && L'.rows.Keys == L.rows.Keys && L'.wallets.Keys == L.wallets.Keys
      && (forall id :: id in L.rows && id !in pending ==> L'.rows[id] == L.rows[id])
  {
    if pending != [] {
      var prefix := pending[..|pending| - 1];
      RejectAllFrame(L, prefix, admin, now);
      assert forall id :: id in pending <==> id in prefix || id == pending[|pending| - 1] by {
        assert pending == prefix + [pending[|pending| - 1]];
      }
    }
  }

  /**
   * With distinct requests all PENDING at the start, none is counted as
   * already processed, each one with both rows ends REJECTED, and each wallet
   * moves exactly its owner's sum from locked back to withdrawable.
   */
  lemma {:induction false} RejectAllSettles(L: Ledger, pending: seq<RequestId>, admin: UserId, now: Time)
    requires Distinct(pending)
    requires forall id :: id in pending ==> id in L.rows && L.rows[id].status == Pending
    ensures var (L', rep) := RejectAll(L, pending, admin, now);
      && L'.rows.Keys == L.rows.Keys && L'.wallets.Keys == L.wallets.Keys
      && rep.alreadyProcessed == 0
      && rep.rejected == SettledCount(L, pending, {})
      && (forall id :: id in pending && RowsFound(L, id) ==> L'.rows[id] == RejectedRow(L.rows[id], admin, now))
      && (forall id :: id in pending && !RowsFound(L, id) ==> L'.rows[id] == L.rows[id])
      && (forall u :: u in L.wallets ==> L'.wallets[u] == Unlock(L.wallets[u], Owed(L.rows, pending, u)))
  {
    if pending != [] {
      var n := |pending| - 1;
      var prefix := pending[..n];
      var id := pending[n];
      assert pending == prefix + [id];
      assert Distinct(prefix);
      assert id !in prefix;
      RejectAllSettles(L, prefix, admin, now);
      RejectAllFrame(L, prefix, admin, now);
      var (L1, rep1) := RejectAll(L, prefix, admin, now);
      assert L1.rows[id] == L.rows[id];
      assert RowsFound(L1, id) == RowsFound(L, id);
      RejectStepEffect(L1, id, admin, now);
    }
  }

  /**
   * The whole bulk reject on a selection without repeats: only PENDING
   * requests of the selection change, each with both rows ends REJECTED, and
   * every wallet's total is unchanged.
   */
  lemma BulkRejectOutcome(L: Ledger, selected: seq<RequestId>, admin: UserId, now: Time)
    requires Distinct(selected)
    ensures var pending := PendingAmong(L.rows, selected);
      var (L', rep) := RejectAll(L, pending, admin, now);
      && rep.rejected <= |pending| && rep.alreadyProcessed == 0
      && L'.rows.Keys == L.rows.Keys && L'.wallets.Keys == L.wallets.Keys
      && (forall id :: id in L.rows && L'.rows[id] != L.rows[id] ==> id in selected && L.rows[id].status == Pending)
      && (forall id :: id in pending && RowsFound(L, id) ==> L'.rows[id].status == Rejected)
      && (forall u :: u in L.wallets ==> L'.wallets[u].Total() == L.wallets[u].Total())
  {
    var pending := PendingAmong(L.rows, selected);
    RejectAllSettles(L, pending, admin, now);
    RejectAllFrame(L, pending, admin, now);
  }

  /**
   * Neither bulk action writes `razorpay_payout_id`, so the column's
   * uniqueness survives both.
   */
  lemma BulkActionsKeepPayoutIds(L: Ledger, selected: seq<RequestId>, admin: UserId, now: Time,
                                 saveFailures: map<RequestId, string>)
    requires Distinct(selected) && PayoutIdsUnique(L.rows)
    ensures PayoutIdsUnique(ApproveAll(L, PendingAmong(L.rows, selected), admin, now, saveFailures).0.rows)
    ensures PayoutIdsUnique(RejectAll(L, PendingAmong(L.rows, selected), admin, now).0.rows)
  {
    var pending := PendingAmong(L.rows, selected);
    ApproveAllRows(L, pending, admin, now, saveFailures);
    ApproveAllFrame(L, pending, admin, now, saveFailures);
    var A := ApproveAll(L, pending, admin, now, saveFailures).0;
    assert forall id :: id in A.rows ==> A.rows[id].payoutId == L.rows[id].payoutId;
    RejectAllSettles(L, pending, admin, now);
    RejectAllFrame(L, pending, admin, now);
    var R := RejectAll(L, pending, admin, now).0;
    assert forall id :: id in R.rows ==> R.rows[id].payoutId == L.rows[id].payoutId;
  }

  /**
   * The bulk actions subtract from `locked_balance` without a guard. When
   * every amount is non-negative, every withdrawable balance is non-negative
   * and each locked balance covers its owner's pending amounts, bulk approve
   * leaves no balance negative.
   */
  lemma BulkApproveKeepsBalancesNonNegative(L: Ledger, selected: seq<RequestId>, admin: UserId, now: Time,
                                            saveFailures: map<RequestId, string>)
    requires Distinct(selected)
    requires forall id :: id in L.rows ==> L.rows[id].amount >= 0
    requires forall u :: u in L.wallets ==>
      0 <= L.wallets[u].withdrawable && Owed(L.rows, PendingAmong(L.rows, selected), u) <= L.wallets[u].locked
    ensures var L' := ApproveAll(L, PendingAmong(L.rows, selected), admin, now, saveFailures).0;
      forall u :: u in L'.wallets ==> 0 <= L'.wallets[u].withdrawable && 0 <= L'.wallets[u].locked
  {
    var pending := PendingAmong(L.rows, selected);
    ApproveAllWallets(L, pending, admin, now, saveFailures);
    forall u | u in L.wallets {
      OwedBounds(L.rows, pending, u, saveFailures.Keys);
    }
  }

  /** Under the same conditions, bulk reject leaves no balance negative. */
  lemma BulkRejectKeepsBalancesNonNegative(L: Ledger, selected: seq<RequestId>, admin: UserId, now: Time)
    requires Distinct(selected)
    requires forall id :: id in L.rows ==> L.rows[id].amount >= 0
    requires forall u :: u in L.wallets ==>
      0 <= L.wallets[u].withdrawable && Owed(L.rows, PendingAmong(L.rows, selected), u) <= L.wallets[u].locked
    ensures var L' := RejectAll(L, PendingAmong(L.rows, selected), admin, now).0;
      forall u :: u in L'.wallets ==> 0 <= L'.wallets[u].withdrawable && 0 <= L'.wallets[u].locked
  {
    var pending := PendingAmong(L.rows, selected);
    RejectAllSettles(L, pending, admin, now);
    forall u | u in L.wallets
      ensures 0 <= Owed(L.rows, pending, u)
    {
      OwedBounds(L.rows, pending, u, {});
    }
  }

  /** The body of the reject transaction once both rows are locked and the request is still PENDING. */
  method RejectLockedRows(req: WithdrawalRequest, wallet: UserWallet, admin: UserId, now: Time)
    modifies req, wallet
    ensures req.Row() == RejectedRow(old(req.Row()), admin, now)
    ensures wallet.View() == Unlock(old(wallet.View()), req.amount)
  {
    var amount := req.amount;
    req.status := Rejected;
    req.rejectionReason := Some(BulkRejectionReason);
    req.processedBy := Some(admin);
    req.processedAt := Some(now);
    wallet.lockedBalance := wallet.lockedBalance - amount;
    wallet.withdrawableBalance := wallet.withdrawableBalance + amount;
  }

  /**
   * One iteration of the reject loop: one atomic transaction on request
   * `id`. The new tables are exactly RejectStep of the old ones.
   */
  method RejectRequest(db: Database, id: RequestId, admin: UserId, now: Time) returns (item: RejectItem)
    requires db.Valid()
    modifies db.RequestFrame(id), db.OwnerWalletFrame(id)
    ensures db.Snapshot() == RejectStep(old(db.Snapshot()), id, admin, now).0
    ensures item == RejectStep(old(db.Snapshot()), id, admin, now).1
  {
    if id !in db.requests || db.requests[id].user !in db.wallets {
      return RejectLookupFailed;
    }
    var req := db.requests[id];
    var wallet := db.wallets[req.user];
    if req.status != Pending {
      return RejectSkipped;
    }
    RejectLockedRows(req, wallet, admin, now);
    item := Unlocked;
    SnapshotAfterTransaction(db, id, old(db.Snapshot()));
  }

  /**
   * `reject_selected_requests`. The requests PENDING at the filter are
   * rejected one transaction each; the new tables and the two counters are
   * exactly RejectAll of the old tables (see BulkRejectOutcome).
   */
  method RejectSelectedRequests(db: Database, selected: seq<RequestId>, admin: UserId, now: Time)
    returns (noneSelected: bool, rejectedCount: nat, alreadyProcessed: nat)
    requires db.Valid()
    modifies db.requests.Values, db.wallets.Values
    ensures var pending := PendingAmong(old(db.Snapshot()).rows, selected);
      && noneSelected == (pending == [])
      && db.Snapshot() == RejectAll(old(db.Snapshot()), pending, admin, now).0
      && RejectReport(rejectedCount, alreadyProcessed) == RejectAll(old(db.Snapshot()), pending, admin, now).1
  {
    ghost var L0 := db.Snapshot();
    var pending := PendingAmong(db.Snapshot().rows, selected);
    noneSelected := pending == [];
    var report := RejectReport(0, 0);
    var i := 0;
    while i < |pending|
      invariant 0 <= i <= |pending|
      invariant db.Valid()
      invariant db.Snapshot() == RejectAll(L0, pending[..i], admin, now).0
      invariant report == RejectAll(L0, pending[..i], admin, now).1
    {
      var id := pending[i];
      RejectAllExtend(L0, pending, i, admin, now);
      var item := RejectRequest(db, id, admin, now);
      report := TallyReject(report, item);
      i := i + 1;
    }
    assert pending[..i] == pending;
    rejectedCount, alreadyProcessed := report.rejected, report.alreadyProcessed;
  }
}

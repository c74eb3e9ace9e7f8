/**
 * The wallet API endpoints (auth_backend/wallet/views.py): the balance view
 * (get-or-create), the history query, and the admin approve/reject endpoint.
 */
module WalletViews {
  import opened Options
  import opened WalletModels

  // ---------------------------------------------------------------------------
  // WalletBalanceView.get
  // ---------------------------------------------------------------------------

  /** What `UserWalletSerializer` shows of a wallet (its timestamp is not modelled). */
  datatype WalletData = WalletData(withdrawable: Paise, locked: Paise, total: Paise)

  /**
   * `UserWallet.objects.get_or_create(user=...)`: the caller's existing wallet,
   * or a new one with zero balances. No request row and no other wallet
   * changes; a second call finds the wallet and creates nothing (see
   * GetOrCreateTwice).
   */
  method GetOrCreateWallet(db: Database, user: UserId) returns (wallet: UserWallet, created: bool)
    requires db.Valid()
    modifies db
    ensures db.Valid()
    ensures db.requests == old(db.requests)
    ensures created == (user !in old(db.wallets))
    ensures !created ==> wallet == old(db.wallets[user]) && db.wallets == old(db.wallets)
    ensures created ==> fresh(wallet) && db.wallets == old(db.wallets)[user := wallet]
    ensures created ==> wallet.View() == Balances(0, 0)
    ensures user in db.wallets && wallet == db.wallets[user] && wallet.user == user
  {
    if user in db.wallets {
      wallet := db.wallets[user];
      created := false;
    } else {
      wallet := new UserWallet(user);
      db.wallets := db.wallets[user := wallet];
      created := true;
    }
  }

  /** `WalletBalanceView.get`: the serialized wallet, whose total is the sum of its two balances. */
  method GetWalletBalance(db: Database, user: UserId) returns (data: WalletData)
    requires db.Valid()
    modifies db
    ensures db.Valid()
    ensures db.requests == old(db.requests) && user in db.wallets
    ensures db.wallets.Keys == old(db.wallets.Keys) + {user}
    ensures user in old(db.wallets) ==> db.wallets == old(db.wallets)
    ensures user !in old(db.wallets) ==> db.wallets == old(db.wallets)[user := db.wallets[user]]
    ensures data.withdrawable == db.wallets[user].withdrawableBalance
    ensures data.locked == db.wallets[user].lockedBalance
    ensures data.total == data.withdrawable + data.locked
    ensures user !in old(db.wallets) ==> data == WalletData(0, 0, 0)
  {
    ghost var before := db.wallets;
    var wallet, created := GetOrCreateWallet(db, user);
    if created {
      assert db.wallets.Keys == before.Keys + {user};
    } else {
      assert db.wallets.Keys == before.Keys + {user};
    }
    var balances := wallet.View();
    data := WalletData(balances.withdrawable, balances.locked, balances.Total());
  }

  /** Get-or-create is idempotent: the second call returns the same wallet and creates nothing. */
  method GetOrCreateTwice(db: Database, user: UserId) returns (first: UserWallet, second: UserWallet, createdAgain: bool)
    requires db.Valid()
    modifies db
    ensures first == second && !createdAgain
    ensures db.wallets.Keys == old(db.wallets.Keys) + {user}
    ensures second.TotalBalance() == if user in old(db.wallets) then old(db.wallets[user].TotalBalance()) else 0
  {
    var createdFirst;
    first, createdFirst := GetOrCreateWallet(db, user);
    second, createdAgain := GetOrCreateWallet(db, user);
  }

  // ---------------------------------------------------------------------------
  // UserWithdrawalHistoryView.get_queryset
  // ---------------------------------------------------------------------------

  /** Every id is a row, and `requested_at` never increases along the list. */
  predicate NewestFirstOrder(rows: map<RequestId, RequestRow>, s: seq<RequestId>) {
    && (forall i :: 0 <= i < |s| ==> s[i] in rows)
    && (forall i, j :: 0 <= i < j < |s| ==> rows[s[j]].requestedAt <= rows[s[i]].requestedAt)
  }

  /** Inserts `x` into a newest-first list before the first entry not newer than it. */
  function InsertNewest(rows: map<RequestId, RequestRow>, x: RequestId, s: seq<RequestId>): (r: seq<RequestId>)
    requires x in rows && NewestFirstOrder(rows, s)
    ensures NewestFirstOrder(rows, r)
    ensures multiset(r) == multiset(s) + multiset{x}
  {
    if s == [] then [x]
    else if rows[s[0]].requestedAt <= rows[x].requestedAt then
      PrependNewest(rows, x, s);
      [x] + s
    else
      var t := InsertNewest(rows, x, s[1..]);
      assert s == [s[0]] + s[1..];
      NewerThanAll(rows, s[0], x, s[1..], t);
      ConsOrder(rows, s[0], t);
      [s[0]] + t
  }

  /** A head no older than every entry of a newest-first list keeps it newest-first. */
  lemma ConsOrder(rows: map<RequestId, RequestRow>, head: RequestId, t: seq<RequestId>)
    requires head in rows && NewestFirstOrder(rows, t)
    requires forall i :: 0 <= i < |t| ==> t[i] in rows && rows[t[i]].requestedAt <= rows[head].requestedAt
    ensures NewestFirstOrder(rows, [head] + t)
  {
    var r := [head] + t;
    forall i, j | 0 <= i < j < |r|
      ensures rows[r[j]].requestedAt <= rows[r[i]].requestedAt
    {
      assert r[j] == t[j - 1];
      if i > 0 {
        assert r[i] == t[i - 1];
      }
    }
  }

  /** A head no older than the first entry of a non-empty newest-first list keeps it newest-first. */
  lemma PrependNewest(rows: map<RequestId, RequestRow>, x: RequestId, s: seq<RequestId>)
    requires x in rows && NewestFirstOrder(rows, s) && s != []
    requires rows[s[0]].requestedAt <= rows[x].requestedAt
    ensures NewestFirstOrder(rows, [x] + s)
  {
    forall i | 0 <= i < |s|
      ensures s[i] in rows && rows[s[i]].requestedAt <= rows[x].requestedAt
    {
      if i > 0 {
        assert rows[s[i]].requestedAt <= rows[s[0]].requestedAt;
      }
    }
    ConsOrder(rows, x, s);
  }

  /** Everything in a list built from `rest` and `x` is no newer than `head` when `rest` and `x` are not. */
  lemma NewerThanAll(rows: map<RequestId, RequestRow>, head: RequestId, x: RequestId, rest: seq<RequestId>, t: seq<RequestId>)
    requires head in rows && x in rows && rows[x].requestedAt < rows[head].requestedAt
    requires forall i :: 0 <= i < |rest| ==> rest[i] in rows && rows[rest[i]].requestedAt <= rows[head].requestedAt
    requires multiset(t) == multiset(rest) + multiset{x}
    ensures forall i :: 0 <= i < |t| ==> t[i] in rows && rows[t[i]].requestedAt <= rows[head].requestedAt
  {
    forall i | 0 <= i < |t|
      ensures t[i] in rows && rows[t[i]].requestedAt <= rows[head].requestedAt
    {
      assert t[i] in multiset(t);
      if t[i] != x {
        assert t[i] in multiset(rest);
        var j :| 0 <= j < |rest| && rest[j] == t[i];
      }
    }
  }

  /** The ids of `ids` as one newest-first list. */
  ghost function NewestFirst(rows: map<RequestId, RequestRow>, ids: set<RequestId>): (r: seq<RequestId>)
    requires ids <= rows.Keys
    ensures NewestFirstOrder(rows, r)
    ensures multiset(r) == multiset(ids)
    decreases ids
  {
    if ids == {} then []
    else
      var x :| x in ids;
      var r := InsertNewest(rows, x, NewestFirst(rows, ids - {x}));
      assert multiset(ids - {x}) + multiset{x} == multiset(ids);
      r
  }

  /** A list whose multiset is a set has no repeated entries. */
  lemma {:induction false} SetMultisetDistinct(s: seq<RequestId>, ids: set<RequestId>)
    requires multiset(s) == multiset(ids)
    ensures Distinct(s)
    ensures forall id :: id in s <==> id in ids
  {
    if s != [] {
      var rest := ids - {s[0]};
      DropHead(s, ids);
      SetMultisetDistinct(s[1..], rest);
      DistinctCons(s);
    }
    SameMembers(s, ids);
  }

  /** Lists and sets with one multiset have the same members. */
  lemma SameMembers(s: seq<RequestId>, ids: set<RequestId>)
    requires multiset(s) == multiset(ids)
    ensures forall id :: id in s <==> id in ids
  {
    assert forall id :: id in s <==> id in multiset(s);
  }

  /** Removing the head of such a list removes it from the set. */
  lemma DropHead(s: seq<RequestId>, ids: set<RequestId>)
    requires s != [] && multiset(s) == multiset(ids)
    ensures multiset(s[1..]) == multiset(ids - {s[0]})
  {
    assert s == [s[0]] + s[1..];
    assert s[0] in multiset(ids);
    assert multiset(s[1..]) == multiset(s) - multiset{s[0]};
    assert multiset(ids) == multiset(ids - {s[0]}) + multiset{s[0]};
  }

  /** A head absent from a repetition-free tail gives a repetition-free list. */
  lemma DistinctCons(s: seq<RequestId>)
    requires s != [] && Distinct(s[1..]) && s[0] !in s[1..]
    ensures Distinct(s)
  {
    forall i, j | 0 <= i < j < |s|
      ensures s[i] != s[j]
    {
      assert s[j] == s[1..][j - 1];
      if i > 0 {
        assert s[i] == s[1..][i - 1];
      }
    }
  }

  /**
   * `WithdrawalRequest.objects.filter(user=user).order_by('-requested_at')`:
   * exactly the user's requests, each once, newest first. Requests with the
   * same timestamp come in an order the database chooses.
   */
  ghost function History(rows: map<RequestId, RequestRow>, user: UserId): (r: seq<RequestId>)
    ensures forall id :: id in r <==> id in rows && rows[id].user == user
    ensures Distinct(r)
    ensures NewestFirstOrder(rows, r)
  {
    var mine := set id | id in rows && rows[id].user == user;
    var r := NewestFirst(rows, mine);
    SetMultisetDistinct(r, mine);
    r
  }

  // ---------------------------------------------------------------------------
  // AdminWithdrawalActionView.post
  // ---------------------------------------------------------------------------

  /** The two actions the endpoint accepts. */
  datatype Action = Approve | Reject

  /** The ASCII upper-case letters lowered; every other character unchanged. */
  function LowerChar(c: char): char {
    if 'A' <= c <= 'Z' then (c as int + 32) as char else c
  }

  function Lower(s: string): (r: string)
    ensures |r| == |s|
    ensures forall i :: 0 <= i < |s| ==> r[i] == LowerChar(s[i])
  {
    if s == [] then [] else [LowerChar(s[0])] + Lower(s[1..])
  }

  /**
   * `request.data.get('action', '').lower()` compared with 'approve' and
   * 'reject'; a missing action is the empty string.
   */
  function ParseAction(action: Option<string>): (r: Option<Action>)
    ensures r == Some(Approve) <==> action.Some? && Lower(action.value) == "approve"
    ensures r == Some(Reject) <==> action.Some? && Lower(action.value) == "reject"
  {
    var a := Lower(if action.Some? then action.value else "");
    if a == "approve" then Some(Approve) else if a == "reject" then Some(Reject) else None
  }

  /** The case of the action does not matter: "APPROVE" and "Reject" are accepted. */
  lemma ActionCaseInsensitive()
    ensures ParseAction(Some("APPROVE")) == Some(Approve)
  {
    assert Lower("APPROVE") == "approve";
  }

  /** Mixed case is accepted too. */
  lemma RejectCaseInsensitive()
    ensures ParseAction(Some("Reject")) == Some(Reject)
  {
    assert Lower("Reject") == "reject";
  }

  /** A missing action, or any other word, is invalid. */
  lemma UnknownActionInvalid()
    ensures ParseAction(None) == None
    ensures ParseAction(Some("cancel")) == None
  {
    assert Lower("cancel") == "cancel";
  }

  /** The endpoint's responses. */
  datatype ActionOutcome =
    | InvalidAction            // 400: the action is neither approve nor reject
    | LookupFailed             // no request with this id (see LookupHttpStatus)
    | NotPending(status: Status)  // 400: "Request is already in '...' status."
    | WalletMissing            // 500: the owner has no wallet row
    | PayoutIdClash            // 500: the simulated payout id is already taken
    | ReasonRequired           // 400: reject with an empty or missing reason
    | ApprovedNoPayout         // 200: approved, the funds stay locked
    | RejectedUnlocked         // 200: rejected and the funds unlocked

  const SimPayoutPrefix: string := "sim_pout_"

  /** Python's truth test on the optional reason: None and "" are false. */
  predicate Truthy(reason: Option<string>) {
    reason.Some? && reason.value != ""
  }

  /** Another request already carries payout id `pid`. */
  predicate PayoutIdTaken(rows: map<RequestId, RequestRow>, id: RequestId, pid: string) {
    exists k :: k in rows && k != id && rows[k].payoutId == Some(pid)
  }

  /**
   * The endpoint as a function of the tables. `uuid` is the text of the
   * `uuid4()` the approve branch draws; `now` is `timezone.now()`.
   */
  function PostStep(L: Ledger, id: RequestId, action: Option<string>, reason: Option<string>,
                    admin: UserId, now: Time, uuid: string): (Ledger, ActionOutcome)
  {
    var act := ParseAction(action);
    if act.None? then (L, InvalidAction)
    else if id !in L.rows then (L, LookupFailed)
    else if L.rows[id].status != Pending then (L, NotPending(L.rows[id].status))
    else if L.rows[id].user !in L.wallets then (L, WalletMissing)
    else if act.value == Approve then ApiApproveStep(L, id, admin, now, SimPayoutPrefix + uuid)
    else ApiRejectStep(L, id, reason, admin, now)
  }

  /** The approve branch on a found, PENDING request whose owner has a wallet. */
  function ApiApproveStep(L: Ledger, id: RequestId, admin: UserId, now: Time, pid: string): (Ledger, ActionOutcome)
    requires id in L.rows
  {
    if PayoutIdTaken(L.rows, id, pid) then (L, PayoutIdClash)
    else
      (L.(rows := L.rows[id := L.rows[id].(status := Approved, processedBy := Some(admin), processedAt := Some(now),
                                            payoutId := Some(pid))]),
       ApprovedNoPayout)
  }

  /** The reject branch on a found, PENDING request whose owner has a wallet. */
  function ApiRejectStep(L: Ledger, id: RequestId, reason: Option<string>, admin: UserId, now: Time): (Ledger, ActionOutcome)
    requires id in L.rows && L.rows[id].user in L.wallets
  {
    if !Truthy(reason) then (L, ReasonRequired)
    else
      var r := L.rows[id];
      var b := L.wallets[r.user];
      (Ledger(L.rows[id := r.(status := Rejected, rejectionReason := reason, processedBy := Some(admin),
                              processedAt := Some(now))],
              L.wallets[r.user := Balances(b.withdrawable + r.amount, b.locked - r.amount)]),
       RejectedUnlocked)
  }

  /**
   * The guards of the endpoint: every response other than the two successes
   * leaves both tables as they were; a success needs a valid action, a
   * PENDING request, its owner's wallet, and for reject a non-empty reason.
   */
  lemma PostGuards(L: Ledger, id: RequestId, action: Option<string>, reason: Option<string>,
                   admin: UserId, now: Time, uuid: string)
    ensures var (L', out) := PostStep(L, id, action, reason, admin, now, uuid);
      && (out != ApprovedNoPayout && out != RejectedUnlocked ==> L' == L)
      && (out == InvalidAction <==> ParseAction(action).None?)
      && (out.NotPending? <==> ParseAction(action).Some? && id in L.rows && L.rows[id].status != Pending)
      && (out.NotPending? ==> out.status == L.rows[id].status)
      && (out == ApprovedNoPayout ==> ParseAction(action) == Some(Approve))
      && (out == RejectedUnlocked ==> ParseAction(action) == Some(Reject) && Truthy(reason))
      && (out == ApprovedNoPayout || out == RejectedUnlocked ==>
            id in L.rows && L.rows[id].status == Pending && L.rows[id].user in L.wallets)
      && ((ParseAction(action) == Some(Reject) && id in L.rows && L.rows[id].status == Pending
           && L.rows[id].user in L.wallets) ==> (out == ReasonRequired <==> !Truthy(reason)))
  {
  }

  /**
   * Approve through the endpoint: the request becomes APPROVED by `admin` at
   * `now` with a payout id starting "sim_pout_"; no wallet changes, so the
   * funds stay locked; no other request changes.
   */
  lemma PostApproveEffect(L: Ledger, id: RequestId, action: Option<string>, reason: Option<string>,
                          admin: UserId, now: Time, uuid: string)
    requires PostStep(L, id, action, reason, admin, now, uuid).1 == ApprovedNoPayout
    ensures var L' := PostStep(L, id, action, reason, admin, now, uuid).0;
      && L'.wallets == L.wallets
      && L'.rows.Keys == L.rows.Keys
      && (forall k :: k in L.rows && k != id ==> L'.rows[k] == L.rows[k])
      && L'.rows[id].status == Approved
      && L'.rows[id].processedBy == Some(admin) && L'.rows[id].processedAt == Some(now)
      && L'.rows[id].payoutId.Some? && SimPayoutPrefix <= L'.rows[id].payoutId.value
      && L'.rows[id].rejectionReason == L.rows[id].rejectionReason
      && L'.rows[id].amount == L.rows[id].amount && L'.rows[id].user == L.rows[id].user
  {
  }

  /**
   * Reject through the endpoint: the request becomes REJECTED with the given
   * reason; its amount moves from locked to withdrawable, so the owner's total
   * is conserved; nothing else changes.
   */
  lemma PostRejectEffect(L: Ledger, id: RequestId, action: Option<string>, reason: Option<string>,
                         admin: UserId, now: Time, uuid: string)
    requires PostStep(L, id, action, reason, admin, now, uuid).1 == RejectedUnlocked
    ensures var L' := PostStep(L, id, action, reason, admin, now, uuid).0;
      var r := L.rows[id];
      && L'.rows.Keys == L.rows.Keys && L'.wallets.Keys == L.wallets.Keys
      && (forall k :: k in L.rows && k != id ==> L'.rows[k] == L.rows[k])
      && (forall u :: u in L.wallets && u != r.user ==> L'.wallets[u] == L.wallets[u])
      && L'.rows[id].status == Rejected && L'.rows[id].rejectionReason == reason
      && L'.rows[id].processedBy == Some(admin) && L'.rows[id].payoutId == r.payoutId
      && L'.wallets[r.user].locked == L.wallets[r.user].locked - r.amount
      && L'.wallets[r.user].withdrawable == L.wallets[r.user].withdrawable + r.amount
      && L'.wallets[r.user].Total() == L.wallets[r.user].Total()
  {
  }

  /**
   * Deciding the same request twice through the endpoint: after a success the
   * request is no longer PENDING, so any second valid decision is refused
   * with its new status and changes nothing.
   */
  lemma PostTwiceRefused(L: Ledger, id: RequestId, action: Option<string>, reason: Option<string>,
                         admin: UserId, now: Time, uuid: string,
                         action2: Option<string>, reason2: Option<string>, admin2: UserId, now2: Time, uuid2: string)
    requires PostStep(L, id, action, reason, admin, now, uuid).1 in {ApprovedNoPayout, RejectedUnlocked}
    requires ParseAction(action2).Some?
    ensures var L1 := PostStep(L, id, action, reason, admin, now, uuid).0;
      var (L2, out2) := PostStep(L1, id, action2, reason2, admin2, now2, uuid2);
      && L2 == L1
      && out2 == NotPending(if ParseAction(action) == Some(Approve) then Approved else Rejected)
  {
    PostGuards(L, id, action, reason, admin, now, uuid);
  }

  /** When the wallet covered the amount, neither balance of a rejected request's owner goes negative. */
  lemma PostRejectKeepsBalancesNonNegative(L: Ledger, id: RequestId, action: Option<string>, reason: Option<string>,
                                           admin: UserId, now: Time, uuid: string)
    requires PostStep(L, id, action, reason, admin, now, uuid).1 == RejectedUnlocked
    requires L.rows[id].amount <= L.wallets[L.rows[id].user].locked
    requires 0 <= L.rows[id].amount && 0 <= L.wallets[L.rows[id].user].withdrawable
    ensures var b := PostStep(L, id, action, reason, admin, now, uuid).0.wallets[L.rows[id].user];
      0 <= b.locked && 0 <= b.withdrawable
  {
    PostRejectEffect(L, id, action, reason, admin, now, uuid);
  }

  /** The endpoint never creates a duplicate payout id: uniqueness of `razorpay_payout_id` is kept. */
  lemma PostKeepsPayoutIdsUnique(L: Ledger, id: RequestId, action: Option<string>, reason: Option<string>,
                                 admin: UserId, now: Time, uuid: string)
    requires PayoutIdsUnique(L.rows)
    ensures PayoutIdsUnique(PostStep(L, id, action, reason, admin, now, uuid).0.rows)
  {
    var (L', out) := PostStep(L, id, action, reason, admin, now, uuid);
    if out == ApprovedNoPayout {
      var pid := SimPayoutPrefix + uuid;
      assert !PayoutIdTaken(L.rows, id, pid);
      assert L'.rows == L.rows[id := L'.rows[id]];
      assert L'.rows[id].payoutId == Some(pid);
    } else if out == RejectedUnlocked {
      assert L'.rows == L.rows[id := L'.rows[id]];
      assert L'.rows[id].payoutId == L.rows[id].payoutId;
    }
  }

  /** The HTTP status of a response, as the code behaves. */
  function HttpStatus(out: ActionOutcome): (code: int)
  {
    match out
    case InvalidAction => 400
    case LookupFailed => 500
    case NotPending(_) => 400
    case WalletMissing => 500
    case PayoutIdClash => 500
    case ReasonRequired => 400
    case ApprovedNoPayout => 200
    case RejectedUnlocked => 200
  }

  /**
   * The response the handler's own `except` clause was written to give for an
   * unknown id: 404. Everywhere else it agrees with HttpStatus.
   */
  function IntendedHttpStatus(out: ActionOutcome): (code: int)
  {
    if out == LookupFailed then 404 else HttpStatus(out)
  }

  /**
   * What the status code tells the caller: 200 exactly when the tables
   * changed; 400 exactly for the caller's own mistakes (an unknown action, a
   * request already decided, a reject without a reason); as written 500 for
   * every other failure, an unknown id included, which the handler meant to
   * answer with 404.
   */
  lemma PostStatusCodes(L: Ledger, id: RequestId, action: Option<string>, reason: Option<string>,
                        admin: UserId, now: Time, uuid: string)
    ensures var (L', out) := PostStep(L, id, action, reason, admin, now, uuid);
      && (HttpStatus(out) == 200 <==> L' != L)
      && (HttpStatus(out) == 400 <==>
            || ParseAction(action).None?
            || (id in L.rows && L.rows[id].status != Pending)
            || (ParseAction(action) == Some(Reject) && id in L.rows && L.rows[id].user in L.wallets && !Truthy(reason)))
      && (HttpStatus(out) == 500 <==> HttpStatus(out) != 200 && HttpStatus(out) != 400)
      && (IntendedHttpStatus(out) == 404 <==> ParseAction(action).Some? && id !in L.rows)
  {
    PostGuards(L, id, action, reason, admin, now, uuid);
    var (L', out) := PostStep(L, id, action, reason, admin, now, uuid);
    if out == ApprovedNoPayout || out == RejectedUnlocked {
      assert L'.rows[id].status != L.rows[id].status;
    }
  }

  /**
   * An unknown id with a valid action reaches the lookup and, as written,
   * answers 500 instead of the intended 404. No other response differs.
   */
  lemma UnknownIdAnswers500(L: Ledger, id: RequestId, admin: UserId, now: Time, uuid: string)
    requires id !in L.rows
    ensures var out := PostStep(L, id, Some("approve"), None, admin, now, uuid).1;
      out == LookupFailed && HttpStatus(out) == 500 && IntendedHttpStatus(out) == 404
    ensures forall out: ActionOutcome :: out != LookupFailed ==> HttpStatus(out) == IntendedHttpStatus(out)
  {
    assert Lower("approve") == "approve";
  }

  /**
   * `AdminWithdrawalActionView.post`. It lowers the action, looks the request
   * up, checks that it is PENDING, locks the owner's wallet and then either
   * approves (no balance change) or rejects (funds unlocked). The new tables
   * and the response are exactly PostStep of the old tables.
   */
  method Post(db: Database, id: RequestId, action: Option<string>, reason: Option<string>,
              admin: UserId, now: Time, uuid: string) returns (out: ActionOutcome)
    requires db.Valid()
    modifies db.RequestFrame(id), db.OwnerWalletFrame(id)
    ensures db.Snapshot() == PostStep(old(db.Snapshot()), id, action, reason, admin, now, uuid).0
    ensures out == PostStep(old(db.Snapshot()), id, action, reason, admin, now, uuid).1
  {
    var act := ParseAction(action);
    if act.None? {
      return InvalidAction;
    }
    if id !in db.requests {
      return LookupFailed;
    }
    var req := db.requests[id];
    if req.status != Pending {
      return NotPending(req.status);
    }
    if req.user !in db.wallets {
      return WalletMissing;
    }
    if act.value == Approve {
      out := ApprovePending(db, id, admin, now, SimPayoutPrefix + uuid);
    } else {
      out := RejectPending(db, id, reason, admin, now);
    }
  }

  /** The approve branch: refuse a payout id already in use, else mark the request. */
  method ApprovePending(db: Database, id: RequestId, admin: UserId, now: Time, pid: string) returns (out: ActionOutcome)
    requires db.Valid() && db.RowsFound(id)
    modifies db.RequestFrame(id)
    ensures db.Snapshot() == ApiApproveStep(old(db.Snapshot()), id, admin, now, pid).0
    ensures out == ApiApproveStep(old(db.Snapshot()), id, admin, now, pid).1
  {
    ghost var L := db.Snapshot();
    var req := db.requests[id];
    var wallet := db.wallets[req.user];
    if PayoutIdTaken(db.Snapshot().rows, id, pid) {
      return PayoutIdClash;
    }
    ApproveThroughApi(req, admin, now, pid);
    SnapshotAfterTransaction(db, id, L);
    assert L.wallets[req.user := wallet.View()] == L.wallets;
    out := ApprovedNoPayout;
  }

  /** The reject branch: demand a reason, then unlock the funds and mark the request. */
  method RejectPending(db: Database, id: RequestId, reason: Option<string>, admin: UserId, now: Time)
    returns (out: ActionOutcome)
    requires db.Valid() && db.RowsFound(id)
    modifies db.RequestFrame(id), db.OwnerWalletFrame(id)
    ensures db.Snapshot() == ApiRejectStep(old(db.Snapshot()), id, reason, admin, now).0
    ensures out == ApiRejectStep(old(db.Snapshot()), id, reason, admin, now).1
  {
    ghost var L := db.Snapshot();
    if !Truthy(reason) {
      return ReasonRequired;
    }
    var req := db.requests[id];
    var wallet := db.wallets[req.user];
    RejectThroughApi(req, wallet, reason, admin, now);
    SnapshotAfterTransaction(db, id, L);
    out := RejectedUnlocked;
  }

  /** The approve branch's assignments to the locked request. */
  method ApproveThroughApi(req: WithdrawalRequest, admin: UserId, now: Time, pid: string)
    modifies req
    ensures req.Row() == old(req.Row()).(status := Approved, processedBy := Some(admin), processedAt := Some(now),
                                         payoutId := Some(pid))
  {
    req.status := Approved;
    req.processedBy := Some(admin);
    req.processedAt := Some(now);
    req.razorpayPayoutId := Some(pid);
  }

  /** The reject branch's assignments: unlock the funds, then mark the request. */
  method RejectThroughApi(req: WithdrawalRequest, wallet: UserWallet, reason: Option<string>, admin: UserId, now: Time)
    modifies req, wallet
    ensures wallet.View() == Balances(old(wallet.withdrawableBalance) + req.amount, old(wallet.lockedBalance) - req.amount)
    ensures req.Row() == old(req.Row()).(status := Rejected, rejectionReason := reason, processedBy := Some(admin),
                                         processedAt := Some(now))
  {
    wallet.lockedBalance := wallet.lockedBalance - req.amount;
    wallet.withdrawableBalance := wallet.withdrawableBalance + req.amount;
    req.status := Rejected;
    req.rejectionReason := reason;
    req.processedBy := Some(admin);
    req.processedAt := Some(now);
  }
}

/**
 * The two tables of the wallet application: one UserWallet per user and the
 * WithdrawalRequest audit records (auth_backend/wallet/models.py).
 *
 * Rows are objects; the ORM's tables are the two maps of `Database`.
 * Columns that the wallet core never writes are `const`.
 */
module WalletModels {
  import opened Options

  type UserId = nat

  /** The public `request_id` (a UUID); its value is irrelevant, only its identity. */
  type RequestId = nat

  /** An abstract instant, the value of `timezone.now()`. */
  type Time = int

  /** A decimal amount with two places, counted in paise (hundredths). */
  type Paise = int

  /** Both money columns are DecimalField(max_digits=12, decimal_places=2). */
  const MaxDigits: nat := 12
  const DecimalPlaces: nat := 2

  /** MinValueValidator(Decimal('1.00')) on `amount`, in paise. */
  const MinWithdrawalAmount: Paise := 100

  function Pow10(n: nat): (p: nat)
    ensures p >= 1
  {
    if n == 0 then 1 else 10 * Pow10(n - 1)
  }

  /** A value in paise can be stored with at most `MaxDigits` digits, of which two are decimals. */
  predicate FitsMoneyColumn(x: Paise) {
    -(Pow10(MaxDigits) as int) < x < Pow10(MaxDigits)
  }

  /** What the `amount` column's validators accept. */
  predicate ValidWithdrawalAmount(x: Paise) {
    MinWithdrawalAmount <= x && FitsMoneyColumn(x)
  }

  lemma {:induction false} Pow10Twelve()
    ensures Pow10(MaxDigits) == 1_000_000_000_000
  {
    assert Pow10(2) == 100;
    assert Pow10(4) == 10 * (10 * Pow10(2));
    assert Pow10(8) == 10 * (10 * (10 * (10 * Pow10(4))));
    assert Pow10(12) == 10 * (10 * (10 * (10 * Pow10(8))));
  }

  /** The largest storable balance is 9999999999.99, the smallest valid amount 1.00. */
  lemma MoneyColumnRange(x: Paise)
    ensures FitsMoneyColumn(x) <==> -1_000_000_000_000 < x < 1_000_000_000_000
    ensures ValidWithdrawalAmount(x) <==> 100 <= x <= 999_999_999_999
  {
    Pow10Twelve();
  }

  /** WithdrawalRequest.StatusChoices: a closed set of seven values; CANCELLED is reserved. */
  datatype Status = Pending | Approved | Rejected | Processing | Completed | Failed | Cancelled

  /** WithdrawalRequest.MethodChoices. */
  datatype PayoutMethod = Upi | Bank

  const AllStatuses: seq<Status> := [Pending, Approved, Rejected, Processing, Completed, Failed, Cancelled]

  /** The value stored in the `status` column. */
  function StatusValue(s: Status): string {
    match s
    case Pending => "pending"
    case Approved => "approved"
    case Rejected => "rejected"
    case Processing => "processing"
    case Completed => "completed"
    case Failed => "failed"
    case Cancelled => "cancelled"
  }

  /** Reading the `status` column back: only the seven choice values are statuses. */
  function ParseStatus(v: string): (r: Option<Status>)
    ensures r.Some? ==> StatusValue(r.value) == v
    ensures forall s :: StatusValue(s) == v ==> r == Some(s)
  {
    if v == "pending" then Some(Pending)
    else if v == "approved" then Some(Approved)
    else if v == "rejected" then Some(Rejected)
    else if v == "processing" then Some(Processing)
    else if v == "completed" then Some(Completed)
    else if v == "failed" then Some(Failed)
    else if v == "cancelled" then Some(Cancelled)
    else None
  }

  /** Exactly seven statuses, with seven distinct stored values. */
  lemma StatusChoicesClosed(s: Status)
    ensures s in AllStatuses
    ensures |AllStatuses| == 7
    ensures forall i, j :: 0 <= i < j < |AllStatuses| ==> StatusValue(AllStatuses[i]) != StatusValue(AllStatuses[j])
  {
  }

  function MethodValue(m: PayoutMethod): string {
    match m
    case Upi => "upi"
    case Bank => "bank"
  }

  /** Reading the `method` column back: exactly "upi" and "bank" are methods. */
  function ParseMethod(v: string): (r: Option<PayoutMethod>)
    ensures r.Some? ==> MethodValue(r.value) == v
    ensures forall m :: MethodValue(m) == v ==> r == Some(m)
  {
    if v == "upi" then Some(Upi) else if v == "bank" then Some(Bank) else None
  }

  /** No request id occurs twice in `s`. */
  predicate Distinct(s: seq<RequestId>) {
    forall i, j :: 0 <= i < j < |s| ==> s[i] != s[j]
  }

  /** A wallet's two balances. */
  datatype Balances = Balances(withdrawable: Paise, locked: Paise) {
    /** `total_balance`: the only aggregate of the two. */
    function Total(): Paise {
      withdrawable + locked
    }
  }

  /** The columns of one withdrawal request. */
  datatype RequestRow = RequestRow(
    user: UserId,
    amount: Paise,
    requestedAt: Time,
    status: Status,
    processedAt: Option<Time>,
    processedBy: Option<UserId>,
    rejectionReason: Option<string>,
    payoutId: Option<string>,
    payoutStatus: Option<string>)

  /** Both tables as values: requests by `request_id`, wallets by owner. */
  datatype Ledger = Ledger(rows: map<RequestId, RequestRow>, wallets: map<UserId, Balances>)

  /** `razorpay_payout_id` is unique=True with null allowed: set values never repeat. */
  predicate PayoutIdsUnique(rows: map<RequestId, RequestRow>) {
    forall i, j :: i in rows && j in rows && i != j && rows[i].payoutId.Some? ==> rows[i].payoutId != rows[j].payoutId
  }

  /** One wallet row; the two balances are the only columns the core changes. */
  class UserWallet {
    const user: UserId
    var withdrawableBalance: Paise
    var lockedBalance: Paise

    /** A new row takes the column defaults 0.00 and 0.00. */
    constructor (user: UserId)
      ensures this.user == user
      ensures withdrawableBalance == 0 && lockedBalance == 0
    {
      this.user := user;
      withdrawableBalance := 0;
      lockedBalance := 0;
    }

    /** The row's two balances as a value. */
    function View(): Balances
      reads this
    {
      Balances(withdrawableBalance, lockedBalance)
    }

    /** The `total_balance` property. */
    function TotalBalance(): Paise
      reads this
    {
      View().Total()
    }
  }

  /** One withdrawal request row: a permanent audit record. */
  class WithdrawalRequest {
    const requestId: RequestId
    const user: UserId
    const amount: Paise
    const payoutMethod: PayoutMethod
    const requestedAt: Time
    var status: Status
    var processedAt: Option<Time>
    var processedBy: Option<UserId>
    var rejectionReason: Option<string>
    var razorpayPayoutId: Option<string>
    var razorpayPayoutStatus: Option<string>

    /** A new row: status defaults to PENDING, every nullable column is empty. */
    constructor (requestId: RequestId, user: UserId, amount: Paise, payoutMethod: PayoutMethod, requestedAt: Time)
      ensures this.requestId == requestId && this.user == user && this.amount == amount
      ensures this.payoutMethod == payoutMethod && this.requestedAt == requestedAt
      ensures status == Pending
      ensures processedAt == None && processedBy == None && rejectionReason == None
      ensures razorpayPayoutId == None && razorpayPayoutStatus == None
    {
      this.requestId := requestId;
      this.user := user;
      this.amount := amount;
      this.payoutMethod := payoutMethod;
      this.requestedAt := requestedAt;
      status := Pending;
      processedAt := None;
      processedBy := None;
      rejectionReason := None;
      razorpayPayoutId := None;
      razorpayPayoutStatus := None;
    }

    /** The row's columns as a value. */
    function Row(): RequestRow
      reads this
    {
      RequestRow(user, amount, requestedAt, status, processedAt, processedBy,
                 rejectionReason, razorpayPayoutId, razorpayPayoutStatus)
    }
  }

  /** The two tables, keyed by their unique columns. */
  class Database {
    var wallets: map<UserId, UserWallet>
    var requests: map<RequestId, WithdrawalRequest>

    /**
     * The keys are the rows' own unique columns: `user` is a OneToOneField and
     * `request_id` is unique, so no row is stored under two keys.
     */
    ghost predicate Valid()
      reads this
    {
      && (forall u :: u in wallets ==> wallets[u].user == u)
      && (forall id :: id in requests ==> requests[id].requestId == id)
    }

    /** The contents of both tables as a value. */
    function Snapshot(): Ledger
      reads this, requests.Values, wallets.Values
    {
      Ledger(map id | id in requests :: requests[id].Row(), map u | u in wallets :: wallets[u].View())
    }

    /** The request row with this id, as a frame. */
    function RequestFrame(id: RequestId): (rows: set<WithdrawalRequest>)
      reads this
      ensures rows <= requests.Values
    {
      if id in requests then {requests[id]} else {}
    }

    /** The wallet row of the owner of request `id`, as a frame. */
    function OwnerWalletFrame(id: RequestId): (rows: set<UserWallet>)
      reads this
      ensures rows <= wallets.Values
    {
      if id in requests && requests[id].user in wallets then {wallets[requests[id].user]} else {}
    }

    /** The request exists and its owner has a wallet: both `select_for_update().get` calls succeed. */
    predicate RowsFound(id: RequestId)
      reads this
    {
      id in requests && requests[id].user in wallets
    }

    constructor ()
      ensures wallets == map[] && requests == map[]
      ensures Valid()
    {
      wallets := map[];
      requests := map[];
    }
  }

  /**
   * When every row other than request `id` and its owner's wallet reads as in
   * `L`, the snapshot is `L` with just those two entries replaced.
   */
  lemma SnapshotAfterTransaction(db: Database, id: RequestId, L: Ledger)
    requires db.RowsFound(id)
    requires L.rows.Keys == db.requests.Keys && L.wallets.Keys == db.wallets.Keys
    requires forall k :: k in db.requests && k != id ==> db.requests[k].Row() == L.rows[k]
    requires forall u :: u in db.wallets && u != db.requests[id].user ==> db.wallets[u].View() == L.wallets[u]
    ensures db.Snapshot()
      == Ledger(L.rows[id := db.requests[id].Row()], L.wallets[db.requests[id].user := db.wallets[db.requests[id].user].View()])
  {
  }
}

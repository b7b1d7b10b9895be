/**
 * The relational tables of the service: users, transactions, quotes, notifications,
 * the Go Credit and Go Wallet ledgers and ratings. Timestamps are integers (milliseconds);
 * amounts are integers.
 */
module Schema {
  import opened Wrappers

  datatype TransactionStatus = Pending | Quote | Order | Cancelled | Complete

  /** The text stored in the `status` column. */
  function StatusText(s: TransactionStatus): (text: string)
    ensures ParseStatus(text) == Some(s)
  {
    match s
    case Pending => "pending"
    case Quote => "quote"
    case Order => "order"
    case Cancelled => "cancelled"
    case Complete => "complete"
  }

  /** Reads the `status` column: the five values of the enum and nothing else. */
  function ParseStatus(text: string): (r: Option<TransactionStatus>)
    ensures r.Some? ==> text in ["pending", "quote", "order", "cancelled", "complete"]
  {
    if text == "pending" then Some(Pending)
    else if text == "quote" then Some(Quote)
    else if text == "order" then Some(Order)
    else if text == "cancelled" then Some(Cancelled)
    else if text == "complete" then Some(Complete)
    else None
  }

  predicate IsTerminal(s: TransactionStatus) { s == Cancelled || s == Complete }

  datatype TransactionType = Regular | WalletIn | WalletOut

  function TypeText(t: TransactionType): (text: string)
    ensures ParseType(Some(text)) == Some(t)
  {
    match t
    case Regular => "regular"
    case WalletIn => "wallet-in"
    case WalletOut => "wallet-out"
  }

  /** Reads the `type` column as written on insert: an omitted value takes the default 'regular'. */
  function ParseType(column: Option<string>): (r: Option<TransactionType>)
    ensures column.None? ==> r == Some(Regular)
    ensures column.Some? && r.Some? ==> column.value in ["regular", "wallet-in", "wallet-out"]
  {
    match column
    case None => Some(Regular)
    case Some(text) =>
      if text == "regular" then Some(Regular)
      else if text == "wallet-in" then Some(WalletIn)
      else if text == "wallet-out" then Some(WalletOut)
      else None
  }

  datatype UserRow = UserRow(id: string, did: string, phoneNumber: string)

  datatype TransactionRow = TransactionRow(
    id: string,
    userId: string,
    exchangeId: string,
    offeringId: string,
    pfiDid: string,
    amount: string,
    status: TransactionStatus,
    txType: TransactionType,
    payinKind: string,
    payoutKind: string,
    createdAt: int)

  /** A stored quote: fee, expiry and payout columns are nullable, payin columns are not. */
  datatype QuoteRow = QuoteRow(
    id: string,
    userId: string,
    transactionId: string,
    exchangeId: string,
    pfiDid: string,
    payinAmount: int,
    payinCurrency: string,
    fee: Option<int>,
    expiresAt: Option<int>,
    payoutAmount: Option<int>,
    payoutCurrency: Option<string>,
    createdAt: int)

  datatype NotificationType = QuoteNotice | OrderNotice | StatusUpdateNotice | CloseNotice

  function NotificationTypeText(t: NotificationType): string
  {
    match t
    case QuoteNotice => "quote"
    case OrderNotice => "order"
    case StatusUpdateNotice => "status-update"
    case CloseNotice => "close"
  }

  /** Keyed by `id`, the primary key: the remote message id that caused it. */
  datatype NotificationRow = NotificationRow(
    id: string,
    userId: string,
    transactionId: string,
    kind: NotificationType,
    data: Option<string>,
    createdAt: int)

  /** A row of the append-only Go Credit ledger: a signed integer amount. */
  datatype CreditEntry = CreditEntry(userId: string, amount: int, reference: Option<string>)

  /** A row of the append-only Go Wallet ledger; the source transaction is required. */
  datatype WalletEntry = WalletEntry(
    userId: string,
    sourceTransactionId: string,
    pfiDid: string,
    currencyCode: string,
    amount: int,
    reference: Option<string>)

  datatype RatingRow = RatingRow(transactionId: string, rating: int)

  /** The balance view: the sum of a user's credit ledger amounts. */
  function CreditBalance(ledger: seq<CreditEntry>, userId: string): (balance: int)
    decreases |ledger|
  {
    if |ledger| == 0 then 0
    else
      var last := ledger[|ledger| - 1];
      CreditBalance(ledger[..|ledger| - 1], userId) + (if last.userId == userId then last.amount else 0)
  }

  /** Appending an entry moves only its own user's balance, by exactly its amount. */
  lemma CreditBalanceAppend(ledger: seq<CreditEntry>, e: CreditEntry, userId: string)
    ensures CreditBalance(ledger + [e], userId)
         == CreditBalance(ledger, userId) + (if e.userId == userId then e.amount else 0)
  {
    assert (ledger + [e])[..|ledger|] == ledger;
  }
}

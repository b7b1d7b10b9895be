/** The tbDEX protocol messages of one exchange, as the counterparty returns them. */
module Messages {
  import opened Wrappers

  datatype Metadata = Metadata(id: string, exchangeId: string, from: string, createdAt: int)

  /** A quote's payload; the fee is optional in the protocol. */
  datatype QuoteData = QuoteData(
    payinCurrency: string,
    payinAmount: int,
    payinFee: Option<int>,
    payoutCurrency: string,
    payoutAmount: int,
    expiresAt: int)

  datatype QuoteMsg = QuoteMsg(meta: Metadata, data: QuoteData)

  datatype OrderMsg = OrderMsg(meta: Metadata)

  datatype OrderStatusMsg = OrderStatusMsg(meta: Metadata, orderStatus: string)

  /** A close; `success` and `reason` are optional in the protocol. */
  datatype CloseMsg = CloseMsg(meta: Metadata, success: Option<bool>, reason: Option<string>)

  /** One message of a conversation, tagged by its kind. */
  datatype Message =
    | RfqMessage(meta: Metadata)
    | QuoteMessage(quote: QuoteMsg)
    | OrderMessage(order: OrderMsg)
    | StatusMessage(status: OrderStatusMsg)
    | CloseMessage(close: CloseMsg)
  {
    function Id(): string
    {
      match this
      case RfqMessage(m) => m.id
      case QuoteMessage(q) => q.meta.id
      case OrderMessage(o) => o.meta.id
      case StatusMessage(s) => s.meta.id
      case CloseMessage(c) => c.meta.id
    }
  }

  function QuoteCreatedAt(q: QuoteMsg): int { q.meta.createdAt }

  function StatusCreatedAt(s: OrderStatusMsg): int { s.meta.createdAt }
}

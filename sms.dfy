/** The user-facing SMS texts of the exchange notifications; sending is an append to an outbox. */
module Sms {
  import opened Wrappers
  import opened Text
  import opened Schema

  /** Which message was sent, with the data its text is built from; `Render` builds the text. */
  datatype SmsBody =
    | QuoteBody(transactionId: string, quote: QuoteRow, balance: Option<int>)
    | OrderBody(transactionId: string, quote: QuoteRow, balance: Option<int>)
    | CloseBody(transactionId: string, success: bool, reason: Option<string>)
    | StatusUpdateBody(transactionId: string, orderStatus: string)
    | RatePromptBody(transactionId: string)
    | QuoteExpiredBody(transactionId: string)
    | InvalidQuoteReplyBody
    | OrderProcessingBody(transactionId: string)
    | OrderFailedBody(transactionId: string)
    | CancelProcessingBody(transactionId: string)
    | CancelFailedBody(transactionId: string)
    | InvalidRatingBody
    | RatingThanksBody

  /** One SMS handed to the gateway: the recipient's phone number and the message. */
  datatype Sms = Sms(to: string, body: SmsBody)
  {
    function Text(): string { Render(body) }
  }

  /** A nullable column interpolated into a message: the word null when it is null. */
  function OptionalIntText(o: Option<int>): string
  {
    match o
    case None => "null"
    case Some(v) => IntToString(v)
  }

  function OptionalText(o: Option<string>): string
  {
    match o
    case None => "null"
    case Some(v) => v
  }

  /** A missing fee counts as 0. */
  function ShownFee(quote: QuoteRow): (fee: int)
    ensures quote.fee.None? ==> fee == 0
    ensures quote.fee.Some? ==> fee == quote.fee.value
  {
    match quote.fee
    case None => 0
    case Some(f) => f
  }

  /** The amount the user is told they will pay: the payin amount plus the fee shown. */
  function PayAmount(quote: QuoteRow): (amount: int)
    ensures quote.fee.None? ==> amount == quote.payinAmount
    ensures quote.fee.Some? ==> amount == quote.payinAmount + quote.fee.value
  {
    quote.payinAmount + ShownFee(quote)
  }

  /** The first amount line of the quote and order messages. */
  function PayLine(quote: QuoteRow): string
  {
    "You will pay: " + IntToString(PayAmount(quote)) + " " + quote.payinCurrency + " (includes fee)"
  }

  function AmountLines(quote: QuoteRow): string
  {
    PayLine(quote) + "\n" + ReceiveAndFeeLines(quote)
  }

  function ReceiveAndFeeLines(quote: QuoteRow): string
  {
    "You will receive: " + OptionalIntText(quote.payoutAmount) + " " + OptionalText(quote.payoutCurrency)
    + "\n"
    + "Fee: " + IntToString(ShownFee(quote)) + " " + quote.payinCurrency
  }

  /** The amount lines open with what the user pays. */
  lemma AmountLinesShowPay(quote: QuoteRow)
    ensures HasPrefix(AmountLines(quote), PayLine(quote))
  {
    ConcatHasPrefix(PayLine(quote), "\n");
    PrefixAppend(PayLine(quote) + "\n", ReceiveAndFeeLines(quote), PayLine(quote));
  }

  /** The credit balance as shown: `null` when it is withheld. */
  function BalanceText(balance: Option<int>): string
  {
    OptionalIntText(balance)
  }

  function QuoteIntro(transactionId: string): string
  {
    "You have received a quote for transaction with ID " + transactionId + "."
  }

  /** The quote message up to the balance. */
  function QuoteHead(transactionId: string, quote: QuoteRow): string
  {
    QuoteIntro(transactionId) + "\n\n" + AmountLines(quote) + QuoteOutro(quote)
  }

  function QuoteOutro(quote: QuoteRow): string
  {
    "\n"
    + "Expires at: " + OptionalIntText(quote.expiresAt)
    + "\n\n"
    + "Reply with \"1\" to accept this quote and place an order. Reply with \"0\" to reject the quote."
    + "\n\n"
    + "This transaction will cost you 1 credit. Your remaining balance is "
  }

  function QuoteNotification(transactionId: string, quote: QuoteRow, balance: Option<int>): (text: string)
    ensures HasSuffix(text, BalanceText(balance) + " credits.")
  {
    var head := QuoteHead(transactionId, quote);
    var tail := BalanceText(balance) + " credits.";
    ConcatHasSuffix(head, tail);
    head + tail
  }

  /**
   * The quote message names its transaction first and tells the user what they will pay,
   * the payin amount plus the fee.
   */
  lemma QuoteNotificationShows(transactionId: string, quote: QuoteRow, balance: Option<int>)
    ensures var text := QuoteNotification(transactionId, quote, balance);
            HasPrefix(text, "You have received a quote for transaction with ID " + transactionId + ".")
            && Includes(text, PayLine(quote))
  {
    var tail := BalanceText(balance) + " credits.";
    QuoteHeadShows(transactionId, quote);
    PrefixAppend(QuoteHead(transactionId, quote), tail, QuoteIntro(transactionId));
    IncludesAppend(QuoteHead(transactionId, quote), tail, PayLine(quote));
  }

  lemma QuoteHeadShows(transactionId: string, quote: QuoteRow)
    ensures HasPrefix(QuoteHead(transactionId, quote), QuoteIntro(transactionId))
    ensures Includes(QuoteHead(transactionId, quote), PayLine(quote))
  {
    var opening := QuoteIntro(transactionId) + "\n\n" + AmountLines(quote);
    QuoteOpeningShows(transactionId, quote);
    PrefixAppend(opening, QuoteOutro(quote), QuoteIntro(transactionId));
    IncludesAppend(opening, QuoteOutro(quote), PayLine(quote));
  }

  lemma QuoteOpeningShows(transactionId: string, quote: QuoteRow)
    ensures var opening := QuoteIntro(transactionId) + "\n\n" + AmountLines(quote);
            HasPrefix(opening, QuoteIntro(transactionId)) && Includes(opening, PayLine(quote))
  {
    var intro := QuoteIntro(transactionId);
    ConcatHasPrefix(intro, "\n\n");
    PrefixAppend(intro + "\n\n", AmountLines(quote), intro);
    AmountLinesShowPay(quote);
    PrefixIncluded(AmountLines(quote), PayLine(quote));
    IncludesAppend(AmountLines(quote), intro + "\n\n", PayLine(quote));
  }

  function OrderIntro(transactionId: string): string
  {
    "You have successfully placed an order for transaction " + transactionId + "."
  }

  function OrderBalanceLine(balance: Option<int>): string
  {
    "This transaction cost you 1 credit. " + OrderBalanceShown(balance)
  }

  function OrderBalanceShown(balance: Option<int>): string
  {
    "Your remaining Go Credit balance is " + BalanceText(balance) + " credits."
  }

  function OrderNotification(transactionId: string, quote: QuoteRow, balance: Option<int>): string
  {
    OrderIntro(transactionId) + "\n\n" + AmountLines(quote) + "\n\n" + OrderBalanceLine(balance) + OrderOutro
  }

  const OrderOutro := "\n\n" + "You will receive a notification when the transaction is completed."

  /**
   * The order message names its transaction first, repeats what the user pays and gives the
   * credit balance after the charge.
   */
  lemma OrderNotificationShows(transactionId: string, quote: QuoteRow, balance: Option<int>)
    ensures var text := OrderNotification(transactionId, quote, balance);
            HasPrefix(text, "You have successfully placed an order for transaction " + transactionId + ".")
            && Includes(text, PayLine(quote))
            && Includes(text, "Your remaining Go Credit balance is " + BalanceText(balance) + " credits.")
  {
    var intro := OrderIntro(transactionId);
    var a := intro + "\n\n";
    var b := a + AmountLines(quote);
    var c := b + "\n\n";
    var d := c + OrderBalanceLine(balance);
    assert OrderNotification(transactionId, quote, balance) == d + OrderOutro;
    ConcatHasPrefix(intro, "\n\n");
    PrefixAppend(a, AmountLines(quote), intro);
    PrefixAppend(b, "\n\n", intro);
    PrefixAppend(c, OrderBalanceLine(balance), intro);
    PrefixAppend(d, OrderOutro, intro);
    AmountLinesShowPay(quote);
    PrefixIncluded(AmountLines(quote), PayLine(quote));
    IncludesAppend(AmountLines(quote), a, PayLine(quote));
    IncludesAppend(b, "\n\n", PayLine(quote));
    IncludesAppend(c, OrderBalanceLine(balance), PayLine(quote));
    IncludesAppend(d, OrderOutro, PayLine(quote));
    var shown := OrderBalanceShown(balance);
    IncludesSelf(shown);
    IncludesAppend(shown, "This transaction cost you 1 credit. ", shown);
    IncludesAppend(OrderBalanceLine(balance), c, shown);
    IncludesAppend(d, OrderOutro, shown);
  }

  /** The reason after a colon, shown only when it is present and non-empty. */
  function ReasonSuffix(reason: Option<string>): (suffix: string)
    ensures suffix == "" <==> reason.None? || reason.value == ""
  {
    if reason.Some? && reason.value != "" then ": " + reason.value else ""
  }

  function CloseNotification(transactionId: string, success: bool, reason: Option<string>): (text: string)
    ensures |text| > 0 && text[|text| - 1] == '.'
    ensures reason.Some? && reason.value != "" ==>
              |text| >= |reason.value| + 3 && text[|text| - |reason.value| - 3..] == ": " + reason.value + "."
  {
    "Your transaction with ID " + transactionId + " has been " + (if success then "completed" else "cancelled")
    + ReasonSuffix(reason) + "."
  }

  function StatusUpdateNotification(transactionId: string, orderStatus: string): (text: string)
    ensures HasPrefix(text, "Your transaction with ID " + transactionId + " has received a status update: ")
    ensures HasSuffix(text, orderStatus)
  {
    var head := "Your transaction with ID " + transactionId + " has received a status update: ";
    ConcatHasPrefix(head, orderStatus);
    ConcatHasSuffix(head, orderStatus);
    head + orderStatus
  }

  /** The rating prompt names its transaction and asks for a number from 1 to 5. */
  function RateTransactionPrompt(transactionId: string): (text: string)
    ensures HasPrefix(text, "Please rate your transaction with ID " + transactionId + ".")
    ensures Includes(text, RateAsk)
  {
    var head := "Please rate your transaction with ID " + transactionId + ".";
    var middle := "\n\n" + "Rating your experience with this PFI helps us improve our service." + "\n\n";
    var tail := "\n" + "1 being a terrible experience and 5 being an excellent experience.";
    ConcatHasPrefix(head, middle);
    PrefixAppend(head + middle, RateAsk, head);
    PrefixAppend(head + middle + RateAsk, tail, head);
    IncludesSelf(RateAsk);
    IncludesAppend(RateAsk, head + middle, RateAsk);
    IncludesAppend(head + middle + RateAsk, tail, RateAsk);
    head + middle + RateAsk + tail
  }

  const RateAsk := "Reply with a number between 1 and 5 to rate the transaction."

  /** The close messages name their outcome: "completed" exactly when the close succeeded. */
  lemma CloseNotificationOutcome(transactionId: string, success: bool, reason: Option<string>)
    ensures var prefix := "Your transaction with ID " + transactionId + " has been ";
            var text := CloseNotification(transactionId, success, reason);
            |text| >= |prefix| + 9 && text[..|prefix|] == prefix
            && text[|prefix|..|prefix| + 9] == (if success then "completed" else "cancelled")
  {
  }

  function Render(body: SmsBody): string
  {
    match body
    case QuoteBody(id, quote, balance) => QuoteNotification(id, quote, balance)
    case OrderBody(id, quote, balance) => OrderNotification(id, quote, balance)
    case CloseBody(id, success, reason) => CloseNotification(id, success, reason)
    case StatusUpdateBody(id, orderStatus) => StatusUpdateNotification(id, orderStatus)
    case RatePromptBody(id) => RateTransactionPrompt(id)
    case QuoteExpiredBody(id) => "Your quote for transaction " + id + " has expired. Please create a new one."
    case InvalidQuoteReplyBody => "Invalid response received. Please reply with \"1\" to accept the quote or \"0\" to reject it."
    case OrderProcessingBody(id) => "Your request to place an order for transaction " + id + " is being processed."
    case OrderFailedBody(id) => "There was an error submitting your order request for transaction " + id + ". Please try again."
    case CancelProcessingBody(id) => "Your request to cancel transaction " + id + " is being processed."
    case CancelFailedBody(id) => "There was an error cancelling your transaction " + id + ". Please try again."
    case InvalidRatingBody => "Invalid rating received. Please reply with a number between 1 and 5."
    case RatingThanksBody => "Thank you for rating your transaction and helping improve tbDEX Go."
  }
}

# tbDEX Go — a verified model of its core

tbDEX Go lets people without a smartphone trade currencies over USSD and SMS. A user's
transaction is an exchange of tbDEX messages (RFQ, quote, order, order-status updates,
close) with a liquidity provider (PFI). This project models:

- **The exchanges worker** (`src/exchanges/`). It repeatedly claims a batch of open
  transactions under expiring key-value locks and fetches each user's exchanges from their
  PFIs. It files every exchange under its transaction, split by message kind. It then runs
  the four triggers: quote, order, order-status update and close. They write rows
  (quotes, credits, statuses, notifications, wallet entries) and queue SMS texts to the
  user.
- **The SMS reply handler** (`src/exchanges/notification-handler.ts`). An inbound SMS to the
  shortcode is routed to the sender's latest transaction. There it accepts or rejects the
  quote, or records a 1–5 rating.
- **The database layer** (`src/db/`): the tables and column enums as immutable rows, and the
  query and insert helpers as functions and methods on a `Db.Store` class.
- **The SMS texts** (`src/sms.ts`).
- **The USSD menu engines.** `src/ussd/lib/ussd-menu.ts` and the older `src/ussd.ts` are
  classes. Each owns a table of states and resolves the `*`-joined route of a session into
  the state to show. `src/ussd/lib/providers.ts` maps the request formats of five gateway
  families onto one and formats replies back. `src/ussd/builders.ts` builds one state per
  field of a form.
- **Credential selection** (`src/vc/known-vcs.ts`): which JWTs satisfy a list of
  presentation-exchange descriptors with `const` filters.
- **Display helpers**: offering grouping and description (with a session cache), payment
  method names, title case and short transaction ids.

Files and their modules:

| file | module | models |
|---|---|---|
| `wrappers.dfy`, `text.dfy`, `seqs.dfy`, `records.dfy` | `Wrappers`, `Text`, `Seqs`, `Records` | Option/Result, JS string operations (`split`, `slice`, `parseInt`, case mapping), array find/filter/sort and `Set` de-duplication, insertion-ordered objects (`Object.entries` order, `reduce` grouping) |
| `schema.dfy`, `messages.dfy`, `db.dfy` | `Schema`, `Messages`, `Db` | tables, tbDEX messages, queries, the store class |
| `sms.dfy` | `Sms` | SMS texts |
| `triggers.dfy`, `trigger_lemmas.dfy` | `Triggers`, `TriggerLemmas` | the four triggers and what they do |
| `locks.dfy`, `reconcile.dfy`, `reconcile_lemmas.dfy` | `Locks`, `Reconcile`, `ReconcileLemmas` | locks and the worker loop |
| `sms_replies.dfy` | `SmsReplies` | the inbound SMS handler |
| `sessions.dfy` | `Sessions` | a session key-value store |
| `providers.dfy` | `Providers` | gateway argument mapping, routes, reply formats |
| `ussd_menu.dfy`, `ussd_menu_lemmas.dfy` | `UssdMenus`, `UssdMenuLemmas` | `src/ussd/lib/ussd-menu.ts` |
| `legacy_ussd.dfy` | `LegacyUssd` | `src/ussd.ts` |
| `forms.dfy` | `Forms` | `src/ussd/builders.ts` |
| `known_vcs.dfy` | `KnownVcs` | `src/vc/known-vcs.ts` |
| `offerings.dfy`, `descriptions.dfy`, `ids.dfy` | `Offerings`, `Descriptions`, `Ids` | send-money helpers, descriptions, ids |

How it is modelled:

- Operations that change stored state are methods on classes: `Db.Store`, `Locks.LockStore`,
  `Sessions.Store`, `UssdMenus.UssdMenu`, `LegacyUssd.LegacyMenu`, `Forms.FormMenu`. Each
  method is proved equal to a pure specification function of the old state (`Step`,
  `ClaimSpec`, `Resolve`, `FieldsPass`, …).
- Lemmas about those functions state what the source promises.
- Awaited calls run in sequence, in input order.
- The clock, the remote PFI data, wallet signing and the regular-expression engine are
  parameters.

## Model

| member | source | states |
|---|---|---|
| Schema.StatusText | src/db/schema.ts:44-46 | the text of every transaction status parses back to that status |
| Schema.ParseStatus | src/db/schema.ts:44-46 | only the five enum texts parse to a status |
| Schema.TypeText | src/db/schema.ts:47-51 | the text of every transaction type parses back to that type |
| Schema.ParseType | src/db/schema.ts:47-51 | a missing type column means `regular`; only the three enum texts parse |
| Schema.CreditBalanceAppend | src/db/schema.ts:123-128 | a new ledger entry moves the balance view of its own user by its amount and leaves every other user's balance alone |
| Db.FindUser | src/exchanges/index.ts:52-53 | the user found has that id and is in the table; none is found exactly when no row has it |
| Db.FindUserByPhone | src/exchanges/notification-handler.ts:33-38 | the user found has that phone number; none exactly when no row has it |
| Db.FindTransaction | src/db/helpers.ts:25-28 | the row found has the id; none exactly when no row has it |
| Db.FindQuote | src/db/helpers.ts:30-33 | the quote found has the id; none exactly when no quote has it |
| Db.LatestQuote | src/db/helpers.ts:35-38 | the quote found belongs to the transaction and no quote of it was created later; none exactly when it has no quote |
| Db.FindNotification | src/db/helpers.ts:44-47 | the notification found has the id; none exactly when no row has it |
| Db.TransactionHistory | src/exchanges/helpers.ts:179-185 | holds exactly the user's transactions |
| Db.LatestTransactionOf | src/exchanges/notification-handler.ts:40-50 | the user's most recently created transaction; none exactly when the user has none |
| Db.SetStatusChanges | src/db/helpers.ts:21-23 | every row with the id gets the new status; nothing else in any row changes and no row is added or removed |
| Db.StoredQuote | src/db/helpers.ts:6-19 | the stored quote row copies ids, PFI, amounts, currencies and expiry from the quote message and leaves the fee empty |
| Db.FindTransactionAfterStatus | src/db/helpers.ts:21-28 | after a status update, reading the transaction back gives the old row with the new status; other ids read as before |
| Db.NotificationAfterInsert | src/db/helpers.ts:40-47 | an inserted notification with a fresh id reads back; other ids read as before |
| Db.QuoteAfterInsert | src/db/helpers.ts:6-33 | an inserted quote with a fresh id reads back by its id |
| Db.KeyedPreserved | src/db/schema.ts:61-103 | status updates and inserts with fresh ids keep every primary key unique |
| Db.GrowsTrans | src/db/schema.ts:61-161 | the append-only relation between database states (existing rows keep their content, only statuses change) composes |
| Db.GrowsByStatus | src/db/helpers.ts:21-23 | a status update is such a growth and sends nothing |
| Db.Store.constructor | src/db/schema.ts:1-163 | a store starts with the given tables |
| Db.Store.InsertQuote | src/db/helpers.ts:6-19 | a quote is appended exactly when its id is fresh (primary key), otherwise nothing changes |
| Db.Store.UpdateTransactionStatus | src/db/helpers.ts:21-23 | the new state is the old one with that transaction's status set |
| Db.Store.InsertNotification | src/db/helpers.ts:40-42 | a notification is appended exactly when its id is fresh |
| Db.Store.AddCreditEntry | src/db/schema.ts:107-119 | one ledger entry is appended and nothing else changes |
| Db.Store.InsertWalletEntry | src/db/schema.ts:144-161 | one wallet row is appended and nothing else changes |
| Db.Store.InsertRating | src/db/schema.ts:130-141 | one rating row is appended and nothing else changes |
| Db.Store.Publish | src/sms.ts:37-44 | one SMS to the user's phone number is queued and nothing else changes |
| Sms.ShownFee | src/sms.ts:55-56 | a missing fee is shown as 0, otherwise the fee |
| Sms.PayAmount | src/sms.ts:55-56 | the user pays the payin amount plus the fee, and just the payin amount when there is no fee |
| Sms.AmountLinesShowPay | src/sms.ts:61-65 | the amount lines open with the amount to pay and the payin currency |
| Sms.QuoteNotification | src/sms.ts:58-71 | the quote text ends with the credit balance and " credits." |
| Sms.QuoteNotificationShows | src/sms.ts:55-71 | the quote text opens with its transaction id and contains the amount to pay, payin plus fee |
| Sms.OrderNotificationShows | src/sms.ts:89-103 | the order text opens with its transaction id, contains the amount to pay, payin plus fee, and the credit balance after the charge |
| Sms.RateTransactionPrompt | src/sms.ts:139-146 | the rating prompt opens with its transaction id and asks for a number from 1 to 5 |
| Sms.ReasonSuffix | src/sms.ts:115 | the reason suffix is empty exactly when there is no reason or it is empty |
| Sms.CloseNotification | src/sms.ts:112-122 | the close text ends in a full stop, and with ": reason." when there is a reason |
| Sms.CloseNotificationOutcome | src/sms.ts:115 | the close text names the transaction and says "completed" on success and "cancelled" otherwise |
| Sms.StatusUpdateNotification | src/sms.ts:127 | the status text opens with the transaction id and the words "has received a status update: ", and ends with the PFI's order status |
| Triggers.ShownBalance | src/exchanges/helpers.ts:47 | a balance is shown exactly for Regular transactions |
| Triggers.QuoteStep | src/exchanges/helpers.ts:25-53 | without quotes or unless pending nothing happens; the quote trigger never touches credits, wallet or notifications |
| Triggers.QuoteReloaded | src/exchanges/helpers.ts:33-53 | after the writes the quote trigger only reads, sends and may cancel |
| Triggers.OrderStep | src/exchanges/helpers.ts:55-91 | without orders or unless quoted nothing happens; the order trigger never touches quotes, wallet or notifications |
| Triggers.Charge | src/exchanges/helpers.ts:70-73 | exactly one -1 credit with reference "Order placed: id" for Regular transactions, none otherwise |
| Triggers.OrderReloaded | src/exchanges/helpers.ts:75-90 | after the writes the order trigger only sends |
| Triggers.StatusNotification | src/exchanges/helpers.ts:168-175 | the notification row is keyed by the update's message id and tied to the transaction as a status update |
| Triggers.ApplyUpdates | src/exchanges/helpers.ts:156-176 | updates add at most one notification and one SMS each, to this user only, and change nothing else |
| Triggers.StatusUpdateStep | src/exchanges/helpers.ts:141-177 | without updates or unless ordered nothing happens; it never fails and only grows the database |
| Triggers.EarliestQuote | src/exchanges/helpers.ts:100-102 | the quote chosen at close is the earliest created one; none exactly when there are no quotes |
| Triggers.WalletCredit | src/exchanges/helpers.ts:108-117 | a wallet-in credit uses the payout currency and amount, a wallet-out one the payin side |
| Triggers.WalletReason | src/exchanges/helpers.ts:129-131 | the close SMS names the wallet exactly for successful non-Regular transactions |
| Triggers.CloseStep | src/exchanges/helpers.ts:93-139 | without closes or unless quoted or ordered nothing happens; the close trigger never touches quotes, credits or notifications |
| Triggers.CloseReloaded | src/exchanges/helpers.ts:106-138 | after the status write the close trigger only adds wallet rows and sends |
| Triggers.CloseNotify | src/exchanges/helpers.ts:123-138 | the close notification only queues SMS texts |
| Triggers.ProcessQuote | src/exchanges/helpers.ts:25-53 | the store ends as the quote-trigger specification says and returns its outcome |
| Triggers.NotifyQuote | src/exchanges/helpers.ts:33-53 | the reload-and-notify half of the quote trigger meets its specification |
| Triggers.ProcessOrder | src/exchanges/helpers.ts:55-91 | the store ends as the order-trigger specification says |
| Triggers.NotifyOrder | src/exchanges/helpers.ts:75-90 | the reload-and-notify half of the order trigger meets its specification |
| Triggers.ProcessOrderStatusUpdate | src/exchanges/helpers.ts:141-177 | the loop over the sorted updates ends as the status-update specification says |
| Triggers.ProcessClose | src/exchanges/helpers.ts:93-139 | the store ends as the close-trigger specification says |
| Triggers.NotifyClose | src/exchanges/helpers.ts:106-138 | the wallet-and-notify half of the close trigger meets its specification |
| TriggerLemmas.GrowsBySend | src/sms.ts:37-44 | sending an SMS only appends one text to that user |
| TriggerLemmas.QuoteStepFires | src/exchanges/helpers.ts:25-53 | on a pending transaction the first quote is stored without fee, the user is sent the quote with balance (Regular only), and the status becomes quote, or cancelled when the quote has already expired |
| TriggerLemmas.OrderStepInsufficient | src/exchanges/helpers.ts:62-66 | a Regular order without credit cancels the transaction with the insufficient-credit SMS and charges nothing |
| TriggerLemmas.OrderStepPlaces | src/exchanges/helpers.ts:68-90 | otherwise the status becomes order, a Regular transaction is charged one credit, and the order SMS with the latest quote and new balance is sent; without a stored quote the step throws |
| TriggerLemmas.OrderStepAtMostOnce | src/exchanges/helpers.ts:56 | once an order has been processed, a second order trigger on the reloaded transaction does nothing |
| TriggerLemmas.ApplyUpdatesShape | src/exchanges/helpers.ts:156-176 | the updates recorded are exactly the leading run whose ids are new, one notification and one SMS each, in sorted order |
| TriggerLemmas.StatusUpdateStepIdempotent | src/exchanges/helpers.ts:160-163 | replaying the same updates changes nothing |
| TriggerLemmas.CloseStepCloses | src/exchanges/helpers.ts:93-139 | close sets cancelled or complete, credits the wallet from the earliest quote for successful wallet transactions (failing without a quote), and sends the close SMS and on success the rating prompt |
| TriggerLemmas.CloseReloadedCloses | src/exchanges/helpers.ts:106-139 | once the new status is written, the close succeeds unless a wallet credit lacks its quote, and credits and notifies exactly as the close result demands |
| TriggerLemmas.TriggersGrow | src/exchanges/helpers.ts:25-139 | every trigger only grows the database and sends only to its user |
| Locks.LockKey | src/exchanges/locks.ts:8 | a lock key is the fixed prefix followed by the transaction id |
| Locks.LockKeyInjective | src/exchanges/locks.ts:8 | two transactions share a lock key exactly when they share an id |
| Locks.Claimed | src/exchanges/locks.ts:10-12 | a claimed lock holds the lock value and expires after the lock TTL |
| Locks.ClaimSpec | src/exchanges/locks.ts:3-19 | claimed transactions come from the input and now hold fresh locks; other keys keep their entries and no other key is added |
| Locks.ClaimSpecStep | src/exchanges/locks.ts:3-19 | with distinct ids, one more transaction is claimed exactly when its lock is free, after the ones claimed before |
| Locks.ClaimSpecClaimsFree | src/exchanges/locks.ts:3-19 | with distinct ids, the claimed transactions are exactly those whose lock was free, in input order |
| Locks.ClaimIsExclusive | src/exchanges/locks.ts:8-14 | within the TTL a second claim gets none of the transactions the first one claimed |
| Locks.StaysHeld | src/exchanges/locks.ts:8-9 | a claim leaves any lock that is still held untouched |
| Locks.ClaimedWasFree | src/exchanges/locks.ts:8-14 | a transaction is only claimed if its lock was not held |
| Locks.ClaimExpires | src/exchanges/locks.ts:10-12 | a claim no longer holds once its TTL has passed |
| Locks.ReleaseFrees | src/exchanges/locks.ts:21-27 | after release, the same transactions can all be claimed again |
| Locks.LockStore.ClaimLocks | src/exchanges/locks.ts:3-19 | the claim loop returns and stores what the claim specification says |
| Locks.LockStore.ReleaseLocks | src/exchanges/locks.ts:21-27 | release deletes exactly those transactions' lock keys |
| Reconcile.Candidates | src/exchanges/index.ts:20-23 | at most a batch of open transactions; if fewer, all open ones |
| Reconcile.ClaimedUsers | src/exchanges/index.ts:37 | the users of the claimed transactions, each once |
| Reconcile.Partition | src/exchanges/index.ts:110-116 | each message of an exchange lands in exactly the list of its kind, and none is lost |
| Reconcile.ExchangeTransaction | src/exchanges/index.ts:106-108 | an exchange is filed under a transaction with the exchange id of its first message; none when there is none |
| Reconcile.Fetch | src/exchanges/index.ts:88-100 | fetching fails exactly when some PFI of the user cannot be read |
| Reconcile.PopulateExchangeMap | src/exchanges/index.ts:102-118 | the loop builds the transaction-to-exchange map the specification defines |
| Reconcile.FetchExchanges | src/exchanges/index.ts:88-100 | the loop over PFI groups meets the fetch specification |
| Reconcile.ProcessExchange | src/exchanges/index.ts:134-137 | the four triggers run in order quote, order, status update, close, each on the snapshot row |
| Reconcile.FirstThrow | src/exchanges/index.ts:50-63 | `Promise.all` succeeds exactly when every callback does, and otherwise reports the first rejection |
| Reconcile.ProcessExchanges | src/exchanges/index.ts:120-140 | the map's entries all run, in order, skipping keys that name no claimed transaction; a throw ends only its own entry, and the first throw is the outcome |
| Reconcile.ProcessUsers | src/exchanges/index.ts:49-64 | every claimed user with a user row is processed; a failed fetch or a throw ends only that user's callback, and the first one is the outcome |
| Reconcile.ProcessUser | src/exchanges/index.ts:51-62 | one user's transactions are grouped by PFI and fetched; a failed fetch throws before anything is processed, otherwise their exchanges are dispatched |
| Reconcile.Pass | src/exchanges/index.ts:16-42 | one pass claims, processes and releases as the pass specification says |
| Reconcile.KeptPass | src/exchanges/index.ts:16-42 | a pass leaves no lock that was not there before and only grows the database |
| Reconcile.RunOf | src/exchanges/index.ts:15-46 | passes run only at readings within the minute; the run ends at the first escaping error, when a reading is past the minute, or when the readings run out |
| Reconcile.RunKeeps | src/exchanges/index.ts:15-46 | however many passes run, every lock they take is released and the database only grows |
| Reconcile.RunStep | src/exchanges/index.ts:15-46 | within the minute a pass runs, and the loop goes on after it unless its error escapes |
| Reconcile.RunEnd | src/exchanges/index.ts:15 | once the minute is over no further pass runs |
| Reconcile.PassesOnImplements | src/exchanges/index.ts:16-42 | the pass function the loop runs is the pass specification |
| Reconcile.UpdateExchanges | src/exchanges/index.ts:10-47 | the final database, locks, outcome and pass count are the run of the pass specification over the clock readings, so a thrown outcome is the failing pass's own; passes start only while the time budget remains, and leave locks released and the database grown |
| Reconcile.RunPasses | src/exchanges/index.ts:15-46 | the loop's final state is the run over the clock readings of the pass it is given |
| Reconcile.PassBy | src/exchanges/index.ts:16-42 | one pass does what the pass function says |
| Reconcile.PassReleases | src/exchanges/index.ts:39-42 | a pass releases every lock it claimed |
| Reconcile.PassGrows | src/exchanges/index.ts:15-42 | a pass only grows the database |
| Reconcile.ProcessUsersGrows | src/exchanges/index.ts:49-64 | processing users only grows the database |
| Reconcile.DispatchGrows | src/exchanges/index.ts:120-140 | processing a user's exchanges only grows the database and sends only to that user |
| Reconcile.ExchangeStepsGrow | src/exchanges/index.ts:134-137 | running the triggers on one exchange only grows the database |
| ReconcileLemmas.PopulateEntry | src/exchanges/index.ts:102-118 | a transaction's entry is the partition of the last fetched exchange filed under it, else unchanged |
| Records.PutAllLast | src/exchanges/index.ts:102-118 | the entry under a key is the value of the last of the items that key owns, else unchanged |
| Records.PutAllEntry | src/exchanges/index.ts:102-118 | after filing every item, an entry holds the value of the last item filed under its key, or what it held before |
| Records.LastOwnedFiltered | src/exchanges/index.ts:102-118 | the last item filed under a key is the last of the items filtered out for that key |
| ReconcileLemmas.PendingSnapshotOnlyQuotes | src/exchanges/index.ts:134-137 | a transaction pending at snapshot time can only be quoted in that pass |
| ReconcileLemmas.QuotedSnapshotSkipsUpdates | src/exchanges/index.ts:134-137 | from a quoted snapshot only the order and close triggers act |
| ReconcileLemmas.CancelledThenCompleted | src/exchanges/index.ts:134-137 | from the stale snapshot, an order without credit cancels and the close in the same exchange then completes the transaction, with all three SMS texts |
| ReconcileLemmas.WalletCloseThrows | src/exchanges/index.ts:134-137 | the worker passes the close trigger no quotes, so a successful wallet close throws after writing complete and creates no wallet row |
| SmsReplies.OrderFor | src/exchanges/notification-handler.ts:104-110 | the order goes to the quote's exchange, from the user's DID |
| SmsReplies.CancelFor | src/exchanges/notification-handler.ts:137-147 | the cancel is an unsuccessful close with the fixed reason, in the quote's exchange, from the user |
| SmsReplies.ValidRating | src/exchanges/notification-handler.ts:163-168 | a rating is accepted exactly when the text parses as an integer from 1 to 5 |
| SmsReplies.HandleSmsNotification | src/exchanges/notification-handler.ts:26-56 | always answers 200 and changes the database as the handler specification says |
| SmsReplies.HandleQuoteResponse | src/exchanges/notification-handler.ts:61-91 | the quote reply meets its specification |
| SmsReplies.SubmitOrder | src/exchanges/notification-handler.ts:93-124 | submitting an order meets its specification |
| SmsReplies.CancelTransaction | src/exchanges/notification-handler.ts:126-158 | cancelling meets its specification |
| SmsReplies.HandleRateTransactionResponse | src/exchanges/notification-handler.ts:160-184 | the rating reply meets its specification |
| SmsReplies.HandlerActsOnLatest | src/exchanges/notification-handler.ts:26-56 | the handler changes something only for an SMS to the shortcode from a known user whose latest transaction is quoted or complete |
| SmsReplies.QuoteReplyWithoutSubmission | src/exchanges/notification-handler.ts:61-91 | with no live quote, another reply or a failed submission, only up to two SMS texts are sent |
| SmsReplies.RejectCancels | src/exchanges/notification-handler.ts:126-158 | "0" to a live quote cancels the transaction with two texts and no charge |
| SmsReplies.AcceptOrders | src/exchanges/notification-handler.ts:93-124 | "1" to a live quote places the order, or cancels for lack of credit, after the processing SMS |
| SmsReplies.HandlerKeepsOneRating | src/exchanges/notification-handler.ts:171-181 | the handler never stores a second rating for a transaction |
| SmsReplies.RatingKeepsOneRating | src/exchanges/notification-handler.ts:171-181 | one rating per transaction is kept by a rating reply |
| SmsReplies.QuoteReplyKeepsRatings | src/exchanges/notification-handler.ts:61-158 | quote replies never touch ratings |
| SmsReplies.SecondRatingIgnored | src/exchanges/notification-handler.ts:171-176 | after a valid rating, a second rating reply adds none |
| SmsReplies.RatingOfDigits | src/exchanges/notification-handler.ts:163-168 | a number written in digits, maybe followed by text, is a rating exactly when it is 1 to 5 |
| Sessions.Store.Lookup | src/ussd/lib/ussd-menu.ts:170-186 | a key reads its stored value, and nothing when absent |
| Sessions.Store.Get | src/ussd/lib/ussd-menu.ts:170-186 | reading returns the stored value |
| Sessions.Store.Set | src/ussd/lib/ussd-menu.ts:187-203 | writing sets exactly that key |
| Sessions.Store.End | src/ussd/lib/ussd-menu.ts:204-220 | ending marks the session over and keeps its data |
| Providers.FamilyOf | src/ussd/lib/providers.ts:16-36 | hubtel, emergent and cross-switch share the Hubtel format; nalo, arkesel, southpawsl and beem have their own; all others are passed through |
| Providers.ParseInitiationText | src/ussd/lib/providers.ts:83-91 | the parsed route is never longer than the dialled text |
| Providers.BareCodeParsesEmpty | src/ussd/lib/providers.ts:85-86 | dialling just `*code#` starts with an empty route |
| Providers.InitiationRoundTrip | src/ussd/lib/providers.ts:83-91 | dialling `*code*route#` recovers the route |
| Providers.SameFieldParsesEmpty | src/ussd/lib/providers.ts:93-101 | Nalo and Arkesel read the code and the text from the same field, so their initiation route is always empty |
| Providers.NaloInitiationIsEmpty | src/ussd/lib/providers.ts:93-101 | a Nalo initiation always has an empty route |
| Providers.ArkeselInitiationIsEmpty | src/ussd/lib/providers.ts:103-111 | an Arkesel initiation always has an empty route |
| Providers.MapArgs | src/ussd/lib/providers.ts:16-81 | known gateways get a `+`-prefixed phone number and the initial route on initiation, else the input; others pass through |
| Providers.AccumulatedJoins | src/ussd/lib/providers.ts:146-156 | a continuing session's non-empty inputs build the route `start*in1*…*inN` on the initial route |
| Providers.GetRoute | src/ussd/lib/providers.ts:123-204 | a plain request uses its text; without a session store it fails (set or get); otherwise the new route is stored and returned |
| Providers.FormatResult | src/ussd/lib/providers.ts:206-278 | the reply continues exactly for CON and shows the text; the default is "CON "/"END " plus text |
| UssdMenus.ChooseProvider | src/ussd/lib/ussd-menu.ts:40-47 | an unset provider means the default; an unknown one is rejected with its name |
| UssdMenus.NewState | src/ussd/lib/ussd-menu.ts:224-234 | a state without a default next stays on itself |
| UssdMenus.LinkMatches | src/ussd/lib/ussd-menu.ts:71-77 | `*` matches any input; a rule without a leading `*` matches exactly its own text |
| UssdMenus.FirstMove | src/ussd/lib/ussd-menu.ts:100-120 | the first link in object order that matches decides the target |
| UssdMenus.Move | src/ussd/lib/ussd-menu.ts:100-125 | matching link, else default next, else stay; a missing target is an error naming it; the target records the input |
| UssdMenus.WalkFrom | src/ussd/lib/ussd-menu.ts:100-125 | a walk only writes input values; a finished walk ends on a known state |
| UssdMenus.RouteParts | src/ussd/lib/ussd-menu.ts:80 | the route's parts join back to the route |
| UssdMenus.Resolve | src/ussd/lib/ussd-menu.ts:79-131 | without a start state resolving fails; it only ever writes input values |
| UssdMenus.RunEffect | src/ussd/lib/ussd-menu.ts:133-139 | a state without a run is an error; with one it shows that screen with CON or END |
| UssdMenus.RouteResult | src/ussd/lib/ussd-menu.ts:244-246 | a plain request routes by its text; others need a session |
| UssdMenus.UssdMenu.Create | src/ussd/lib/ussd-menu.ts:40-47 | a menu is created exactly when the provider is accepted |
| UssdMenus.UssdMenu.SessionConfig | src/ussd/lib/ussd-menu.ts:151-222 | the menu now uses the given session store |
| UssdMenus.UssdMenu.State | src/ussd/lib/ussd-menu.ts:224-234 | registering sets exactly that state |
| UssdMenus.UssdMenu.StartStateOf | src/ussd/lib/ussd-menu.ts:236-238 | registers the start state |
| UssdMenus.UssdMenu.Con | src/ussd/lib/ussd-menu.ts:58-61 | a continuing reply is formatted and delivered |
| UssdMenus.UssdMenu.End | src/ussd/lib/ussd-menu.ts:63-69 | an ending reply is formatted, delivered and ends the session |
| UssdMenus.UssdMenu.FindMove | src/ussd/lib/ussd-menu.ts:100-120 | the link loop gives the first matching target |
| UssdMenus.UssdMenu.MoveOn | src/ussd/lib/ussd-menu.ts:100-125 | one step of resolution meets the move specification |
| UssdMenus.UssdMenu.WalkParts | src/ussd/lib/ussd-menu.ts:100-125 | the loop over route parts meets the walk specification |
| UssdMenus.UssdMenu.ResolveRoute | src/ussd/lib/ussd-menu.ts:79-131 | resolution meets its specification |
| UssdMenus.UssdMenu.RunState | src/ussd/lib/ussd-menu.ts:133-139 | showing a state has exactly its effect and leaves the session data alone |
| UssdMenus.UssdMenu.Go | src/ussd/lib/ussd-menu.ts:141-145 | going to an unknown state throws to the caller without showing anything; otherwise it records the value and shows the state |
| UssdMenus.UssdMenu.Run | src/ussd/lib/ussd-menu.ts:248-282 | a request maps the arguments, extends the stored route, resolves it and shows the state reached or emits the resolution error; without a needed session `run` itself throws the TypeError and nothing is emitted or shown |
| UssdMenus.UssdMenu.Show | src/ussd/lib/ussd-menu.ts:258-266 | the route resolves to the walk the specification defines, and the state reached is shown, nothing is shown, or the error is reported |
| UssdMenuLemmas.WalkAppend | src/ussd/lib/ussd-menu.ts:100-120 | walking two part lists in turn is walking their concatenation |
| UssdMenuLemmas.AccumulatedParts | src/ussd/lib/providers.ts:146-156 | extending the route adds the input's parts to the old route's parts |
| UssdMenuLemmas.StartPartsExtend | src/ussd/lib/ussd-menu.ts:80-90 | the parts walked for an extended route are the stored route's parts followed by the input's |
| UssdMenuLemmas.ContinuedRoute | src/ussd/lib/ussd-menu.ts:79-131 | resolving the extended route continues from where the old route ended |
| UssdMenuLemmas.NoLinksIgnoresRoute | src/ussd/lib/ussd-menu.ts:83-85 | a start state without links ignores the route and goes to its default next |
| UssdMenuLemmas.StaysPutByDefault | src/ussd/lib/ussd-menu.ts:122-125 | with no link matching and the default on itself, the state stays and records the input |
| UssdMenuLemmas.StarLinkTakesAll | src/ussd/lib/ussd-menu.ts:71-77 | a `*` link always matches some link |
| LegacyUssd.ChooseLegacyProvider | src/ussd.ts:55-69 | an unset provider means the default; an unknown one is rejected with its name |
| LegacyUssd.NewLegacyState | src/ussd.ts:248-258 | a state without a default next stays on itself, so it always has one |
| LegacyUssd.FirstLive | src/ussd.ts:133-156 | the first non-null link that matches, under loose equality, decides the target |
| LegacyUssd.Enter | src/ussd.ts:178-182 | entering a state records the input |
| LegacyUssd.LegacyMove | src/ussd.ts:133-164 | matching link, else default next, else stay; no state is added |
| LegacyUssd.LegacyWalkFrom | src/ussd.ts:133-164 | a finished walk ends on a known state and adds no state |
| LegacyUssd.LegacyResolve | src/ussd.ts:117-167 | resolution adds no state |
| LegacyUssd.EnterKeepsDefaults | src/ussd.ts:148-162 | entering a state changes only its recorded input, so every default stays set |
| LegacyUssd.MoveKeepsDefaults | src/ussd.ts:133-164 | a successful move keeps every registered state's default set |
| LegacyUssd.WalkKeepsDefaults | src/ussd.ts:133-164 | walking the parts keeps every registered state's default set |
| LegacyUssd.ResolveKeepsDefaults | src/ussd.ts:117-167 | resolving a route keeps every registered state's default set, so the menu stays valid across requests |
| LegacyUssd.DefaultAlwaysFound | src/ussd.ts:160-163 | the no-default-next error cannot happen when every state has a default |
| LegacyUssd.NoDefaultNextOnWalk | src/ussd.ts:160-163 | the walk itself never raises the no-default-next error |
| LegacyUssd.NoDefaultNextOnMove | src/ussd.ts:137-164 | one move fails only on a missing state or an undefined default, never for want of a default |
| LegacyUssd.InitiationNarrower | src/ussd.ts:291-294 | the older router treats fewer Hubtel requests as initiations |
| LegacyUssd.LegacyMapArgs | src/ussd.ts:264-275 | Hubtel gets a `+`-prefixed phone number and the initiation text or the message; others pass through |
| LegacyUssd.LegacyRouteResult | src/ussd.ts:287-304 | Hubtel without a session fails; an initiation starts the route; otherwise the input extends it |
| LegacyUssd.LegacyRunEffect | src/ussd.ts:169-176 | a state without a run is an error; with one it shows that screen |
| LegacyUssd.LegacyMenu.Create | src/ussd.ts:55-69 | a menu is created exactly when the provider is accepted |
| LegacyUssd.LegacyMenu.SessionConfig | src/ussd.ts:188-246 | the menu now uses the given session store |
| LegacyUssd.LegacyMenu.State | src/ussd.ts:248-258 | registering sets exactly that state and keeps every state's default set |
| LegacyUssd.LegacyMenu.Con | src/ussd.ts:80-90 | a continuing reply is formatted and delivered |
| LegacyUssd.LegacyMenu.End | src/ussd.ts:92-107 | an ending reply is formatted, delivered and ends the session |
| LegacyUssd.LegacyMenu.FindLive | src/ussd.ts:137-156 | the link loop gives the first live matching target |
| LegacyUssd.LegacyMenu.Step | src/ussd.ts:133-164 | one step of resolution meets the move specification |
| LegacyUssd.LegacyMenu.WalkParts | src/ussd.ts:133-164 | the loop over route parts meets the walk specification and keeps the menu valid |
| LegacyUssd.LegacyMenu.ResolveRoute | src/ussd.ts:117-167 | resolution meets its specification and keeps the menu valid |
| LegacyUssd.LegacyMenu.GetRoute | src/ussd.ts:287-304 | the route meets its specification and Hubtel stores it in the session |
| LegacyUssd.LegacyMenu.RunState | src/ussd.ts:169-176 | showing a state has exactly its effect |
| LegacyUssd.LegacyMenu.Go | src/ussd.ts:178-182 | going to an unknown state throws to the caller without showing anything; otherwise it records the value and shows the state, keeping the menu valid |
| LegacyUssd.LegacyMenu.Run | src/ussd.ts:306-329 | a request maps the arguments, builds the route (Hubtel writes it to the session, other providers leave the session alone), resolves it and shows the state reached, or reports the error; the menu stays valid |
| LegacyUssd.LegacyMenu.Show | src/ussd.ts:312-318 | the route resolves as the old walk defines; the state reached is shown, an undefined state fails on its missing `run`, and a resolution error is emitted; the session data is untouched and the menu stays valid |
| Forms.NamesAre | src/ussd/builders.ts:25-52 | the names registered are exactly the fields' `formKey.key` names |
| Forms.RegisteredKeys | src/ussd/builders.ts:25-52 | registering adds exactly the fields' state names to the table |
| Forms.RegisteredKeepsOthers | src/ussd/builders.ts:25-52 | states whose name no field has keep their content |
| Forms.StateNameInjective | src/ussd/builders.ts:48 | distinct field keys give distinct state names |
| Forms.OneStatePerField | src/ussd/builders.ts:25-52 | a field whose key no later field reuses is registered with its own title, key and last flag |
| Forms.FormMenu.BuildFormMenu | src/ussd/builders.ts:10-55 | an empty form is an error; otherwise it starts at the first field with every field registered, and the stored form is created once |
| Forms.FormMenu.RegisterFields | src/ussd/builders.ts:25-52 | the loop registers every field |
| Forms.FormMenu.Answer | src/ussd/builders.ts:36-49 | an answer stores exactly that field; the last field submits, others go to their own state |
| KnownVcs.FilterKind | src/vc/known-vcs.ts:45-48 | the filter kind is the first key of the filter other than `type`, and there is none exactly when every key is `type` |
| KnownVcs.FieldPasses | src/vc/known-vcs.ts:37-64 | a field without a path is an error; without a filter it passes; a filter whose kind is not `const` throws "Only const filter type is supported"; it fails only on a `const` mismatch |
| KnownVcs.FieldsPass | src/vc/known-vcs.ts:37-64 | fields pass exactly when every field holds |
| KnownVcs.DescriptorsPass | src/vc/known-vcs.ts:36 | no descriptors pass everything |
| KnownVcs.DescriptorsPassIff | src/vc/known-vcs.ts:36-64 | descriptors pass exactly when each one passes |
| KnownVcs.SelectKeepsPassing | src/vc/known-vcs.ts:22-73 | selection succeeds exactly when no JWT errs, and then keeps the passing JWTs in order |
| KnownVcs.SelectByOkIff | src/vc/known-vcs.ts:22-73 | whatever the per-JWT check, selection succeeds exactly when no JWT errs |
| KnownVcs.SelectByKeeps | src/vc/known-vcs.ts:22-73 | when it succeeds, selection keeps exactly the JWTs the check passes, in order |
| KnownVcs.NoDescriptorsKeepAll | src/vc/known-vcs.ts:22-73 | without descriptors every JWT is kept |
| KnownVcs.KeptIffConstantsMatch | src/vc/known-vcs.ts:37-69 | a JWT is kept exactly when every constrained field strictly equals its `const` |
| KnownVcs.MismatchStopsFields | src/vc/known-vcs.ts:60 | a mismatch ends the field loop |
| KnownVcs.FieldsPassCons | src/vc/known-vcs.ts:36-61 | the field loop over two lists in turn starts with the first field of the first list |
| KnownVcs.MismatchStopsDescriptors | src/vc/known-vcs.ts:64 | a mismatch ends the descriptor loop |
| KnownVcs.MatchFields | src/vc/known-vcs.ts:37-61 | the field loop meets the field specification |
| KnownVcs.MatchDescriptors | src/vc/known-vcs.ts:36-65 | the descriptor loop meets its specification |
| KnownVcs.PexSelect | src/vc/known-vcs.ts:22-73 | the JWT loop meets the selection specification |
| KnownVcs.SelectStep | src/vc/known-vcs.ts:31-69 | each JWT errs, is kept, or is skipped |
| KnownVcs.SelectStaysFailed | src/vc/known-vcs.ts:51-53 | an error stops selection |
| Offerings.OfferingsBy | src/ussd/modules/send-money/helpers.ts:6-33 | a cached grouping is returned without fetching; otherwise the offerings are fetched, grouped and cached |
| Offerings.OfferingsByPayout | src/ussd/modules/send-money/helpers.ts:6-33 | the same, grouped by payout currency |
| Offerings.OfferingsByPayin | src/ussd/modules/send-money/helpers.ts:35-60 | the same, grouped by payin currency |
| Offerings.PayoutBuckets | src/ussd/modules/send-money/helpers.ts:17-27 | each payout currency's bucket holds exactly its offerings in order |
| Offerings.PayinBuckets | src/ussd/modules/send-money/helpers.ts:44-54 | each payin currency's bucket holds exactly its offerings in order |
| Offerings.OffererLabel | src/ussd/modules/send-money/helpers.ts:66 | a known PFI is named; an unknown one shows "PFI ..." and the last four characters of its DID |
| Offerings.OfferingDescription | src/ussd/modules/send-money/helpers.ts:64-71 | the line starts with the one-based index, names the offerer as `OffererLabel` does, and ends with the rate on a line of its own |
| Offerings.KnownPfiDescribed | src/ussd/modules/send-money/helpers.ts:64-71 | an offering from a listed PFI is described by that PFI's name between the index and the rate |
| Offerings.KnownPfiNamed | src/constants/pfis.ts:1-26 | every listed PFI is shown by its name |
| Descriptions.TenCurrencies | src/constants/descriptions.ts:1-12 | the table has ten distinct currency codes |
| Descriptions.TitleWord | src/constants/descriptions.ts:26 | a word has its first letter upper-cased and the rest lower-cased |
| Descriptions.TitleCase | src/constants/descriptions.ts:25-27 | title case keeps the length |
| Descriptions.TitleCaseIsCharwise | src/constants/descriptions.ts:26 | title case is the per-character scan over words |
| Descriptions.TitleCaseIsIdempotent | src/constants/descriptions.ts:25-27 | title-casing twice is title-casing once |
| Descriptions.TitleCaseKeeps | src/constants/descriptions.ts:25-27 | spaces stay, and text without word characters is unchanged |
| Descriptions.HumanReadablePaymentMethod | src/constants/descriptions.ts:14-23 | an unknown currency prefix gives the kind unchanged; a known one starts with the currency name and a space |
| Descriptions.BareCurrency | src/constants/descriptions.ts:22 | a bare currency code gives its name and a space |
| Descriptions.KnownCurrencyMethod | src/constants/descriptions.ts:14-23 | `CODE_rest` gives the currency name then the title-cased rest with `_` as spaces |
| Ids.HumanReadableId | src/utils.ts:1-3 | the id is upper case; for four or more characters it is the first character and the last four |
| Ids.ShortId | src/utils.ts:2 | short ids follow JS slice rules for negative starts |
| Ids.EmptyId | src/utils.ts:2 | the empty id shows as "UNDEFINED" |
| Ids.SameEndsSameId | src/utils.ts:2 | ids that agree on the first character and the last four, ignoring case, display the same |
| Text.Upper | src/utils.ts:2 | upper-casing maps each character and keeps the length |
| Text.UpperIsIdempotent | src/utils.ts:2 | upper-casing twice is upper-casing once |
| Text.Split | src/constants/descriptions.ts:15 | split gives at least one part and no part holds the separator |
| Text.JoinSplit | src/ussd/lib/ussd-menu.ts:80 | joining the split parts restores the text |
| Text.SplitJoin | src/ussd/lib/ussd-menu.ts:80 | splitting the joined parts restores them |
| Text.SplitAppend | src/ussd/lib/ussd-menu.ts:80 | splitting at a separator splits each side |
| Text.SliceIndex | src/utils.ts:2 | a negative slice index counts from the end, clamped at 0 |
| Text.JsSlice | src/utils.ts:2 | an in-range slice is the subsequence |
| Text.ParseIntOfNat | src/exchanges/notification-handler.ts:163 | a written number, followed by non-digits, parses to itself |
| Text.ParseIntSkipsSpace | src/exchanges/notification-handler.ts:163 | leading white space does not change the parse |
| Records.Get | src/exchanges/index.ts:66-78 | a key is absent exactly when no entry has it |
| Records.Put | src/exchanges/index.ts:66-78 | a write sets its key, keeps the others and appends new keys at the end |
| Records.GroupSpecKeys | src/exchanges/index.ts:66-78 | grouping keys appear once each, in first-seen order |
| Records.GroupSpecValues | src/exchanges/index.ts:66-78 | each group holds exactly the items with that key, in order |
| Records.GroupInto | src/exchanges/index.ts:66-78 | the grouping loop meets the grouping specification |
| Records.Entries | src/ussd/lib/ussd-menu.ts:100 | object entry order holds the same entries and is insertion order when no key is an index |
| Seqs.Filter | src/exchanges/index.ts:56 | the filtered items are exactly the items that satisfy the predicate |
| Seqs.FilterHead | src/vc/known-vcs.ts:45-48 | the first filtered item is the first item that satisfies the predicate |
| Seqs.Find | src/exchanges/index.ts:106-108 | the item found satisfies the predicate; none exactly when no item does |
| Seqs.Dedup | src/exchanges/index.ts:37 | the same items, each once |
| Seqs.Latest | src/db/helpers.ts:35-38 | the latest item by key; none exactly for no items |
| Seqs.SortBy | src/exchanges/helpers.ts:154 | sorting orders by key and is a permutation |
| Seqs.Earliest | src/exchanges/helpers.ts:100-102 | the earliest item by key |
| Seqs.SortByFirstIsEarliest | src/exchanges/helpers.ts:101 | the head of the sorted list is the earliest item |

## Left out

- Concurrency: `Promise.all` and the parallel `map`s run one after another in input order, so the model does not capture interleavings or races between workers beyond what the locks promise.
- Reconcile.ProcessUsers, Reconcile.ProcessExchanges: every sibling callback runs to the end, as under `Promise.all`, and the first rejection in input order is the outcome. Which rejection comes first in time, and sibling writes still running after the `finally` has released the locks, are not captured: the model releases the locks after all siblings have finished.
- Time: `Date.now()`, `new Date()` and `setTimeout` are parameters (`now`, a `clock` sequence of readings). The worker's sleep between passes is not modelled.
- The tbDEX client, DID resolution and message signing are not part of this model. Remote exchanges come in as a map from (user DID, PFI DID) to exchanges, where a missing pair stands for a failed fetch. An order or close that the handler would create is a `Submission` parameter that says whether signing and sending succeeded.
- SMS delivery over HTTP (axios) is an outbox of queued texts; delivery failures are not modelled.
- Amounts are integers; the source's floating-point `Number` conversions are not modelled.
- Drizzle and D1 are modelled as in-memory tables. The KV-backed session handlers in `src/ussd/index.ts` and `src/ussd/menu.ts` are not part of this model; sessions are a typed store, one per value type, instead of JSON strings.
- `src/ussd/lib/updated.ts` is an unused draft and is not part of this model.
- The USSD screens of the send-money, help, wallet, profile and history modules are not part of this model; a state's `run` callback is a fixed screen (text and CON/END).
- Regular expressions: a link rule starting with `*` is a pattern. Only the bare `*` is interpreted; other patterns are decided by a `Regex` parameter.
- JWT decoding and the JSON path lookup in credential selection are a `ValueAt` parameter; a failing decode is not modelled.
- Case mapping is ASCII only; timestamps are integers.
- Triggers.StatusData: `JSON.stringify` escaping is not modelled; the order status is written between the quotes as it is, which agrees with the source for statuses without quotes, backslashes or control characters.
- A user without a row in the balance view has balance 0 here.
- `MapArgs`, `GetRoute` and `Run` require the request shape to match the provider's family, which the source leaves to its callers.
- The fetch failure of `fetchPFIOfferings` is not modelled; the remote offerings are a parameter.
- `callOnResult`'s event emitter is modelled as the `delivered` and `errors` sequences of the menus; an exception thrown to a caller is a `thrown` result.
- The `start` handler of `sessionConfig` is not modelled; its store write is the `Sessions.Store.Set` the routes use.
- `insertGoCreditTransaction`, `fetchGoCreditBalance` and `insertGoWalletTransaction` are not part of this model; their effects are modelled from the ledger, balance-view and wallet tables of `src/db/schema.ts`.
- `Providers.ParseInitiationText`: its contract bounds the length only; the exact route for the `*code*route#` shape is `Providers.InitiationRoundTrip`.
- `Descriptions.TitleCase`: its own contract states only the length; idempotence and what stays are separate lemmas.

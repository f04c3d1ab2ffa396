# PIX payment ledger and reconciliation — a Dafny model

This project models the payment core of the appsolidario backend:

- the `transactions` ledger, keyed by the Mercado Pago payment id (`external_id`);
- the payment store that creates PIX charges, polls their status and reconciles
  gateway webhooks. Each ledger row moves Pending → Done. Settling a row through
  the webhook writes one in-app notification (when its insert succeeds) and asks
  for one thank-you e-mail (when the payer is found). Settling through the status
  poll writes neither, and a redelivered webhook repeats both;
- the charge request, its headers and the status URL built by the Mercado Pago client;
- the early-return decision chains of the three payment HTTP handlers;
- the parsing of the gateway's `x-signature` header, and date parsing over a
  list of layouts.

Layout, one module per source file:

- `types.dfy` (`Types`): the shared entities (transaction, user, notification)
  and the error values the code returns.
- `decimal.dfy` (`Decimal`): `strconv.Itoa` and its inverse. This is how the
  gateway's integer id becomes the ledger key.
- `ledger.dfy` (`Ledger`): `service/transactions/store.go`.
  - The value `Table`: the rows by external_id plus the next serial id. Its
    member functions specify each query.
  - The class `Store`: the same rows, updated in place. Each method is proved
    equal to the corresponding `Table` function.
- `gateway.dfy` (`Gateway`): `payment/mpago.go`, limited to request
  construction and the status vocabulary.
- `payments.dfy` (`Payments`): `service/payment/store.go`.
  - The value `World`: the ledger, the notifications written, the e-mails asked
    for and the gateway requests made. It has one step function per store
    operation; the lemmas are about these.
  - The class `PaymentStore`: it owns the shared `Ledger.Store` and the three
    logs. Each method is proved equal to its step function.
- `routes.dfy` (`Routes`): `service/payment/routes.go`. Each handler is a
  function from its collaborators' outcomes to the status code, whether the
  payment store was invoked, and the JSON body.
- `utils.dfy` (`Utils`): `WebhookHeaderValidator` and `ParseDate`.
  - Both are loop methods.
  - Each is proved against a specification function: `FieldValue` for the
    validator, `FirstAccepting` for `ParseDate`.

What the outside world decides becomes an input of each operation:

- the outcome of each database round trip (`Db = Up | Down(reason)`);
- each gateway reply (`Result<PixResponse>`, `Result<StatusResponse>`);
- the user store's lookup of a user by id;
- the validator;
- the authenticated caller;
- HMAC-SHA256 with hex encoding;
- `time.Parse`.

Three behaviours of the code worth noting:

- `GetPaymentStatus` blanks only `qr_code` once a payment is Done.
  `copy_paste_code` still carries the gateway's code (service/payment/store.go:112-121).
- A second `CreatePayment` for an already tracked id answers with the QR code,
  copy-paste code and amount of *its own* gateway reply, not those of the first
  reply (service/payment/store.go:58-64).
- The webhook looks the ledger up by the event's `data.id` as received.
  The status poll looks it up by the decimal rendering of the gateway's
  numeric id (service/payment/store.go:99, 142).

## Model

| member | source | states |
|---|---|---|
| Ledger.ScanRowIntoTransaction | service/transactions/store.go:19-28 | A scan succeeds exactly when a row was found, and returns that row. A missing row gives `sql.ErrNoRows` and a query error passes through unchanged, so the result is never `(nil, nil)`. |
| Ledger.Table.Get | service/transactions/store.go:54-59 | The lookup returns the row stored under the external_id. A missing key gives ErrNoRows and a database failure gives that failure. On a valid table the returned row carries the requested external_id. |
| Ledger.Table.Create | service/transactions/store.go:30-45 | Look up first. A lookup error other than ErrNoRows is returned with nothing inserted. An existing row gives `Ok(None)` (the `(nil, nil)` answer) with nothing inserted. Otherwise exactly one Pending row with the given external id, payer, payee, amount and description and the next serial id is added, or the insert's error is returned with nothing added. The table stays valid (one row per external_id, distinct ids) and no Done row regresses. |
| Ledger.CreateTwiceInsertsOnce | service/transactions/store.go:31-44 | After a successful create, a second create for the same external_id inserts nothing and answers `(nil, nil)`, whatever payer, payee or amount it carries. |
| Ledger.Table.Update | service/transactions/store.go:47-52 | The UPDATE succeeds exactly when the database is up and the row exists. On success it sets the status (and the amount, when one is given) of that row only: every other field, every other row, the key set and the id counter are kept. A missing row gives ErrNoRows and changes nothing. |
| Ledger.Store.constructor | service/transactions/store.go:13-17 | A new store holds an empty, valid table whose serial starts at 1. |
| Ledger.Store.GetTransactionByExternalID | service/transactions/store.go:54-59 | Returns exactly `Table.Get` of the current rows; nothing changes. |
| Ledger.Store.CreateTransaction | service/transactions/store.go:30-45 | The new rows, id counter and result are exactly those of `Table.Create` on the old table; validity is kept. |
| Ledger.Store.UpdateTransactionStatus | service/transactions/store.go:47-52 | The new rows and result are exactly those of `Table.Update` with no amount; validity is kept. |
| Ledger.Store.UpdateTransactionStatusAndAmount | service/payment/store.go:106 | The new rows and result are exactly those of `Table.Update` with the gateway's amount; validity is kept. |
| Ledger.Store.SetStatus | service/transactions/store.go:47-52 | The single `UPDATE ... RETURNING` both update queries run, proved equal to `Table.Update`. |
| Decimal.NatToDecimal | service/payment/store.go:50 | The rendering of a number is a non-empty string of digits with no leading zero. |
| Decimal.ItoaRoundTrip | service/payment/store.go:50 | Parsing the rendered gateway id gives the id back. |
| Decimal.ItoaInjective | service/payment/store.go:50 | Two gateway ids share a ledger key if and only if they are equal. |
| Gateway.ParseStatus | payment/mpago.go:101-106 | A status string is read back into the vocabulary exactly when it is the wire form of one of its values. |
| Gateway.StatusVocabulary | payment/mpago.go:103-106 | The vocabulary is exactly "pending" and "approved", and the two are distinct. |
| Gateway.BuildPixRequest | payment/mpago.go:116-134 | The charge body copies amount and description unchanged and sets method "pix". The payer's email, first and last name come from the user, identification is ("CPF", user's CPF), and the address is (postal code, city, state). |
| Gateway.PixRequestDeterminedBy | payment/mpago.go:116-134 | Two charge bodies are equal if and only if amount, description and the seven user fields used (email, first and last name, CPF, postal code, city, state) agree. The receiver, the idempotency key and the user id never reach the body. |
| Gateway.ChargeHeaders | payment/mpago.go:148-152 | The charge carries exactly three headers: `Bearer <token>`, `application/json`, and the client's idempotency key unchanged. |
| Gateway.StatusHeaders | payment/mpago.go:187-189 | The status query carries only `Authorization: Bearer <token>`. |
| Gateway.StatusUrl | payment/mpago.go:181 | The status URL is the payments endpoint, one '/', then the payment id verbatim. |
| Gateway.StatusUrlInjective | payment/mpago.go:181 | Distinct payment ids are queried at distinct URLs. |
| Payments.World.CreatePayment | service/payment/store.go:43-81 | The gateway is called first. Its error is returned and nothing is written. Every success answers with this call's QR image, copy-paste code and amount under the decimal gateway id. An id already tracked inserts nothing. An untracked id with a healthy database adds exactly one Pending row (payer = user, payee = receiver, requested amount, description "Payment"). After a gateway success, the call succeeds exactly when the lookup by external id succeeds and either the row is already tracked or both queries of CreateTransaction succeed. Otherwise the first failing query's database error is returned. A failed call leaves the ledger unchanged. The ledger stays valid and never regresses. |
| Payments.World.GetPaymentStatus | service/payment/store.go:90-125 | A gateway error is returned and the ledger is untouched. A status other than approved answers Pending with the QR image and leaves the ledger alone. Approved succeeds exactly when the row is tracked and both queries reach the database; that row becomes Done with the gateway amount, and the answer is Done with an empty QR image. Amount and copy-paste code always come from the gateway. |
| Payments.World.ProcessWebhookEvent | service/payment/store.go:127-181 | A type other than "payment" gives the unhandled-event error. The payment-created action is a no-op without a gateway call. A gateway error is returned wrapped with "failed to get payment status". Not approved gives nil with nothing changed. Approved succeeds exactly when the row is tracked and both queries succeed. The row then becomes Done with the gateway amount, and one notification (payee ← payer, payment, transaction id, unread) is written when its insert succeeds. One e-mail, addressed to the user found by the settled row's payer id, is asked for exactly when that lookup succeeds. Nothing but the call log changes otherwise. |
| Payments.CreatePaymentTwiceTracksOnce | service/payment/store.go:50-67 | Two CreatePayment calls whose replies carry the same gateway id never track it twice. The second inserts nothing and still answers with its own reply's artifacts. |
| Payments.WebhookReplayDuplicatesSideEffects | service/payment/store.go:141-166 | Redelivering a settled approved webhook leaves the ledger identical, but appends a second identical notification and, when the row's payer is found, a second e-mail to that payer. |
| Payments.SideEffectFailuresSwallowed | service/payment/store.go:158-174 | Whether the notification insert fails and whether the payer is found change neither the webhook's result nor the ledger. |
| Payments.PollAndWebhookCommute | service/payment/store.go:98-156 | Settling by status poll and by webhook for the same approved reply commute, and both leave the row Done with the gateway amount. |
| Payments.RunKeepsLedgerSound | service/payment/store.go:43-181 | Over any sequence of store calls, the ledger keeps one row per external_id with distinct ids, no row disappears, and a Done row never goes back. |
| Payments.CreatePaymentScenario | service/payment/store.go:43-81 | Gateway id 555 for a 50 charge from user 1 to user 2 answers external id "555" with the reply's QR and copy-paste code, and leaves one Pending row "555". |
| Payments.WebhookScenario | service/payment/store.go:127-181 | An approved webhook for "555" makes that row Done/50 and writes exactly one notification for payee 2 from payer 1 about transaction 1. The one thank-you e-mail goes to payer 1 with amount 50. |
| Payments.PaymentStore.constructor | service/payment/store.go:25-34 | A new store shares the given ledger and starts with no notifications, e-mails or gateway calls. |
| Payments.PaymentStore.CreatePayment | service/payment/store.go:43-81 | The new ledger, logs and answer are exactly those of `World.CreatePayment`. |
| Payments.PaymentStore.GetPaymentStatus | service/payment/store.go:90-125 | The new ledger, logs and answer are exactly those of `World.GetPaymentStatus`. |
| Payments.PaymentStore.ProcessWebhookEvent | service/payment/store.go:127-181 | The new ledger, logs and result are exactly those of `World.ProcessWebhookEvent`. |
| Routes.HandleGeneratePix | service/payment/routes.go:26-72 | A decode or validation failure gives 400, a missing caller 401, a failed payer or payee lookup 500, and a payee equal to the payer 400 "cannot pay yourself"; none of these reaches the store. The store is invoked exactly when every gate passes. Its error gives 500 and its answer gives 200 with that answer. |
| Routes.SelfPaymentIsReceiverEqualsCaller | service/payment/routes.go:45-62 | With a user store that returns the user asked for, "cannot pay yourself" is answered if and only if the receiver is the caller, and then the store is never reached. |
| Routes.HandleGetPaymentStatus | service/payment/routes.go:74-89 | 200 with the store's answer under "data" exactly when the store succeeds, otherwise 500. |
| Routes.HandleMercadoPagoWebhook | service/payment/routes.go:91-111 | A decode failure gives 400 without processing. The event is processed exactly when decoded. The answer is 200 with a null body exactly when processing succeeds, and 500 otherwise. |
| Routes.WebhookFailuresAreRedelivered | service/payment/routes.go:103-110 | Composed with the reconciler, the endpoint answers 200 exactly when reconciliation succeeds. An unhandled type, or an approved payment missing from the ledger, is answered 500 and so is redelivered. |
| Utils.Split | utils/utils.go:112 | `strings.Split` on ',' gives at least one piece, and no piece holds the separator. |
| Utils.JoinSplit | utils/utils.go:112 | Joining the pieces with the separator gives the header back. |
| Utils.SplitOnce | utils/utils.go:120 | `SplitN(part, "=", 2)` gives one piece exactly when there is no '='. Otherwise it gives two pieces around the first '=': the key has no '=', and the value may contain '='. |
| Utils.SplitOnceAtFirst | utils/utils.go:120 | "key=value" with a key free of '=' splits into exactly key and value. |
| Utils.TrimSpace | utils/utils.go:122-123 | The trimmed string has no white space at either end and is no longer than its input. |
| Utils.TrimSpaceDropsSpace | utils/utils.go:122-123 | What TrimSpace keeps is a contiguous slice of its input, and everything it removes from either end is white space. |
| Utils.TrimSpacePadded | utils/utils.go:122-123 | White space around a trimmed string is exactly what TrimSpace removes. |
| Utils.WebhookHeaderValidator | utils/utils.go:95-143 | False when x-signature or x-request-id is empty. Otherwise true if and only if the HMAC of `id:<data.id>;request-id:<x-request-id>;ts:<ts>;` under the secret equals the parsed v1. ts and v1 are the values the loop over the header's parts records. |
| Utils.FieldValueAppend | utils/utils.go:118-129 | Reading one more part changes the recorded value only through that part: its trimmed value when its trimmed key matches, otherwise the value so far. |
| Utils.LaterFieldWins | utils/utils.go:124-128 | A later part whose key trims to ts or v1 overrides every earlier one with its trimmed value. |
| Utils.PartWithoutEqualsIgnored | utils/utils.go:120-121 | A part without '=' records nothing. |
| Utils.OtherFieldSkipped | utils/utils.go:124-128 | A part whose key does not trim to the key sought leaves that key's value as it was. |
| Utils.AbsentFieldIsEmpty | utils/utils.go:115 | A key no part names stays the empty string. |
| Utils.TwoFields | utils/utils.go:112-130 | "k1=v1,k2=v2" with distinct, trimmed, comma-free fields records exactly v1 for k1 and v2 for k2. |
| Utils.CanonicalSignatureFields | utils/utils.go:112-130 | The gateway's header "ts=<ts>,v1=<hash>" yields exactly that ts and that hash. |
| Utils.FirstAccepting | utils/utils.go:73-78 | The index of the first layout that parses the date: every earlier layout fails, and the one found succeeds. |
| Utils.ParseDate | utils/utils.go:62-86 | The four layouts are tried in their listed order. The result is the parse under the first one that accepts the date, or "invalid date format" when none does. |

## Left out

- SQL text, `database/sql` mechanics and the `created_at`/`updated_at` timestamps.
  - The ledger is an in-memory map.
  - Each round trip's success or failure is an input.
- HTTP transport of the gateway client (payment/mpago.go:135-176 and 180-207):
  client, sending, body reading and JSON decoding. Each reply is an input.
  - Only the reply fields the store reads are kept.
  - The request each operation would send is recorded as a `Call` in the store's log.
- Amounts are `float64` in the code and only ever copied. The model uses `int`
  and does no arithmetic on them.
- HMAC-SHA256, hex encoding and `time.Parse` are function-typed parameters.
- The validator (`utils.Validate.Struct`) and JSON decoding of request bodies.
  Each handler receives their outcome.
- JWT authentication and context plumbing. The handler receives the caller id
  the middleware found, or none.
- The notification store and the mailer.
  - The notification log records the notification when its insert succeeds.
  - The e-mail log records each thank-you e-mail the store asks the mailer for,
    which happens when looking up the row's payer succeeds.
  - A failed send is only printed by the code, so it is not modelled.
- Payments.World.ProcessWebhookEvent: the `transaction == nil` branch
  (service/payment/store.go:148-150) is not modelled. It is unreachable: a missing
  row already comes back from the lookup as ErrNoRows, which is returned instead.
- The definitions of `types.Transaction`, `types.TransactionStatus`,
  `types.Notification`, `payment.MercadoPagoWebhookEvent` and
  `MercadoPagoWebhookActionPaymentCreated` are not part of this model.
  - They are declared here from their uses.
  - The payment-created action is taken to be the string "payment.created".
- `UpdateTransactionStatusAndAmount` is called at service/payment/store.go:106 and 152
  but not defined in service/transactions/store.go. It is modelled from those call
  sites as a single UPDATE of status and amount.
- Concurrent webhook deliveries and the check-then-insert race in
  `CreateTransaction`. Calls are sequential.
- Payments.PaymentStore.constructor: the user store, notification store, mailer
  and database handle of `NewStore` are not kept. Their effects are inputs or logs.
- `WebhookHeaderValidator` is not wired into the webhook handler, so the model
  does not gate `ProcessWebhookEvent` on it.
- `GetInt`, `WriteJSON`, `WriteError` and `GetHttpClient` in utils/utils.go are
  plain dispatch or I/O.
- `strings.TrimSpace` follows `unicode.IsSpace`. Only that predicate's character
  set is modelled, not Unicode tables in general.

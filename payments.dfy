/** The payment orchestrator and webhook reconciler (service/payment/store.go).
    The store owns the ledger object, the notifications it created, the thank-you
    e-mails it asked the mailer for, and the gateway requests it made.  Gateway
    replies, database outcomes and the user lookup by id are inputs of each call. */
module Payments {

  import opened Types
  import opened Ledger
  import opened Gateway
  import Decimal

  /** The webhook event type the reconciler handles. */
  const PaymentEventType: string := "payment"

  /** MercadoPagoWebhookActionPaymentCreated. */
  const ActionPaymentCreated: string := "payment.created"

  /** Context added by ProcessWebhookEvent to a failed status query (store.go:138). */
  const StatusQueryFailed: string := "failed to get payment status"

  /** Description written on every ledger row created by CreatePayment (store.go:67). */
  const PaymentDescription: string := "Payment"

  datatype CreatePaymentResponse = CreatePaymentResponse(
    externalId: string, qrCodeBase64: string, copyPasteCode: string, amount: Amount)

  datatype PaymentStatusResponse = PaymentStatusResponse(
    status: TransactionStatus, amount: Amount, qrCode: string, copyPasteCode: string)

  /** MercadoPagoWebhookEvent: `type`, `action` and `data.id`. */
  datatype WebhookEvent = WebhookEvent(eventType: string, action: string, dataId: string)

  /** The response both branches of CreatePayment build from this call's gateway reply. */
  function Summary(externalId: string, pix: PixResponse): CreatePaymentResponse
  {
    CreatePaymentResponse(externalId, pix.qrCodeBase64, pix.qrCode, pix.transactionAmount)
  }

  /** The row `externalId` settled: Done with the gateway's amount, all else kept. */
  function Settled(rows: map<string, Transaction>, externalId: string, amount: Amount): map<string, Transaction>
    requires externalId in rows
  {
    rows[externalId := rows[externalId].(status := Done, amount := amount)]
  }

  /** The notification ProcessWebhookEvent writes for a settled transaction. */
  function PaymentNotification(tx: Transaction): Notification
  {
    Notification(tx.payeeId, tx.payerId, TypePayment, tx.id, false)
  }

  /** Everything the payment store can change or has done. */
  datatype World = World(table: Table, notifications: seq<Notification>, emails: seq<ThanksEmail>, calls: seq<Call>) {

    /** CreatePayment (store.go:43-81). */
    function CreatePayment(mp: MercadoPago, info: PaymentInfo, user: User, reply: Result<PixResponse>,
                           lookupDb: Db, createLookupDb: Db, insertDb: Db)
      : (res: (World, Result<CreatePaymentResponse>))
      ensures res.0.calls == calls + [ChargeCall(mp, info, user)]
      ensures res.0.notifications == notifications && res.0.emails == emails
      // the gateway first: its failure is returned and nothing is written
      ensures reply.Err? ==> res.0.table == table && res.1 == Err(reply.error)
      // a failed call writes nothing to the ledger
      ensures res.1.Err? ==> res.0.table == table
      // success exactly when the lookup reaches the database and the id is tracked
      // already, or both queries of CreateTransaction reach it too
      ensures reply.Ok? ==>
                (res.1.Ok? <==> lookupDb.Up? && (Decimal.Itoa(reply.value.id) in table.rows ||
                                                 (createLookupDb.Up? && insertDb.Up?)))
      // the lookup's failure and CreateTransaction's failure are returned as they are
      ensures reply.Ok? && lookupDb.Down? ==> res.1 == Err(Database(lookupDb.reason))
      ensures reply.Ok? && lookupDb.Up? && Decimal.Itoa(reply.value.id) !in table.rows && createLookupDb.Down? ==>
                res.1 == Err(Database(createLookupDb.reason))
      ensures reply.Ok? && lookupDb.Up? && Decimal.Itoa(reply.value.id) !in table.rows &&
              createLookupDb.Up? && insertDb.Down? ==>
                res.1 == Err(Database(insertDb.reason))
      // every answer carries this call's gateway artifacts under the decimal gateway id
      ensures res.1.Ok? ==> reply.Ok? && res.1.value == Summary(Decimal.Itoa(reply.value.id), reply.value)
      // an already tracked id: nothing inserted, still a success
      ensures reply.Ok? && lookupDb.Up? && Decimal.Itoa(reply.value.id) in table.rows ==>
                res.0.table == table && res.1.Ok?
      // an untracked id with a healthy database: one Pending row for payer -> receiver
      ensures reply.Ok? && lookupDb.Up? && createLookupDb.Up? && insertDb.Up?
              && Decimal.Itoa(reply.value.id) !in table.rows ==>
                && res.1.Ok?
                && res.0.table.rows == table.rows[Decimal.Itoa(reply.value.id) :=
                     Transaction(table.nextId, Decimal.Itoa(reply.value.id), user.id, info.receiverId,
                                 info.amount, Pending, PaymentDescription)]
      // in every case: either no change, or exactly that one new row
      ensures res.0.table == table ||
              (&& reply.Ok? && Decimal.Itoa(reply.value.id) !in table.rows
               && res.0.table.rows == table.rows[Decimal.Itoa(reply.value.id) :=
                    table.NewRow(Decimal.Itoa(reply.value.id), user.id, info.receiverId, info.amount, PaymentDescription)])
      ensures table.Valid() ==> res.0.table.Valid()
      ensures NeverRegresses(table.rows, res.0.table.rows)
    {
      var w := this.(calls := calls + [ChargeCall(mp, info, user)]);
      match reply
      case Err(e) => (w, Err(e))
      case Ok(pix) =>
        var key := Decimal.Itoa(pix.id);
        var found := table.Get(key, lookupDb);
        if found.Err? && found.error != ErrNoRows then (w, Err(found.error))
        else if found.Ok? then (w, Ok(Summary(key, pix)))
        else
          var (t, created) := table.Create(key, user.id, info.receiverId, info.amount, PaymentDescription,
                                           createLookupDb, insertDb);
          if created.Err? then (w.(table := t), Err(created.error))
          else (w.(table := t), Ok(Summary(key, pix)))
    }

    /** GetPaymentStatus (store.go:90-125): a live poll of the gateway. */
    function GetPaymentStatus(mp: MercadoPago, paymentId: string, reply: Result<StatusResponse>,
                              lookupDb: Db, updateDb: Db)
      : (res: (World, Result<PaymentStatusResponse>))
      ensures res.0.calls == calls + [QueryCall(mp, paymentId)]
      ensures res.0.notifications == notifications && res.0.emails == emails
      ensures res.1.Err? ==> res.0.table == table
      ensures reply.Err? ==> res.1 == Err(reply.error)
      // not approved: Pending with the QR payload, ledger untouched
      ensures reply.Ok? && reply.value.status != StatusApproved.Wire() ==>
                && res.0.table == table
                && res.1 == Ok(PaymentStatusResponse(Pending, reply.value.transactionAmount,
                                                     reply.value.qrCodeBase64, reply.value.qrCode))
      // approved: success exactly when the row is tracked and both queries reach the database
      ensures reply.Ok? && reply.value.status == StatusApproved.Wire() ==>
                (res.1.Ok? <==> lookupDb.Up? && updateDb.Up? && Decimal.Itoa(reply.value.id) in table.rows)
      ensures reply.Ok? && reply.value.status == StatusApproved.Wire() && res.1.Ok? ==>
                && Decimal.Itoa(reply.value.id) in table.rows
                && res.0.table == Table(Settled(table.rows, Decimal.Itoa(reply.value.id), reply.value.transactionAmount),
                                        table.nextId)
                && res.1.value == PaymentStatusResponse(Done, reply.value.transactionAmount, "", reply.value.qrCode)
      // amount and copy-paste code always come from the gateway
      ensures res.1.Ok? ==> && reply.Ok? && res.1.value.amount == reply.value.transactionAmount
                            && res.1.value.copyPasteCode == reply.value.qrCode
      ensures table.Valid() ==> res.0.table.Valid()
      ensures NeverRegresses(table.rows, res.0.table.rows)
    {
      var w := this.(calls := calls + [QueryCall(mp, paymentId)]);
      match reply
      case Err(e) => (w, Err(e))
      case Ok(info) =>
        if info.status == StatusApproved.Wire() then
          var key := Decimal.Itoa(info.id);
          var found := table.Get(key, lookupDb);
          if found.Err? then (w, Err(found.error))
          else
            var (t, updated) := table.UpdateStatusAndAmount(key, Done, info.transactionAmount, updateDb);
            if updated.Err? then (w.(table := t), Err(updated.error))
            else (w.(table := t), Ok(PaymentStatusResponse(Done, info.transactionAmount, "", info.qrCode)))
        else
          (w, Ok(PaymentStatusResponse(Pending, info.transactionAmount, info.qrCodeBase64, info.qrCode)))
    }

    /** ProcessWebhookEvent (store.go:127-181).  A missing row surfaces as the
        lookup's ErrNoRows, so the `transaction == nil` branch never runs. */
    function ProcessWebhookEvent(mp: MercadoPago, event: WebhookEvent, reply: Result<StatusResponse>,
                                 lookupDb: Db, updateDb: Db, notifyDb: Db, users: int -> Result<User>)
      : (res: (World, Result<()>))
      ensures event.eventType != PaymentEventType ==> res == (this, Err(UnhandledEventType(event.eventType)))
      ensures event.eventType == PaymentEventType && event.action == ActionPaymentCreated ==> res == (this, Ok(()))
      ensures event.eventType == PaymentEventType && event.action != ActionPaymentCreated ==>
                res.0.calls == calls + [QueryCall(mp, event.dataId)]
      ensures reply.Err? && event.eventType == PaymentEventType && event.action != ActionPaymentCreated ==>
                res.1 == Err(Wrapped(StatusQueryFailed, reply.error))
      // nothing but the call log changes unless the settlement succeeds
      ensures res.1.Err? || reply.Err? || reply.value.status != StatusApproved.Wire() ==>
                res.0.table == table && res.0.notifications == notifications && res.0.emails == emails
      ensures event.eventType == PaymentEventType && reply.Ok? && reply.value.status != StatusApproved.Wire() ==>
                res.1 == Ok(())
      // approved but untracked (or unreadable): an error and no notification
      ensures event.eventType == PaymentEventType && event.action != ActionPaymentCreated &&
              reply.Ok? && reply.value.status == StatusApproved.Wire() ==>
                (res.1.Ok? <==> lookupDb.Up? && updateDb.Up? && event.dataId in table.rows)
      // approved and tracked: Done with the gateway amount, one notification, one e-mail attempt
      ensures event.eventType == PaymentEventType && event.action != ActionPaymentCreated &&
              reply.Ok? && reply.value.status == StatusApproved.Wire() && res.1.Ok? ==>
                && event.dataId in table.rows
                && res.0.table == Table(Settled(table.rows, event.dataId, reply.value.transactionAmount), table.nextId)
                && res.0.notifications == notifications +
                     (if notifyDb.Up? then [PaymentNotification(table.rows[event.dataId])] else [])
                && res.0.emails == emails +
                     (if users(table.rows[event.dataId].payerId).Ok?
                      then [ThanksEmail(users(table.rows[event.dataId].payerId).value, reply.value.transactionAmount)]
                      else [])
      ensures |res.0.notifications| <= |notifications| + 1 && |res.0.emails| <= |emails| + 1
      ensures table.Valid() ==> res.0.table.Valid()
      ensures NeverRegresses(table.rows, res.0.table.rows)
    {
      if event.eventType != PaymentEventType then (this, Err(UnhandledEventType(event.eventType)))
      else if event.action == ActionPaymentCreated then (this, Ok(()))
      else
        var w := this.(calls := calls + [QueryCall(mp, event.dataId)]);
        match reply
        case Err(e) => (w, Err(Wrapped(StatusQueryFailed, e)))
        case Ok(info) =>
          if info.status != StatusApproved.Wire() then (w, Ok(()))
          else
            var found := table.Get(event.dataId, lookupDb);
            if found.Err? then (w, Err(found.error))
            else
              var tx := found.value;
              var (t, updated) := table.UpdateStatusAndAmount(event.dataId, Done, info.transactionAmount, updateDb);
              if updated.Err? then (w.(table := t), Err(updated.error))
              else
                var notes := if notifyDb.Up? then notifications + [PaymentNotification(tx)] else notifications;
                var payer := users(tx.payerId);
                var mails := if payer.Ok? then emails + [ThanksEmail(payer.value, info.transactionAmount)] else emails;
                (World(t, notes, mails, w.calls), Ok(()))
    }
  }

  /** Two CreatePayment calls whose gateway replies carry the same payment id never
      track it twice: the second inserts nothing and still answers with its own
      reply's QR code, copy-paste code and amount. */
  lemma CreatePaymentTwiceTracksOnce(w: World, mp: MercadoPago, info1: PaymentInfo, info2: PaymentInfo, user: User,
                                     p1: PixResponse, p2: PixResponse,
                                     lookup1: Db, createLookup1: Db, insert1: Db, createLookup2: Db, insert2: Db)
    requires w.table.Valid() && p1.id == p2.id
    requires (w.CreatePayment(mp, info1, user, Ok(p1), lookup1, createLookup1, insert1)).1.Ok?
    ensures var w1 := (w.CreatePayment(mp, info1, user, Ok(p1), lookup1, createLookup1, insert1)).0;
            var (w2, r2) := w1.CreatePayment(mp, info2, user, Ok(p2), Up, createLookup2, insert2);
            && w2.table == w1.table
            && r2 == Ok(CreatePaymentResponse(Decimal.Itoa(p1.id), p2.qrCodeBase64, p2.qrCode, p2.transactionAmount))
  {
    var key := Decimal.Itoa(p1.id);
    var w1 := (w.CreatePayment(mp, info1, user, Ok(p1), lookup1, createLookup1, insert1)).0;
    assert key in w1.table.rows;
  }

  /** A redelivered approved webhook leaves the ledger exactly as the first
      delivery left it, but nothing deduplicates the side effects: a second
      identical notification and a second e-mail to the row's payer are made. */
  lemma WebhookReplayDuplicatesSideEffects(w: World, mp: MercadoPago, event: WebhookEvent, info: StatusResponse,
                                           users: int -> Result<User>)
    requires info.status == StatusApproved.Wire() && event.action != ActionPaymentCreated
    requires (w.ProcessWebhookEvent(mp, event, Ok(info), Up, Up, Up, users)).1.Ok?
    ensures var w1 := (w.ProcessWebhookEvent(mp, event, Ok(info), Up, Up, Up, users)).0;
            var (w2, r2) := w1.ProcessWebhookEvent(mp, event, Ok(info), Up, Up, Up, users);
            && r2 == Ok(())
            && w2.table == w1.table
            && |w1.notifications| > 0
            && w2.notifications == w1.notifications + [w1.notifications[|w1.notifications| - 1]]
            && event.dataId in w1.table.rows
            && var payer := users(w1.table.rows[event.dataId].payerId);
               w2.emails == w1.emails + (if payer.Ok? then [ThanksEmail(payer.value, info.transactionAmount)] else [])
  {
    var w1 := (w.ProcessWebhookEvent(mp, event, Ok(info), Up, Up, Up, users)).0;
    var id := event.dataId;
    var tx := w.table.rows[id];
    var settled := tx.(status := Done, amount := info.transactionAmount);
    assert w1.table.rows[id] == settled;
    assert settled.(status := Done, amount := info.transactionAmount) == settled;
    assert Settled(w1.table.rows, id, info.transactionAmount) == w1.table.rows;
    assert PaymentNotification(settled) == PaymentNotification(tx);
  }

  /** Whether the notification insert fails and whether the payer can be looked up
      change neither the webhook's result nor the ledger. */
  lemma SideEffectFailuresSwallowed(w: World, mp: MercadoPago, event: WebhookEvent, reply: Result<StatusResponse>,
                                    lookupDb: Db, updateDb: Db, notify1: Db, notify2: Db,
                                    users1: int -> Result<User>, users2: int -> Result<User>)
    ensures var (w1, r1) := w.ProcessWebhookEvent(mp, event, reply, lookupDb, updateDb, notify1, users1);
            var (w2, r2) := w.ProcessWebhookEvent(mp, event, reply, lookupDb, updateDb, notify2, users2);
            r1 == r2 && w1.table == w2.table && w1.calls == w2.calls
  {
  }

  /** Settlement by a status poll and by a webhook for the same gateway reply
      commute: either order leaves the same ledger. */
  lemma PollAndWebhookCommute(w: World, mp: MercadoPago, event: WebhookEvent, info: StatusResponse,
                              notifyDb: Db, users: int -> Result<User>)
    requires info.status == StatusApproved.Wire() && event.dataId == Decimal.Itoa(info.id)
    requires event.eventType == PaymentEventType && event.action != ActionPaymentCreated
    requires event.dataId in w.table.rows
    ensures var pollFirst := (w.GetPaymentStatus(mp, event.dataId, Ok(info), Up, Up)).0;
            var webhookFirst := (w.ProcessWebhookEvent(mp, event, Ok(info), Up, Up, notifyDb, users)).0;
            && (pollFirst.ProcessWebhookEvent(mp, event, Ok(info), Up, Up, notifyDb, users)).0.table
               == (webhookFirst.GetPaymentStatus(mp, event.dataId, Ok(info), Up, Up)).0.table
            && (webhookFirst.GetPaymentStatus(mp, event.dataId, Ok(info), Up, Up)).0.table
               == Table(Settled(w.table.rows, event.dataId, info.transactionAmount), w.table.nextId)
  {
    var id := event.dataId;
    var once := Settled(w.table.rows, id, info.transactionAmount);
    assert once[id].(status := Done, amount := info.transactionAmount) == once[id];
    assert Settled(once, id, info.transactionAmount) == once;
  }

  /** The calls a client can make of the store, with everything they receive from outside. */
  datatype Op =
    | CreatePaymentOp(info: PaymentInfo, user: User, pixReply: Result<PixResponse>,
                      lookupDb: Db, createLookupDb: Db, insertDb: Db)
    | StatusPollOp(paymentId: string, statusReply: Result<StatusResponse>, lookupDb: Db, updateDb: Db)
    | WebhookOp(event: WebhookEvent, statusReply: Result<StatusResponse>, lookupDb: Db, updateDb: Db,
                notifyDb: Db, users: int -> Result<User>)

  function Apply(w: World, mp: MercadoPago, op: Op): World
  {
    match op
    case CreatePaymentOp(info, user, reply, l, c, i) => (w.CreatePayment(mp, info, user, reply, l, c, i)).0
    case StatusPollOp(id, reply, l, u) => (w.GetPaymentStatus(mp, id, reply, l, u)).0
    case WebhookOp(e, reply, l, u, n, p) => (w.ProcessWebhookEvent(mp, e, reply, l, u, n, p)).0
  }

  /** The state after a sequence of calls, one after the other. */
  function Run(w: World, mp: MercadoPago, ops: seq<Op>): World
    decreases |ops|
  {
    if ops == [] then w else Run(Apply(w, mp, ops[0]), mp, ops[1..])
  }

  lemma NeverRegressesTransitive(a: map<string, Transaction>, b: map<string, Transaction>, c: map<string, Transaction>)
    requires NeverRegresses(a, b) && NeverRegresses(b, c)
    ensures NeverRegresses(a, c)
  {
  }

  /** Over any sequence of calls: at most one row per external_id stays true, no
      row is ever removed, and a Done row is never set back to another status. */
  lemma {:induction false} RunKeepsLedgerSound(w: World, mp: MercadoPago, ops: seq<Op>)
    requires w.table.Valid()
    ensures Run(w, mp, ops).table.Valid()
    ensures NeverRegresses(w.table.rows, Run(w, mp, ops).table.rows)
    decreases |ops|
  {
    if ops != [] {
      var next := Apply(w, mp, ops[0]);
      assert next.table.Valid() && NeverRegresses(w.table.rows, next.table.rows);
      RunKeepsLedgerSound(next, mp, ops[1..]);
      NeverRegressesTransitive(w.table.rows, next.table.rows, Run(next, mp, ops[1..]).table.rows);
    }
  }

  /** Gateway id 555 for a 50 charge from user 1 to user 2 on an empty ledger:
      the answer is keyed "555" and one Pending row "555" exists. */
  lemma CreatePaymentScenario(mp: MercadoPago, user: User, key: string)
    requires user.id == 1
    ensures var info := PaymentInfo(50, "thanks", 2, key);
            var pix := PixResponse(555, "pending", 50, "Y", "X");
            var (w1, r) := World(Table(map[], 1), [], [], []).CreatePayment(mp, info, user, Ok(pix), Up, Up, Up);
            && r == Ok(CreatePaymentResponse("555", "X", "Y", 50))
            && w1.table.rows == map["555" := Transaction(1, "555", 1, 2, 50, Pending, "Payment")]
  {
    assert Decimal.Itoa(555) == "555" by {
      assert Decimal.NatToDecimal(5) == "5";
      assert Decimal.NatToDecimal(55) == "55";
    }
  }

  /** Then an updated-payment webhook for "555" with the gateway reporting
      approved/50: row "555" is Done/50 and exactly one notification for payee 2
      from payer 1 about transaction 1 is written, and the thank-you e-mail
      goes to payer 1, not to payee 2. */
  lemma WebhookScenario(mp: MercadoPago, users: int -> Result<User>, payer: User)
    requires users(1) == Ok(payer)
    ensures var w := World(Table(map["555" := Transaction(1, "555", 1, 2, 50, Pending, "Payment")], 2), [], [], []);
            var event := WebhookEvent("payment", "payment.updated", "555");
            var info := StatusResponse(555, "approved", 50, "Y", "X");
            var (w1, r) := w.ProcessWebhookEvent(mp, event, Ok(info), Up, Up, Up, users);
            && r == Ok(())
            && w1.table.rows == map["555" := Transaction(1, "555", 1, 2, 50, Done, "Payment")]
            && w1.notifications == [Notification(2, 1, TypePayment, 1, false)]
            && w1.emails == [ThanksEmail(payer, 50)]
  {
  }

  /** The store object: the ledger it shares and the effects it has produced. */
  class PaymentStore {
    const gateway: MercadoPago
    const txs: Ledger.Store
    var notifications: seq<Notification>
    var emails: seq<ThanksEmail>
    var calls: seq<Call>

    function State(): World
      reads this, txs
    {
      World(txs.Snapshot(), notifications, emails, calls)
    }

    ghost predicate Valid()
      reads this, txs
    {
      txs.Valid()
    }

    /** NewStore, with the collaborators this model keeps. */
    constructor (gateway: MercadoPago, txs: Ledger.Store)
      requires txs.Valid()
      ensures Valid() && this.gateway == gateway && this.txs == txs
      ensures notifications == [] && emails == [] && calls == []
    {
      this.gateway := gateway;
      this.txs := txs;
      notifications, emails, calls := [], [], [];
    }

    method CreatePayment(info: PaymentInfo, user: User, reply: Result<PixResponse>,
                         lookupDb: Db, createLookupDb: Db, insertDb: Db)
      returns (r: Result<CreatePaymentResponse>)
      requires Valid()
      modifies this, txs
      ensures Valid()
      ensures (State(), r) == old(State()).CreatePayment(gateway, info, user, reply, lookupDb, createLookupDb, insertDb)
    {
      calls := calls + [ChargeCall(gateway, info, user)];
      if reply.Err? {
        return Err(reply.error);
      }
      var pix := reply.value;
      var stringId := Decimal.Itoa(pix.id);
      var found := txs.GetTransactionByExternalID(stringId, lookupDb);
      if found.Err? && found.error != ErrNoRows {
        return Err(found.error);
      }
      if found.Ok? {
        return Ok(Summary(stringId, pix));
      }
      var created := txs.CreateTransaction(stringId, user.id, info.receiverId, info.amount, PaymentDescription,
                                           createLookupDb, insertDb);
      if created.Err? {
        return Err(created.error);
      }
      r := Ok(Summary(stringId, pix));
    }

    method GetPaymentStatus(paymentId: string, reply: Result<StatusResponse>, lookupDb: Db, updateDb: Db)
      returns (r: Result<PaymentStatusResponse>)
      requires Valid()
      modifies this, txs
      ensures Valid()
      ensures (State(), r) == old(State()).GetPaymentStatus(gateway, paymentId, reply, lookupDb, updateDb)
    {
      calls := calls + [QueryCall(gateway, paymentId)];
      var status := Pending;
      if reply.Err? {
        return Err(reply.error);
      }
      var info := reply.value;
      if info.status == StatusApproved.Wire() {
        var found := txs.GetTransactionByExternalID(Decimal.Itoa(info.id), lookupDb);
        if found.Err? {
          return Err(found.error);
        }
        status := Done;
        var updated := txs.UpdateTransactionStatusAndAmount(Decimal.Itoa(info.id), Done, info.transactionAmount, updateDb);
        if updated.Err? {
          return Err(updated.error);
        }
      }
      var qrCode := "";
      if status != Done {
        qrCode := info.qrCodeBase64;
      }
      r := Ok(PaymentStatusResponse(status, info.transactionAmount, qrCode, info.qrCode));
    }

    method ProcessWebhookEvent(event: WebhookEvent, reply: Result<StatusResponse>,
                               lookupDb: Db, updateDb: Db, notifyDb: Db, users: int -> Result<User>)
      returns (r: Result<()>)
      requires Valid()
      modifies this, txs
      ensures Valid()
      ensures (State(), r) == old(State()).ProcessWebhookEvent(gateway, event, reply, lookupDb, updateDb,
                                                               notifyDb, users)
    {
      if event.eventType != PaymentEventType {
        return Err(UnhandledEventType(event.eventType));
      }
      if event.action == ActionPaymentCreated {
        return Ok(());
      }
      calls := calls + [QueryCall(gateway, event.dataId)];
      if reply.Err? {
        return Err(Wrapped(StatusQueryFailed, reply.error));
      }
      var info := reply.value;
      if info.status == StatusApproved.Wire() {
        var found := txs.GetTransactionByExternalID(event.dataId, lookupDb);
        if found.Err? {
          return Err(found.error);
        }
        var tx := found.value;
        var updated := txs.UpdateTransactionStatusAndAmount(event.dataId, Done, info.transactionAmount, updateDb);
        if updated.Err? {
          return Err(updated.error);
        }
        // a failed notification insert or e-mail is not reported to the caller
        if notifyDb.Up? {
          notifications := notifications + [PaymentNotification(tx)];
        }
        var payer := users(tx.payerId);
        if payer.Ok? {
          emails := emails + [ThanksEmail(payer.value, info.transactionAmount)];
        }
      }
      r := Ok(());
    }
  }
}

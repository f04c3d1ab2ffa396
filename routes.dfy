/** The HTTP handlers of the payment service (service/payment/routes.go) as
    decision chains: from the outcomes of their collaborators (JSON decoding, the
    validator, the authenticated caller, the user store, the payment store) to
    the status code written, whether the payment store was called, and the body. */
module Routes {

  import opened Types
  import Ledger
  import opened Gateway
  import opened Payments

  const StatusOK: int := 200
  const StatusBadRequest: int := 400
  const StatusUnauthorized: int := 401
  const StatusInternalServerError: int := 500

  /** Why a request was turned down; each stands for one WriteError message. */
  datatype Rejection =
    | DecodeFailed        // "failed to decode request: ..."
    | InvalidPayload      // the validator's error
    | NotAuthenticated    // "user not authenticated"
    | PayerLookupFailed   // "failed to get user: ..."
    | PayeeLookupFailed   // "failed to get payee: ..."
    | SelfPayment         // "cannot pay yourself"
    | CreateFailed        // "failed to create payment: ..."
    | StatusFailed        // "failed to get payment status: ..."
    | WebhookFailed       // "failed to handle webhook: ..."

  /** The JSON written: an error object, a value, a value under one key, or null. */
  datatype Body<T> = Rejected(why: Rejection) | Json(value: T) | Enveloped(key: string, value: T) | Null

  datatype Reply<T> = Reply(code: int, storeInvoked: bool, body: Body<T>)

  /** HandleGeneratePix (routes.go:26-72).  `payload` is None when decoding fails;
      `caller` is the user id the authentication middleware put in the context;
      `lookup` is the user store's GetUserByID; `create` the payment store. */
  function HandleGeneratePix(payload: Option<PaymentInfo>, valid: PaymentInfo -> bool, caller: Option<int>,
                             lookup: int -> Result<User>,
                             create: (PaymentInfo, User) -> Result<CreatePaymentResponse>)
    : (r: Reply<CreatePaymentResponse>)
    ensures payload.None? ==> r == Reply(StatusBadRequest, false, Rejected(DecodeFailed))
    ensures payload.Some? && !valid(payload.value) ==> r == Reply(StatusBadRequest, false, Rejected(InvalidPayload))
    ensures payload.Some? && valid(payload.value) && caller.None? ==>
              r == Reply(StatusUnauthorized, false, Rejected(NotAuthenticated))
    // both lookups come before the self-payment check
    ensures payload.Some? && valid(payload.value) && caller.Some? &&
            (lookup(caller.value).Err? || lookup(payload.value.receiverId).Err?) ==>
              r.code == StatusInternalServerError && !r.storeInvoked
    // the store is called exactly when every gate passes
    ensures r.storeInvoked <==>
              && payload.Some? && valid(payload.value) && caller.Some?
              && lookup(caller.value).Ok? && lookup(payload.value.receiverId).Ok?
              && lookup(payload.value.receiverId).value.id != lookup(caller.value).value.id
    ensures r.body == Rejected(SelfPayment) <==>
              && payload.Some? && valid(payload.value) && caller.Some?
              && lookup(caller.value).Ok? && lookup(payload.value.receiverId).Ok?
              && lookup(payload.value.receiverId).value.id == lookup(caller.value).value.id
    ensures r.body == Rejected(SelfPayment) ==> r.code == StatusBadRequest
    ensures r.storeInvoked ==>
              match create(payload.value, lookup(caller.value).value)
              case Ok(info) => r == Reply(StatusOK, true, Json(info))
              case Err(_) => r == Reply(StatusInternalServerError, true, Rejected(CreateFailed))
    ensures r.code == StatusOK ==> r.storeInvoked
  {
    if payload.None? then Reply(StatusBadRequest, false, Rejected(DecodeFailed))
    else if !valid(payload.value) then Reply(StatusBadRequest, false, Rejected(InvalidPayload))
    else if caller.None? then Reply(StatusUnauthorized, false, Rejected(NotAuthenticated))
    else
      var user := lookup(caller.value);
      if user.Err? then Reply(StatusInternalServerError, false, Rejected(PayerLookupFailed))
      else
        var payee := lookup(payload.value.receiverId);
        if payee.Err? then Reply(StatusInternalServerError, false, Rejected(PayeeLookupFailed))
        else if payee.value.id == user.value.id then Reply(StatusBadRequest, false, Rejected(SelfPayment))
        else
          match create(payload.value, user.value)
          case Err(_) => Reply(StatusInternalServerError, true, Rejected(CreateFailed))
          case Ok(info) => Reply(StatusOK, true, Json(info))
  }

  /** With a user store that returns the user it was asked for, "cannot pay
      yourself" is answered exactly when the receiver is the caller, and the
      payment store (and with it the gateway) is then never reached. */
  lemma SelfPaymentIsReceiverEqualsCaller(info: PaymentInfo, valid: PaymentInfo -> bool, callerId: int,
                                          lookup: int -> Result<User>,
                                          create: (PaymentInfo, User) -> Result<CreatePaymentResponse>)
    requires valid(info)
    requires forall id :: lookup(id).Ok? ==> lookup(id).value.id == id
    requires lookup(callerId).Ok? && lookup(info.receiverId).Ok?
    ensures var r := HandleGeneratePix(Some(info), valid, Some(callerId), lookup, create);
            && (r.body == Rejected(SelfPayment) <==> info.receiverId == callerId)
            && (info.receiverId == callerId ==> !r.storeInvoked && r.code == StatusBadRequest)
  {
    assert lookup(callerId).value.id == callerId;
    assert lookup(info.receiverId).value.id == info.receiverId;
  }

  /** HandleGetPaymentStatus (routes.go:74-89): the store's answer goes out under "data". */
  function HandleGetPaymentStatus(paymentId: string, status: string -> Result<PaymentStatusResponse>)
    : (r: Reply<PaymentStatusResponse>)
    ensures r.storeInvoked
    ensures r.code == StatusOK <==> status(paymentId).Ok?
    ensures r.code == StatusOK ==> r.body == Enveloped("data", status(paymentId).value)
    ensures r.code != StatusOK ==> r == Reply(StatusInternalServerError, true, Rejected(StatusFailed))
  {
    match status(paymentId)
    case Err(_) => Reply(StatusInternalServerError, true, Rejected(StatusFailed))
    case Ok(info) => Reply(StatusOK, true, Enveloped("data", info))
  }

  /** HandleMercadoPagoWebhook (routes.go:91-111).  Any processing error is a 500,
      which makes the gateway deliver the event again. */
  function HandleMercadoPagoWebhook(event: Option<WebhookEvent>, process: WebhookEvent -> Result<()>)
    : (r: Reply<()>)
    ensures event.None? ==> r == Reply(StatusBadRequest, false, Rejected(DecodeFailed))
    ensures r.storeInvoked <==> event.Some?
    ensures event.Some? ==> (r.code == StatusOK <==> process(event.value).Ok?)
    ensures event.Some? && process(event.value).Err? ==> r == Reply(StatusInternalServerError, true, Rejected(WebhookFailed))
    ensures r.code == StatusOK ==> r.body == Null
  {
    match event
    case None => Reply(StatusBadRequest, false, Rejected(DecodeFailed))
    case Some(e) =>
      match process(e)
      case Err(_) => Reply(StatusInternalServerError, true, Rejected(WebhookFailed))
      case Ok(_) => Reply(StatusOK, true, Null)
  }

  /** Composed with the reconciler: the endpoint answers 200 exactly when the
      reconciler succeeds, so an event of another type than "payment", a failed
      status query, or an approved payment missing from the ledger is answered 500
      and the gateway delivers it again. */
  lemma WebhookFailuresAreRedelivered(w: World, mp: MercadoPago, event: WebhookEvent, reply: Result<StatusResponse>,
                                      lookupDb: Ledger.Db, updateDb: Ledger.Db, notifyDb: Ledger.Db,
                                      users: int -> Result<User>)
    ensures var r := HandleMercadoPagoWebhook(Some(event),
                       e => (w.ProcessWebhookEvent(mp, e, reply, lookupDb, updateDb, notifyDb, users)).1);
            && (r.code == StatusOK <==> (w.ProcessWebhookEvent(mp, event, reply, lookupDb, updateDb, notifyDb, users)).1.Ok?)
            && (event.eventType != PaymentEventType ==> r.code == StatusInternalServerError)
            && (event.eventType == PaymentEventType && event.action != ActionPaymentCreated && reply.Ok? &&
                reply.value.status == StatusApproved.Wire() && event.dataId !in w.table.rows ==>
                  r.code == StatusInternalServerError)
  {
  }
}

/** The Mercado Pago client (payment/mpago.go): the PIX charge request it builds,
    the headers it sends, the status URL and the gateway's status vocabulary.
    Sending the requests and decoding the replies is not modelled: each reply is
    an input of type `Result<PixResponse>` or `Result<StatusResponse>`. */
module Gateway {

  import opened Types

  /** The payments endpoint (payment/mpago.go:14). */
  const PaymentsUrl: string := "https://api.mercadopago.com/v1/payments"

  /** MercadoPago: the client and its access token. */
  datatype MercadoPago = MercadoPago(accessToken: string)

  /** PaymentInfo: the body of a client's payment request. */
  datatype PaymentInfo = PaymentInfo(amount: Amount, description: string, receiverId: int, idempotencyKey: string)

  datatype Identification = Identification(kind: string, number: string)
  datatype Address = Address(zipCode: string, city: string, federalUnit: string)
  datatype Payer = Payer(email: string, firstName: string, lastName: string,
                         identification: Identification, address: Address)

  /** GeneratePixPaymentRequest: the JSON body POSTed to create a charge. */
  datatype PixRequest = PixRequest(transactionAmount: Amount, description: string,
                                   paymentMethodId: string, payer: Payer)

  /** http.Header: each name maps to its list of values. */
  type Headers = map<string, seq<string>>

  /** The fields of MercadoPagoPixResponse the payment store reads. */
  datatype PixResponse = PixResponse(id: int, status: string, transactionAmount: Amount,
                                     qrCode: string, qrCodeBase64: string)

  /** MercadoPagoPaymentStatusResponse. */
  datatype StatusResponse = StatusResponse(id: int, status: string, transactionAmount: Amount,
                                           qrCode: string, qrCodeBase64: string)

  /** MercadoPagoStatusResponse: the two statuses the client names (payment/mpago.go:103-106). */
  datatype GatewayStatus = StatusPending | StatusApproved {
    function Wire(): string
    {
      match this
      case StatusPending => "pending"
      case StatusApproved => "approved"
    }
  }

  /** Reads a status string back into the vocabulary; anything else is not in it. */
  function ParseStatus(s: string): (r: Option<GatewayStatus>)
    ensures r.Some? ==> r.value.Wire() == s
    ensures forall g: GatewayStatus :: g.Wire() == s ==> r == Some(g)
  {
    if s == "pending" then Some(StatusPending)
    else if s == "approved" then Some(StatusApproved)
    else None
  }

  /** The vocabulary is exactly {"pending", "approved"}, and the two differ. */
  lemma StatusVocabulary(s: string)
    ensures ParseStatus(s).Some? <==> s == "pending" || s == "approved"
    ensures StatusPending.Wire() != StatusApproved.Wire()
  {
  }

  /** The request body of GeneratePixPayment (payment/mpago.go:116-134). */
  function BuildPixRequest(info: PaymentInfo, user: User): (r: PixRequest)
    ensures r.transactionAmount == info.amount && r.description == info.description
    ensures r.paymentMethodId == "pix"
    ensures r.payer.email == user.email && r.payer.firstName == user.name && r.payer.lastName == user.surname
    ensures r.payer.identification == Identification("CPF", user.cpf)
    ensures r.payer.address == Address(user.postalCode, user.city, user.state)
  {
    PixRequest(
      info.amount,
      info.description,
      "pix",
      Payer(user.email, user.name, user.surname,
            Identification("CPF", user.cpf),
            Address(user.postalCode, user.city, user.state)))
  }

  /** The body is a lossless image of exactly these fields: two requests agree iff
      the amount, description and the payer's email, names, CPF, postal code, city
      and state agree.  Receiver id, idempotency key and user id never enter it. */
  lemma PixRequestDeterminedBy(i1: PaymentInfo, u1: User, i2: PaymentInfo, u2: User)
    ensures BuildPixRequest(i1, u1) == BuildPixRequest(i2, u2) <==>
              && i1.amount == i2.amount && i1.description == i2.description
              && u1.email == u2.email && u1.name == u2.name && u1.surname == u2.surname
              && u1.cpf == u2.cpf && u1.postalCode == u2.postalCode
              && u1.city == u2.city && u1.state == u2.state
  {
  }

  /** The headers of the charge request (payment/mpago.go:148-152). */
  function ChargeHeaders(mp: MercadoPago, info: PaymentInfo): (h: Headers)
    ensures h.Keys == {"Authorization", "Content-Type", "X-Idempotency-Key"}
    ensures h["Authorization"] == ["Bearer " + mp.accessToken]
    ensures h["Content-Type"] == ["application/json"]
    ensures h["X-Idempotency-Key"] == [info.idempotencyKey]
  {
    map["Authorization" := ["Bearer " + mp.accessToken],
        "Content-Type" := ["application/json"],
        "X-Idempotency-Key" := [info.idempotencyKey]]
  }

  /** The headers of the status query (payment/mpago.go:187-189). */
  function StatusHeaders(mp: MercadoPago): (h: Headers)
    ensures h.Keys == {"Authorization"} && h["Authorization"] == ["Bearer " + mp.accessToken]
  {
    map["Authorization" := ["Bearer " + mp.accessToken]]
  }

  /** The status query URL (payment/mpago.go:181): the id is appended verbatim
      after one slash, so it can be read back from the URL. */
  function StatusUrl(paymentId: string): (u: string)
    ensures |u| == |PaymentsUrl| + 1 + |paymentId|
    ensures u[..|PaymentsUrl|] == PaymentsUrl && u[|PaymentsUrl|] == '/'
    ensures u[|PaymentsUrl| + 1..] == paymentId
  {
    PaymentsUrl + "/" + paymentId
  }

  /** Distinct payment ids are queried at distinct URLs. */
  lemma StatusUrlInjective(a: string, b: string)
    ensures StatusUrl(a) == StatusUrl(b) <==> a == b
  {
    if StatusUrl(a) == StatusUrl(b) {
      assert a == StatusUrl(a)[|PaymentsUrl| + 1..];
    }
  }

  /** A request the payment store asks the client to send. */
  datatype Call =
    | Charge(url: string, body: PixRequest, headers: Headers)
    | Query(url: string, headers: Headers)

  /** GeneratePixPayment's request: POST to the payments endpoint. */
  function ChargeCall(mp: MercadoPago, info: PaymentInfo, user: User): Call
  {
    Charge(PaymentsUrl, BuildPixRequest(info, user), ChargeHeaders(mp, info))
  }

  /** GetPaymentStatus's request: GET of the payment's URL. */
  function QueryCall(mp: MercadoPago, paymentId: string): Call
  {
    Query(StatusUrl(paymentId), StatusHeaders(mp))
  }
}

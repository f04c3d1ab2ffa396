/** Entities shared by the ledger, the gateway client and the payment store
    (types/types.go and the types the payment code uses). */
module Types {

  /** Go's `(value, error)` pair: exactly one of the two is meaningful. */
  datatype Result<+T> = Ok(value: T) | Err(error: Error)

  datatype Option<+T> = None | Some(value: T)

  /** The error values the core produces or passes through. */
  datatype Error =
    | ErrNoRows                                // sql.ErrNoRows: a query matched no row
    | Database(reason: string)                 // any other failure of a database round trip
    | Gateway(reason: string)                  // transport, status or decoding failure of a gateway call
    | Wrapped(context: string, cause: Error)   // fmt.Errorf("<context>: %w", cause)
    | UnhandledEventType(eventType: string)    // fmt.Errorf("unhandled event type: %s", ...)
    | TransactionNotFound                      // fmt.Errorf("transaction not found")
    | InvalidDateFormat                        // fmt.Errorf("invalid date format")

  /** Monetary amounts are float64 in the source but only ever copied, never computed. */
  type Amount = int

  /** types.TransactionStatus. `Canceled` exists but nothing in the core produces it. */
  datatype TransactionStatus = Pending | Done | Canceled

  /** One ledger row (types.Transaction); created_at/updated_at are left out. */
  datatype Transaction = Transaction(
    id: int,
    externalId: string,
    payerId: int,
    payeeId: int,
    amount: Amount,
    status: TransactionStatus,
    description: string)

  /** The fields of types.User that the payment core reads. */
  datatype User = User(
    id: int,
    name: string,
    surname: string,
    email: string,
    postalCode: string,
    city: string,
    state: string,
    cpf: string)

  /** types.NotificationType; only the payment kind is used by this core. */
  datatype NotificationType = TypePayment

  /** types.Notification as handed to the notification store. */
  datatype Notification = Notification(
    userId: int,
    fromUserId: int,
    kind: NotificationType,
    resourceId: int,
    isRead: bool)

  /** One request made of the mailer: SendPaymentThanksEmail(payer, amount). */
  datatype ThanksEmail = ThanksEmail(to: User, amount: Amount)
}

/** The shared types of the payment client (src/types.ts) and the values its code throws. */
module Types {
  import opened Wrappers

  /** The four error codes; there is no code for a payment over the spend limit. */
  datatype ErrorCode = InvalidRequest | PaymentRequired | PaymentFailed | InternalError

  /** The payment networks a client can be configured for. */
  datatype Network = SolanaMainnet | SolanaDevnet | BaseSepolia

  /** The message of an `Error` raised on one of the core's paths. */
  datatype Message =
    | Code(code: ErrorCode)                      // an error code used as the message
    | NegativeLimit                              // set-payment-limit given a negative value
    | LimitExceeded(lamports: int, limit: real)  // a receipt over the spend limit (limit in SOL)
    | BodyNotJson                                // the response body is not JSON
    | Other(text: string)                        // any other Error a collaborator raises

  /** A value JavaScript can throw: an `Error` instance, or anything else. */
  datatype Thrown = Error(message: Message) | NonError(description: string)

  /**
   * A payment receipt as copied out of the decoded header. Nothing checks
   * that the fields are present, so each one may be missing (`None`).
   */
  datatype PaymentInfo = PaymentInfo(
    amount: Option<int>,         // lamports
    recipient: Option<string>,
    signature: Option<string>,
    wallet: Option<string>)
}

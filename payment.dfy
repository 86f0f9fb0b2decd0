/**
 * The payment client of src/payment.ts: reading the payment receipt out of a
 * response, normalising thrown values, and the signer check made when a
 * server-side client is constructed.
 */
module Payment {
  import opened Wrappers
  import opened Types

  /** The header a paid response carries its receipt in. */
  const PaymentResponseHeader: string := "x-payment-response"

  /**
   * The JSON object a receipt header decodes to: the four receipt fields
   * (`None` when the object lacks one) and whatever other fields it has.
   */
  datatype Payload = Payload(
    amount: Option<int>,
    recipient: Option<string>,
    signature: Option<string>,
    wallet: Option<string>,
    others: map<string, string>)

  /**
   * A fetch response as far as the core looks at it: its headers (names in
   * lower case) and its body as `response.json()` parses it, `None` when
   * parsing fails.
   */
  datatype Response = Response(headers: map<string, string>, body: Option<string>)

  /** The capability that signs payments; only its presence matters here. */
  datatype Signer = Signer(address: string)

  /** A constructed server-side payment client: of its configuration only the signer is used. */
  datatype ServerPaymentClient = ServerPaymentClient(signer: Signer)

  /** `headers.get(name)`: the header's value, or `null` when it is absent. */
  function HeaderValue(response: Response, name: string): Option<string> {
    if name in response.headers then Some(response.headers[name]) else None
  }

  /** The receipt header is there and is not the empty string (it is truthy). */
  predicate HasReceiptHeader(response: Response) {
    var header := HeaderValue(response, PaymentResponseHeader);
    header.Some? && header.value != ""
  }

  /**
   * Reads the payment receipt out of a response. `decode` stands for
   * `JSON.parse(atob(header))`, base64 (section 4 of RFC 4648) and then
   * JSON; it gives `None` where either of them throws.
   */
  function ExtractPaymentInfo(response: Response, decode: string -> Option<Payload>): (r: Result<Option<PaymentInfo>, Thrown>)
    // no header, or an empty one: no payment, and no error
    ensures r == Success(None) <==> !HasReceiptHeader(response)
    // a header that does not decode is a failed payment, never "no payment"
    ensures r.Failure? <==> HasReceiptHeader(response) && decode(response.headers[PaymentResponseHeader]).None?
    ensures r.Failure? ==> r.error == Error(Code(PaymentFailed))
    // a header that decodes yields its four fields, whether present or not
    ensures r.Success? && r.value.Some? ==>
      HasReceiptHeader(response) &&
      var payload := decode(response.headers[PaymentResponseHeader]);
      payload.Some? &&
      r.value.value.amount == payload.value.amount &&
      r.value.value.recipient == payload.value.recipient &&
      r.value.value.signature == payload.value.signature &&
      r.value.value.wallet == payload.value.wallet
  {
    var header := HeaderValue(response, PaymentResponseHeader);
    if header.None? || header.value == "" then
      Success(None)
    else
      match decode(header.value)
      case None => Failure(Error(Code(PaymentFailed)))
      case Some(payload) =>
        Success(Some(PaymentInfo(payload.amount, payload.recipient, payload.signature, payload.wallet)))
  }

  /**
   * Fields of the decoded object other than the four receipt fields do not
   * affect the receipt: two decoders that agree on those four give the same
   * result.
   */
  lemma ExtractIgnoresOtherFields(response: Response, decode1: string -> Option<Payload>, decode2: string -> Option<Payload>)
    requires HasReceiptHeader(response)
    requires var p1, p2 := decode1(response.headers[PaymentResponseHeader]), decode2(response.headers[PaymentResponseHeader]);
      p1.Some? == p2.Some? &&
      (p1.Some? ==> p1.value.(others := map[]) == p2.value.(others := map[]))
    ensures ExtractPaymentInfo(response, decode1) == ExtractPaymentInfo(response, decode2)
  {
  }

  /**
   * No field is validated: a payload that decodes but has none of the
   * receipt fields still yields a receipt, with every field missing.
   */
  lemma ExtractAcceptsEmptyPayload(response: Response, decode: string -> Option<Payload>)
    requires HasReceiptHeader(response)
    requires decode(response.headers[PaymentResponseHeader]) == Some(Payload(None, None, None, None, map[]))
    ensures ExtractPaymentInfo(response, decode) == Success(Some(PaymentInfo(None, None, None, None)))
  {
  }

  /**
   * `handleError`: never returns normally; the result is the value it
   * throws. An `Error` is rethrown as it is; anything else becomes an
   * INTERNAL_ERROR. The context string is not used.
   */
  function HandleError(error: Thrown, context: string): (thrown: Thrown)
    ensures thrown.Error?
    ensures thrown == error <==> error.Error?
    ensures thrown != error ==> thrown.message == Code(InternalError)
  {
    if error.Error? then error else Error(Code(InternalError))
  }

  /** A thrown value that went through `handleError` once passes through it unchanged again. */
  lemma HandleErrorIdempotent(error: Thrown, context1: string, context2: string)
    ensures HandleError(HandleError(error, context1), context2) == HandleError(error, context1)
  {
  }

  /**
   * Constructs a `ServerPaymentClient`: without a signer it throws
   * PAYMENT_FAILED, otherwise construction succeeds with that signer. The
   * configured network is accepted but never read.
   */
  function NewServerPaymentClient(network: Network, signer: Option<Signer>): (r: Result<ServerPaymentClient, Thrown>)
    ensures r.Failure? <==> signer.None?
    ensures r.Failure? ==> r.error == Error(Code(PaymentFailed))
    ensures r.Success? ==> r.value.signer == signer.value
  {
    match signer
    case None => Failure(Error(Code(PaymentFailed)))
    case Some(s) => Success(ServerPaymentClient(s))
  }
}

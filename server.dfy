/**
 * The session state of src/index.ts and the three tool handlers that use it:
 * set-payment-limit, get-payment-history and fetch-with-payment.
 */
module Server {
  import opened Wrappers
  import opened Types
  import opened Payment
  import opened Ledger

  /** What get-payment-history reports. */
  datatype HistoryReport = HistoryReport(totalPayments: nat, records: seq<PaymentRecord>, totalSpent: SolAmount)

  /** What a successful fetch-with-payment reports. */
  datatype FetchReply = FetchReply(data: string, paymentMade: bool, paymentAmount: SolAmount)

  /** The history after a fetch-with-payment call, and what the call reports. */
  datatype FetchStep = FetchStep(history: seq<PaymentRecord>, outcome: Result<FetchReply, Thrown>)

  /** The history entry for an accepted receipt, stamped with the time `now`. */
  function NewRecord(url: string, info: PaymentInfo, now: string): PaymentRecord {
    PaymentRecord(url, AmountInSol(info.amount), info.recipient, now, info.signature)
  }

  /**
   * What fetch-with-payment does once the paid fetch has returned `response`:
   * extract the receipt, check it against the limit, append the record, then
   * parse the body. The payment has already been made at this point.
   */
  function AfterResponse(h: seq<PaymentRecord>, limit: Option<real>, url: string, response: Response,
                         decode: string -> Option<Payload>, now: string): (s: FetchStep)
    // at most one record is appended, earlier records stay as they were
    ensures s.history == h || (|s.history| == |h| + 1 && s.history[..|h|] == h)
    // a successful call reports a payment exactly when it recorded one
    ensures s.outcome.Success? ==> (s.outcome.value.paymentMade <==> s.history != h)
  {
    match ExtractPaymentInfo(response, decode)
    case Failure(e) => FetchStep(h, Failure(e))
    case Success(info) =>
      var amount := if info.Some? then AmountInSol(info.value.amount) else FromLamports(0);
      if info.Some? && Exceeds(limit, amount) then
        FetchStep(h, Failure(Error(LimitExceeded(amount.lamports, limit.value))))
      else
        var h' := if info.Some? then h + [NewRecord(url, info.value, now)] else h;
        match response.body
        case None => FetchStep(h', Failure(Error(BodyNotJson)))
        case Some(data) => FetchStep(h', Success(FetchReply(data, info.Some?, amount)))
  }

  /**
   * The whole fetch-with-payment handler: obtain a signer, construct the
   * client, run the paid fetch (its rejection normalised by `handleError`),
   * then continue as AfterResponse. `signer` is what `createSigner` gives
   * and `fetched` what the payment-wrapped fetch gives.
   */
  function HandleFetch(h: seq<PaymentRecord>, limit: Option<real>, url: string,
                       signer: Result<Option<Signer>, Thrown>, fetched: Result<Response, Thrown>,
                       decode: string -> Option<Payload>, now: string): (s: FetchStep)
    ensures s.history == h || (|s.history| == |h| + 1 && s.history[..|h|] == h)
  {
    match signer
    case Failure(e) => FetchStep(h, Failure(e))
    case Success(maybeSigner) =>
      match NewServerPaymentClient(SolanaDevnet, maybeSigner)
      case Failure(e) => FetchStep(h, Failure(e))
      case Success(_) =>
        match fetched
        case Failure(e) => FetchStep(h, Failure(HandleError(e, "Server payment fetch failed")))
        case Success(response) => AfterResponse(h, limit, url, response, decode, now)
  }

  /** No receipt header: nothing is recorded and no payment is reported. */
  lemma NoReceiptNoRecord(h: seq<PaymentRecord>, limit: Option<real>, url: string, response: Response,
                          decode: string -> Option<Payload>, now: string)
    requires !HasReceiptHeader(response)
    ensures var s := AfterResponse(h, limit, url, response, decode, now);
      s.history == h &&
      (response.body.Some? ==> s.outcome == Success(FetchReply(response.body.value, false, FromLamports(0)))) &&
      (response.body.None? ==> s.outcome == Failure(Error(BodyNotJson)))
  {
  }

  /** A receipt header that does not decode: PAYMENT_FAILED, nothing recorded. */
  lemma UndecodableReceiptNoRecord(h: seq<PaymentRecord>, limit: Option<real>, url: string, response: Response,
                                   decode: string -> Option<Payload>, now: string)
    requires HasReceiptHeader(response)
    requires decode(response.headers[PaymentResponseHeader]).None?
    ensures var s := AfterResponse(h, limit, url, response, decode, now);
      s.history == h && s.outcome == Failure(Error(Code(PaymentFailed)))
  {
  }

  /**
   * A receipt over a set limit: the call fails with the limit error and
   * nothing is recorded, although the paid fetch has already completed.
   */
  lemma OverLimitNoRecord(h: seq<PaymentRecord>, limit: real, url: string, response: Response,
                          decode: string -> Option<Payload>, now: string, info: PaymentInfo, lamports: int)
    requires ExtractPaymentInfo(response, decode) == Success(Some(info))
    requires info.amount == Some(lamports)
    requires lamports as real / LamportsPerSol as real > limit
    ensures var s := AfterResponse(h, Some(limit), url, response, decode, now);
      s.history == h && s.outcome == Failure(Error(LimitExceeded(lamports, limit)))
  {
  }

  /**
   * A receipt the limit lets through (no limit, an amount at most the limit,
   * or no amount at all) is recorded as one new last record, with the
   * request's url, the amount in SOL, the receipt's recipient and signature
   * and the time. A body that does not parse then still fails the call, but
   * the record stays.
   */
  lemma AcceptedReceiptRecorded(h: seq<PaymentRecord>, limit: Option<real>, url: string, response: Response,
                                decode: string -> Option<Payload>, now: string, info: PaymentInfo)
    requires ExtractPaymentInfo(response, decode) == Success(Some(info))
    requires limit.None? || info.amount.None? ||
             info.amount.value as real / LamportsPerSol as real <= limit.value
    ensures var s := AfterResponse(h, limit, url, response, decode, now);
      |s.history| == |h| + 1 && s.history[..|h|] == h &&
      s.history[|h|].url == url &&
      s.history[|h|].amount == AmountInSol(info.amount) &&
      s.history[|h|].recipient == info.recipient &&
      s.history[|h|].signature == info.signature &&
      s.history[|h|].timestamp == now &&
      (response.body.Some? ==> s.outcome == Success(FetchReply(response.body.value, true, AmountInSol(info.amount)))) &&
      (response.body.None? ==> s.outcome == Failure(Error(BodyNotJson)))
  {
    var s := AfterResponse(h, limit, url, response, decode, now);
    assert s.history == h + [NewRecord(url, info, now)];
  }

  /**
   * Failures before the paid fetch returns (signer creation, a missing
   * signer, a rejected fetch) leave the history as it was. A missing signer
   * is PAYMENT_FAILED; a rejected fetch reports the normalised error.
   */
  lemma FailureBeforeResponseNoRecord(h: seq<PaymentRecord>, limit: Option<real>, url: string,
                                      signer: Result<Option<Signer>, Thrown>, fetched: Result<Response, Thrown>,
                                      decode: string -> Option<Payload>, now: string)
    requires signer.Failure? || signer == Success(None) || fetched.Failure?
    ensures var s := HandleFetch(h, limit, url, signer, fetched, decode, now);
      s.history == h && s.outcome.Failure? &&
      (signer == Success(None) ==> s.outcome.error == Error(Code(PaymentFailed))) &&
      (signer.Success? && signer.value.Some? && fetched.Failure? ==>
         s.outcome.error == HandleError(fetched.error, "Server payment fetch failed"))
  {
  }

  /**
   * The limit after set-payment-limit with `value`: unchanged for a negative
   * value (which is refused), removed for 0, `value` otherwise.
   */
  function LimitAfterSet(limit: Option<real>, value: real): (r: Option<real>)
    ensures value < 0.0 ==> r == limit
    ensures value >= 0.0 ==> (r.None? <==> value == 0.0)
    ensures value > 0.0 ==> r == Some(value)
  {
    if value < 0.0 then limit else if value == 0.0 then None else Some(value)
  }

  /** One call of a tool that uses the session state. */
  datatype Call =
    | SetLimitCall(value: real)
    | HistoryCall(n: Option<int>)
    | FetchCall(url: string, signer: Result<Option<Signer>, Thrown>, fetched: Result<Response, Thrown>,
                decode: string -> Option<Payload>, now: string)

  /** The session state between calls. */
  datatype State = State(history: seq<PaymentRecord>, limit: Option<real>)

  /** The state after one call. */
  function Apply(st: State, c: Call): State {
    match c
    case SetLimitCall(value) => State(st.history, LimitAfterSet(st.limit, value))
    case HistoryCall(_) => st
    case FetchCall(url, signer, fetched, decode, now) =>
      State(HandleFetch(st.history, st.limit, url, signer, fetched, decode, now).history, st.limit)
  }

  /** The state after a sequence of calls, made one after the other. */
  function Run(st: State, calls: seq<Call>): State
    decreases |calls|
  {
    if calls == [] then st else Run(Apply(st, calls[0]), calls[1..])
  }

  /** How many of the calls are fetch-with-payment calls. */
  function FetchCount(calls: seq<Call>): nat {
    if calls == [] then 0 else (if calls[0].FetchCall? then 1 else 0) + FetchCount(calls[1..])
  }

  /**
   * Over any sequence of calls the history is only appended to: what was
   * recorded stays, in its order, and each fetch adds at most one record.
   */
  lemma {:induction false} RunAppendOnly(st: State, calls: seq<Call>)
    ensures st.history <= Run(st, calls).history
    ensures |Run(st, calls).history| <= |st.history| + FetchCount(calls)
    decreases |calls|
  {
    if calls != [] {
      var next := Apply(st, calls[0]);
      assert st.history <= next.history;
      RunAppendOnly(next, calls[1..]);
    }
  }

  /** Over any sequence of calls a stored limit stays positive. */
  lemma {:induction false} RunKeepsLimitPositive(st: State, calls: seq<Call>)
    requires st.limit.Some? ==> st.limit.value > 0.0
    ensures var final := Run(st, calls); final.limit.Some? ==> final.limit.value > 0.0
    decreases |calls|
  {
    if calls != [] {
      RunKeepsLimitPositive(Apply(st, calls[0]), calls[1..]);
    }
  }

  /** The module-level state of the server: the payment history and the spend limit (in SOL). */
  class Session {
    var history: seq<PaymentRecord>
    var limit: Option<real>

    /** A stored limit is positive; 0 is kept as "no limit". */
    ghost predicate Valid()
      reads this
    {
      limit.Some? ==> limit.value > 0.0
    }

    /** A fresh session: no payments, no limit. */
    constructor ()
      ensures Valid()
      ensures history == [] && limit == None
    {
      history := [];
      limit := None;
    }

    /**
     * set-payment-limit: a negative value fails and leaves the limit as it
     * was; 0 removes the limit; a positive value becomes the limit. The
     * reported current limit is the stored one.
     */
    method SetPaymentLimit(value: real) returns (r: Result<Option<real>, Thrown>)
      requires Valid()
      modifies this`limit
      ensures Valid()
      ensures limit == LimitAfterSet(old(limit), value)
      ensures value < 0.0 ==> r == Failure(Error(NegativeLimit)) && limit == old(limit)
      ensures value == 0.0 ==> limit == None
      ensures value > 0.0 ==> limit == Some(value)
      ensures r.Success? <==> value >= 0.0
      ensures r.Success? ==> r.value == limit
    {
      if value < 0.0 {
        return Failure(Error(NegativeLimit));
      }
      limit := if value == 0.0 then None else Some(value);
      r := Success(limit);
    }

    /**
     * get-payment-history: the selected records, and the count and total of
     * the whole history whatever the limit argument. It changes nothing.
     */
    method GetPaymentHistory(n: Option<int>) returns (r: HistoryReport)
      ensures r.totalPayments == |history|
      ensures r.records == HistoryRecords(history, n)
      ensures r.totalSpent == TotalSpent(history)
    {
      r := HistoryReport(|history|, HistoryRecords(history, n), TotalSpent(history));
    }

    /**
     * The part of fetch-with-payment after the paid fetch has returned: the
     * record is appended before the body is parsed, so a body that fails to
     * parse leaves it in place.
     */
    method RecordAfterFetch(url: string, response: Response, decode: string -> Option<Payload>, now: string)
      returns (r: Result<FetchReply, Thrown>)
      requires Valid()
      modifies this`history
      ensures Valid()
      ensures FetchStep(history, r) == AfterResponse(old(history), limit, url, response, decode, now)
    {
      var extracted := ExtractPaymentInfo(response, decode);
      if extracted.Failure? {
        return Failure(extracted.error);
      }
      var info := extracted.value;
      var amount := FromLamports(0);
      if info.Some? {
        amount := AmountInSol(info.value.amount);
        if Exceeds(limit, amount) {
          return Failure(Error(LimitExceeded(amount.lamports, limit.value)));
        }
        history := history + [NewRecord(url, info.value, now)];
      }
      if response.body.None? {
        return Failure(Error(BodyNotJson));
      }
      r := Success(FetchReply(response.body.value, info.Some?, amount));
    }

    /** fetch-with-payment, from obtaining the signer to the reply. */
    method FetchWithPayment(url: string, signer: Result<Option<Signer>, Thrown>, fetched: Result<Response, Thrown>,
                            decode: string -> Option<Payload>, now: string)
      returns (r: Result<FetchReply, Thrown>)
      requires Valid()
      modifies this`history
      ensures Valid()
      ensures FetchStep(history, r) == HandleFetch(old(history), limit, url, signer, fetched, decode, now)
    {
      if signer.Failure? {
        return Failure(signer.error);
      }
      var client := NewServerPaymentClient(SolanaDevnet, signer.value);
      if client.Failure? {
        return Failure(client.error);
      }
      if fetched.Failure? {
        return Failure(HandleError(fetched.error, "Server payment fetch failed"));
      }
      r := RecordAfterFetch(url, fetched.value, decode, now);
    }
  }
}

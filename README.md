# Session payments of the x402 payment MCP server, in Dafny

The server offers tools to a host over MCP. Three of them share one piece of
session state, and that state is modelled here:

- `set-payment-limit` stores a spend limit in SOL. A negative value is refused. 0 removes the limit.
- `get-payment-history` reports the recorded payments.
- `fetch-with-payment` fetches a URL through the x402 payment wrapper. Then it reads the payment
  receipt from the `x-payment-response` header, checks it against the limit and appends a payment record.

Also modelled are the helpers of the payment client in `src/payment.ts`: receipt extraction,
error normalisation and the signer check in its constructor.

Files and modules:

- `wrappers.dfy` (`Wrappers`): `Option` for `null`/`undefined` and `Result` for a thrown value.
- `types.dfy` (`Types`): the error codes and `PaymentInfo` of `src/types.ts`. It also holds the values the
  code throws: an `Error` with a message, or a non-`Error` value.
- `payment.dfy` (`Payment`): `ExtractPaymentInfo`, `HandleError`, `NewServerPaymentClient`.
- `ledger.dfy` (`Ledger`): amounts, payment records, the history query (`slice`), the total (`reduce`)
  and the limit comparison.
- `server.dfy` (`Server`): the pure description of the handlers (`LimitAfterSet`, `AfterResponse`, `HandleFetch`)
  and their properties. `Run` applies a sequence of tool calls to the session state, one after the other.
  The module also holds the class `Session`. Its fields `history` and `limit` are the module globals
  `paymentHistory` and `paymentLimit`. The methods of `Session` are the three handlers.
- `scenarios.dfy` (`Scenarios`): client methods that run call sequences on a `Session`.
  Their outcomes follow from the contracts alone.

Inputs the model takes as parameters:

- The outcome of the x402 fetch (`fetched`).
- The outcome of `createSigner` (`signer`).
- The clock (`now`, the ISO-8601 timestamp).
- `JSON.parse(atob(header))`, as `decode: string -> Option<Payload>`. It is one partial function:
  base64 per section 4 of RFC 4648, then JSON. `None` means either step throws.

Amounts:

- Receipt amounts are integer lamports. An amount in SOL is lamports / LAMPORTS_PER_SOL, computed
  exactly (`SolAmount.Sol`).
- A receipt without an `amount` field gives NaN (`NotANumber`), as `undefined / LAMPORTS_PER_SOL` does.
- The limit is a `real`, in SOL, as the tool's input is.
- This is a deliberate deviation: the source divides and sums in IEEE-754 doubles, which can round.
  `Ledger.Add` and `Ledger.Exceeds` show that the exact versions agree with sums and comparisons done
  in lamports.

Behaviour of the code that the model keeps:

- The limit is checked only after the payment-wrapped fetch has returned (src/index.ts:178, then 186).
  By then the payment has been made. A rejection only keeps the payment out of the history, and the
  error is a plain `Error`, not a coded one. `src/types.ts` has no error code for a payment over the limit.
- The record is appended (src/index.ts:190) before the body is parsed (src/index.ts:199). A body that
  does not parse therefore fails the call but leaves the record in place.
- `extractPaymentInfo` checks none of the receipt's fields. A payload that decodes but lacks fields
  gives a receipt with those fields missing.
- `get-payment-history` with a negative `limit` follows JavaScript's `slice(-limit)`. It drops the first
  |limit| records instead of returning the last ones.

## Model

| member | source | states |
|---|---|---|
| `Payment.ExtractPaymentInfo` | src/payment.ts:16-37 | null (no error) exactly when the header is absent or empty; PAYMENT_FAILED exactly when a present header does not decode; otherwise the four fields of the decoded payload, copied as they are |
| `Payment.ExtractIgnoresOtherFields` | src/payment.ts:24-30 | fields of the decoded object other than amount, recipient, signature and wallet do not affect the result |
| `Payment.ExtractAcceptsEmptyPayload` | src/payment.ts:24-30 | a payload that decodes with none of the fields still yields a receipt, with every field missing: there is no validation |
| `Payment.HandleError` | src/payment.ts:39-48 | what it throws is always an `Error`; it is the given value exactly when that value is an `Error`; otherwise it is INTERNAL_ERROR |
| `Payment.HandleErrorIdempotent` | src/payment.ts:40-42 | a value already normalised passes through `handleError` unchanged |
| `Payment.NewServerPaymentClient` | src/payment.ts:55-65 | construction fails exactly when there is no signer, and then with PAYMENT_FAILED; otherwise construction succeeds with that signer |
| `Ledger.AmountInSol` | src/index.ts:183 | a receipt amount converts to a number exactly when it is present, keeping its lamports; a missing one gives NaN |
| `Ledger.Add` | src/index.ts:94 | the sum is NaN exactly when an operand is NaN; otherwise its SOL value is the sum of the SOL values |
| `Ledger.TotalSpent` | src/index.ts:94 | the total over the history, oldest first, is NaN exactly when some recorded amount is NaN |
| `Ledger.SumLamportsAppend` | src/index.ts:94 | the reference sum over a history with one more record grows by that record's lamports |
| `Ledger.TotalSpentIsSum` | src/index.ts:94 | with no NaN in the history, the left-to-right total equals the reference sum of all recorded amounts in lamports |
| `Ledger.TotalSpentAppend` | src/index.ts:190-196 | appending a record adds its amount to the total |
| `Ledger.HistoryRecords` | src/index.ts:86 | no limit or 0 gives the whole history; a positive n gives min(n, length) records; a negative n gives length - min(-n, length) records; the result is always a suffix of the history, in insertion order |
| `Ledger.Exceeds` | src/index.ts:186 | rejects exactly when a limit is set and the amount is a number strictly greater than the limit, i.e. its lamports exceed limit * LAMPORTS_PER_SOL; no limit and NaN never reject, an amount equal to the limit is accepted |
| `Server.AfterResponse` | src/index.ts:179-211 | at most one record is appended and earlier records are untouched; a successful call reports a payment exactly when it recorded one |
| `Server.HandleFetch` | src/index.ts:164-221 | a whole fetch-with-payment call appends at most one record and leaves earlier records untouched |
| `Server.NoReceiptNoRecord` | src/index.ts:181-209 | with no receipt header the history is unchanged, `payment_made` is false and `payment_amount` is 0; a body that does not parse is an error |
| `Server.UndecodableReceiptNoRecord` | src/payment.ts:31-35 | a receipt header that does not decode fails the call with PAYMENT_FAILED and records nothing |
| `Server.OverLimitNoRecord` | src/index.ts:186-188 | a receipt whose amount in SOL is strictly over a set limit fails the call with the limit error and records nothing |
| `Server.AcceptedReceiptRecorded` | src/index.ts:186-199 | a receipt the limit lets through is appended as one new last record with the url, the amount in SOL, the recipient, the signature and the time; a body that does not parse then fails the call but the record stays |
| `Server.FailureBeforeResponseNoRecord` | src/index.ts:166-178 | signer creation failing, a missing signer (PAYMENT_FAILED) or a rejected fetch (normalised by `handleError`) fail the call and leave the history unchanged |
| `Server.LimitAfterSet` | src/index.ts:122-126 | a negative value leaves the limit unchanged; for other values the limit is removed exactly when the value is 0; a positive value becomes the limit |
| `Server.RunAppendOnly` | src/index.ts:84-221 | over any sequence of set-limit, history and fetch calls, the history before is a prefix of the history after, and it grows by at most one record per fetch |
| `Server.RunKeepsLimitPositive` | src/index.ts:122-126 | over any sequence of calls a stored limit stays positive |
| `Server.Session.constructor` | src/index.ts:20-21 | the session starts with an empty history and no limit |
| `Server.Session.SetPaymentLimit` | src/index.ts:120-148 | a negative value fails and leaves the limit unchanged; 0 clears it; a positive value is stored as it is; success exactly for values >= 0, reporting the stored limit; a stored limit is always positive |
| `Server.Session.GetPaymentHistory` | src/index.ts:84-97 | reports `HistoryRecords` of the history, its full length and its full `TotalSpent`, whatever the argument, and changes nothing |
| `Server.Session.RecordAfterFetch` | src/index.ts:178-211 | the new history and the result are those of `AfterResponse` (extract, limit check, append, then body parse); the limit is unchanged |
| `Server.Session.FetchWithPayment` | src/index.ts:164-221 | the new history and the result are those of `HandleFetch`; the limit is unchanged |

## Left out

- MCP server construction, tool registration, the stdio transport and `main` (src/index.ts:24-27, 225-234): I/O with the host.
- `get-balance` (src/index.ts:29-72): a Solana RPC call, key decoding by foreign libraries and a float division.
- `createSigner`, `wrapFetchWithPayment` and `ServerPaymentClient.initialize`: they wrap the `x402-fetch` library, which detects the 402, signs and retries out of sight. They appear only as their outcomes, `signer` and `fetched`. A failure of `initialize` is not modelled.
- `ServerPaymentClient.fetch`: only its passing of a rejection through `handleError` is modelled (in `HandleFetch`).
- Building the request options (src/index.ts:169-176): they go only to the payment-wrapped fetch, which is not modelled.
- `atob` and `JSON.parse` themselves: they are the abstract `decode` parameter. A payload field of another JSON type than the receipt's (for example a string amount) is not modelled. Nor is a JSON `null` amount, which JavaScript divides to 0 rather than NaN. A JSON value that is not an object is covered only where reading its fields throws (`null`).
- Header names are looked up as given. The case-insensitivity of the Fetch `Headers` object is not modelled.
- The `cause` passed to `new Error('PAYMENT_FAILED', error)` is not modelled.
- IEEE-754 rounding of `/ LAMPORTS_PER_SOL`, of the limit comparison and of the `reduce` sum: amounts are exact here.
- `Ledger.HistoryRecords`: the query limit is an integer; JavaScript's truncation of a fractional `slice` argument is not modelled.
- `Server.Session.SetPaymentLimit`: the value is a real; an infinite limit, which `z.number()` admits, is not modelled.
- The tool responses: the JSON rendering, the exact message texts and the `err.message || ...` fallback text. Only which branch is taken, and the thrown value, are modelled.
- Asynchronous sequencing (`initPromise`, awaiting) and interleaving of concurrent tool calls. Every handler runs here as one atomic step.
- Loading the environment with `dotenv` / `process.env`.
- `config.network` is accepted by `NewServerPaymentClient` but never read by the client, so the model keeps no network.
- `maxPaymentAmount` and the `PaymentClient` interface of `src/types.ts`: declared but not used by the core.

/**
 * The session's payment ledger and spend limit as src/index.ts reads them:
 * amounts in SOL, the history query (`slice`), the total (`reduce`) and the
 * limit comparison.
 */
module Ledger {
  import opened Wrappers
  import opened Types

  /** LAMPORTS_PER_SOL. */
  const LamportsPerSol: int := 1_000_000_000

  /**
   * An amount in SOL as the source's number holds it: a count of lamports
   * divided by LAMPORTS_PER_SOL (kept exact here), or NaN, which is what
   * dividing a missing amount gives.
   */
  datatype SolAmount = FromLamports(lamports: int) | NotANumber {
    /** The amount's value in SOL. */
    function Sol(): real
      requires FromLamports?
    {
      lamports as real / LamportsPerSol as real
    }
  }

  /** A receipt amount in lamports converted to SOL; `undefined` becomes NaN. */
  function AmountInSol(amount: Option<int>): (r: SolAmount)
    ensures r.FromLamports? <==> amount.Some?
    ensures r.FromLamports? ==> r.lamports == amount.value
  {
    match amount
    case None => NotANumber
    case Some(lamports) => FromLamports(lamports)
  }

  /** One entry of the payment history. */
  datatype PaymentRecord = PaymentRecord(
    url: string,
    amount: SolAmount,
    recipient: Option<string>,
    timestamp: string,           // ISO-8601, from the clock
    signature: Option<string>)

  /** Adding two amounts: NaN if either is NaN, otherwise the sum in SOL. */
  function Add(a: SolAmount, b: SolAmount): (r: SolAmount)
    ensures r.NotANumber? <==> a.NotANumber? || b.NotANumber?
    ensures r.FromLamports? ==> r.Sol() == a.Sol() + b.Sol()
  {
    if a.FromLamports? && b.FromLamports? then FromLamports(a.lamports + b.lamports) else NotANumber
  }

  /**
   * `total_spent`: `reduce((sum, r) => sum + r.amount, 0)`, adding from the
   * oldest record to the newest. One NaN amount makes the total NaN.
   */
  function TotalSpent(h: seq<PaymentRecord>): (r: SolAmount)
    ensures r.NotANumber? <==> exists i | 0 <= i < |h| :: h[i].amount.NotANumber?
    decreases |h|
  {
    if h == [] then FromLamports(0)
    else
      var prefix := h[..|h| - 1];
      assert forall i | 0 <= i < |prefix| :: prefix[i] == h[i];
      Add(TotalSpent(prefix), h[|h| - 1].amount)
  }

  /** Every recorded amount is a number. */
  predicate AllNumeric(h: seq<PaymentRecord>) {
    forall i | 0 <= i < |h| :: h[i].amount.FromLamports?
  }

  /** The reference sum of the recorded amounts in lamports, a right fold with the oldest record outermost. */
  function SumLamports(h: seq<PaymentRecord>): int
    requires AllNumeric(h)
  {
    if h == [] then 0 else h[0].amount.lamports + SumLamports(h[1..])
  }

  lemma {:induction false} SumLamportsAppend(h: seq<PaymentRecord>, rec: PaymentRecord)
    requires AllNumeric(h) && rec.amount.FromLamports?
    ensures AllNumeric(h + [rec])
    ensures SumLamports(h + [rec]) == SumLamports(h) + rec.amount.lamports
  {
    assert (h + [rec])[..|h|] == h;
    if h != [] {
      assert (h + [rec])[1..] == h[1..] + [rec];
      SumLamportsAppend(h[1..], rec);
    }
  }

  /**
   * With no NaN in the history, the total is the sum of the recorded amounts,
   * computed exactly in lamports.
   */
  lemma {:induction false} TotalSpentIsSum(h: seq<PaymentRecord>)
    requires AllNumeric(h)
    ensures TotalSpent(h) == FromLamports(SumLamports(h))
  {
    if h != [] {
      var prefix := h[..|h| - 1];
      assert h == prefix + [h[|h| - 1]];
      TotalSpentIsSum(prefix);
      SumLamportsAppend(prefix, h[|h| - 1]);
    }
  }

  /** Appending a record adds its amount to the total. */
  lemma TotalSpentAppend(h: seq<PaymentRecord>, rec: PaymentRecord)
    ensures TotalSpent(h + [rec]) == Add(TotalSpent(h), rec.amount)
  {
    assert (h + [rec])[..|h|] == h;
  }

  function Min(a: int, b: int): int {
    if a <= b then a else b
  }

  /**
   * Where `Array.prototype.slice(start)` begins on an array of length `len`:
   * a negative start counts back from the end, clamped to the array.
   */
  function SliceStart(start: int, len: nat): (k: nat)
    ensures k <= len
  {
    if start < 0 then (if len + start < 0 then 0 else len + start)
    else if start < len then start else len
  }

  /**
   * The `records` of a history query: `limit ? history.slice(-limit) : history`.
   * No limit, or 0, gives everything; a positive n gives the last n records
   * (all of them if there are fewer), oldest first; a negative n drops the
   * first |n| records.
   */
  function HistoryRecords<T>(h: seq<T>, n: Option<int>): (r: seq<T>)
    ensures n.None? || n == Some(0) ==> r == h
    ensures n.Some? && n.value > 0 ==> |r| == Min(n.value, |h|)
    ensures n.Some? && n.value < 0 ==> |r| == |h| - Min(-n.value, |h|)
    // always a suffix of the history, in insertion order
    ensures r == h[|h| - |r|..]
  {
    if n.None? || n.value == 0 then h else h[SliceStart(-n.value, |h|)..]
  }

  /**
   * The spend-limit check `paymentLimit !== null && amountInSol > paymentLimit`:
   * only a set limit rejects, only strictly greater amounts are rejected, and
   * NaN is never greater. In lamports, the amount is compared with
   * limit * LAMPORTS_PER_SOL.
   */
  function Exceeds(limit: Option<real>, amount: SolAmount): (r: bool)
    ensures r <==> limit.Some? && amount.FromLamports? &&
                   amount.lamports as real > limit.value * LamportsPerSol as real
  {
    limit.Some? && amount.FromLamports? && amount.Sol() > limit.value
  }
}

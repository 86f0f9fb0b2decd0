/**
 * Clients of Session: call sequences whose outcomes follow from the
 * contracts alone.
 */
module Scenarios {
  import opened Wrappers
  import opened Types
  import opened Payment
  import opened Ledger
  import opened Server

  /** A decoder that knows one receipt header, "R", worth 1000 lamports. */
  function OneReceipt(header: string): Option<Payload> {
    if header == "R" then Some(Payload(Some(1000), Some("R1"), Some("S1"), Some("W1"), map[])) else None
  }

  /** No limit, a receipt of 1000 lamports: one record, total 1000 lamports. */
  method PaidFetchIsRecorded() {
    var session := new Session();
    var paid := Response(map[PaymentResponseHeader := "R"], Some("{}"));
    var r := session.RecordAfterFetch("https://api.example/data", paid, OneReceipt, "2025-01-01T00:00:00.000Z");
    assert r == Success(FetchReply("{}", true, FromLamports(1000)));
    assert |session.history| == 1 && session.history[0].recipient == Some("R1");
    var report := session.GetPaymentHistory(None);
    TotalSpentAppend([], session.history[0]);
    assert report.totalPayments == 1 && report.totalSpent == FromLamports(1000);
  }

  /** A limit of 500 SOL and a receipt of 1000 SOL: rejected, nothing recorded. */
  method OverLimitIsNotRecorded() {
    var session := new Session();
    var setResult := session.SetPaymentLimit(500.0);
    assert setResult == Success(Some(500.0));
    var big := (header: string) =>
      if header == "R" then Some(Payload(Some(1000 * LamportsPerSol), Some("R1"), Some("S1"), Some("W1"), map[])) else None;
    var paid := Response(map[PaymentResponseHeader := "R"], Some("{}"));
    var r := session.RecordAfterFetch("https://api.example/data", paid, big, "2025-01-01T00:00:00.000Z");
    assert r == Failure(Error(LimitExceeded(1000 * LamportsPerSol, 500.0)));
    assert session.history == [];
  }

  /** No receipt header and an undecodable one: neither is recorded. */
  method UnpaidFetchesAreNotRecorded() {
    var session := new Session();
    var plain := Response(map[], Some("{}"));
    var r := session.RecordAfterFetch("https://api.example/free", plain, OneReceipt, "2025-01-01T00:00:00.000Z");
    assert r == Success(FetchReply("{}", false, FromLamports(0)));
    var broken := Response(map[PaymentResponseHeader := "not base64"], Some("{}"));
    r := session.RecordAfterFetch("https://api.example/data", broken, OneReceipt, "2025-01-01T00:00:00.000Z");
    assert r == Failure(Error(Code(PaymentFailed)));
    assert session.history == [];
  }

  /** Setting a negative limit fails and keeps the earlier one; 0 removes it. */
  method LimitUpdates() {
    var session := new Session();
    var r := session.SetPaymentLimit(2.5);
    r := session.SetPaymentLimit(-1.0);
    assert r.Failure? && session.limit == Some(2.5);
    r := session.SetPaymentLimit(0.0);
    assert r == Success(None) && !Exceeds(session.limit, FromLamports(1000 * LamportsPerSol));
  }
}

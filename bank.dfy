/** The mock bank client (services/integrations/bank_api.py): payment
    batches appended to a ledger.  The ledger file is `batches`; the clock
    is a parameter. */
module Bank {
  import opened Values
  import opened Timestamps
  import opened Ledger

  /** One stored batch: `{"id", "requested_at", "payments"}`. */
  datatype Batch = Batch(id: string, requestedAt: string, payments: seq<Dict>)

  /** The receipt `execute_payments` returns. */
  datatype Receipt = Receipt(batchId: string, status: string, requestedAt: string)

  /** The `i`-th batch (from one) carries the `i`-th batch id. */
  predicate BatchesNumbered(batches: seq<Batch>) {
    forall i :: 0 <= i < |batches| ==> batches[i].id == SequentialId("batch-", i + 1)
  }

  /** A numbered ledger never repeats a batch id. */
  lemma NumberedUnique(batches: seq<Batch>)
    requires BatchesNumbered(batches)
    ensures forall i, j :: 0 <= i < j < |batches| ==> batches[i].id != batches[j].id
  {
    forall i, j | 0 <= i < j < |batches|
      ensures batches[i].id != batches[j].id
    {
      SequentialIdInjective("batch-", i + 1, j + 1);
    }
  }

  class BankClient {
    var batches: seq<Batch>

    constructor(batches: seq<Batch>)
      ensures this.batches == batches
    {
      this.batches := batches;
    }

    /** `execute_payments(payments)` at `now`: one batch holding the
        payments in order is appended under the next id, and the receipt
        names that batch and its time. */
    method ExecutePayments(payments: seq<Dict>, now: DateTime) returns (receipt: Receipt)
      requires Valid(now)
      modifies this
      ensures batches == old(batches) + [Batch(SequentialId("batch-", |old(batches)| + 1), IsoFormat(now), payments)]
      ensures receipt == Receipt(batches[|batches| - 1].id, "processed", batches[|batches| - 1].requestedAt)
      ensures BatchesNumbered(old(batches)) ==> BatchesNumbered(batches)
    {
      var id := SequentialId("batch-", |batches| + 1);
      var timestamp := IsoFormat(now);
      batches := batches + [Batch(id, timestamp, payments)];
      receipt := Receipt(id, "processed", timestamp);
    }
  }
}

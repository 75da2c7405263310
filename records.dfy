/**
 * The record that the bank-email scraper produces from one notification
 * body. The scraper itself is not part of this model; it is a parameter of
 * the batch (see module Batch).
 */
module Records {
  import opened Wrappers

  /** Record-type tags. Only EXPENSE and ACCOUNT_OPERATION change what the ledger does. */
  datatype RecordType = Expense | AccountOperation | OtherType(name: string)

  /** A date/time value the scraper extracted; the ledger carries it through unchanged. */
  datatype DateTime = DateTime(iso: string)

  /** A supplementary charge line of an expense, with its own tax. Exact decimals. */
  datatype ExtraAmount = ExtraAmount(amount: real, tax: real)

  datatype Record = Record(
    recordType: RecordType,
    source: string,
    amount: real,
    extraAmounts: Option<seq<ExtraAmount>>,
    note: Option<string>,
    operationDate: Option<DateTime>,
    applicationDate: Option<DateTime>)
}

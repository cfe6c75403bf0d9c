/** The record shown in one row of the transactions table. */
module TransactionTable {

  datatype Direction = Debit | Credit

  datatype Status = Completed | Pending

  /** One transaction. `kind` is the record's `type` field (a reserved word
      here); `date` is kept as the ISO text the record's date is built from;
      `amount` is a whole number of naira, as in every record the list shows. */
  datatype Transaction = Transaction(
    id: string,
    amount: int,
    kind: Direction,
    description: string,
    date: string,
    status: Status,
    reference: string)
}

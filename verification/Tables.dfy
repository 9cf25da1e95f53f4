/** The rows of the fraud database, and the value of all its tables. */
module Tables {
  import opened Wrappers
  import opened AlertState

  datatype Decision = Approve | Review | Flag

  // What an upsert copies from the request as it is; `columns` holds amount, currency,
  // channel and the other columns nothing here looks at.
  datatype Details = Details(customerId: string, columns: map<string, string>)

  datatype Request = Request(externalId: string, details: Details, transactionTime: Option<int>)

  datatype Transaction = Transaction(id: nat, externalId: string, details: Details, transactionTime: int)

  datatype Reviewer = Reviewer(id: string, username: string)

  datatype Alert = Alert(
    id: nat, transactionId: nat, referenceNumber: string, customerId: string,
    riskScore: int, decision: Decision, decisionTier: string, decisionTierDescription: string,
    status: Status, reviewedBy: Option<string>, reviewedByUsername: Option<string>,
    reviewedAt: Option<int>, reviewNotes: Option<string>, createdAt: int)

  datatype ConfigRow = ConfigRow(value: string, description: Option<string>)

  datatype Tables = Tables(
    transactions: seq<Transaction>, alerts: seq<Alert>, config: map<string, ConfigRow>)
}

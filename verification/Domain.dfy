/**
 The rows of the database tables (app/domain/models.py, app/domain/enums.py).

 A payment, a refund or a ledger transaction is identified by its row number in commit order;
 this stands for the fresh UUID of the source.  The two constructors of `Ref` keep payment ids
 and refund ids apart, as fresh UUIDs do.
 */
module Domain {
  import opened Wrappers

  /** Account UUIDs, compared as integers. */
  type AccountId = nat

  const PSP_SUSPENSE: AccountId := 1

  datatype Direction = Debit | Credit

  datatype TransactionType = PaymentTxn | RefundTxn | ReversalTxn | FeeTxn

  datatype PaymentStatus =
    | Created | Processing | Authorized | Succeeded | Failed | FundsLocked | RefundPending | Refunded

  datatype Posting = Posting(account: AccountId, direction: Direction, amount: int)

  datatype BalanceRow = BalanceRow(balance: int, version: nat)

  datatype Ref = PaymentRef(id: nat) | RefundRef(id: nat)

  datatype Txn = Txn(kind: TransactionType, ref: Ref)

  datatype Entry = Entry(txn: nat, posting: Posting)

  /** The four ledger tables: accounts, account_balances, ledger_transactions, ledger_entries. */
  datatype Books = Books(accounts: set<AccountId>,
                         balances: map<AccountId, BalanceRow>,
                         txns: seq<Txn>,
                         entries: seq<Entry>)

  datatype Payment = Payment(merchant: string, payer: AccountId, payee: AccountId,
                             amount: int, currency: string, status: PaymentStatus,
                             pspReference: Option<string>, refunded: int, version: nat,
                             createdAt: int)

  /** A refund row; its status is always SUCCEEDED when it is committed. */
  datatype Refund = Refund(payment: nat, amount: int, createdAt: int)

  /** The payload that is hashed; equal hashes are taken to mean equal payloads. */
  datatype Request =
    | CreateRequest(merchant: string, payer: AccountId, payee: AccountId, amount: int, currency: string)
    | RefundRequest(payment: nat, refundAmount: int)

  datatype Response =
    | PaymentBody(id: nat, merchant: string, payer: AccountId, payee: AccountId, amount: int,
                  currency: string, status: PaymentStatus, pspReference: Option<string>,
                  refunded: int, createdAt: int)
    | RefundBody(id: nat, payment: nat, amount: int, createdAt: int)

  /** The unique key (merchant_id, idem_key) of an idempotency record. */
  datatype Key = Key(merchant: string, idem: string)

  datatype ClaimState = InProgress | Completed(resource: Ref, code: int, body: Response)

  datatype Claim = Claim(request: Request, state: ClaimState)

  datatype Event =
    | PaymentProcessing(merchant: string, amount: int, currency: string)
    | PaymentSucceeded(merchant: string, amount: int, currency: string, pspReference: Option<string>)
    | PaymentFailed(merchant: string, amount: int)
    | RefundCompleted(payment: nat, amount: int)

  /** An outbox row: `ref` is (aggregate_type, aggregate_id). */
  datatype OutboxRow = OutboxRow(ref: Ref, event: Event, createdAt: int, published: bool)

  datatype Db = Db(books: Books,
                   payments: seq<Payment>,
                   refunds: seq<Refund>,
                   claims: map<Key, Claim>,
                   events: set<string>,
                   outbox: seq<OutboxRow>)

  datatype Error =
    | LedgerImbalance(net: int)
    | NonPositiveAmount(amount: int)
    | InsufficientFunds(account: AccountId, balance: int, required: int)
    | UnknownAccount
    | PaymentNotFound(id: nat)
    | RefundNotAllowed
    | IdempotencyConflict
    | IdempotencyMismatch
    | MultipleResults
}

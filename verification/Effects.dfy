/** What each money-moving operation does, said without its body, and exactly when it succeeds. */
module Effects {
  import opened Wrappers
  import opened Domain
  import opened Ledger
  import opened LedgerLemmas
  import opened Rules

  /** A new PROCESSING payment, its amount in suspense, one journal transaction and one event. */
  ghost predicate HoldDone(db: Db, db': Db, p: Payment, now: int) {
    && db' == db.(books := db'.books, payments := db'.payments, outbox := db'.outbox)
    && db'.payments == db.payments + [p.(status := Processing)]
    && Transferred(db.books, db'.books, PaymentTxn, PaymentRef(|db.payments|), p.payer, PSP_SUSPENSE, p.amount)
    && db'.outbox == db.outbox +
         [OutboxRow(PaymentRef(|db.payments|), PaymentProcessing(p.merchant, p.amount, p.currency), now, false)]
  }

  /** Payment `i` SUCCEEDED, its amount with the payee, one journal transaction and one event. */
  ghost predicate SettleDone(db: Db, db': Db, i: nat, pspReference: string, now: int) {
    && i < |db.payments|
    && var p := db.payments[i];
    && db' == db.(books := db'.books, payments := db'.payments, outbox := db'.outbox)
    && db'.payments ==
       db.payments[i := p.(status := Succeeded, pspReference := Some(pspReference), version := p.version + 1)]
    && Transferred(db.books, db'.books, PaymentTxn, PaymentRef(i), PSP_SUSPENSE, p.payee, p.amount)
    && db'.outbox == db.outbox +
         [OutboxRow(PaymentRef(i), PaymentSucceeded(p.merchant, p.amount, p.currency, Some(pspReference)), now, false)]
  }

  /** Payment `i` FAILED, its amount back with the payer, one journal transaction and one event. */
  ghost predicate ReverseDone(db: Db, db': Db, i: nat, now: int) {
    && i < |db.payments|
    && var p := db.payments[i];
    && db' == db.(books := db'.books, payments := db'.payments, outbox := db'.outbox)
    && db'.payments == db.payments[i := p.(status := Failed, version := p.version + 1)]
    && Transferred(db.books, db'.books, ReversalTxn, PaymentRef(i), PSP_SUSPENSE, p.payer, p.amount)
    && db'.outbox == db.outbox + [OutboxRow(PaymentRef(i), PaymentFailed(p.merchant, p.amount), now, false)]
  }

  /** A new refund row, the amount back with the payer, REFUNDED once nothing is left, one event. */
  ghost predicate RefundDone(db: Db, db': Db, i: nat, amount: int, now: int) {
    && i < |db.payments|
    && var p, left := db.payments[i], db.payments[i].amount - db.payments[i].refunded - amount;
    && left >= 0
    && db' == db.(books := db'.books, payments := db'.payments, refunds := db'.refunds, outbox := db'.outbox)
    && db'.refunds == db.refunds + [Refund(i, amount, now)]
    && db'.payments == db.payments[i := p.(refunded := p.refunded + amount, version := p.version + 1,
                                           status := if left == 0 then Refunded else p.status)]
    && Transferred(db.books, db'.books, RefundTxn, RefundRef(|db.refunds|), p.payee, p.payer, amount)
    && db'.outbox == db.outbox + [OutboxRow(RefundRef(|db.refunds|), RefundCompleted(i, amount), now, false)]
  }

  /** Both accounts have a row in the accounts or the balances table. */
  predicate Registered(b: Books, x: AccountId, y: AccountId) {
    {x, y} <= b.balances.Keys + b.accounts
  }

  // ---------- PaymentSaga and the refund proper ----------

  /** When a hold succeeds, what it leaves behind, and otherwise its error. */
  lemma HoldEffect(db: Db, p: Payment, now: int)
    ensures Hold(db, p, now).Ok? <==>
              {p.payer, p.payee} <= db.books.accounts && Registered(db.books, p.payer, PSP_SUSPENSE)
              && 0 < p.amount <= Bal(db.books.balances, p.payer)
    ensures Hold(db, p, now).Ok? ==> HoldDone(db, Hold(db, p, now).value, p, now)
    ensures Hold(db, p, now).Err? ==>
              Some(Hold(db, p, now).error) ==
              if !({p.payer, p.payee} <= db.books.accounts) then Some(UnknownAccount)
              else TransferRefusal(db.books, p.payer, PSP_SUSPENSE, p.amount)
  {
    PostTransfer(db.books, PaymentTxn, PaymentRef(|db.payments|), p.payer, PSP_SUSPENSE, p.amount);
    TransferRefused(db.books, PaymentTxn, PaymentRef(|db.payments|), p.payer, PSP_SUSPENSE, p.amount);
  }

  lemma SettleEffect(db: Db, i: nat, pspReference: string, now: int)
    ensures Settle(db, i, pspReference, now).Ok? <==>
              i < |db.payments| && Registered(db.books, PSP_SUSPENSE, db.payments[i].payee)
              && 0 < db.payments[i].amount <= Bal(db.books.balances, PSP_SUSPENSE)
    ensures Settle(db, i, pspReference, now).Ok? ==>
              SettleDone(db, Settle(db, i, pspReference, now).value, i, pspReference, now)
    ensures Settle(db, i, pspReference, now).Err? ==>
              Some(Settle(db, i, pspReference, now).error) ==
              if i >= |db.payments| then Some(PaymentNotFound(i))
              else TransferRefusal(db.books, PSP_SUSPENSE, db.payments[i].payee, db.payments[i].amount)
  {
    if i < |db.payments| {
      var p := db.payments[i];
      PostTransfer(db.books, PaymentTxn, PaymentRef(i), PSP_SUSPENSE, p.payee, p.amount);
      TransferRefused(db.books, PaymentTxn, PaymentRef(i), PSP_SUSPENSE, p.payee, p.amount);
    }
  }

  lemma ReverseEffect(db: Db, i: nat, now: int)
    ensures Reverse(db, i, now).Ok? <==>
              i < |db.payments| && Registered(db.books, PSP_SUSPENSE, db.payments[i].payer)
              && 0 < db.payments[i].amount <= Bal(db.books.balances, PSP_SUSPENSE)
    ensures Reverse(db, i, now).Ok? ==> ReverseDone(db, Reverse(db, i, now).value, i, now)
    ensures Reverse(db, i, now).Err? ==>
              Some(Reverse(db, i, now).error) ==
              if i >= |db.payments| then Some(PaymentNotFound(i))
              else TransferRefusal(db.books, PSP_SUSPENSE, db.payments[i].payer, db.payments[i].amount)
  {
    if i < |db.payments| {
      var p := db.payments[i];
      PostTransfer(db.books, ReversalTxn, PaymentRef(i), PSP_SUSPENSE, p.payer, p.amount);
      TransferRefused(db.books, ReversalTxn, PaymentRef(i), PSP_SUSPENSE, p.payer, p.amount);
    }
  }

  lemma RefundEffect(db: Db, i: nat, amount: int, now: int)
    ensures RefundMove(db, i, amount, now).Ok? <==>
              i < |db.payments| && db.payments[i].status in {Succeeded, RefundPending}
              && Registered(db.books, db.payments[i].payee, db.payments[i].payer)
              && 0 < amount <= db.payments[i].amount - db.payments[i].refunded
              && amount <= Bal(db.books.balances, db.payments[i].payee)
    ensures RefundMove(db, i, amount, now).Ok? ==>
              RefundDone(db, RefundMove(db, i, amount, now).value, i, amount, now)
    ensures RefundMove(db, i, amount, now).Err? ==>
              Some(RefundMove(db, i, amount, now).error) ==
              if i >= |db.payments| then Some(PaymentNotFound(i))
              else if db.payments[i].status !in {Succeeded, RefundPending} then Some(RefundNotAllowed)
              else if amount > db.payments[i].amount - db.payments[i].refunded then Some(RefundNotAllowed)
              else TransferRefusal(db.books, db.payments[i].payee, db.payments[i].payer, amount)
  {
    if i < |db.payments| {
      var p := db.payments[i];
      PostTransfer(db.books, RefundTxn, RefundRef(|db.refunds|), p.payee, p.payer, amount);
      TransferRefused(db.books, RefundTxn, RefundRef(|db.refunds|), p.payee, p.payer, amount);
    }
  }

  // ---------- Idempotency ----------

  /** The record answers the request: the same payload, completed, with this code and body. */
  ghost predicate Answers(claims: map<Key, Claim>, k: Key, request: Request, code: int, body: Response) {
    && k in claims && claims[k].request == request
    && claims[k].state.Completed? && claims[k].state.body == body
    && (if claims[k].state.code == 0 then code == 200 else code == claims[k].state.code)
  }

  /** The record refuses the request: another payload, or still in progress. */
  ghost predicate Refuses(claims: map<Key, Claim>, k: Key, request: Request, e: Error) {
    && k in claims
    && (if claims[k].request != request then e == IdempotencyMismatch
        else claims[k].state == InProgress && e == IdempotencyConflict)
  }

  lemma ClaimEffect(db: Db, k: Key, request: Request)
    ensures match ClaimOrReplay(db, k, request)
            case Claimed(db') => k !in db.claims && db' == db.(claims := db.claims[k := Claim(request, InProgress)])
            case Replayed(code, body) => Answers(db.claims, k, request, code, body)
            case Refused(e) => Refuses(db.claims, k, request, e)
  {
  }

  // ---------- PaymentService.create ----------

  /** Transaction 1 done: the claim in progress, a PROCESSING payment on the request's terms, its hold, its event. */
  ghost predicate CreateDone(db: Db, db': Db, k: Key, q: Request, now: int)
    requires q.CreateRequest?
  {
    var n := |db.payments|;
    && db'.claims == db.claims[k := Claim(q, InProgress)]
    && db'.payments == db.payments +
         [Payment(q.merchant, q.payer, q.payee, q.amount, q.currency, Processing, None, 0, 0, now)]
    && Transferred(db.books, db'.books, PaymentTxn, PaymentRef(n), q.payer, PSP_SUSPENSE, q.amount)
    && db'.outbox == db.outbox +
         [OutboxRow(PaymentRef(n), PaymentProcessing(q.merchant, q.amount, q.currency), now, false)]
    && db'.refunds == db.refunds && db'.events == db.events
  }

  /** Transaction 1 refused: by the record of its key, or for a new key by the accounts and the funds. */
  ghost predicate CreateRefused(db: Db, k: Key, q: Request, e: Error)
    requires q.CreateRequest?
  {
    if k in db.claims then Refuses(db.claims, k, q, e)
    else Some(e) == if !({q.payer, q.payee} <= db.books.accounts) then Some(UnknownAccount)
                    else TransferRefusal(db.books, q.payer, PSP_SUSPENSE, q.amount)
  }

  /** Transaction 1 commits exactly for a new key and a covered hold; every other call is answered or refused. */
  lemma CreateTx1Effect(db: Db, key: string, q: Request, now: int)
    requires q.CreateRequest?
    ensures var k := Key(q.merchant, key);
            CreateTx1(db, key, q, now).Committed? <==>
              k !in db.claims && {q.payer, q.payee} <= db.books.accounts
              && Registered(db.books, q.payer, PSP_SUSPENSE) && 0 < q.amount <= Bal(db.books.balances, q.payer)
    ensures var k := Key(q.merchant, key);
            match CreateTx1(db, key, q, now)
            case Committed(db') => CreateDone(db, db', k, q, now)
            case Answered(code, body) => Answers(db.claims, k, q, code, body)
            case Raised(e) => CreateRefused(db, k, q, e)
  {
    var k := Key(q.merchant, key);
    ClaimEffect(db, k, q);
    if k !in db.claims {
      HoldEffect(ClaimOrReplay(db, k, q).db, NewPayment(q, now), now);
    }
  }

  /** The answer of transaction 2 about payment `i`: its terms, and the status and reference that it now has. */
  function CreateAnswer(i: nat, p: Payment, status: PaymentStatus, pspReference: Option<string>): Response {
    PaymentBody(i, p.merchant, p.payer, p.payee, p.amount, p.currency, status, pspReference, p.refunded, p.createdAt)
  }

  /** The status that each answer of the provider leads to. */
  function StatusAfter(outcome: Outcome): PaymentStatus {
    match outcome
    case Captured(_) => Succeeded
    case Declined => Failed
    case Pending(_) => Authorized
  }

  /** The reference that payment `p` has after each answer of the provider. */
  function ReferenceAfter(p: Payment, outcome: Outcome): Option<string> {
    match outcome
    case Captured(r) => Some(if r.Some? then r.value else "")
    case Declined => p.pspReference
    case Pending(r) => r
  }

  /** The answer that transaction 2 returns and stores. */
  function FinishAnswer(db: Db, i: nat, outcome: Outcome): Response
    requires i < |db.payments|
  {
    CreateAnswer(i, db.payments[i], StatusAfter(outcome), ReferenceAfter(db.payments[i], outcome))
  }

  /** Payment `i` after the provider's answer: captured is settled, declined is reversed, pending is parked. */
  ghost predicate OutcomeDone(db: Db, db': Db, i: nat, outcome: Outcome, now: int) {
    && i < |db.payments|
    && match outcome
       case Captured(r) => SettleDone(db, db', i, if r.Some? then r.value else "", now)
       case Declined => ReverseDone(db, db', i, now)
       case Pending(r) =>
         db' == db.(payments := db.payments[i := db.payments[i].(status := Authorized, pspReference := r)])
  }

  /** Transaction 2 done: the outcome, and the claim completed with the answer that is returned. */
  ghost predicate FinishDone(db: Db, db': Db, k: Key, i: nat, outcome: Outcome, now: int) {
    && OutcomeDone(db, db'.(claims := db.claims), i, outcome, now)
    && db'.claims ==
         if k !in db.claims then db.claims
         else
           db.claims[k := Claim(db.claims[k].request, Completed(PaymentRef(i), 201, FinishAnswer(db, i, outcome)))]
  }

  /** Why transaction 2 raises, if it does. */
  function FinishRefusal(db: Db, i: nat, outcome: Outcome): Option<Error> {
    if i >= |db.payments| then Some(PaymentNotFound(i))
    else match outcome
      case Captured(_) => TransferRefusal(db.books, PSP_SUSPENSE, db.payments[i].payee, db.payments[i].amount)
      case Declined => TransferRefusal(db.books, PSP_SUSPENSE, db.payments[i].payer, db.payments[i].amount)
      case Pending(_) => None
  }

  /** Each answer of the provider has its own effect; transaction 2 raises exactly for its refusal. */
  lemma CreateTx2Effect(db: Db, k: Key, i: nat, outcome: Outcome, now: int)
    ensures match CreateTx2(db, k, i, outcome, now)
            case Committed(db') =>
              && FinishRefusal(db, i, outcome).None? && FinishDone(db, db', k, i, outcome, now)
              && ToResponse(i, db'.payments[i]) == FinishAnswer(db, i, outcome)
            case Answered(_, _) => false
            case Raised(e) => FinishRefusal(db, i, outcome) == Some(e)
  {
    if i < |db.payments| {
      var p := db.payments[i];
      match outcome
      case Captured(r) =>
        SettleEffect(db, i, r.GetOr(""), now);
        TransferRefused(db.books, PaymentTxn, PaymentRef(i), PSP_SUSPENSE, p.payee, p.amount);
      case Declined =>
        ReverseEffect(db, i, now);
        TransferRefused(db.books, ReversalTxn, PaymentRef(i), PSP_SUSPENSE, p.payer, p.amount);
      case Pending(r) =>
    }
  }

  // ---------- RefundService.refund ----------

  /** A refund done: its rows, transfer and event, and its claim completed with the answer that is returned. */
  ghost predicate RefundTxDone(db: Db, db': Db, k: Key, i: nat, amount: int, now: int) {
    var n := |db.refunds|;
    && RefundDone(db, db'.(claims := db.claims), i, amount, now)
    && db'.claims == db.claims[k := Claim(RefundRequest(i, amount),
                                          Completed(RefundRef(n), 201, RefundBody(n, i, amount, now)))]
  }

  /** Why a refund with a new key raises, if it does. */
  function RefundRefusal(db: Db, i: nat, amount: int): Option<Error> {
    if i >= |db.payments| then Some(PaymentNotFound(i))
    else
      var p := db.payments[i];
      if p.status !in {Succeeded, RefundPending} || p.refunded + amount > p.amount then Some(RefundNotAllowed)
      else TransferRefusal(db.books, p.payee, p.payer, amount)
  }

  /** A refund refused: by the record of its key, or for a new key by the payment and the funds. */
  ghost predicate RefundRefused(db: Db, k: Key, i: nat, amount: int, e: Error) {
    if k in db.claims then Refuses(db.claims, k, RefundRequest(i, amount), e)
    else RefundRefusal(db, i, amount) == Some(e)
  }

  /** A refund with a new key moves money or raises; with a used key it is answered or refused. */
  lemma RefundTxEffect(db: Db, key: string, i: nat, amount: int, now: int)
    ensures var k := Key("merchant_refund", key);
            match RefundTx(db, key, i, amount, now)
            case Committed(db') =>
              k !in db.claims && RefundRefusal(db, i, amount).None? && RefundTxDone(db, db', k, i, amount, now)
            case Answered(code, body) => Answers(db.claims, k, RefundRequest(i, amount), code, body)
            case Raised(e) => RefundRefused(db, k, i, amount, e)
  {
    var k := Key("merchant_refund", key);
    ClaimEffect(db, k, RefundRequest(i, amount));
    if k !in db.claims {
      RefundEffect(ClaimOrReplay(db, k, RefundRequest(i, amount)).db, i, amount, now);
    }
  }
}

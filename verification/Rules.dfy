/**
 What one committed transaction of each service does to the database: the saga steps, the
 idempotency claim, and the transactions of the payment, webhook, refund, expiry and relay services.
 `Err` is an exception; the surrounding transaction then rolls back.
 */
module Rules {
  import opened Wrappers
  import opened Domain
  import opened Ledger

  // ---------- PaymentSaga ----------

  function NewPayment(req: Request, now: int): Payment
    requires req.CreateRequest?
  {
    Payment(req.merchant, req.payer, req.payee, req.amount, req.currency, Processing, None, 0, 0, now)
  }

  function PostInto(db: Db, kind: TransactionType, ref: Ref, ps: seq<Posting>): Result<Db, Error> {
    var books :- Post(db.books, kind, ref, ps);
    Ok(db.(books := books))
  }

  function Emit(db: Db, ref: Ref, event: Event, now: int): Db {
    db.(outbox := db.outbox + [OutboxRow(ref, event, now, false)])
  }

  /** Phase 1: insert the payment and move its amount from the payer into suspense. */
  function Hold(db: Db, p: Payment, now: int): Result<Db, Error> {
    if !({p.payer, p.payee} <= db.books.accounts) then Err(UnknownAccount)
    else
      var ref := PaymentRef(|db.payments|);
      var held := p.(status := Processing);
      var posted :- PostInto(db.(payments := db.payments + [held]), PaymentTxn, ref,
                             Transfer(p.payer, PSP_SUSPENSE, p.amount));
      Ok(Emit(posted, ref, PaymentProcessing(p.merchant, p.amount, p.currency), now))
  }

  /** Phase 3a, without any guard on the payment's status. */
  function Settle(db: Db, id: nat, pspReference: string, now: int): Result<Db, Error> {
    if id >= |db.payments| then Err(PaymentNotFound(id))
    else
      var p := db.payments[id];
      var q := p.(status := Succeeded, pspReference := Some(pspReference), version := p.version + 1);
      var posted :- PostInto(db.(payments := db.payments[id := q]), PaymentTxn, PaymentRef(id),
                             Transfer(PSP_SUSPENSE, p.payee, p.amount));
      Ok(Emit(posted, PaymentRef(id), PaymentSucceeded(p.merchant, p.amount, p.currency, Some(pspReference)), now))
  }

  /** Phase 3b, without any guard on the payment's status. */
  function Reverse(db: Db, id: nat, now: int): Result<Db, Error> {
    if id >= |db.payments| then Err(PaymentNotFound(id))
    else
      var p := db.payments[id];
      var q := p.(status := Failed, version := p.version + 1);
      var posted :- PostInto(db.(payments := db.payments[id := q]), ReversalTxn, PaymentRef(id),
                             Transfer(PSP_SUSPENSE, p.payer, p.amount));
      Ok(Emit(posted, PaymentRef(id), PaymentFailed(p.merchant, p.amount), now))
  }

  // ---------- IdempotencyService ----------

  datatype ClaimResult = Claimed(db: Db) | Replayed(code: int, body: Response) | Refused(error: Error)

  function ClaimOrReplay(db: Db, key: Key, req: Request): ClaimResult {
    if key !in db.claims then Claimed(db.(claims := db.claims[key := Claim(req, InProgress)]))
    else if db.claims[key].request != req then Refused(IdempotencyMismatch)
    else match db.claims[key].state
      case InProgress => Refused(IdempotencyConflict)
      case Completed(_, code, body) => Replayed(if code != 0 then code else 200, body)
  }

  function Complete(db: Db, key: Key, resource: Ref, code: int, body: Response): Db {
    if key !in db.claims then db
    else db.(claims := db.claims[key := db.claims[key].(state := Completed(resource, code, body))])
  }

  // ---------- PaymentService.create ----------

  /** What the payment provider answers. */
  datatype Outcome = Captured(pspReference: Option<string>) | Declined | Pending(pspReference: Option<string>)

  datatype TxResult = Committed(db: Db) | Answered(code: int, body: Response) | Raised(error: Error)

  /** Transaction 1: claim the key and hold the funds. */
  function CreateTx1(db: Db, key: string, req: Request, now: int): TxResult
    requires req.CreateRequest?
  {
    match ClaimOrReplay(db, Key(req.merchant, key), req)
    case Refused(e) => Raised(e)
    case Replayed(code, body) => Answered(code, body)
    case Claimed(claimed) =>
      match Hold(claimed, NewPayment(req, now), now)
      case Err(e) => Raised(e)
      case Ok(held) => Committed(held)
  }

  function ToResponse(id: nat, p: Payment): Response {
    PaymentBody(id, p.merchant, p.payer, p.payee, p.amount, p.currency, p.status, p.pspReference, p.refunded,
      p.createdAt)
  }

  /** PENDING: the payment waits for a webhook. */
  function Authorize(db: Db, id: nat, pspReference: Option<string>): Result<Db, Error> {
    if id >= |db.payments| then Err(PaymentNotFound(id))
    else Ok(db.(payments := db.payments[id := db.payments[id].(status := Authorized, pspReference := pspReference)]))
  }

  function Conclude(db: Db, id: nat, outcome: Outcome, now: int): Result<Db, Error> {
    match outcome
    case Captured(r) => Settle(db, id, r.GetOr(""), now)
    case Declined => Reverse(db, id, now)
    case Pending(r) => Authorize(db, id, r)
  }

  /** Transaction 2: settle, reverse or authorize, and complete the claim with the response. */
  function CreateTx2(db: Db, key: Key, id: nat, outcome: Outcome, now: int): TxResult {
    match Conclude(db, id, outcome, now)
    case Err(e) => Raised(e)
    case Ok(done) =>
      if id >= |done.payments| then Raised(PaymentNotFound(id))
      else Committed(Complete(done, key, PaymentRef(id), 201, ToResponse(id, done.payments[id])))
  }

  // ---------- WebhookService.handle, from the deduplication check onward ----------

  datatype Webhook = Webhook(id: string, kind: string, pspReference: string)

  predicate IsCapture(kind: string) {
    || kind == "payment.captured" || kind == "payment_intent.succeeded"
    || kind == "payment_intent.amount_capturable_updated" || kind == "charge.captured"
  }

  predicate IsFailure(kind: string) {
    kind == "payment.failed" || kind == "payment_intent.payment_failed" || kind == "payment_intent.canceled"
  }

  /** The ids of the payments that store this PSP reference, ascending. */
  function WithReference(payments: seq<Payment>, pspReference: string): seq<nat> {
    if payments == [] then []
    else
      var n := |payments| - 1;
      WithReference(payments[..n], pspReference) +
      if payments[n].pspReference == Some(pspReference) then [n] else []
  }

  function Handle(db: Db, w: Webhook, now: int): Result<Db, Error> {
    if w.id in db.events then Ok(db)
    else
      var recorded := db.(events := db.events + {w.id});
      if w.pspReference == "" then Ok(recorded)
      else
        var found := WithReference(db.payments, w.pspReference);
        if |found| > 1 then Err(MultipleResults)
        else if |found| == 0 then Ok(recorded)
        else if found[0] < |db.payments| && db.payments[found[0]].status == Authorized then
          if IsCapture(w.kind) then Settle(recorded, found[0], w.pspReference, now)
          else if IsFailure(w.kind) then Reverse(recorded, found[0], now)
          else Ok(recorded)
        else Ok(recorded)
  }

  // ---------- RefundService.refund ----------

  const REFUND_MERCHANT := "merchant_refund"

  /** The refund proper, after the key was claimed. */
  function RefundMove(db: Db, id: nat, amount: int, now: int): Result<Db, Error> {
    if id >= |db.payments| then Err(PaymentNotFound(id))
    else
      var p := db.payments[id];
      if p.status != Succeeded && p.status != RefundPending then Err(RefundNotAllowed)
      else if p.refunded + amount > p.amount then Err(RefundNotAllowed)
      else
        var ref := RefundRef(|db.refunds|);
        var q := p.(refunded := p.refunded + amount, version := p.version + 1,
                    status := if p.refunded + amount == p.amount then Refunded else p.status);
        var posted :- PostInto(db.(payments := db.payments[id := q], refunds := db.refunds + [Refund(id, amount, now)]),
                               RefundTxn, ref, Transfer(p.payee, p.payer, amount));
        Ok(Emit(posted, ref, RefundCompleted(id, amount), now))
  }

  function RefundTx(db: Db, key: string, id: nat, amount: int, now: int): TxResult {
    match ClaimOrReplay(db, Key(REFUND_MERCHANT, key), RefundRequest(id, amount))
    case Refused(e) => Raised(e)
    case Replayed(code, body) => Answered(code, body)
    case Claimed(claimed) =>
      match RefundMove(claimed, id, amount, now)
      case Err(e) => Raised(e)
      case Ok(done) =>
        var rid := |db.refunds|;
        Committed(Complete(done, Key(REFUND_MERCHANT, key), RefundRef(rid), 201, RefundBody(rid, id, amount, now)))
  }

  // ---------- ReconciliationService.expire_stale_holds ----------

  predicate Stale(p: Payment, cutoff: int) {
    p.status == Authorized && p.createdAt < cutoff
  }

  /** The ids of the AUTHORIZED payments created before the cutoff, ascending. */
  function StaleIds(payments: seq<Payment>, cutoff: int): seq<nat> {
    if payments == [] then []
    else
      var n := |payments| - 1;
      StaleIds(payments[..n], cutoff) + if Stale(payments[n], cutoff) then [n] else []
  }

  function ReverseAll(db: Db, ids: seq<nat>, now: int): Result<Db, Error> {
    if ids == [] then Ok(db)
    else
      var before :- ReverseAll(db, ids[..|ids| - 1], now);
      Reverse(before, ids[|ids| - 1], now)
  }

  function Expire(db: Db, cutoff: int, now: int): Result<Db, Error> {
    ReverseAll(db, StaleIds(db.payments, cutoff), now)
  }

  // ---------- OutboxRelay.drain_batch ----------

  /** Sets published_at on the rows with the given numbers. */
  function Stamp(outbox: seq<OutboxRow>, rows: seq<nat>): (r: seq<OutboxRow>)
    ensures |r| == |outbox|
    ensures forall i :: 0 <= i < |r| ==> r[i] == if i in rows then outbox[i].(published := true) else outbox[i]
  {
    seq(|outbox|, i requires 0 <= i < |outbox| => if i in rows then outbox[i].(published := true) else outbox[i])
  }
}

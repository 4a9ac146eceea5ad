/**
 The payment system as a state machine: any number of concurrent create calls, retries, crashes,
 webhooks, refunds, expiry sweeps and relay drains, interleaved transaction by transaction.
 */
module System {
  import opened Wrappers
  import opened Domain
  import opened Ledger
  import opened Rules
  import opened Invariant

  /** A create call whose transaction 1 committed; call number `i` owns payment number `i`. */
  datatype Phase = InFlight | Finished | Dead
  datatype Call = Call(key: Key, request: Request, phase: Phase)

  /** An answer that left the service. */
  datatype Reply = Reply(key: Key, code: int, body: Response)

  /** The database, plus the history the proofs speak about. */
  datatype Sys = Sys(db: Db, calls: seq<Call>, refundKeys: seq<Key>, replies: seq<Reply>)

  /** One atomic step; the environment picks every parameter. */
  datatype Action =
    | Create(key: string, request: Request, now: int)
    | Finish(call: nat, outcome: Outcome, now: int)
    | Crash(call: nat)
    | Deliver(webhook: Webhook, now: int)
    | Refunding(key: string, payment: nat, amount: int, now: int)
    | Sweep(cutoff: int, now: int)
    | Drain(rows: seq<nat>)

  /** A payment is created by a create request only. */
  function DoCreate(s: Sys, key: string, request: Request, now: int): Sys {
    if !request.CreateRequest? then s
    else match CreateTx1(s.db, key, request, now)
      case Raised(_) => s
      case Answered(code, body) => s.(replies := s.replies + [Reply(Key(request.merchant, key), code, body)])
      case Committed(db') => s.(db := db', calls := s.calls + [Call(Key(request.merchant, key), request, InFlight)])
  }

  /** Transaction 2 of an in-flight call; if it raises, it is rolled back and the call is gone. */
  function DoFinish(s: Sys, i: nat, outcome: Outcome, now: int): Sys {
    if i >= |s.calls| || s.calls[i].phase != InFlight then s
    else match CreateTx2(s.db, s.calls[i].key, i, outcome, now)
      case Committed(db') =>
        if i >= |db'.payments| then s
        else s.(db := db', calls := s.calls[i := s.calls[i].(phase := Finished)],
                replies := s.replies + [Reply(s.calls[i].key, 201, ToResponse(i, db'.payments[i]))])
      case _ => DoCrash(s, i)
  }

  /** The provider raised, never answered, or the process died: transaction 2 never happens. */
  function DoCrash(s: Sys, i: nat): Sys {
    if i >= |s.calls| || s.calls[i].phase != InFlight then s
    else s.(calls := s.calls[i := s.calls[i].(phase := Dead)])
  }

  function DoRefund(s: Sys, key: string, id: nat, amount: int, now: int): Sys {
    match RefundTx(s.db, key, id, amount, now)
    case Raised(_) => s
    case Answered(code, body) => s.(replies := s.replies + [Reply(Key(REFUND_MERCHANT, key), code, body)])
    case Committed(db') =>
      s.(db := db', refundKeys := s.refundKeys + [Key(REFUND_MERCHANT, key)],
         replies := s.replies + [Reply(Key(REFUND_MERCHANT, key), 201, RefundBody(|s.db.refunds|, id, amount, now))])
  }

  /** Rolls back to `db` on an exception. */
  function OrElse(r: Result<Db, Error>, db: Db): Db {
    match r
    case Ok(db') => db'
    case Err(_) => db
  }

  function Do(s: Sys, a: Action): Sys {
    match a
    case Create(key, request, now) => DoCreate(s, key, request, now)
    case Finish(i, outcome, now) => DoFinish(s, i, outcome, now)
    case Crash(i) => DoCrash(s, i)
    case Deliver(w, now) => s.(db := OrElse(Handle(s.db, w, now), s.db))
    case Refunding(key, id, amount, now) => DoRefund(s, key, id, amount, now)
    case Sweep(cutoff, now) => s.(db := OrElse(Expire(s.db, cutoff, now), s.db))
    case Drain(rows) => s.(db := s.db.(outbox := Stamp(s.db.outbox, rows)))
  }

  function Run(s: Sys, acts: seq<Action>): Sys {
    if acts == [] then s else Do(Run(s, acts[..|acts| - 1]), acts[|acts| - 1])
  }

  /** A migrated database with accounts and opening balances, and nothing else. */
  function Start(accounts: set<AccountId>, opening: map<AccountId, BalanceRow>): Sys {
    Sys(Db(Books(accounts, opening, [], []), [], [], map[], {}, []), [], [], [])
  }

  ghost predicate ValidOpening(accounts: set<AccountId>, opening: map<AccountId, BalanceRow>) {
    NonNegative(opening) && opening.Keys <= accounts && PSP_SUSPENSE in accounts
  }

  // ---------- The claims invariant ----------

  function RequestOf(p: Payment): Request {
    CreateRequest(p.merchant, p.payer, p.payee, p.amount, p.currency)
  }

  /** The answer `body` tells of payment `i`: its terms and reference, and an outcome that still stands. */
  ghost predicate Describes(body: Response, i: nat, p: Payment) {
    && body.PaymentBody? && body.id == i
    && CreateRequest(body.merchant, body.payer, body.payee, body.amount, body.currency) == RequestOf(p)
    && body.createdAt == p.createdAt && body.pspReference == p.pspReference && body.refunded == 0
    && (body.status == Authorized || (body.status == Succeeded && Paid(p))
       || (body.status == Failed && p.status == Failed))
  }

  /** Call `i`, its idempotency record and its payment agree. */
  ghost predicate CallOk(s: Sys, i: nat)
    requires i < |s.calls| && i < |s.db.payments|
  {
    var c, p := s.calls[i], s.db.payments[i];
    && c.request == RequestOf(p)
    && c.key.merchant == p.merchant
    && c.key in s.db.claims
    && s.db.claims[c.key].request == c.request
    && (s.db.claims[c.key].state.InProgress? <==> p.status == Processing)
    && (c.phase == Finished <==> p.status != Processing)
    && (p.status == Processing ==> p.refunded == 0)
    && (c.phase == Finished ==>
          var st := s.db.claims[c.key].state;
          st.resource == PaymentRef(i) && st.code == 201 && Describes(st.body, i, p))
  }

  /** Refund `j` and the idempotency record that paid it agree. */
  ghost predicate RefundKeyOk(s: Sys, j: nat)
    requires j < |s.refundKeys| && j < |s.db.refunds|
  {
    var k, r := s.refundKeys[j], s.db.refunds[j];
    && k.merchant == REFUND_MERCHANT
    && k in s.db.claims
    && s.db.claims[k] == Claim(RefundRequest(r.payment, r.amount),
                               Completed(RefundRef(j), 201, RefundBody(j, r.payment, r.amount, r.createdAt)))
  }

  /** Every record has the call or the refund that claimed it. */
  ghost predicate Owned(s: Sys, k: Key)
    requires k in s.db.claims
  {
    if s.db.claims[k].request.CreateRequest? then exists i :: 0 <= i < |s.calls| && s.calls[i].key == k
    else exists j :: 0 <= j < |s.refundKeys| && s.refundKeys[j] == k
  }

  ghost predicate ReplyOk(db: Db, r: Reply) {
    && r.key in db.claims
    && db.claims[r.key].state.Completed?
    && r.code == db.claims[r.key].state.code
    && r.body == db.claims[r.key].state.body
  }

  ghost predicate ClaimInv(s: Sys) {
    && |s.calls| == |s.db.payments|
    && |s.refundKeys| == |s.db.refunds|
    && (forall i :: 0 <= i < |s.calls| ==> CallOk(s, i))
    && (forall j :: 0 <= j < |s.refundKeys| ==> RefundKeyOk(s, j))
    && (forall i, i' :: 0 <= i < i' < |s.calls| ==> s.calls[i].key != s.calls[i'].key)
    && (forall j, j' :: 0 <= j < j' < |s.refundKeys| ==> s.refundKeys[j] != s.refundKeys[j'])
    && (forall k :: k in s.db.claims ==> Owned(s, k))
    && (forall n :: 0 <= n < |s.replies| ==> ReplyOk(s.db, s.replies[n]))
  }

  ghost predicate Inv(opening: map<AccountId, BalanceRow>, s: Sys) {
    MoneyInv(opening, s.db) && ClaimInv(s)
  }
}

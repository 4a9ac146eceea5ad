/**
 What each action does to the whole state, said without the functions that compute it, and so what
 every step of every run does.
 */
module Steps {
  import opened Domain
  import opened Ledger
  import opened Rules
  import opened Effects
  import opened Invariant
  import opened System
  import opened SystemProof
  import opened Expiry
  import opened Webhooks

  /** Only this reply is new. */
  ghost predicate Replied(s: Sys, s': Sys, k: Key, code: int, body: Response) {
    s' == s.(replies := s.replies + [Reply(k, code, body)])
  }

  /** A create call: replayed, refused, or in flight with its funds held. */
  ghost predicate Created(s: Sys, s': Sys, k: Key, q: Request, now: int)
    requires q.CreateRequest?
  {
    if k in s.db.claims then
      if s.db.claims[k].request == q && s.db.claims[k].state.Completed? then
        Replied(s, s', k, 201, s.db.claims[k].state.body)
      else s' == s
    else if {q.payer, q.payee} <= s.db.books.accounts && 0 < q.amount <= Bal(s.db.books.balances, q.payer) then
      && CreateDone(s.db, s'.db, k, q, now)
      && s' == s.(db := s'.db, calls := s.calls + [Call(k, q, InFlight)])
    else s' == s
  }

  /** The provider answered call `i`: finished and replied, or rolled back and dead. */
  ghost predicate Concluded(s: Sys, s': Sys, i: nat, outcome: Outcome, now: int) {
    if i >= |s.calls| || i >= |s.db.payments| || s.calls[i].phase != InFlight then s' == s
    else if FinishRefusal(s.db, i, outcome).None? then
      && FinishDone(s.db, s'.db, s.calls[i].key, i, outcome, now)
      && s' == s.(db := s'.db, calls := s.calls[i := s.calls[i].(phase := Finished)],
                  replies := s.replies + [Reply(s.calls[i].key, 201, FinishAnswer(s.db, i, outcome))])
    else s' == s.(calls := s.calls[i := s.calls[i].(phase := Dead)])
  }

  /** A webhook: refused when its reference is ambiguous or suspense does not cover the payment, else handled. */
  ghost predicate Delivered(s: Sys, s': Sys, w: Webhook, now: int) {
    && s' == s.(db := s'.db)
    && if Inert(s.db, w) then s' == s else HandleDone(s.db, s'.db, w, now)
  }

  /** A refund call: replayed, refused, or paid back. */
  ghost predicate PaidBack(s: Sys, s': Sys, k: Key, i: nat, amount: int, now: int) {
    if k in s.db.claims then
      if s.db.claims[k].request == RefundRequest(i, amount) && s.db.claims[k].state.Completed? then
        Replied(s, s', k, 201, s.db.claims[k].state.body)
      else s' == s
    else if i < |s.db.payments| && s.db.payments[i].status == Succeeded
            && 0 < amount <= s.db.payments[i].amount - s.db.payments[i].refunded
            && amount <= Bal(s.db.books.balances, s.db.payments[i].payee) then
      && RefundTxDone(s.db, s'.db, k, i, amount, now)
      && s' == s.(db := s'.db, refundKeys := s.refundKeys + [k],
                  replies := s.replies + [Reply(k, 201, RefundBody(|s.db.refunds|, i, amount, now))])
    else s' == s
  }

  /** A sweep: the stale holds are reversed, or one of them is not covered at its turn and nothing happens. */
  ghost predicate Expired(s: Sys, s': Sys, cutoff: int, now: int) {
    && s' == s.(db := s'.db)
    && if SweepCovered(s.db.payments, |s.db.payments|, cutoff, Bal(s.db.books.balances, PSP_SUSPENSE)) then
         Swept(s.db, s'.db, cutoff, now)
       else s' == s
  }

  /** A relay commit: exactly the named rows are stamped. */
  ghost predicate Drained(s: Sys, s': Sys, rows: seq<nat>) {
    && s' == s.(db := s.db.(outbox := s'.db.outbox))
    && |s'.db.outbox| == |s.db.outbox|
    && forall x :: 0 <= x < |s.db.outbox| ==>
         s'.db.outbox[x] == s.db.outbox[x].(published := s.db.outbox[x].published || x in rows)
  }

  ghost predicate StepDone(s: Sys, s': Sys, a: Action) {
    match a
    case Create(key, q, now) => if q.CreateRequest? then Created(s, s', Key(q.merchant, key), q, now) else s' == s
    case Finish(i, outcome, now) => Concluded(s, s', i, outcome, now)
    case Crash(i) =>
      s' == if i < |s.calls| && s.calls[i].phase == InFlight
            then s.(calls := s.calls[i := s.calls[i].(phase := Dead)]) else s
    case Deliver(w, now) => Delivered(s, s', w, now)
    case Refunding(key, i, amount, now) => PaidBack(s, s', Key("merchant_refund", key), i, amount, now)
    case Sweep(cutoff, now) => Expired(s, s', cutoff, now)
    case Drain(rows) => Drained(s, s', rows)
  }

  lemma CreateStep(opening: map<AccountId, BalanceRow>, s: Sys, key: string, q: Request, now: int)
    requires Inv(opening, s) && q.CreateRequest?
    ensures Created(s, DoCreate(s, key, q, now), Key(q.merchant, key), q, now)
  {
    var k := Key(q.merchant, key);
    CreateTx1Effect(s.db, key, q, now);
    if k in s.db.claims && s.db.claims[k].state.Completed? {
      CompletedCode(s, k);
    }
  }

  lemma FinishStep(opening: map<AccountId, BalanceRow>, s: Sys, i: nat, outcome: Outcome, now: int)
    requires Inv(opening, s)
    ensures Concluded(s, DoFinish(s, i, outcome, now), i, outcome, now)
  {
    if i < |s.calls| && s.calls[i].phase == InFlight {
      CreateTx2Effect(s.db, s.calls[i].key, i, outcome, now);
    }
  }

  lemma DeliverStep(opening: map<AccountId, BalanceRow>, s: Sys, w: Webhook, now: int)
    requires Inv(opening, s)
    ensures Delivered(s, Do(s, Deliver(w, now)), w, now)
  {
    HandleEffect(s.db, w, now);
    if Closes(s.db, w) {
      assert PaymentOk(s.db.books, s.db.payments[Target(s.db, w)]);
    }
  }

  lemma RefundStep(opening: map<AccountId, BalanceRow>, s: Sys, key: string, i: nat, amount: int, now: int)
    requires Inv(opening, s)
    ensures PaidBack(s, DoRefund(s, key, i, amount, now), Key("merchant_refund", key), i, amount, now)
  {
    var k := Key("merchant_refund", key);
    RefundTxEffect(s.db, key, i, amount, now);
    if k in s.db.claims {
      if s.db.claims[k].state.Completed? {
        CompletedCode(s, k);
      }
    } else if i < |s.db.payments| {
      assert PaymentOk(s.db.books, s.db.payments[i]);
    }
  }

  lemma SweepStep(opening: map<AccountId, BalanceRow>, s: Sys, cutoff: int, now: int)
    requires Inv(opening, s)
    ensures Expired(s, Do(s, Sweep(cutoff, now)), cutoff, now)
  {
    SweepSucceedsIff(opening, s.db, cutoff, now);
    if Expire(s.db, cutoff, now).Ok? {
      SweepIsExact(opening, s.db, cutoff, now, now);
    }
  }

  lemma StepIsExact(opening: map<AccountId, BalanceRow>, s: Sys, a: Action)
    requires Inv(opening, s)
    ensures StepDone(s, Do(s, a), a)
  {
    match a
    case Create(key, q, now) =>
      if q.CreateRequest? {
        CreateStep(opening, s, key, q, now);
      }
    case Finish(i, outcome, now) => FinishStep(opening, s, i, outcome, now);
    case Crash(i) =>
    case Deliver(w, now) => DeliverStep(opening, s, w, now);
    case Refunding(key, i, amount, now) => RefundStep(opening, s, key, i, amount, now);
    case Sweep(cutoff, now) => SweepStep(opening, s, cutoff, now);
    case Drain(rows) =>
  }

  /** Every step of every run does exactly what its action calls for. */
  lemma EveryStepIsExact(accounts: set<AccountId>, opening: map<AccountId, BalanceRow>, acts: seq<Action>, n: nat)
    requires ValidOpening(accounts, opening) && n < |acts|
    ensures var s0 := Start(accounts, opening);
            StepDone(Run(s0, acts[..n]), Run(s0, acts[..n + 1]), acts[n])
  {
    ReachableInv(accounts, opening, acts[..n]);
    assert acts[..n + 1][..n] == acts[..n];
    StepIsExact(opening, Run(Start(accounts, opening), acts[..n]), acts[n]);
  }
}

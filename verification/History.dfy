/** What never changes back: status transitions, append-only tables, answers that stay the same. */
module History {
  import opened Domain
  import opened Journal
  import opened Rules
  import opened Effects
  import opened Invariant
  import opened System
  import opened SystemProof

  // ---------- One step ----------

  /** The transitions one committed transaction can make. */
  ghost predicate Next(s: PaymentStatus, t: PaymentStatus) {
    || s == t
    || (s == Processing && (t == Authorized || t == Succeeded || t == Failed))
    || (s == Authorized && (t == Succeeded || t == Failed))
    || (s == Succeeded && t == Refunded)
  }

  /** The transitions any number of transactions can make. */
  ghost predicate Later(s: PaymentStatus, t: PaymentStatus) {
    || Next(s, t)
    || ((s == Processing || s == Authorized) && t == Refunded)
  }

  ghost predicate SameTerms(p: Payment, q: Payment) {
    RequestOf(q) == RequestOf(p) && q.createdAt == p.createdAt
  }

  ghost predicate BooksExtend(b: Books, b': Books) {
    b'.accounts == b.accounts && b.txns <= b'.txns && b.entries <= b'.entries
  }

  /** Outbox rows are never removed or rewritten, and a stamp is never taken back. */
  ghost predicate OutboxExtends(o: seq<OutboxRow>, o': seq<OutboxRow>) {
    && |o| <= |o'|
    && forall i :: 0 <= i < |o| ==> o'[i] == o[i] || o'[i] == o[i].(published := true)
  }

  ghost predicate ClaimsExtend(c: map<Key, Claim>, c': map<Key, Claim>) {
    forall k :: k in c ==>
      && k in c'
      && c'[k].request == c[k].request
      && (c[k].state.Completed? ==> c'[k] == c[k])
  }

  ghost predicate PaymentsNext(ps: seq<Payment>, ps': seq<Payment>) {
    && |ps| <= |ps'|
    && forall i :: 0 <= i < |ps| ==> SameTerms(ps[i], ps'[i]) && Next(ps[i].status, ps'[i].status)
  }

  ghost predicate PaymentsLater(ps: seq<Payment>, ps': seq<Payment>) {
    && |ps| <= |ps'|
    && forall i :: 0 <= i < |ps| ==> SameTerms(ps[i], ps'[i]) && Later(ps[i].status, ps'[i].status)
  }

  ghost predicate TablesExtend(db: Db, db': Db) {
    && BooksExtend(db.books, db'.books)
    && db.refunds <= db'.refunds
    && db.events <= db'.events
    && OutboxExtends(db.outbox, db'.outbox)
  }

  lemma CloseIsNext(db: Db, i: nat, pspReference: string, now: int)
    requires i < |db.payments| && Held(db.payments[i])
    ensures Settle(db, i, pspReference, now).Ok? ==>
              var db' := Settle(db, i, pspReference, now).value;
              TablesExtend(db, db') && PaymentsNext(db.payments, db'.payments)
    ensures Reverse(db, i, now).Ok? ==>
              var db' := Reverse(db, i, now).value;
              TablesExtend(db, db') && PaymentsNext(db.payments, db'.payments)
  {
    SettleEffect(db, i, pspReference, now);
    ReverseEffect(db, i, now);
  }

  lemma HandleIsNext(db: Db, w: Webhook, now: int)
    ensures var db' := OrElse(Handle(db, w, now), db);
            TablesExtend(db, db') && PaymentsNext(db.payments, db'.payments)
  {
    var recorded := db.(events := db.events + {w.id});
    var found := WithReference(db.payments, w.pspReference);
    assert TablesExtend(db, recorded) && PaymentsNext(db.payments, recorded.payments);
    if |found| == 1 && found[0] < |db.payments| && db.payments[found[0]].status == Authorized {
      CloseIsNext(recorded, found[0], w.pspReference, now);
    }
  }

  lemma {:induction false} ReverseAllExtends(db: Db, ids: seq<nat>, now: int)
    requires ReverseAll(db, ids, now).Ok?
    ensures TablesExtend(db, ReverseAll(db, ids, now).value)
  {
    if ids != [] {
      ReverseAllExtends(db, ids[..|ids| - 1], now);
      ReverseExtends(ReverseAll(db, ids[..|ids| - 1], now).value, ids[|ids| - 1], now);
      var a, b, c := db, ReverseAll(db, ids[..|ids| - 1], now).value, ReverseAll(db, ids, now).value;
      TablesTransitive(a, b, c);
    }
  }

  lemma ReverseExtends(db: Db, i: nat, now: int)
    requires Reverse(db, i, now).Ok?
    ensures TablesExtend(db, Reverse(db, i, now).value)
  {
  }

  lemma TablesTransitive(a: Db, b: Db, c: Db)
    requires TablesExtend(a, b) && TablesExtend(b, c)
    ensures TablesExtend(a, c)
  {
  }

  lemma SweepIsNext(db: Db, cutoff: int, now: int)
    ensures var db' := OrElse(Expire(db, cutoff, now), db);
            TablesExtend(db, db') && PaymentsNext(db.payments, db'.payments)
  {
    if Expire(db, cutoff, now).Ok? {
      StaleIdsMeaning(db.payments, cutoff);
      ReverseAllExact(db, StaleIds(db.payments, cutoff), now);
      ReverseAllExtends(db, StaleIds(db.payments, cutoff), now);
    }
  }

  lemma ConcludeIsNext(db: Db, i: nat, outcome: Outcome, now: int)
    requires i < |db.payments| && db.payments[i].status == Processing && Conclude(db, i, outcome, now).Ok?
    ensures var db' := Conclude(db, i, outcome, now).value;
            TablesExtend(db, db') && PaymentsNext(db.payments, db'.payments)
  {
    match outcome
    case Captured(r) => CloseIsNext(db, i, r.GetOr(""), now);
    case Declined => CloseIsNext(db, i, "", now);
    case Pending(r) =>
  }

  /** The history columns of the state only grow. */
  ghost predicate LogsExtend(s: Sys, s': Sys) {
    && |s.calls| <= |s'.calls|
    && (forall i :: 0 <= i < |s.calls| ==> s'.calls[i].key == s.calls[i].key)
    && s.refundKeys <= s'.refundKeys
    && s.replies <= s'.replies
  }

  /** One allowed step: every payment along one edge, every other table and column only grows. */
  ghost predicate SysNext(s: Sys, s': Sys) {
    && TablesExtend(s.db, s'.db)
    && PaymentsNext(s.db.payments, s'.db.payments)
    && ClaimsExtend(s.db.claims, s'.db.claims)
    && LogsExtend(s, s')
  }

  lemma FinishIsNext(s: Sys, i: nat, outcome: Outcome, now: int)
    requires ClaimInv(s)
    ensures SysNext(s, DoFinish(s, i, outcome, now))
  {
    if i < |s.calls| && s.calls[i].phase == InFlight {
      assert s.db.payments[i].status == Processing && s.calls[i].key in s.db.claims
          && s.db.claims[s.calls[i].key].state.InProgress? by {
        assert CallOk(s, i);
      }
      CompletionIsNext(s, i, outcome, now);
    }
  }

  lemma CompletionIsNext(s: Sys, i: nat, outcome: Outcome, now: int)
    requires i < |s.calls| && s.calls[i].phase == InFlight && i < |s.db.payments|
    requires s.db.payments[i].status == Processing && s.calls[i].key in s.db.claims
    requires s.db.claims[s.calls[i].key].state.InProgress?
    ensures SysNext(s, DoFinish(s, i, outcome, now))
  {
    if Conclude(s.db, i, outcome, now).Ok? {
      ConcludeIsNext(s.db, i, outcome, now);
      ConcludeTouchesOne(s.db, i, outcome, now);
    }
  }

  lemma CreateIsNext(s: Sys, key: string, request: Request, now: int)
    ensures SysNext(s, DoCreate(s, key, request, now))
  {
    if request.CreateRequest? && CreateTx1(s.db, key, request, now).Committed? {
      var claimed := ClaimOrReplay(s.db, Key(request.merchant, key), request).db;
      HoldEffect(claimed, NewPayment(request, now), now);
    }
  }

  lemma RefundDoneIsNext(db: Db, db': Db, i: nat, amount: int, now: int)
    requires RefundDone(db, db', i, amount, now) && PaymentOk(db.books, db.payments[i]) && amount > 0
    requires db.payments[i].status in {Succeeded, RefundPending}
    ensures TablesExtend(db, db') && PaymentsNext(db.payments, db'.payments)
  {
  }

  lemma RefundIsNext(s: Sys, key: string, id: nat, amount: int, now: int)
    requires PaymentsOk(s.db)
    ensures SysNext(s, DoRefund(s, key, id, amount, now))
  {
    if RefundTx(s.db, key, id, amount, now).Committed? {
      var claimed := ClaimOrReplay(s.db, Key(REFUND_MERCHANT, key), RefundRequest(id, amount)).db;
      assert PaymentOk(s.db.books, s.db.payments[id]);
      RefundEffect(claimed, id, amount, now);
      RefundDoneIsNext(claimed, RefundMove(claimed, id, amount, now).value, id, amount, now);
    }
  }

  lemma DeliverIsNext(s: Sys, w: Webhook, now: int)
    ensures SysNext(s, s.(db := OrElse(Handle(s.db, w, now), s.db)))
  {
    HandleIsNext(s.db, w, now);
    HandleQuiet(s.db, w, now);
  }

  lemma SweepStepIsNext(s: Sys, cutoff: int, now: int)
    ensures SysNext(s, s.(db := OrElse(Expire(s.db, cutoff, now), s.db)))
  {
    SweepIsNext(s.db, cutoff, now);
    if Expire(s.db, cutoff, now).Ok? {
      StaleIdsMeaning(s.db.payments, cutoff);
      ReverseAllExact(s.db, StaleIds(s.db.payments, cutoff), now);
    }
  }

  /**
   Every step of every reachable state moves each payment along one allowed transition and only
   appends to the journal, the refunds, the webhook events and the outbox.
   */
  lemma DoIsNext(opening: map<AccountId, BalanceRow>, s: Sys, a: Action)
    requires Inv(opening, s)
    ensures SysNext(s, Do(s, a))
  {
    match a
    case Create(key, request, now) => CreateIsNext(s, key, request, now);
    case Finish(i, outcome, now) => FinishIsNext(s, i, outcome, now);
    case Crash(i) =>
    case Deliver(w, now) => DeliverIsNext(s, w, now);
    case Refunding(key, id, amount, now) => RefundIsNext(s, key, id, amount, now);
    case Sweep(cutoff, now) => SweepStepIsNext(s, cutoff, now);
    case Drain(rows) =>
  }

  // ---------- Any number of steps ----------

  ghost predicate SysLater(s: Sys, s': Sys) {
    && TablesExtend(s.db, s'.db)
    && PaymentsLater(s.db.payments, s'.db.payments)
    && ClaimsExtend(s.db.claims, s'.db.claims)
    && LogsExtend(s, s')
  }

  lemma SysLaterTransitive(a: Sys, b: Sys, c: Sys)
    requires SysLater(a, b) && SysNext(b, c)
    ensures SysLater(a, c)
  {
    TablesTransitive(a.db, b.db, c.db);
    assert PaymentsLater(a.db.payments, c.db.payments);
    assert ClaimsExtend(a.db.claims, c.db.claims);
  }

  lemma {:induction false} RunIsLater(opening: map<AccountId, BalanceRow>, s: Sys, acts: seq<Action>)
    requires Inv(opening, s)
    ensures SysLater(s, Run(s, acts))
  {
    if acts != [] {
      var init, last := acts[..|acts| - 1], acts[|acts| - 1];
      RunIsLater(opening, s, init);
      RunKeepsInv(opening, s, init);
      DoIsNext(opening, Run(s, init), last);
      SysLaterTransitive(s, Run(s, init), Run(s, acts));
    }
  }

  lemma {:induction false} RunSplits(s: Sys, acts: seq<Action>, more: seq<Action>)
    ensures Run(s, acts + more) == Run(Run(s, acts), more)
  {
    if more == [] {
      assert acts + more == acts;
    } else {
      var n := |more| - 1;
      RunSplits(s, acts, more[..n]);
      assert (acts + more)[..|acts + more| - 1] == acts + more[..n];
    }
  }

  /** From any reachable state on, whatever happens: statuses only move forward, tables only grow. */
  lemma HistoryIsKept(accounts: set<AccountId>, opening: map<AccountId, BalanceRow>, acts: seq<Action>,
                      more: seq<Action>)
    requires ValidOpening(accounts, opening)
    ensures SysLater(Run(Start(accounts, opening), acts), Run(Start(accounts, opening), acts + more))
  {
    ReachableInv(accounts, opening, acts);
    RunSplits(Start(accounts, opening), acts, more);
    RunIsLater(opening, Run(Start(accounts, opening), acts), more);
  }

  // ---------- At most one settle or reverse ----------

  /**
   Neither `settle` nor `reverse` looks at the status, yet every reachable journal holds for each
   payment its hold and at most one closing transaction, of the kind its status says; and
   FUNDS_LOCKED, REFUND_PENDING and CREATED are never stored.
   */
  lemma ClosedAtMostOnce(accounts: set<AccountId>, opening: map<AccountId, BalanceRow>, acts: seq<Action>, i: nat)
    requires ValidOpening(accounts, opening)
    requires i < |Run(Start(accounts, opening), acts).db.payments|
    ensures var db := Run(Start(accounts, opening), acts).db;
            var p, journal := db.payments[i], JournalFor(db.books, PaymentRef(i));
            && p.status in {Processing, Authorized, Succeeded, Failed, Refunded}
            && (Held(p) <==> journal == [HoldItem(p)])
            && (Paid(p) ==> journal == [HoldItem(p), SettleItem(p)])
            && (p.status == Failed ==> journal == [HoldItem(p), ReverseItem(p)])
            && p.version == (if Held(p) then 0 else 1) + RefundCount(db.refunds, i)
  {
    ReachableInv(accounts, opening, acts);
    var db := Run(Start(accounts, opening), acts).db;
    assert PaymentOk(db.books, db.payments[i]);
    assert JournalFor(db.books, PaymentRef(i)) == ExpectedJournal(db.payments, db.refunds, PaymentRef(i));
  }

  /** Of two payments rows with the same terms and a final status, all that the journal needs agrees. */
  lemma FinalRows(opening: map<AccountId, BalanceRow>, db: Db, db': Db, i: nat)
    requires MoneyInv(opening, db) && MoneyInv(opening, db') && i < |db.payments| && i < |db'.payments|
    requires SameTerms(db.payments[i], db'.payments[i]) && Later(db.payments[i].status, db'.payments[i].status)
    requires db.payments[i].status in {Failed, Refunded}
    ensures db'.payments[i].status == db.payments[i].status && db'.payments[i].refunded == db.payments[i].refunded
    ensures JournalFor(db'.books, PaymentRef(i)) == JournalFor(db.books, PaymentRef(i))
  {
    assert PaymentOk(db.books, db.payments[i]) && PaymentOk(db'.books, db'.payments[i]);
    assert JournalFor(db.books, PaymentRef(i)) == ExpectedJournal(db.payments, db.refunds, PaymentRef(i));
    assert JournalFor(db'.books, PaymentRef(i)) == ExpectedJournal(db'.payments, db'.refunds, PaymentRef(i));
  }

  /** FAILED and REFUNDED payments never change again, and their journal is complete. */
  lemma FinalStatuses(accounts: set<AccountId>, opening: map<AccountId, BalanceRow>,
                      acts: seq<Action>, more: seq<Action>, i: nat)
    requires ValidOpening(accounts, opening)
    requires i < |Run(Start(accounts, opening), acts).db.payments|
    requires Run(Start(accounts, opening), acts).db.payments[i].status in {Failed, Refunded}
    ensures var db, db' := Run(Start(accounts, opening), acts).db, Run(Start(accounts, opening), acts + more).db;
            && i < |db'.payments|
            && db'.payments[i].status == db.payments[i].status
            && db'.payments[i].refunded == db.payments[i].refunded
            && JournalFor(db'.books, PaymentRef(i)) == JournalFor(db.books, PaymentRef(i))
  {
    var db, db' := Run(Start(accounts, opening), acts).db, Run(Start(accounts, opening), acts + more).db;
    assert i < |db'.payments| && SameTerms(db.payments[i], db'.payments[i])
        && Later(db.payments[i].status, db'.payments[i].status) by {
      HistoryIsKept(accounts, opening, acts, more);
    }
    ReachableInv(accounts, opening, acts);
    ReachableInv(accounts, opening, acts + more);
    FinalRows(opening, db, db', i);
  }

  // ---------- Exactly-once creation ----------

  /** Create claims and payments are in bijection, and IN_PROGRESS means PROCESSING. */
  lemma ClaimsMatchPayments(accounts: set<AccountId>, opening: map<AccountId, BalanceRow>, acts: seq<Action>)
    requires ValidOpening(accounts, opening)
    ensures var s := Run(Start(accounts, opening), acts);
            && |s.calls| == |s.db.payments|
            && (forall i, j :: 0 <= i < j < |s.calls| ==> s.calls[i].key != s.calls[j].key)
            && (forall i :: 0 <= i < |s.calls| ==>
                  && s.calls[i].key in s.db.claims
                  && s.db.claims[s.calls[i].key].request == RequestOf(s.db.payments[i])
                  && (s.db.claims[s.calls[i].key].state.InProgress? <==> s.db.payments[i].status == Processing))
            && (forall k :: k in s.db.claims && s.db.claims[k].request.CreateRequest? ==>
                  exists i :: 0 <= i < |s.calls| && s.calls[i].key == k)
  {
    ReachableInv(accounts, opening, acts);
    var s := Run(Start(accounts, opening), acts);
    forall i | 0 <= i < |s.calls|
      ensures && s.calls[i].key in s.db.claims
              && s.db.claims[s.calls[i].key].request == RequestOf(s.db.payments[i])
              && (s.db.claims[s.calls[i].key].state.InProgress? <==> s.db.payments[i].status == Processing)
    {
      assert CallOk(s, i);
    }
    forall k | k in s.db.claims && s.db.claims[k].request.CreateRequest?
      ensures exists i :: 0 <= i < |s.calls| && s.calls[i].key == k
    {
      assert Owned(s, k);
    }
  }

  lemma {:induction false} DeadStaysDead(s: Sys, acts: seq<Action>, i: nat)
    requires i < |s.calls| && s.calls[i].phase == Dead
    ensures var s' := Run(s, acts);
            i < |s'.calls| && s'.calls[i] == s.calls[i]
    decreases |acts|
  {
    if acts != [] {
      DeadStaysDead(s, acts[..|acts| - 1], i);
      DeadStepsNowhere(Run(s, acts[..|acts| - 1]), acts[|acts| - 1], i);
    }
  }

  lemma DeadStepsNowhere(s: Sys, a: Action, i: nat)
    requires i < |s.calls| && s.calls[i].phase == Dead
    ensures i < |Do(s, a).calls| && Do(s, a).calls[i] == s.calls[i]
  {
  }

  /**
   A create call whose transaction 2 never committed is stuck: whatever happens later, sweeps included,
   its payment stays PROCESSING, its amount stays in suspense, its key stays IN_PROGRESS, and every
   retry is refused and changes nothing.
   */
  lemma DeadCallsAreStuck(accounts: set<AccountId>, opening: map<AccountId, BalanceRow>,
                          acts: seq<Action>, more: seq<Action>, i: nat, key: string, now: int)
    requires ValidOpening(accounts, opening)
    requires var s := Run(Start(accounts, opening), acts);
             i < |s.calls| && s.calls[i].phase == Dead && s.calls[i].key.idem == key
    ensures var s, s' := Run(Start(accounts, opening), acts), Run(Start(accounts, opening), acts + more);
            && i < |s'.calls| && i < |s'.db.payments| && s'.db.payments[i].status == Processing
            && JournalFor(s'.db.books, PaymentRef(i)) == [HoldItem(s'.db.payments[i])]
            && s.calls[i].key in s'.db.claims && s'.db.claims[s.calls[i].key].state == InProgress
            && s.calls[i].request.CreateRequest?
            && CreateTx1(s'.db, key, s.calls[i].request, now) == Raised(IdempotencyConflict)
            && Do(s', Create(key, s.calls[i].request, now)) == s'
  {
    var s, s' := Run(Start(accounts, opening), acts), Run(Start(accounts, opening), acts + more);
    RunSplits(Start(accounts, opening), acts, more);
    DeadStaysDead(s, more, i);
    ReachableInv(accounts, opening, acts + more);
    assert CallOk(s', i);
    ClosedAtMostOnce(accounts, opening, acts + more, i);
  }

  /** All answers ever given for one key are the same answer, with code 201. */
  lemma AnswersAgree(accounts: set<AccountId>, opening: map<AccountId, BalanceRow>, acts: seq<Action>, m: nat, n: nat)
    requires ValidOpening(accounts, opening)
    requires m < |Run(Start(accounts, opening), acts).replies| && n < |Run(Start(accounts, opening), acts).replies|
    requires Run(Start(accounts, opening), acts).replies[m].key == Run(Start(accounts, opening), acts).replies[n].key
    ensures Run(Start(accounts, opening), acts).replies[m] == Run(Start(accounts, opening), acts).replies[n]
    ensures Run(Start(accounts, opening), acts).replies[m].code == 201
  {
    ReachableInv(accounts, opening, acts);
    var s := Run(Start(accounts, opening), acts);
    assert ReplyOk(s.db, s.replies[m]) && ReplyOk(s.db, s.replies[n]);
    CompletedCode(s, s.replies[m].key);
  }

  /** Every answer to a create call tells the terms of the payment of its key, and an outcome that still stands. */
  lemma AnswersDescribePayments(accounts: set<AccountId>, opening: map<AccountId, BalanceRow>, acts: seq<Action>,
                                n: nat) returns (i: nat)
    requires ValidOpening(accounts, opening)
    requires var s := Run(Start(accounts, opening), acts);
             n < |s.replies| && s.replies[n].key in s.db.claims && s.db.claims[s.replies[n].key].request.CreateRequest?
    ensures var s := Run(Start(accounts, opening), acts);
            && i < |s.calls| && i < |s.db.payments| && s.calls[i].key == s.replies[n].key
            && Describes(s.replies[n].body, i, s.db.payments[i])
  {
    ReachableInv(accounts, opening, acts);
    var s := Run(Start(accounts, opening), acts);
    assert ReplyOk(s.db, s.replies[n]) && Owned(s, s.replies[n].key);
    i :| 0 <= i < |s.calls| && s.calls[i].key == s.replies[n].key;
    assert CallOk(s, i);
  }

  /** Once a key has an answer, every later retry with the same request gets it and moves nothing. */
  lemma RetryReplays(accounts: set<AccountId>, opening: map<AccountId, BalanceRow>, acts: seq<Action>,
                     more: seq<Action>,
                     n: nat, key: string, request: Request, now: int)
    requires ValidOpening(accounts, opening) && request.CreateRequest?
    requires var s := Run(Start(accounts, opening), acts);
             && n < |s.replies| && s.replies[n].key == Key(request.merchant, key)
             && s.replies[n].key in s.db.claims
             && s.db.claims[s.replies[n].key].request == request
    ensures var s := Run(Start(accounts, opening), acts);
            var s' := Run(Start(accounts, opening), acts + more);
            Do(s', Create(key, request, now)) == s'.(replies := s'.replies + [s.replies[n]])
  {
    var s, s' := Run(Start(accounts, opening), acts), Run(Start(accounts, opening), acts + more);
    ReachableInv(accounts, opening, acts);
    HistoryIsKept(accounts, opening, acts, more);
    assert ReplyOk(s.db, s.replies[n]);
    CompletedCode(s, s.replies[n].key);
  }

  /** Once a refund key has an answer, every later retry with the same payment and amount gets it and moves nothing. */
  lemma RefundRetryReplays(accounts: set<AccountId>, opening: map<AccountId, BalanceRow>, acts: seq<Action>,
                           more: seq<Action>, n: nat, key: string, id: nat, amount: int, now: int)
    requires ValidOpening(accounts, opening)
    requires var s := Run(Start(accounts, opening), acts);
             && n < |s.replies| && s.replies[n].key == Key("merchant_refund", key)
             && s.replies[n].key in s.db.claims
             && s.db.claims[s.replies[n].key].request == RefundRequest(id, amount)
    ensures var s := Run(Start(accounts, opening), acts);
            var s' := Run(Start(accounts, opening), acts + more);
            Do(s', Refunding(key, id, amount, now)) == s'.(replies := s'.replies + [s.replies[n]])
  {
    var s, s' := Run(Start(accounts, opening), acts), Run(Start(accounts, opening), acts + more);
    ReachableInv(accounts, opening, acts);
    HistoryIsKept(accounts, opening, acts, more);
    assert ReplyOk(s.db, s.replies[n]);
    CompletedCode(s, s.replies[n].key);
  }

  /** A key that any call has used refuses every other request for ever after, and the refused call changes nothing. */
  lemma OtherRequestsMismatch(accounts: set<AccountId>, opening: map<AccountId, BalanceRow>, acts: seq<Action>,
                              more: seq<Action>, k: Key, now: int)
    requires ValidOpening(accounts, opening)
    requires k in Run(Start(accounts, opening), acts).db.claims
    ensures var s := Run(Start(accounts, opening), acts);
            var s' := Run(Start(accounts, opening), acts + more);
            && (forall q: Request :: q.CreateRequest? && q.merchant == k.merchant && q != s.db.claims[k].request ==>
                  && CreateTx1(s'.db, k.idem, q, now) == Raised(IdempotencyMismatch)
                  && Do(s', Create(k.idem, q, now)) == s')
            && (k.merchant == "merchant_refund" ==>
                  forall id: nat, amount: int :: RefundRequest(id, amount) != s.db.claims[k].request ==>
                    && RefundTx(s'.db, k.idem, id, amount, now) == Raised(IdempotencyMismatch)
                    && Do(s', Refunding(k.idem, id, amount, now)) == s')
  {
    HistoryIsKept(accounts, opening, acts, more);
  }

  /** Each refund key moves money at most once: refund records and Refund rows are in bijection. */
  lemma RefundKeysMatchRefunds(accounts: set<AccountId>, opening: map<AccountId, BalanceRow>, acts: seq<Action>)
    requires ValidOpening(accounts, opening)
    ensures var s := Run(Start(accounts, opening), acts);
            && |s.refundKeys| == |s.db.refunds|
            && (forall i, j :: 0 <= i < j < |s.refundKeys| ==> s.refundKeys[i] != s.refundKeys[j])
            && (forall j :: 0 <= j < |s.refundKeys| ==>
                  && s.refundKeys[j] in s.db.claims
                  && s.db.claims[s.refundKeys[j]].request ==
                     RefundRequest(s.db.refunds[j].payment, s.db.refunds[j].amount)
                  && s.db.refunds[j].payment < |s.db.payments|
                  && JournalFor(s.db.books, RefundRef(j)) ==
                     [RefundItem(s.db.payments[s.db.refunds[j].payment], s.db.refunds[j].amount)])
            && (forall k :: k in s.db.claims && s.db.claims[k].request.RefundRequest? ==>
                  exists j :: 0 <= j < |s.refundKeys| && s.refundKeys[j] == k)
  {
    ReachableInv(accounts, opening, acts);
    var s := Run(Start(accounts, opening), acts);
    forall j | 0 <= j < |s.refundKeys|
      ensures && s.refundKeys[j] in s.db.claims
              && s.db.claims[s.refundKeys[j]].request == RefundRequest(s.db.refunds[j].payment, s.db.refunds[j].amount)
              && s.db.refunds[j].payment < |s.db.payments|
              && JournalFor(s.db.books, RefundRef(j)) ==
                 [RefundItem(s.db.payments[s.db.refunds[j].payment], s.db.refunds[j].amount)]
    {
      assert RefundKeyOk(s, j);
      assert JournalFor(s.db.books, RefundRef(j)) == ExpectedJournal(s.db.payments, s.db.refunds, RefundRef(j));
    }
    forall k | k in s.db.claims && s.db.claims[k].request.RefundRequest?
      ensures exists j :: 0 <= j < |s.refundKeys| && s.refundKeys[j] == k
    {
      assert Owned(s, k);
    }
  }
}

/** Does the suspense account always cover the outstanding holds? */
module Solvency {
  import opened Wrappers
  import opened Sequences
  import opened Domain
  import opened Ledger
  import opened LedgerLemmas
  import opened Rules
  import opened Effects
  import opened Invariant
  import opened Moves
  import opened System
  import opened SystemProof
  import opened History

  function HeldTotal(ps: seq<Payment>): int {
    if ps == [] then 0
    else HeldTotal(ps[..|ps| - 1]) + if Held(ps[|ps| - 1]) then ps[|ps| - 1].amount else 0
  }

  /** What settled payments brought into suspense, net of refunds, where suspense is the payee. */
  function Received(ps: seq<Payment>): int {
    if ps == [] then 0
    else
      var p := ps[|ps| - 1];
      Received(ps[..|ps| - 1]) + if p.payee == PSP_SUSPENSE && Paid(p) then p.amount - p.refunded else 0
  }

  /** What payments drew from suspense, net of refunds, where suspense is the payer. */
  function Drawn(ps: seq<Payment>): int {
    if ps == [] then 0
    else
      var p := ps[|ps| - 1];
      Drawn(ps[..|ps| - 1]) + if p.payer == PSP_SUSPENSE && p.status != Failed then p.amount - p.refunded else 0
  }

  lemma {:induction false} SuspenseSplits(ps: seq<Payment>)
    ensures Holdings(ps, PSP_SUSPENSE) == HeldTotal(ps) + Received(ps) - Drawn(ps)
  {
    if ps != [] {
      SuspenseSplits(ps[..|ps| - 1]);
    }
  }

  /** What suspense holds beyond the outstanding holds. */
  function Slack(db: Db): int {
    Bal(db.books.balances, PSP_SUSPENSE) - HeldTotal(db.payments)
  }

  /** Suspense covers all outstanding holds together. */
  predicate Solvent(db: Db) {
    Slack(db) >= 0
  }

  /** In any reachable state suspense covers all holds exactly when it did not pay out more, as a
      payer, than it opened with and received. */
  lemma SolventIff(opening: map<AccountId, BalanceRow>, db: Db)
    requires MoneyInv(opening, db)
    ensures Solvent(db) <==> Bal(opening, PSP_SUSPENSE) + Received(db.payments) >= Drawn(db.payments)
  {
    SuspenseSplits(db.payments);
  }

  // ---------- How each step moves the slack ----------

  lemma HeldSnoc(ps: seq<Payment>, p: Payment)
    ensures HeldTotal(ps + [p]) == HeldTotal(ps) + if Held(p) then p.amount else 0
  {
    assert (ps + [p])[..|ps|] == ps;
  }

  lemma {:induction false} HeldUpdate(ps: seq<Payment>, i: nat, q: Payment)
    requires i < |ps|
    ensures HeldTotal(ps[i := q]) == HeldTotal(ps) - (if Held(ps[i]) then ps[i].amount else 0)
                                     + (if Held(q) then q.amount else 0)
  {
    var n := |ps| - 1;
    if i == n {
      assert ps[i := q][..n] == ps[..n];
    } else {
      assert ps[i := q][..n] == ps[..n][i := q];
      HeldUpdate(ps[..n], i, q);
    }
  }

  /** A hold uses up slack exactly when suspense itself pays. */
  lemma SlackAfterHold(db: Db, p: Payment, now: int)
    requires Hold(db, p, now).Ok?
    ensures Slack(Hold(db, p, now).value) == Slack(db) - if p.payer == PSP_SUSPENSE then p.amount else 0
  {
    PostTransfer(db.books, PaymentTxn, PaymentRef(|db.payments|), p.payer, PSP_SUSPENSE, p.amount);
    HeldSnoc(db.payments, p.(status := Processing));
  }

  lemma SlackAfterSettle(db: Db, i: nat, pspReference: string, now: int)
    requires Settle(db, i, pspReference, now).Ok? && Held(db.payments[i])
    ensures var p := db.payments[i];
            Slack(Settle(db, i, pspReference, now).value) == Slack(db) + if p.payee == PSP_SUSPENSE then p.amount else 0
  {
    var p, db' := db.payments[i], Settle(db, i, pspReference, now).value;
    PostTransfer(db.books, PaymentTxn, PaymentRef(i), PSP_SUSPENSE, p.payee, p.amount);
    HeldUpdate(db.payments, i, db'.payments[i]);
  }

  lemma SlackAfterReverse(db: Db, i: nat, now: int)
    requires Reverse(db, i, now).Ok? && Held(db.payments[i])
    ensures var p := db.payments[i];
            Slack(Reverse(db, i, now).value) == Slack(db) + if p.payer == PSP_SUSPENSE then p.amount else 0
  {
    var p, db' := db.payments[i], Reverse(db, i, now).value;
    PostTransfer(db.books, ReversalTxn, PaymentRef(i), PSP_SUSPENSE, p.payer, p.amount);
    HeldUpdate(db.payments, i, db'.payments[i]);
  }

  /** A refund uses up slack when suspense was the payee, and brings it back when it was the payer. */
  lemma SlackAfterRefund(db: Db, i: nat, amount: int, now: int)
    requires RefundMove(db, i, amount, now).Ok?
    ensures var p := db.payments[i];
            Slack(RefundMove(db, i, amount, now).value) ==
            Slack(db) - (if p.payee == PSP_SUSPENSE then amount else 0) +
              (if p.payer == PSP_SUSPENSE then amount else 0)
  {
    var p, db' := db.payments[i], RefundMove(db, i, amount, now).value;
    PostTransfer(db.books, RefundTxn, RefundRef(|db.refunds|), p.payee, p.payer, amount);
    HeldUpdate(db.payments, i, db'.payments[i]);
  }

  lemma {:induction false} SlackAfterReversals(db: Db, ids: seq<nat>, now: int)
    requires ReverseAll(db, ids, now).Ok? && NoRepeats(ids)
    requires forall k :: 0 <= k < |ids| ==>
              ids[k] < |db.payments| && Held(db.payments[ids[k]]) && db.payments[ids[k]].amount > 0
    ensures Slack(ReverseAll(db, ids, now).value) >= Slack(db)
    decreases |ids|
  {
    if ids != [] {
      var n := |ids| - 1;
      SlackAfterReversals(db, ids[..n], now);
      var before := ReverseAll(db, ids[..n], now).value;
      ReversalsLeave(db, ids, now);
      SlackAfterReverse(before, ids[n], now);
    }
  }

  lemma SlackAfterExpire(opening: map<AccountId, BalanceRow>, db: Db, cutoff: int, now: int)
    requires MoneyInv(opening, db)
    ensures Slack(OrElse(Expire(db, cutoff, now), db)) >= Slack(db)
  {
    var ids := StaleIds(db.payments, cutoff);
    StaleIdsMeaning(db.payments, cutoff);
    forall k | 0 <= k < |ids|
      ensures ids[k] < |db.payments| && Held(db.payments[ids[k]]) && db.payments[ids[k]].amount > 0 {
      assert ids[k] in ids;
      assert PaymentOk(db.books, db.payments[ids[k]]);
    }
    if Expire(db, cutoff, now).Ok? {
      SlackAfterReversals(db, ids, now);
    }
  }

  lemma SlackAfterHandle(opening: map<AccountId, BalanceRow>, db: Db, w: Webhook, now: int)
    requires MoneyInv(opening, db)
    ensures Slack(OrElse(Handle(db, w, now), db)) >= Slack(db)
  {
    var recorded := db.(events := db.events + {w.id});
    var found := WithReference(db.payments, w.pspReference);
    if |found| == 1 && found[0] < |db.payments| && db.payments[found[0]].status == Authorized {
      assert PaymentOk(db.books, db.payments[found[0]]);
      if Settle(recorded, found[0], w.pspReference, now).Ok? {
        SlackAfterSettle(recorded, found[0], w.pspReference, now);
      }
      if Reverse(recorded, found[0], now).Ok? {
        SlackAfterReverse(recorded, found[0], now);
      }
    }
  }

  lemma SlackAfterConclude(db: Db, i: nat, outcome: Outcome, now: int)
    requires Conclude(db, i, outcome, now).Ok? && i < |db.payments| && Held(db.payments[i]) && db.payments[i].amount > 0
    ensures Slack(Conclude(db, i, outcome, now).value) >= Slack(db)
  {
    match outcome
    case Captured(r) => SlackAfterSettle(db, i, r.GetOr(""), now);
    case Declined => SlackAfterReverse(db, i, now);
    case Pending(r) => HeldUpdate(db.payments, i, Authorize(db, i, r).value.payments[i]);
  }

  lemma SlackAfterFinish(opening: map<AccountId, BalanceRow>, s: Sys, i: nat, outcome: Outcome, now: int)
    requires Inv(opening, s)
    ensures Slack(DoFinish(s, i, outcome, now).db) >= Slack(s.db)
  {
    if i < |s.calls| && s.calls[i].phase == InFlight {
      InFlightIsHeld(opening, s, i);
      SlackAfterTx2(s, i, outcome, now);
    }
  }

  lemma InFlightIsHeld(opening: map<AccountId, BalanceRow>, s: Sys, i: nat)
    requires Inv(opening, s) && i < |s.calls| && s.calls[i].phase == InFlight
    ensures i < |s.db.payments| && Held(s.db.payments[i]) && s.db.payments[i].amount > 0
  {
    assert CallOk(s, i);
    assert PaymentOk(s.db.books, s.db.payments[i]);
  }

  lemma SlackAfterTx2(s: Sys, i: nat, outcome: Outcome, now: int)
    requires i < |s.calls| && i < |s.db.payments| && Held(s.db.payments[i]) && s.db.payments[i].amount > 0
    ensures Slack(DoFinish(s, i, outcome, now).db) >= Slack(s.db)
  {
    if Conclude(s.db, i, outcome, now).Ok? {
      SlackAfterConclude(s.db, i, outcome, now);
    }
  }

  // ---------- The exact guard ----------

  /**
   What a caller can check before a step: a hold paid by suspense itself, and a refund of a payment to
   suspense, must be covered by what suspense has beyond the outstanding holds, unless the step is
   refused anyway: for a used key, an unknown account, a status, an amount, or a lack of funds.
   */
  predicate MeetsGuard(s: Sys, a: Action) {
    match a
    case Create(key, request, now) =>
      request.CreateRequest? && request.payer == PSP_SUSPENSE
      && Key(request.merchant, key) !in s.db.claims && request.payee in s.db.books.accounts
      && 0 < request.amount <= Bal(s.db.books.balances, PSP_SUSPENSE) ==>
        Slack(s.db) >= request.amount
    case Refunding(key, id, amount, now) =>
      id < |s.db.payments| && s.db.payments[id].payee == PSP_SUSPENSE && s.db.payments[id].payer != PSP_SUSPENSE
      && Key(REFUND_MERCHANT, key) !in s.db.claims && s.db.payments[id].status == Succeeded
      && 0 < amount <= s.db.payments[id].amount - s.db.payments[id].refunded
      && amount <= Bal(s.db.books.balances, PSP_SUSPENSE) ==>
        Slack(s.db) >= amount
    case _ => true
  }

  lemma CreateSolventIff(s: Sys, key: string, request: Request, now: int)
    requires Solvent(s.db) && BooksOk(s.db.books)
    ensures Solvent(DoCreate(s, key, request, now).db) <==> MeetsGuard(s, Create(key, request, now))
  {
    if request.CreateRequest? && Key(request.merchant, key) !in s.db.claims {
      var claimed := ClaimOrReplay(s.db, Key(request.merchant, key), request).db;
      HoldEffect(claimed, NewPayment(request, now), now);
      if Hold(claimed, NewPayment(request, now), now).Ok? {
        SlackAfterHold(claimed, NewPayment(request, now), now);
      }
    }
  }

  lemma RefundSolventIff(s: Sys, key: string, id: nat, amount: int, now: int)
    requires Solvent(s.db) && PaymentsOk(s.db) && BooksOk(s.db.books)
    ensures Solvent(DoRefund(s, key, id, amount, now).db) <==> MeetsGuard(s, Refunding(key, id, amount, now))
  {
    if Key(REFUND_MERCHANT, key) !in s.db.claims {
      var claimed := ClaimOrReplay(s.db, Key(REFUND_MERCHANT, key), RefundRequest(id, amount)).db;
      RefundEffect(claimed, id, amount, now);
      if id < |s.db.payments| {
        assert PaymentOk(s.db.books, s.db.payments[id]);
      }
      if RefundMove(claimed, id, amount, now).Ok? {
        SlackAfterRefund(claimed, id, amount, now);
      }
    }
  }

  /** From a solvent reachable state, a step keeps solvency if and only if it meets its guard. */
  lemma StepSolventIff(opening: map<AccountId, BalanceRow>, s: Sys, a: Action)
    requires Inv(opening, s) && Solvent(s.db)
    ensures Solvent(Do(s, a).db) <==> MeetsGuard(s, a)
  {
    match a
    case Create(key, request, now) => CreateSolventIff(s, key, request, now);
    case Finish(i, outcome, now) => SlackAfterFinish(opening, s, i, outcome, now);
    case Crash(i) =>
    case Deliver(w, now) => SlackAfterHandle(opening, s.db, w, now);
    case Refunding(key, id, amount, now) => RefundSolventIff(s, key, id, amount, now);
    case Sweep(cutoff, now) => SlackAfterExpire(opening, s.db, cutoff, now);
    case Drain(rows) =>
  }

  ghost predicate SolventThroughout(s: Sys, acts: seq<Action>) {
    forall k :: 0 <= k <= |acts| ==> Solvent(Run(s, acts[..k]).db)
  }

  ghost predicate GuardsMet(s: Sys, acts: seq<Action>) {
    forall k :: 0 <= k < |acts| ==> MeetsGuard(Run(s, acts[..k]), acts[k])
  }

  lemma RunPrefix(s: Sys, acts: seq<Action>, k: nat)
    requires k < |acts|
    ensures Run(s, acts[..k + 1]) == Do(Run(s, acts[..k]), acts[k])
  {
    assert acts[..k + 1][..k] == acts[..k];
  }

  lemma PrefixSolventIff(accounts: set<AccountId>, opening: map<AccountId, BalanceRow>, acts: seq<Action>, k: nat)
    requires ValidOpening(accounts, opening) && k < |acts| && Solvent(Run(Start(accounts, opening), acts[..k]).db)
    ensures Solvent(Run(Start(accounts, opening), acts[..k + 1]).db) <==>
              MeetsGuard(Run(Start(accounts, opening), acts[..k]), acts[k])
  {
    ReachableInv(accounts, opening, acts[..k]);
    RunPrefix(Start(accounts, opening), acts, k);
    StepSolventIff(opening, Run(Start(accounts, opening), acts[..k]), acts[k]);
  }

  lemma {:induction false} GuardsKeepSolvent(accounts: set<AccountId>, opening: map<AccountId, BalanceRow>,
                                             acts: seq<Action>, k: nat)
    requires ValidOpening(accounts, opening) && GuardsMet(Start(accounts, opening), acts) && k <= |acts|
    ensures Solvent(Run(Start(accounts, opening), acts[..k]).db)
    decreases k
  {
    if k == 0 {
      assert acts[..0] == [];
    } else {
      GuardsKeepSolvent(accounts, opening, acts, k - 1);
      PrefixSolventIff(accounts, opening, acts, k - 1);
    }
  }

  /** A run is solvent at every step if and only if every hold and every refund in it meets its guard. */
  lemma RunSolventIff(accounts: set<AccountId>, opening: map<AccountId, BalanceRow>, acts: seq<Action>)
    requires ValidOpening(accounts, opening)
    ensures SolventThroughout(Start(accounts, opening), acts) <==> GuardsMet(Start(accounts, opening), acts)
  {
    var s0 := Start(accounts, opening);
    if SolventThroughout(s0, acts) {
      forall k | 0 <= k < |acts| ensures MeetsGuard(Run(s0, acts[..k]), acts[k]) {
        assert Solvent(Run(s0, acts[..k]).db) && Solvent(Run(s0, acts[..k + 1]).db);
        PrefixSolventIff(accounts, opening, acts, k);
      }
    }
    if GuardsMet(s0, acts) {
      forall k | 0 <= k <= |acts| ensures Solvent(Run(s0, acts[..k]).db) {
        GuardsKeepSolvent(accounts, opening, acts, k);
      }
    }
  }

  // ---------- What solvency is good for ----------

  lemma {:induction false} HeldIsCovered(b: Books, ps: seq<Payment>, i: nat)
    requires forall k :: 0 <= k < |ps| ==> PaymentOk(b, ps[k])
    ensures HeldTotal(ps) >= 0
    ensures i < |ps| && Held(ps[i]) ==> HeldTotal(ps) >= ps[i].amount
    decreases |ps|
  {
    if ps != [] {
      var n := |ps| - 1;
      assert PaymentOk(b, ps[n]);
      HeldIsCovered(b, ps[..n], i);
    }
  }

  /** In a solvent state no settle and no reverse of a held payment raises. */
  lemma HeldCanClose(opening: map<AccountId, BalanceRow>, db: Db, i: nat, pspReference: string, now: int)
    requires MoneyInv(opening, db) && Solvent(db) && i < |db.payments| && Held(db.payments[i])
    ensures db.payments[i].amount <= Bal(db.books.balances, PSP_SUSPENSE)
    ensures Settle(db, i, pspReference, now).Ok? && Reverse(db, i, now).Ok?
  {
    var p := db.payments[i];
    HeldIsCovered(db.books, db.payments, i);
    assert PaymentOk(db.books, p);
    PostTransfer(db.books, PaymentTxn, PaymentRef(i), PSP_SUSPENSE, p.payee, p.amount);
    PostTransfer(db.books, ReversalTxn, PaymentRef(i), PSP_SUSPENSE, p.payer, p.amount);
  }

  lemma ReversalsKeepSolvent(db: Db, ids: seq<nat>, now: int)
    requires PaymentsOk(db) && Solvent(db) && NoRepeats(ids) && ReverseAll(db, ids, now).Ok?
    requires forall k :: 0 <= k < |ids| ==> ids[k] < |db.payments| && Held(db.payments[ids[k]])
    ensures Solvent(ReverseAll(db, ids, now).value)
  {
    forall k | 0 <= k < |ids| ensures db.payments[ids[k]].amount > 0 {
      assert PaymentOk(db.books, db.payments[ids[k]]);
    }
    SlackAfterReversals(db, ids, now);
  }

  /** Every iteration of the expiry loop succeeds. */
  lemma {:induction false} ReverseAllSucceeds(opening: map<AccountId, BalanceRow>, db: Db, ids: seq<nat>, now: int)
    requires MoneyInv(opening, db) && Solvent(db) && NoRepeats(ids)
    requires forall k :: 0 <= k < |ids| ==> ids[k] < |db.payments| && Held(db.payments[ids[k]])
    ensures ReverseAll(db, ids, now).Ok?
    decreases |ids|
  {
    if ids != [] {
      var n := |ids| - 1;
      ReverseAllSucceeds(opening, db, ids[..n], now);
      NextReversalSucceeds(opening, db, ids, now);
    }
  }

  lemma NextReversalSucceeds(opening: map<AccountId, BalanceRow>, db: Db, ids: seq<nat>, now: int)
    requires MoneyInv(opening, db) && Solvent(db) && NoRepeats(ids) && ids != []
    requires forall k :: 0 <= k < |ids| ==> ids[k] < |db.payments| && Held(db.payments[ids[k]])
    requires ReverseAll(db, ids[..|ids| - 1], now).Ok?
    ensures ReverseAll(db, ids, now).Ok?
  {
    var init, i := ids[..|ids| - 1], ids[|ids| - 1];
    var before := ReverseAll(db, init, now).value;
    ReverseAllKeepsMoney(opening, db, init, now);
    ReversalsKeepSolvent(db, init, now);
    ReversalsLeave(db, ids, now);
    HeldCanClose(opening, before, i, "", now);
  }

  lemma ExpirySucceeds(opening: map<AccountId, BalanceRow>, db: Db, cutoff: int, now: int)
    requires MoneyInv(opening, db) && Solvent(db)
    ensures Expire(db, cutoff, now).Ok?
  {
    var ids := StaleIds(db.payments, cutoff);
    StaleIdsMeaning(db.payments, cutoff);
    assert forall k :: 0 <= k < |ids| ==> ids[k] in ids;
    ReverseAllSucceeds(opening, db, ids, now);
  }

  /** A webhook is refused only when its reference is stored on several payments. */
  lemma HandleSucceeds(opening: map<AccountId, BalanceRow>, db: Db, w: Webhook, now: int)
    requires MoneyInv(opening, db) && Solvent(db)
    ensures Handle(db, w, now).Err? <==>
            w.id !in db.events && w.pspReference != "" && |WithReference(db.payments, w.pspReference)| > 1
  {
    var found := WithReference(db.payments, w.pspReference);
    if |found| == 1 && found[0] < |db.payments| && db.payments[found[0]].status == Authorized {
      var recorded := db.(events := db.events + {w.id});
      assert MoneyInv(opening, recorded) by { BookkeepingKeepsInv(opening, db, recorded); }
      HeldCanClose(opening, recorded, found[0], w.pspReference, now);
    }
  }

  lemma ConcludeSucceeds(opening: map<AccountId, BalanceRow>, db: Db, i: nat, outcome: Outcome, now: int)
    requires MoneyInv(opening, db) && Solvent(db) && i < |db.payments| && Held(db.payments[i])
    ensures Conclude(db, i, outcome, now).Ok?
  {
    match outcome
    case Captured(r) => HeldCanClose(opening, db, i, r.GetOr(""), now);
    case Declined => HeldCanClose(opening, db, i, "", now);
    case Pending(r) =>
  }

  lemma InFlightCommits(opening: map<AccountId, BalanceRow>, s: Sys, i: nat, outcome: Outcome, now: int)
    requires Inv(opening, s) && Solvent(s.db) && i < |s.calls| && s.calls[i].phase == InFlight
    ensures CreateTx2(s.db, s.calls[i].key, i, outcome, now).Committed?
  {
    assert CallOk(s, i);
    ConcludeSucceeds(opening, s.db, i, outcome, now);
    ConcludeTouchesOne(s.db, i, outcome, now);
  }

  /**
   After every run whose holds and refunds meet their guards, with any interleaving and any
   crashes, transaction 2 of every in-flight call commits whatever the provider answered, a sweep
   never raises, and a webhook raises exactly on an ambiguous reference.
   */
  lemma SolventRunsNeverRaise(accounts: set<AccountId>, opening: map<AccountId, BalanceRow>, acts: seq<Action>,
                              i: nat, outcome: Outcome, w: Webhook, cutoff: int, now: int)
    requires ValidOpening(accounts, opening) && GuardsMet(Start(accounts, opening), acts)
    ensures var s := Run(Start(accounts, opening), acts);
            && Solvent(s.db)
            && (i < |s.calls| && s.calls[i].phase == InFlight ==>
               CreateTx2(s.db, s.calls[i].key, i, outcome, now).Committed?)
            && Expire(s.db, cutoff, now).Ok?
            && (Handle(s.db, w, now).Err? <==>
                  w.id !in s.db.events && w.pspReference != "" && |WithReference(s.db.payments, w.pspReference)| > 1)
  {
    var s := Run(Start(accounts, opening), acts);
    ReachableInv(accounts, opening, acts);
    assert acts[..|acts|] == acts;
    GuardsKeepSolvent(accounts, opening, acts, |acts|);
    ExpirySucceeds(opening, s.db, cutoff, now);
    HandleSucceeds(opening, s.db, w, now);
    if i < |s.calls| && s.calls[i].phase == InFlight {
      InFlightCommits(opening, s, i, outcome, now);
    }
  }

  // ---------- Refusing suspense as payer is enough ----------

  ghost predicate NoSuspensePayer(ps: seq<Payment>) {
    forall i :: 0 <= i < |ps| ==> ps[i].payer != PSP_SUSPENSE
  }

  lemma {:induction false} ReceivedCovers(b: Books, ps: seq<Payment>, i: nat)
    requires forall k :: 0 <= k < |ps| ==> PaymentOk(b, ps[k])
    requires NoSuspensePayer(ps)
    ensures Received(ps) >= 0 && Drawn(ps) == 0
    ensures i < |ps| && Paid(ps[i]) && ps[i].payee == PSP_SUSPENSE ==> Received(ps) >= ps[i].amount - ps[i].refunded
    decreases |ps|
  {
    if ps != [] {
      var n := |ps| - 1;
      assert PaymentOk(b, ps[n]);
      ReceivedCovers(b, ps[..n], i);
    }
  }

  /** With no suspense payer, suspense covers all holds, and beyond them every refund it may owe. */
  lemma SuspenseCovers(opening: map<AccountId, BalanceRow>, db: Db, i: nat)
    requires NonNegative(opening) && MoneyInv(opening, db) && NoSuspensePayer(db.payments)
    ensures Solvent(db)
    ensures i < |db.payments| && Paid(db.payments[i]) && db.payments[i].payee == PSP_SUSPENSE ==>
              Slack(db) >= db.payments[i].amount - db.payments[i].refunded
  {
    ReceivedCovers(db.books, db.payments, i);
    SuspenseSplits(db.payments);
  }

  ghost predicate GuardedRun(acts: seq<Action>) {
    forall n :: 0 <= n < |acts| ==>
      acts[n].Create? && acts[n].request.CreateRequest? ==> acts[n].request.payer != PSP_SUSPENSE
  }

  lemma PayersAfter(opening: map<AccountId, BalanceRow>, s: Sys, a: Action)
    requires Inv(opening, s) && NoSuspensePayer(s.db.payments)
    requires a.Create? && a.request.CreateRequest? ==> a.request.payer != PSP_SUSPENSE
    ensures NoSuspensePayer(Do(s, a).db.payments)
  {
    var s' := Do(s, a);
    assert |s'.calls| == |s'.db.payments| by { DoKeepsClaims(opening, s, a); }
    forall i | 0 <= i < |s'.db.payments| ensures s'.db.payments[i].payer != PSP_SUSPENSE {
      if i < |s.db.payments| {
        assert SameTerms(s.db.payments[i], s'.db.payments[i]) by { DoIsNext(opening, s, a); }
      } else {
        assert CallOk(s', i) by { DoKeepsClaims(opening, s, a); }
      }
    }
  }

  lemma {:induction false} GuardedPayers(accounts: set<AccountId>, opening: map<AccountId, BalanceRow>,
                                         acts: seq<Action>)
    requires ValidOpening(accounts, opening) && GuardedRun(acts)
    ensures NoSuspensePayer(Run(Start(accounts, opening), acts).db.payments)
    decreases |acts|
  {
    if acts != [] {
      var init, last := acts[..|acts| - 1], acts[|acts| - 1];
      assert GuardedRun(init) by {
        assert forall n :: 0 <= n < |init| ==> init[n] == acts[n];
      }
      GuardedPayers(accounts, opening, init);
      ReachableInv(accounts, opening, init);
      PayersAfter(opening, Run(Start(accounts, opening), init), last);
    }
  }

  lemma RefundMeetsGuard(opening: map<AccountId, BalanceRow>, s: Sys, key: string, id: nat, amount: int, now: int)
    requires NonNegative(opening) && Inv(opening, s) && NoSuspensePayer(s.db.payments)
    ensures MeetsGuard(s, Refunding(key, id, amount, now))
  {
    if id < |s.db.payments| {
      SuspenseCovers(opening, s.db, id);
    }
  }

  /** Refusing the suspense account as payer of new payments meets every guard of every run. */
  lemma GuardedRunsMeetGuards(accounts: set<AccountId>, opening: map<AccountId, BalanceRow>, acts: seq<Action>)
    requires ValidOpening(accounts, opening) && GuardedRun(acts)
    ensures GuardsMet(Start(accounts, opening), acts)
  {
    var s0 := Start(accounts, opening);
    forall k | 0 <= k < |acts| ensures MeetsGuard(Run(s0, acts[..k]), acts[k]) {
      if acts[k].Refunding? {
        ReachableInv(accounts, opening, acts[..k]);
        GuardedPayers(accounts, opening, acts[..k]);
        RefundMeetsGuard(opening, Run(s0, acts[..k]), acts[k].key, acts[k].payment, acts[k].amount, acts[k].now);
      }
    }
  }

  /**
   Suspense solvency over every run that refuses suspense as payer: it covers all holds, transaction 2
   of every in-flight call commits whatever the provider answered, a sweep never raises, and a
   webhook raises only on an ambiguous reference.
   */
  lemma GuardedRunsAreSolvent(accounts: set<AccountId>, opening: map<AccountId, BalanceRow>, acts: seq<Action>,
                              i: nat, outcome: Outcome, w: Webhook, cutoff: int, now: int)
    requires ValidOpening(accounts, opening) && GuardedRun(acts)
    ensures var s := Run(Start(accounts, opening), acts);
            && SolventThroughout(Start(accounts, opening), acts)
            && Bal(s.db.books.balances, PSP_SUSPENSE) >= HeldTotal(s.db.payments)
            && (i < |s.calls| && s.calls[i].phase == InFlight ==>
               CreateTx2(s.db, s.calls[i].key, i, outcome, now).Committed?)
            && Expire(s.db, cutoff, now).Ok?
            && (Handle(s.db, w, now).Err? ==> |WithReference(s.db.payments, w.pspReference)| > 1)
  {
    GuardedRunsMeetGuards(accounts, opening, acts);
    RunSolventIff(accounts, opening, acts);
    SolventRunsNeverRaise(accounts, opening, acts, i, outcome, w, cutoff, now);
  }

  // ---------- Why the guard is needed ----------

  const DEMO_ACCOUNTS: set<AccountId> := {1, 2, 3}
  const DEMO_OPENING: map<AccountId, BalanceRow> :=
    map[1 := BalanceRow(0, 0), 2 := BalanceRow(100, 0), 3 := BalanceRow(0, 0)]

  /** A customer's hold, then a hold whose payer is suspense itself. */
  function DemoHeld(s0: Sys): Sys {
    var s1 := Do(s0, Create("a", CreateRequest("m", 2, 3, 100, "INR"), 0));
    Do(s1, Create("b", CreateRequest("m", PSP_SUSPENSE, 3, 100, "INR"), 0))
  }

  /** The second payment is captured. */
  function Demo(s0: Sys): Sys {
    Do(DemoHeld(s0), Finish(1, Captured(None), 0))
  }

  lemma DemoCreate(s: Sys, key: string, payer: AccountId)
    requires Key("m", key) !in s.db.claims && {payer, 3, PSP_SUSPENSE} <= s.db.books.accounts
    requires Bal(s.db.books.balances, payer) >= 100
    ensures var s' := Do(s, Create(key, CreateRequest("m", payer, 3, 100, "INR"), 0));
            && s'.db.books.accounts == s.db.books.accounts && s'.db.events == s.db.events
            && s'.db.claims == s.db.claims[Key("m", key) := Claim(CreateRequest("m", payer, 3, 100, "INR"), InProgress)]
            && s'.db.payments == s.db.payments + [NewPayment(CreateRequest("m", payer, 3, 100, "INR"), 0)]
            && s'.calls == s.calls + [Call(Key("m", key), CreateRequest("m", payer, 3, 100, "INR"), InFlight)]
            && (forall a :: Bal(s'.db.books.balances, a) ==
                  Bal(s.db.books.balances, a) - (if a == payer then 100 else 0) +
                    (if a == PSP_SUSPENSE then 100 else 0))
  {
    PostTransfer(s.db.books, PaymentTxn, PaymentRef(|s.db.payments|), payer, PSP_SUSPENSE, 100);
  }

  lemma DemoHolds(s0: Sys)
    requires s0 == Start(DEMO_ACCOUNTS, DEMO_OPENING)
    ensures var s := DemoHeld(s0);
            && s.db.books.accounts == DEMO_ACCOUNTS && s.db.events == {}
            && s.db.payments == [NewPayment(CreateRequest("m", 2, 3, 100, "INR"), 0),
                                 NewPayment(CreateRequest("m", PSP_SUSPENSE, 3, 100, "INR"), 0)]
            && s.calls == [Call(Key("m", "a"), CreateRequest("m", 2, 3, 100, "INR"), InFlight),
                           Call(Key("m", "b"), CreateRequest("m", PSP_SUSPENSE, 3, 100, "INR"), InFlight)]
            && Bal(s.db.books.balances, PSP_SUSPENSE) == 100
  {
    var s1 := Do(s0, Create("a", CreateRequest("m", 2, 3, 100, "INR"), 0));
    DemoCreate(s0, "a", 2);
    assert "a"[0] != "b"[0];
    DemoCreate(s1, "b", PSP_SUSPENSE);
  }

  lemma DemoCaptured(s: Sys)
    requires |s.calls| == 2 == |s.db.payments| && {PSP_SUSPENSE, 2, 3} <= s.db.books.accounts
    requires s.calls[1].phase == InFlight && Bal(s.db.books.balances, PSP_SUSPENSE) == 100
    requires s.db.payments[1].amount == 100 && s.db.payments[1].payee == 3
    ensures var s' := Do(s, Finish(1, Captured(None), 0));
            && |s'.calls| == 2 == |s'.db.payments| && s'.db.books.accounts == s.db.books.accounts
            && s'.calls[0] == s.calls[0] && s'.db.events == s.db.events && s'.db.payments[0] == s.db.payments[0]
            && s'.db.payments[1].status == Succeeded && s'.db.payments[1].pspReference == Some("")
            && Bal(s'.db.books.balances, PSP_SUSPENSE) == 0
  {
    PostTransfer(s.db.books, PaymentTxn, PaymentRef(1), PSP_SUSPENSE, 3, 100);
    assert Conclude(s.db, 1, Captured(None), 0).Ok?;
  }

  /** Payment 0 is held for an ordinary payer, and no answer of the provider can close it. */
  ghost predicate Stranded(s: Sys) {
    && |s.calls| == 2 == |s.db.payments|
    && s.calls[0].phase == InFlight && Held(s.db.payments[0]) && s.db.payments[0].payer != PSP_SUSPENSE
    && Bal(s.db.books.balances, PSP_SUSPENSE) < HeldTotal(s.db.payments)
    && (forall r ::
          CreateTx2(s.db, s.calls[0].key, 0, Captured(r), 0) == Raised(InsufficientFunds(PSP_SUSPENSE, 0, 100)))
    && CreateTx2(s.db, s.calls[0].key, 0, Declined, 0) == Raised(InsufficientFunds(PSP_SUSPENSE, 0, 100))
  }

  ghost predicate Spent(s: Sys) {
    && |s.calls| == 2 == |s.db.payments| && {PSP_SUSPENSE, 2, 3} <= s.db.books.accounts
    && s.calls[0].phase == InFlight
    && Bal(s.db.books.balances, PSP_SUSPENSE) == 0
    && s.db.payments[0].amount == 100 && s.db.payments[0].payer == 2 && s.db.payments[0].payee == 3
    && s.db.payments[0].status == Processing && s.db.payments[1].status == Succeeded
    && s.db.payments[1].pspReference == Some("") && s.db.events == {}
  }

  lemma DemoSpent(s0: Sys)
    requires s0 == Start(DEMO_ACCOUNTS, DEMO_OPENING)
    ensures Spent(Demo(s0))
  {
    DemoHolds(s0);
    DemoCaptured(DemoHeld(s0));
  }

  lemma DemoStuck(s: Sys)
    requires Spent(s)
    ensures Stranded(s)
  {
    var ps := s.db.payments;
    assert ps[..1] == [ps[0]] && ps[..1][..0] == [];
    assert HeldTotal(ps[..1]) == 100;
    Overdrawn(s.db.books, PaymentTxn, PaymentRef(0), PSP_SUSPENSE, 3, 100);
    Overdrawn(s.db.books, ReversalTxn, PaymentRef(0), PSP_SUSPENSE, 2, 100);
  }

  /**
   A payment whose payer is the suspense account is accepted, spends the money that backs another
   hold, and that other payment can then neither settle nor be reversed: its transaction 2 raises.
   */
  lemma SuspensePayerStrandsAnotherHold(s0: Sys, s: Sys)
    requires s0 == Start(DEMO_ACCOUNTS, DEMO_OPENING) && s == Demo(s0)
    ensures Stranded(s)
  {
    DemoSpent(s0);
    DemoStuck(s);
  }

  /** The error of a transfer that the debited account does not cover. */
  lemma Overdrawn(b: Books, kind: TransactionType, ref: Ref, x: AccountId, y: AccountId, n: int)
    requires n > 0 && {x, y} <= b.accounts && Bal(b.balances, x) < n
    ensures Post(b, kind, ref, Transfer(x, y, n)) == Err(InsufficientFunds(x, Bal(b.balances, x), n))
  {
    var ps := Transfer(x, y, n);
    var m := Opened(b.balances, AccountsOf(ps));
    assert ps[..1] == [ps[0]] && ps[..1][..0] == [];
    assert Apply(m, ps[..1]) == ApplyOne(m, ps[0]);
    TransferSums(x, y, n);
    assert Bal(m, x) == Bal(b.balances, x);
    ApplyStopsAtFirstError(m, ps, 1);
    assert AccountsOf(ps) <= {x, y};
  }
}

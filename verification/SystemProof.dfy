/** The invariant holds in every state of every run. */
module SystemProof {
  import opened Wrappers
  import opened Sequences
  import opened Domain
  import opened Rules
  import opened Effects
  import opened Invariant
  import opened Moves
  import opened System

  // ---------- Money ----------

  lemma CreateKeepsMoney(opening: map<AccountId, BalanceRow>, s: Sys, key: string, request: Request, now: int)
    requires MoneyInv(opening, s.db) && ClaimInv(s)
    ensures MoneyInv(opening, DoCreate(s, key, request, now).db)
  {
    if request.CreateRequest? && CreateTx1(s.db, key, request, now).Committed? {
      var claimed := ClaimOrReplay(s.db, Key(request.merchant, key), request).db;
      BookkeepingKeepsInv(opening, s.db, claimed);
      HoldKeepsInv(opening, claimed, NewPayment(request, now), now);
    }
  }

  lemma ConcludeKeepsMoney(opening: map<AccountId, BalanceRow>, db: Db, i: nat, outcome: Outcome, now: int)
    requires MoneyInv(opening, db) && i < |db.payments| && Held(db.payments[i]) && Conclude(db, i, outcome, now).Ok?
    ensures MoneyInv(opening, Conclude(db, i, outcome, now).value)
  {
    match outcome
    case Captured(r) => SettleKeepsInv(opening, db, i, r.GetOr(""), now);
    case Declined => ReverseKeepsInv(opening, db, i, now);
    case Pending(r) => AuthorizeKeepsInv(opening, db, i, r);
  }

  /** Transaction 2 only ever meets its own PROCESSING payment. */
  lemma FinishKeepsMoney(opening: map<AccountId, BalanceRow>, s: Sys, i: nat, outcome: Outcome, now: int)
    requires MoneyInv(opening, s.db) && ClaimInv(s)
    ensures MoneyInv(opening, DoFinish(s, i, outcome, now).db)
  {
    if i < |s.calls| && s.calls[i].phase == InFlight {
      assert i < |s.db.payments| && s.db.payments[i].status == Processing by { assert CallOk(s, i); }
      if CreateTx2(s.db, s.calls[i].key, i, outcome, now).Committed? {
        CreateTx2KeepsMoney(opening, s.db, s.calls[i].key, i, outcome, now);
      }
    }
  }

  lemma CreateTx2KeepsMoney(opening: map<AccountId, BalanceRow>, db: Db, key: Key, i: nat, outcome: Outcome, now: int)
    requires MoneyInv(opening, db) && i < |db.payments| && Held(db.payments[i])
              && CreateTx2(db, key, i, outcome, now).Committed?
    ensures MoneyInv(opening, CreateTx2(db, key, i, outcome, now).db)
  {
    var done := Conclude(db, i, outcome, now).value;
    ConcludeKeepsMoney(opening, db, i, outcome, now);
    BookkeepingKeepsInv(opening, done, Complete(done, key, PaymentRef(i), 201, ToResponse(i, done.payments[i])));
  }

  lemma {:induction false} WithReferenceMeaning(ps: seq<Payment>, r: string)
    ensures forall i: nat :: i in WithReference(ps, r) <==> i < |ps| && ps[i].pspReference == Some(r)
    ensures forall j, k :: 0 <= j < k < |WithReference(ps, r)| ==> WithReference(ps, r)[j] < WithReference(ps, r)[k]
  {
    if ps != [] {
      var n := |ps| - 1;
      WithReferenceMeaning(ps[..n], r);
      var w := WithReference(ps[..n], r);
      forall j | 0 <= j < |w| ensures w[j] < n {
        assert w[j] in w;
      }
    }
  }

  /** A webhook whose reference names one AUTHORIZED payment closes it, or is ignored. */
  lemma CloseByWebhookKeepsMoney(opening: map<AccountId, BalanceRow>, recorded: Db, i: nat, w: Webhook, now: int)
    requires MoneyInv(opening, recorded) && i < |recorded.payments| && Held(recorded.payments[i])
    ensures Settle(recorded, i, w.pspReference, now).Ok? ==>
              MoneyInv(opening, Settle(recorded, i, w.pspReference, now).value)
    ensures Reverse(recorded, i, now).Ok? ==> MoneyInv(opening, Reverse(recorded, i, now).value)
  {
    if Settle(recorded, i, w.pspReference, now).Ok? {
      SettleKeepsInv(opening, recorded, i, w.pspReference, now);
    }
    if Reverse(recorded, i, now).Ok? {
      ReverseKeepsInv(opening, recorded, i, now);
    }
  }

  /** A webhook only ever closes an AUTHORIZED payment. */
  lemma HandleKeepsMoney(opening: map<AccountId, BalanceRow>, db: Db, w: Webhook, now: int)
    requires MoneyInv(opening, db)
    ensures MoneyInv(opening, OrElse(Handle(db, w, now), db))
  {
    var recorded := db.(events := db.events + {w.id});
    var found := WithReference(db.payments, w.pspReference);
    assert MoneyInv(opening, recorded) by { BookkeepingKeepsInv(opening, db, recorded); }
    if |found| == 1 && found[0] < |db.payments| && db.payments[found[0]].status == Authorized {
      CloseByWebhookKeepsMoney(opening, recorded, found[0], w, now);
    }
  }

  lemma RefundTxKeepsMoney(opening: map<AccountId, BalanceRow>, s: Sys, key: string, id: nat, amount: int, now: int)
    requires MoneyInv(opening, s.db)
    ensures MoneyInv(opening, DoRefund(s, key, id, amount, now).db)
  {
    var k := Key(REFUND_MERCHANT, key);
    if RefundTx(s.db, key, id, amount, now).Committed? {
      var claimed := ClaimOrReplay(s.db, k, RefundRequest(id, amount)).db;
      BookkeepingKeepsInv(opening, s.db, claimed);
      RefundKeepsInv(opening, claimed, id, amount, now);
      var done := RefundMove(claimed, id, amount, now).value;
      BookkeepingKeepsInv(opening, done,
                          Complete(done, k, RefundRef(|s.db.refunds|), 201,
                            RefundBody(|s.db.refunds|, id, amount, now)));
    }
  }

  // ---------- Expiry ----------

  lemma {:induction false} StaleIdsMeaning(ps: seq<Payment>, cutoff: int)
    ensures forall i: nat :: i in StaleIds(ps, cutoff) <==>
              i < |ps| && ps[i].status == Authorized && ps[i].createdAt < cutoff
    ensures forall j, k :: 0 <= j < k < |StaleIds(ps, cutoff)| ==> StaleIds(ps, cutoff)[j] < StaleIds(ps, cutoff)[k]
  {
    if ps != [] {
      var n := |ps| - 1;
      StaleIdsMeaning(ps[..n], cutoff);
      var w := StaleIds(ps[..n], cutoff);
      forall j | 0 <= j < |w| ensures w[j] < n {
        assert w[j] in w;
      }
    }
  }

  /** The payments table after the given holds were reversed. */
  ghost predicate ReversedExactly(ps: seq<Payment>, ps': seq<Payment>, ids: set<nat>) {
    && |ps'| == |ps|
    && forall i :: 0 <= i < |ps| ==>
         ps'[i] == if i in ids then ps[i].(status := Failed, version := ps[i].version + 1) else ps[i]
  }

  /** The loop of `expire_stale_holds` reverses exactly the listed payments and no other row. */
  lemma {:induction false} ReverseAllExact(db: Db, ids: seq<nat>, now: int)
    requires NoRepeats(ids) && ReverseAll(db, ids, now).Ok?
    ensures var db' := ReverseAll(db, ids, now).value;
            && ReversedExactly(db.payments, db'.payments, Elements(ids))
            && db'.refunds == db.refunds && db'.claims == db.claims && db'.events == db.events
  {
    if ids != [] {
      var n := |ids| - 1;
      ReverseAllExact(db, ids[..n], now);
      var before, after := ReverseAll(db, ids[..n], now).value, ReverseAll(db, ids, now).value;
      ReverseTouchesOne(before, ids[n], now);
      OneMoreReversed(db.payments, before.payments, after.payments, ids);
    }
  }

  lemma ReverseTouchesOne(db: Db, i: nat, now: int)
    requires Reverse(db, i, now).Ok?
    ensures var db' := Reverse(db, i, now).value;
            && i < |db.payments|
            && db'.payments ==
               db.payments[i := db.payments[i].(status := Failed, version := db.payments[i].version + 1)]
            && db'.refunds == db.refunds && db'.claims == db.claims && db'.events == db.events
  {
  }

  lemma OneMoreReversed(ps: seq<Payment>, ps1: seq<Payment>, ps2: seq<Payment>, ids: seq<nat>)
    requires ids != [] && NoRepeats(ids) && ReversedExactly(ps, ps1, Elements(ids[..|ids| - 1]))
    requires var i := ids[|ids| - 1];
             i < |ps1| && ps2 == ps1[i := ps1[i].(status := Failed, version := ps1[i].version + 1)]
    ensures ReversedExactly(ps, ps2, Elements(ids))
  {
    var n := |ids| - 1;
    ElementsSnoc(ids[..n], ids[n]);
    assert ids == ids[..n] + [ids[n]];
    assert ids[n] !in ids[..n];
  }

  /** The last listed payment is untouched until its own turn. */
  lemma ReversalsLeave(db: Db, ids: seq<nat>, now: int)
    requires ids != [] && NoRepeats(ids) && ReverseAll(db, ids[..|ids| - 1], now).Ok?
    ensures var before, i := ReverseAll(db, ids[..|ids| - 1], now).value, ids[|ids| - 1];
            |before.payments| == |db.payments| && (i < |db.payments| ==> before.payments[i] == db.payments[i])
  {
    ReverseAllExact(db, ids[..|ids| - 1], now);
    assert ids[|ids| - 1] !in ids[..|ids| - 1];
  }

  /** The loop of `expire_stale_holds` keeps the invariant iteration by iteration. */
  lemma {:induction false} ReverseAllKeepsMoney(opening: map<AccountId, BalanceRow>, db: Db, ids: seq<nat>, now: int)
    requires MoneyInv(opening, db) && NoRepeats(ids)
    requires forall k :: 0 <= k < |ids| ==> ids[k] < |db.payments| && Held(db.payments[ids[k]])
    requires ReverseAll(db, ids, now).Ok?
    ensures MoneyInv(opening, ReverseAll(db, ids, now).value)
  {
    if ids != [] {
      var n := |ids| - 1;
      var before := ReverseAll(db, ids[..n], now).value;
      assert MoneyInv(opening, before) by { ReverseAllKeepsMoney(opening, db, ids[..n], now); }
      ReversalsLeave(db, ids, now);
      ReverseKeepsInv(opening, before, ids[n], now);
    }
  }

  lemma ExpireKeepsMoney(opening: map<AccountId, BalanceRow>, db: Db, cutoff: int, now: int)
    requires MoneyInv(opening, db)
    ensures MoneyInv(opening, OrElse(Expire(db, cutoff, now), db))
    ensures ReversedExactly(db.payments, OrElse(Expire(db, cutoff, now), db).payments,
              Elements(StaleIds(db.payments, cutoff)))
         || OrElse(Expire(db, cutoff, now), db) == db
    ensures var db' := OrElse(Expire(db, cutoff, now), db);
            db'.refunds == db.refunds && db'.claims == db.claims && db'.events == db.events
  {
    StaleIdsMeaning(db.payments, cutoff);
    var ids := StaleIds(db.payments, cutoff);
    assert forall k :: 0 <= k < |ids| ==> ids[k] in ids;
    if Expire(db, cutoff, now).Ok? {
      ReverseAllExact(db, ids, now);
      ReverseAllKeepsMoney(opening, db, ids, now);
    }
  }

  // ---------- Claims ----------

  /** No payment enters or leaves PROCESSING or turns from paid or failed; terms and references stay. */
  ghost predicate SameCalls(ps: seq<Payment>, ps': seq<Payment>) {
    && |ps'| == |ps|
    && forall i :: 0 <= i < |ps| ==>
         && RequestOf(ps'[i]) == RequestOf(ps[i]) && ps'[i].createdAt == ps[i].createdAt
         && (ps'[i].status == Processing <==> ps[i].status == Processing)
         && (ps[i].status == Processing ==> ps'[i].refunded == ps[i].refunded)
         && (ps[i].status != Processing ==> ps'[i].pspReference == ps[i].pspReference)
         && (Paid(ps[i]) ==> Paid(ps'[i])) && (ps[i].status == Failed ==> ps'[i].status == Failed)
  }

  /** Webhooks, sweeps and the relay do not touch any claim or PROCESSING payment. */
  lemma QuietKeepsClaims(s: Sys, db': Db)
    requires ClaimInv(s) && db'.claims == s.db.claims && db'.refunds == s.db.refunds
    requires SameCalls(s.db.payments, db'.payments)
    ensures ClaimInv(s.(db := db'))
  {
    var s' := s.(db := db');
    forall i | 0 <= i < |s'.calls| ensures CallOk(s', i) {
      assert CallOk(s, i);
    }
    forall j | 0 <= j < |s'.refundKeys| ensures RefundKeyOk(s', j) {
      assert RefundKeyOk(s, j);
    }
    forall k | k in s'.db.claims ensures Owned(s', k) {
      assert Owned(s, k);
    }
  }

  lemma HandleQuiet(db: Db, w: Webhook, now: int)
    ensures var db' := OrElse(Handle(db, w, now), db);
            db'.claims == db.claims && db'.refunds == db.refunds && SameCalls(db.payments, db'.payments)
  {
    var recorded := db.(events := db.events + {w.id});
    var found := WithReference(db.payments, w.pspReference);
    if |found| == 1 && found[0] < |db.payments| && db.payments[found[0]].status == Authorized {
      WithReferenceMeaning(db.payments, w.pspReference);
      assert found[0] in found;
      CloseQuiet(recorded, found[0], w, now);
    }
  }

  lemma CloseQuiet(db: Db, i: nat, w: Webhook, now: int)
    requires i < |db.payments| && db.payments[i].status == Authorized
    requires db.payments[i].pspReference == Some(w.pspReference)
    ensures Settle(db, i, w.pspReference, now).Ok? ==>
              var db' := Settle(db, i, w.pspReference, now).value;
              db'.claims == db.claims && db'.refunds == db.refunds && SameCalls(db.payments, db'.payments)
    ensures Reverse(db, i, now).Ok? ==>
              var db' := Reverse(db, i, now).value;
              db'.claims == db.claims && db'.refunds == db.refunds && SameCalls(db.payments, db'.payments)
  {
    SettleEffect(db, i, w.pspReference, now);
    ReverseEffect(db, i, now);
    var p := db.payments[i];
    CloseSameCalls(db.payments, i, p.(status := Succeeded, version := p.version + 1));
    CloseSameCalls(db.payments, i, p.(status := Failed, version := p.version + 1));
  }

  lemma CloseSameCalls(ps: seq<Payment>, i: nat, q: Payment)
    requires i < |ps| && ps[i].status == Authorized && q.status in {Succeeded, Failed}
    requires q == ps[i].(status := q.status, version := q.version)
    ensures SameCalls(ps, ps[i := q])
  {
  }

  /** A new record together with the new call or refund that owns it. */
  lemma CreateKeepsClaims(s: Sys, key: string, request: Request, now: int)
    requires ClaimInv(s)
    ensures ClaimInv(DoCreate(s, key, request, now))
  {
    var s' := DoCreate(s, key, request, now);
    if request.CreateRequest? && CreateTx1(s.db, key, request, now).Committed? {
      var k := Key(request.merchant, key);
      var n := |s.calls|;
      assert s'.db.claims == s.db.claims[k := Claim(request, InProgress)];
      assert s'.db.payments == s.db.payments + [NewPayment(request, now)];
      forall i | 0 <= i < |s'.calls| ensures CallOk(s', i) {
        if i < n {
          assert CallOk(s, i);
        }
      }
      forall j | 0 <= j < |s'.refundKeys| ensures RefundKeyOk(s', j) {
        assert RefundKeyOk(s, j);
      }
      forall q | q in s'.db.claims ensures Owned(s', q) {
        if q == k {
          assert s'.calls[n].key == k;
        } else {
          assert Owned(s, q);
          OwnedMonotone(s, s', q);
        }
      }
      forall i | 0 <= i < n ensures s'.calls[i].key != k {
        assert CallOk(s, i);
      }
      forall r | 0 <= r < |s'.replies| ensures ReplyOk(s'.db, s'.replies[r]) {
        assert ReplyOk(s.db, s.replies[r]);
      }
    } else if request.CreateRequest? && CreateTx1(s.db, key, request, now).Answered? {
      AnswerKeepsClaims(s, s', Key(request.merchant, key), request);
    }
  }

  lemma OwnedMonotone(s: Sys, s': Sys, k: Key)
    requires k in s.db.claims && k in s'.db.claims && s'.db.claims[k].request == s.db.claims[k].request
    requires |s.calls| <= |s'.calls| && |s.refundKeys| <= |s'.refundKeys|
    requires forall i :: 0 <= i < |s.calls| ==> s'.calls[i].key == s.calls[i].key
    requires forall j :: 0 <= j < |s.refundKeys| ==> s'.refundKeys[j] == s.refundKeys[j]
    requires Owned(s, k)
    ensures Owned(s', k)
  {
    if s.db.claims[k].request.CreateRequest? {
      var i :| 0 <= i < |s.calls| && s.calls[i].key == k;
      assert s'.calls[i].key == k;
    } else {
      var j :| 0 <= j < |s.refundKeys| && s.refundKeys[j] == k;
      assert s'.refundKeys[j] == k;
    }
  }

  /** Every completed record carries code 201. */
  lemma CompletedCode(s: Sys, k: Key)
    requires ClaimInv(s) && k in s.db.claims && s.db.claims[k].state.Completed?
    ensures s.db.claims[k].state.code == 201
  {
    assert Owned(s, k);
    if s.db.claims[k].request.CreateRequest? {
      var i :| 0 <= i < |s.calls| && s.calls[i].key == k;
      assert CallOk(s, i);
    } else {
      var j :| 0 <= j < |s.refundKeys| && s.refundKeys[j] == k;
      assert RefundKeyOk(s, j);
    }
  }

  /** A replay answers exactly what the record stores. */
  lemma AnswerKeepsClaims(s: Sys, s': Sys, k: Key, request: Request)
    requires ClaimInv(s) && ClaimOrReplay(s.db, k, request).Replayed?
    requires var r := ClaimOrReplay(s.db, k, request);
             s' == s.(replies := s.replies + [Reply(k, r.code, r.body)])
    ensures ClaimInv(s')
  {
    CompletedCode(s, k);
    forall i | 0 <= i < |s'.calls| ensures CallOk(s', i) {
      assert CallOk(s, i);
    }
    forall j | 0 <= j < |s'.refundKeys| ensures RefundKeyOk(s', j) {
      assert RefundKeyOk(s, j);
    }
    forall q | q in s'.db.claims ensures Owned(s', q) {
      assert Owned(s, q);
    }
  }

  /** Only the status, reference and version of payment `i` change. */
  lemma ConcludeTouchesOne(db: Db, i: nat, outcome: Outcome, now: int)
    requires i < |db.payments| && Conclude(db, i, outcome, now).Ok?
    ensures var db' := Conclude(db, i, outcome, now).value;
            && db'.claims == db.claims && db'.refunds == db.refunds && db'.events == db.events
            && |db'.payments| == |db.payments|
            && db'.payments == db.payments[i := db'.payments[i]]
            && db'.payments[i].status in {Authorized, Succeeded, Failed}
            && RequestOf(db'.payments[i]) == RequestOf(db.payments[i])
            && db'.payments[i].refunded == db.payments[i].refunded
  {
  }

  lemma FinishKeepsClaims(s: Sys, i: nat, outcome: Outcome, now: int)
    requires ClaimInv(s)
    ensures ClaimInv(DoFinish(s, i, outcome, now))
  {
    if i < |s.calls| && s.calls[i].phase == InFlight && Conclude(s.db, i, outcome, now).Ok? {
      ConcludeTouchesOne(s.db, i, outcome, now);
      var k := s.calls[i].key;
      assert CallOk(s, i);
      var s' := DoFinish(s, i, outcome, now);
      CompletionKeepsClaims(s, s', i);
    } else {
      CrashKeepsClaims(s, i);
    }
  }

  lemma CompletionKeepsClaims(s: Sys, s': Sys, i: nat)
    requires ClaimInv(s) && i < |s.calls| && s.calls[i].phase == InFlight
    requires |s'.db.payments| == |s.db.payments| && s'.db.payments == s.db.payments[i := s'.db.payments[i]]
    requires s'.db.payments[i].status in {Authorized, Succeeded, Failed}
              && RequestOf(s'.db.payments[i]) == RequestOf(s.db.payments[i])
    requires s'.db.payments[i].refunded == s.db.payments[i].refunded
    requires s'.db.refunds == s.db.refunds && s'.refundKeys == s.refundKeys
    requires s'.calls == s.calls[i := s.calls[i].(phase := Finished)]
    requires var k := s.calls[i].key; var body := ToResponse(i, s'.db.payments[i]);
             && k in s.db.claims
             && s'.db.claims == s.db.claims[k := s.db.claims[k].(state := Completed(PaymentRef(i), 201, body))]
             && s'.replies == s.replies + [Reply(k, 201, body)]
    ensures ClaimInv(s')
  {
    var k := s.calls[i].key;
    assert CallOk(s, i);
    forall n | 0 <= n < |s'.calls| ensures CallOk(s', n) {
      assert CallOk(s, n);
      if n != i {
        assert s.calls[n].key != k;
      }
    }
    forall j | 0 <= j < |s'.refundKeys| ensures RefundKeyOk(s', j) {
      assert RefundKeyOk(s, j);
    }
    forall q | q in s'.db.claims ensures Owned(s', q) {
      assert Owned(s, q);
      OwnedMonotone(s, s', q);
    }
    forall r | 0 <= r < |s'.replies| ensures ReplyOk(s'.db, s'.replies[r]) {
      if r < |s.replies| {
        assert ReplyOk(s.db, s.replies[r]);
      }
    }
  }

  lemma CrashKeepsClaims(s: Sys, i: nat)
    requires ClaimInv(s)
    ensures ClaimInv(DoCrash(s, i))
  {
    var s' := DoCrash(s, i);
    forall n | 0 <= n < |s'.calls| ensures CallOk(s', n) {
      assert CallOk(s, n);
    }
    forall j | 0 <= j < |s'.refundKeys| ensures RefundKeyOk(s', j) {
      assert RefundKeyOk(s, j);
    }
    forall q | q in s'.db.claims ensures Owned(s', q) {
      assert Owned(s, q);
      OwnedMonotone(s, s', q);
    }
  }

  lemma RefundTxKeepsClaims(s: Sys, key: string, id: nat, amount: int, now: int)
    requires ClaimInv(s)
    ensures ClaimInv(DoRefund(s, key, id, amount, now))
  {
    var s' := DoRefund(s, key, id, amount, now);
    var k := Key(REFUND_MERCHANT, key);
    var req := RefundRequest(id, amount);
    if RefundTx(s.db, key, id, amount, now).Committed? {
      var n := |s.refundKeys|;
      var claimed := ClaimOrReplay(s.db, k, req).db;
      assert claimed.payments == s.db.payments && claimed.refunds == s.db.refunds;
      assert SameCalls(s.db.payments, s'.db.payments);
      assert s'.db.claims == s.db.claims[k := Claim(req, Completed(RefundRef(n), 201, RefundBody(n, id, amount, now)))];
      NewRefundKeepsClaims(s, s', k, Refund(id, amount, now));
    } else if RefundTx(s.db, key, id, amount, now).Answered? {
      AnswerKeepsClaims(s, s', k, req);
    }
  }

  lemma NewRefundKeepsClaims(s: Sys, s': Sys, k: Key, r: Refund)
    requires ClaimInv(s) && k !in s.db.claims && k.merchant == REFUND_MERCHANT
    requires SameCalls(s.db.payments, s'.db.payments)
    requires s'.calls == s.calls && s'.refundKeys == s.refundKeys + [k] && s'.db.refunds == s.db.refunds + [r]
    requires var n := |s.db.refunds|; var body := RefundBody(n, r.payment, r.amount, r.createdAt);
             && s'.db.claims ==
                s.db.claims[k := Claim(RefundRequest(r.payment, r.amount), Completed(RefundRef(n), 201, body))]
             && s'.replies == s.replies + [Reply(k, 201, body)]
    ensures ClaimInv(s')
  {
    var n := |s.refundKeys|;
    forall i | 0 <= i < |s'.calls| ensures CallOk(s', i) {
      assert CallOk(s, i);
    }
    forall j | 0 <= j < |s'.refundKeys| ensures RefundKeyOk(s', j) {
      if j < n {
        assert RefundKeyOk(s, j);
      }
    }
    forall j | 0 <= j < n ensures s'.refundKeys[j] != k {
      assert RefundKeyOk(s, j);
    }
    forall q | q in s'.db.claims ensures Owned(s', q) {
      if q == k {
        assert s'.refundKeys[n] == k;
      } else {
        assert Owned(s, q);
        OwnedMonotone(s, s', q);
      }
    }
    forall m | 0 <= m < |s'.replies| ensures ReplyOk(s'.db, s'.replies[m]) {
      if m < |s.replies| {
        assert ReplyOk(s.db, s.replies[m]);
      }
    }
  }

  // ---------- Every step, every run ----------

  lemma DoKeepsMoney(opening: map<AccountId, BalanceRow>, s: Sys, a: Action)
    requires Inv(opening, s)
    ensures MoneyInv(opening, Do(s, a).db)
  {
    match a
    case Create(key, request, now) => CreateKeepsMoney(opening, s, key, request, now);
    case Finish(i, outcome, now) => FinishKeepsMoney(opening, s, i, outcome, now);
    case Crash(i) =>
    case Deliver(w, now) => HandleKeepsMoney(opening, s.db, w, now);
    case Refunding(key, id, amount, now) => RefundTxKeepsMoney(opening, s, key, id, amount, now);
    case Sweep(cutoff, now) => ExpireKeepsMoney(opening, s.db, cutoff, now);
    case Drain(rows) => StampKeepsInv(opening, s.db, rows);
  }

  lemma DeliverKeepsClaims(s: Sys, w: Webhook, now: int)
    requires ClaimInv(s)
    ensures ClaimInv(s.(db := OrElse(Handle(s.db, w, now), s.db)))
  {
    HandleQuiet(s.db, w, now);
    QuietKeepsClaims(s, OrElse(Handle(s.db, w, now), s.db));
  }

  lemma SweepQuiet(db: Db, cutoff: int, now: int)
    ensures var db' := OrElse(Expire(db, cutoff, now), db);
            db'.claims == db.claims && db'.refunds == db.refunds && SameCalls(db.payments, db'.payments)
  {
    if Expire(db, cutoff, now).Ok? {
      StaleIdsMeaning(db.payments, cutoff);
      ReverseAllExact(db, StaleIds(db.payments, cutoff), now);
    }
  }

  lemma SweepKeepsClaims(s: Sys, cutoff: int, now: int)
    requires ClaimInv(s)
    ensures ClaimInv(s.(db := OrElse(Expire(s.db, cutoff, now), s.db)))
  {
    SweepQuiet(s.db, cutoff, now);
    QuietKeepsClaims(s, OrElse(Expire(s.db, cutoff, now), s.db));
  }

  lemma DoKeepsClaims(opening: map<AccountId, BalanceRow>, s: Sys, a: Action)
    requires Inv(opening, s)
    ensures ClaimInv(Do(s, a))
  {
    match a
    case Create(key, request, now) => CreateKeepsClaims(s, key, request, now);
    case Finish(i, outcome, now) => FinishKeepsClaims(s, i, outcome, now);
    case Crash(i) => CrashKeepsClaims(s, i);
    case Deliver(w, now) => DeliverKeepsClaims(s, w, now);
    case Refunding(key, id, amount, now) => RefundTxKeepsClaims(s, key, id, amount, now);
    case Sweep(cutoff, now) => SweepKeepsClaims(s, cutoff, now);
    case Drain(rows) => QuietKeepsClaims(s, s.db.(outbox := Stamp(s.db.outbox, rows)));
  }

  /** Every step of every actor keeps the invariant. */
  lemma DoKeepsInv(opening: map<AccountId, BalanceRow>, s: Sys, a: Action)
    requires Inv(opening, s)
    ensures Inv(opening, Do(s, a))
  {
    DoKeepsMoney(opening, s, a);
    DoKeepsClaims(opening, s, a);
  }

  lemma StartInv(accounts: set<AccountId>, opening: map<AccountId, BalanceRow>)
    requires ValidOpening(accounts, opening)
    ensures Inv(opening, Start(accounts, opening))
  {
  }

  lemma {:induction false} RunKeepsInv(opening: map<AccountId, BalanceRow>, s: Sys, acts: seq<Action>)
    requires Inv(opening, s)
    ensures Inv(opening, Run(s, acts))
  {
    if acts != [] {
      RunKeepsInv(opening, s, acts[..|acts| - 1]);
      DoKeepsInv(opening, Run(s, acts[..|acts| - 1]), acts[|acts| - 1]);
    }
  }

  /** The invariant holds in every reachable state. */
  lemma ReachableInv(accounts: set<AccountId>, opening: map<AccountId, BalanceRow>, acts: seq<Action>)
    requires ValidOpening(accounts, opening)
    ensures Inv(opening, Run(Start(accounts, opening), acts))
  {
    StartInv(accounts, opening);
    RunKeepsInv(opening, Start(accounts, opening), acts);
  }
}

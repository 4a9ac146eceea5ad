/** Expiry sweeps: exactly the stale holds are reversed, once. */
module Expiry {
  import opened Wrappers
  import opened Sequences
  import opened Domain
  import opened Ledger
  import opened Rules
  import opened Effects
  import opened Journal
  import opened Invariant
  import opened SystemProof

  // ---------- expire_stale_holds ----------

  /** What the stale holds of payer `a` add up to. */
  function StaleOwed(ps: seq<Payment>, cutoff: int, a: AccountId): int {
    if ps == [] then 0
    else
      var p := ps[|ps| - 1];
      StaleOwed(ps[..|ps| - 1], cutoff, a) +
      if p.status == Authorized && p.createdAt < cutoff && p.payer == a then p.amount else 0
  }

  function StaleTotal(ps: seq<Payment>, cutoff: int): int {
    if ps == [] then 0
    else
      var p := ps[|ps| - 1];
      StaleTotal(ps[..|ps| - 1], cutoff) + if p.status == Authorized && p.createdAt < cutoff then p.amount else 0
  }

  /** The rows of the AUTHORIZED payments older than the cutoff. */
  function StaleRows(ps: seq<Payment>, cutoff: int): set<nat> {
    set i | 0 <= i < |ps| && ps[i].status == Authorized && ps[i].createdAt < cutoff
  }

  lemma StaleIdsAreStaleRows(ps: seq<Payment>, cutoff: int)
    ensures Elements(StaleIds(ps, cutoff)) == StaleRows(ps, cutoff)
    ensures |StaleIds(ps, cutoff)| == |StaleRows(ps, cutoff)|
  {
    StaleIdsMeaning(ps, cutoff);
    CountElements(StaleIds(ps, cutoff));
  }

  lemma {:induction false} SweepHoldings(b: Books, ps: seq<Payment>, ps': seq<Payment>, cutoff: int, a: AccountId)
    requires |ps'| == |ps|
    requires forall i :: 0 <= i < |ps| ==> PaymentOk(b, ps[i])
    requires forall i :: 0 <= i < |ps| ==>
               ps'[i] == if Stale(ps[i], cutoff) then ps[i].(status := Failed, version := ps[i].version + 1) else ps[i]
    ensures Holdings(ps', a) == Holdings(ps, a) + StaleOwed(ps, cutoff, a)
                                - if a == PSP_SUSPENSE then StaleTotal(ps, cutoff) else 0
    decreases |ps|
  {
    if ps != [] {
      var n := |ps| - 1;
      SweepHoldings(b, ps[..n], ps'[..n], cutoff, a);
      OneSwept(b, ps[n], ps'[n], cutoff, a);
    }
  }

  lemma OneSwept(b: Books, p: Payment, q: Payment, cutoff: int, a: AccountId)
    requires PaymentOk(b, p) && q == if Stale(p, cutoff) then p.(status := Failed, version := p.version + 1) else p
    ensures Holding(q, a) == Holding(p, a) + (if Stale(p, cutoff) && p.payer == a then p.amount else 0)
                             - (if Stale(p, cutoff) && a == PSP_SUSPENSE then p.amount else 0)
  {
  }

  /** The journal rows that a sweep writes: one REVERSAL per id. */
  function Reversals(ids: seq<nat>): seq<Txn> {
    if ids == [] then [] else Reversals(ids[..|ids| - 1]) + [Txn(ReversalTxn, PaymentRef(ids[|ids| - 1]))]
  }

  /** The events that a sweep writes: one payment.failed per id. */
  function Failures(ps: seq<Payment>, ids: seq<nat>, now: int): seq<OutboxRow> {
    if ids == [] then []
    else
      var i := ids[|ids| - 1];
      Failures(ps, ids[..|ids| - 1], now) +
      if i < |ps| then [OutboxRow(PaymentRef(i), PaymentFailed(ps[i].merchant, ps[i].amount), now, false)] else []
  }

  lemma {:induction false} SweepWrites(db: Db, ids: seq<nat>, now: int)
    requires NoRepeats(ids) && ReverseAll(db, ids, now).Ok?
    ensures var db' := ReverseAll(db, ids, now).value;
            && db'.books.txns == db.books.txns + Reversals(ids)
            && db'.outbox == db.outbox + Failures(db.payments, ids, now)
    decreases |ids|
  {
    if ids == [] {
    } else {
      var init, i := ids[..|ids| - 1], ids[|ids| - 1];
      SweepWrites(db, init, now);
      ReversalsLeave(db, ids, now);
      ReverseEffect(ReverseAll(db, init, now).value, i, now);
    }
  }

  lemma {:induction false} NothingStale(ps: seq<Payment>, cutoff: int)
    requires forall i :: 0 <= i < |ps| ==> !Stale(ps[i], cutoff)
    ensures StaleIds(ps, cutoff) == []
  {
    if ps != [] {
      NothingStale(ps[..|ps| - 1], cutoff);
    }
  }

  lemma SweepRows(db: Db, cutoff: int, now: int)
    requires Expire(db, cutoff, now).Ok?
    ensures var db', ids := Expire(db, cutoff, now).value, StaleIds(db.payments, cutoff);
            && ReversedExactly(db.payments, db'.payments, StaleRows(db.payments, cutoff))
            && |ids| == |StaleRows(db.payments, cutoff)|
            && db'.refunds == db.refunds && db'.claims == db.claims && db'.events == db.events
            && db'.books.txns == db.books.txns + Reversals(ids)
            && db'.outbox == db.outbox + Failures(db.payments, ids, now)
  {
    StaleIdsMeaning(db.payments, cutoff);
    StaleIdsAreStaleRows(db.payments, cutoff);
    ReverseAllExact(db, StaleIds(db.payments, cutoff), now);
    SweepWrites(db, StaleIds(db.payments, cutoff), now);
  }

  lemma SweepBalances(opening: map<AccountId, BalanceRow>, db: Db, db': Db, cutoff: int)
    requires PaymentsOk(db) && ClosedForm(opening, db) && ClosedForm(opening, db')
    requires ReversedExactly(db.payments, db'.payments, StaleRows(db.payments, cutoff))
    ensures forall a :: Bal(db'.books.balances, a) == Bal(db.books.balances, a) + StaleOwed(db.payments, cutoff, a)
                                                      - if a == PSP_SUSPENSE then StaleTotal(db.payments, cutoff) else 0
  {
    forall a ensures Bal(db'.books.balances, a) == Bal(db.books.balances, a) + StaleOwed(db.payments, cutoff, a)
                                                   - if a == PSP_SUSPENSE then StaleTotal(db.payments, cutoff) else 0
    {
      SweepHoldings(db.books, db.payments, db'.payments, cutoff, a);
    }
  }

  lemma SweptIsIdle(db: Db, db': Db, cutoff: int, later: int)
    requires ReversedExactly(db.payments, db'.payments, StaleRows(db.payments, cutoff))
    ensures StaleIds(db'.payments, cutoff) == [] && Expire(db', cutoff, later) == Ok(db')
  {
    NothingStale(db'.payments, cutoff);
  }

  /** Only the journals of stale payments grow, each by its reversal; likewise their events. */
  lemma SweepLogs(db: Db, db': Db, cutoff: int)
    requires JournalOk(db) && JournalOk(db') && OutboxOk(db) && OutboxOk(db') && db'.refunds == db.refunds
    requires ReversedExactly(db.payments, db'.payments, StaleRows(db.payments, cutoff))
    requires forall i :: 0 <= i < |db.payments| ==> PaymentOk(db.books, db.payments[i])
    ensures forall ref :: LogsAfterSweep(db, db', cutoff, ref)
  {
    forall ref ensures LogsAfterSweep(db, db', cutoff, ref) {
      assert JournalFor(db.books, ref) == ExpectedJournal(db.payments, db.refunds, ref);
      assert JournalFor(db'.books, ref) == ExpectedJournal(db'.payments, db'.refunds, ref);
      assert EventsOf(db.outbox, ref) == ExpectedEvents(db.payments, db.refunds, ref);
      assert EventsOf(db'.outbox, ref) == ExpectedEvents(db'.payments, db'.refunds, ref);
    }
  }

  ghost predicate LogsAfterSweep(db: Db, db': Db, cutoff: int, ref: Ref) {
    if ref.PaymentRef? && ref.id < |db.payments|
       && db.payments[ref.id].status == Authorized && db.payments[ref.id].createdAt < cutoff then
      var p := db.payments[ref.id];
      && JournalFor(db'.books, ref) == JournalFor(db.books, ref) +
           [JournalItem(ReversalTxn, Transfer(PSP_SUSPENSE, p.payer, p.amount))]
      && EventsOf(db'.outbox, ref) == EventsOf(db.outbox, ref) + [PaymentFailed(p.merchant, p.amount)]
    else
      JournalFor(db'.books, ref) == JournalFor(db.books, ref) && EventsOf(db'.outbox, ref) == EventsOf(db.outbox, ref)
  }

  /** The AUTHORIZED payments created before the cutoff are FAILED, every other row is as it was. */
  ghost predicate HoldsExpired(ps: seq<Payment>, ps': seq<Payment>, cutoff: int) {
    && |ps'| == |ps|
    && forall i :: 0 <= i < |ps| ==>
         ps'[i] ==
         if ps[i].status == Authorized && ps[i].createdAt < cutoff
         then ps[i].(status := Failed, version := ps[i].version + 1)
         else ps[i]
  }

  /**
   What a sweep does: exactly the payments that were AUTHORIZED and created before the cutoff fail;
   each payer gets back the sum of its expired amounts, out of suspense; each expired payment gains
   one REVERSAL transaction and one payment.failed event and no other journal or event list changes;
   the new journal and outbox rows stand in the order of the payments; refunds, claims and webhook
   events stay.
   */
  ghost predicate Swept(db: Db, db': Db, cutoff: int, now: int) {
    var ps, ids := db.payments, StaleIds(db.payments, cutoff);
    && HoldsExpired(ps, db'.payments, cutoff)
    && db'.refunds == db.refunds && db'.claims == db.claims && db'.events == db.events
    && (forall a :: Bal(db'.books.balances, a) == Bal(db.books.balances, a) + StaleOwed(ps, cutoff, a) -
                      if a == PSP_SUSPENSE then StaleTotal(ps, cutoff) else 0)
    && (forall ref :: LogsAfterSweep(db, db', cutoff, ref))
    && db'.books.txns == db.books.txns + Reversals(ids)
    && db'.outbox == db.outbox + Failures(ps, ids, now)
  }

  /**
   A committed sweep does this and counts the expired payments; a second sweep with the same cutoff
   finds nothing and changes nothing.
   */
  lemma SweepIsExact(opening: map<AccountId, BalanceRow>, db: Db, cutoff: int, now: int, later: int)
    requires MoneyInv(opening, db) && Expire(db, cutoff, now).Ok?
    ensures var db', ps := Expire(db, cutoff, now).value, db.payments;
            && Swept(db, db', cutoff, now)
            && |StaleIds(ps, cutoff)| ==
               |set i | 0 <= i < |ps| && ps[i].status == Authorized && ps[i].createdAt < cutoff|
            && StaleIds(db'.payments, cutoff) == []
            && Expire(db', cutoff, later) == Ok(db')
  {
    var db' := Expire(db, cutoff, now).value;
    ExpireKeepsMoney(opening, db, cutoff, now);
    SweepRows(db, cutoff, now);
    SweepBalances(opening, db, db', cutoff);
    SweepLogs(db, db', cutoff);
    SweptIsIdle(db, db', cutoff, later);
  }

  // ---------- When a sweep commits ----------

  /**
   Among the first `n` payments, each stale hold finds its amount in suspense when its turn comes:
   what suspense held at first, less what went back to other payers before.
   */
  ghost predicate SweepCovered(ps: seq<Payment>, n: nat, cutoff: int, funds: int) {
    forall i :: 0 <= i < n <= |ps| && ps[i].status == Authorized && ps[i].createdAt < cutoff ==>
      ps[i].amount <= funds - (StaleTotal(ps[..i], cutoff) - StaleOwed(ps[..i], cutoff, PSP_SUSPENSE))
  }

  /** The state of the loop when the first `n` payments are done. */
  ghost predicate SweptSoFar(db: Db, mid: Db, n: nat, cutoff: int)
    requires n <= |db.payments|
  {
    && |mid.payments| == |db.payments|
    && (forall k :: n <= k < |db.payments| ==> mid.payments[k] == db.payments[k])
    && mid.books.accounts == db.books.accounts
    && Bal(mid.books.balances, PSP_SUSPENSE) ==
       Bal(db.books.balances, PSP_SUSPENSE)
       - (StaleTotal(db.payments[..n], cutoff) - StaleOwed(db.payments[..n], cutoff, PSP_SUSPENSE))
  }

  /** The loop over the first `n` payments raises exactly when one of them is not covered. */
  ghost predicate PrefixDecided(db: Db, cutoff: int, now: int, n: nat)
    requires n <= |db.payments|
  {
    var done := ReverseAll(db, StaleIds(db.payments[..n], cutoff), now);
    && (done.Ok? <==> SweepCovered(db.payments, n, cutoff, Bal(db.books.balances, PSP_SUSPENSE)))
    && (done.Ok? ==> SweptSoFar(db, done.value, n, cutoff))
  }

  lemma NothingSweptYet(db: Db, cutoff: int, now: int)
    ensures PrefixDecided(db, cutoff, now, 0)
  {
    assert db.payments[..0] == [];
    assert StaleIds([], cutoff) == [] && ReverseAll(db, [], now) == Ok(db);
  }

  lemma {:induction false} SweepCoversPrefix(db: Db, cutoff: int, now: int, n: nat)
    requires PaymentsOk(db) && PSP_SUSPENSE in db.books.accounts && n <= |db.payments|
    ensures PrefixDecided(db, cutoff, now, n)
    decreases n
  {
    if n == 0 {
      NothingSweptYet(db, cutoff, now);
    } else {
      SweepCoversPrefix(db, cutoff, now, n - 1);
      SweepCoversNext(db, cutoff, now, n - 1);
    }
  }

  lemma SweepCoveredNext(ps: seq<Payment>, n: nat, cutoff: int, funds: int)
    requires n < |ps|
    ensures SweepCovered(ps, n + 1, cutoff, funds) <==>
            SweepCovered(ps, n, cutoff, funds) &&
            (Stale(ps[n], cutoff) ==>
               ps[n].amount <= funds - (StaleTotal(ps[..n], cutoff) - StaleOwed(ps[..n], cutoff, PSP_SUSPENSE)))
  {
  }

  lemma LoopNext(db: Db, cutoff: int, now: int, n: nat)
    requires n < |db.payments|
    ensures var done := ReverseAll(db, StaleIds(db.payments[..n], cutoff), now);
            ReverseAll(db, StaleIds(db.payments[..n + 1], cutoff), now) ==
            if done.Ok? && Stale(db.payments[n], cutoff) then Reverse(done.value, n, now) else done
  {
    var ids := StaleIds(db.payments[..n], cutoff);
    assert db.payments[..n + 1][..n] == db.payments[..n];
    if Stale(db.payments[n], cutoff) {
      assert StaleIds(db.payments[..n + 1], cutoff) == ids + [n];
      assert (ids + [n])[..|ids|] == ids;
    } else {
      assert StaleIds(db.payments[..n + 1], cutoff) == ids;
    }
  }

  lemma NextIsKept(db: Db, mid: Db, cutoff: int, n: nat)
    requires n < |db.payments| && SweptSoFar(db, mid, n, cutoff) && !Stale(db.payments[n], cutoff)
    ensures SweptSoFar(db, mid, n + 1, cutoff)
  {
    assert db.payments[..n + 1][..n] == db.payments[..n];
  }

  lemma SweepCoversNext(db: Db, cutoff: int, now: int, n: nat)
    requires PaymentsOk(db) && PSP_SUSPENSE in db.books.accounts && n < |db.payments|
    requires PrefixDecided(db, cutoff, now, n)
    ensures PrefixDecided(db, cutoff, now, n + 1)
  {
    var done := ReverseAll(db, StaleIds(db.payments[..n], cutoff), now);
    SweepCoveredNext(db.payments, n, cutoff, Bal(db.books.balances, PSP_SUSPENSE));
    LoopNext(db, cutoff, now, n);
    if done.Ok? {
      if Stale(db.payments[n], cutoff) {
        NextIsCovered(db, done.value, cutoff, now, n);
      } else {
        NextIsKept(db, done.value, cutoff, n);
      }
    }
  }

  lemma NextIsCovered(db: Db, mid: Db, cutoff: int, now: int, n: nat)
    requires PaymentsOk(db) && PSP_SUSPENSE in db.books.accounts && n < |db.payments|
    requires SweptSoFar(db, mid, n, cutoff) && Stale(db.payments[n], cutoff)
    ensures Reverse(mid, n, now).Ok? <==> db.payments[n].amount <= Bal(mid.books.balances, PSP_SUSPENSE)
    ensures Reverse(mid, n, now).Ok? ==> SweptSoFar(db, Reverse(mid, n, now).value, n + 1, cutoff)
  {
    assert PaymentOk(db.books, db.payments[n]);
    ReverseEffect(mid, n, now);
    assert db.payments[..n + 1][..n] == db.payments[..n];
  }

  /** A sweep raises exactly when some stale hold is not covered at its turn. */
  lemma SweepSucceedsIff(opening: map<AccountId, BalanceRow>, db: Db, cutoff: int, now: int)
    requires MoneyInv(opening, db)
    ensures Expire(db, cutoff, now).Ok? <==>
            SweepCovered(db.payments, |db.payments|, cutoff, Bal(db.books.balances, PSP_SUSPENSE))
  {
    SweepCoversPrefix(db, cutoff, now, |db.payments|);
    assert PrefixDecided(db, cutoff, now, |db.payments|);
    assert db.payments[..|db.payments|] == db.payments;
  }
}

/** Every saga step keeps the money invariant, given the status its callers guarantee. */
module Moves {
  import opened Wrappers
  import opened Domain
  import opened Ledger
  import opened LedgerLemmas
  import opened Journal
  import opened Rules
  import opened Effects
  import opened Invariant

  /** The effect of posting one transfer, as the invariants need it. */
  ghost predicate Moved(b: Books, b': Books, kind: TransactionType, ref: Ref, x: AccountId, y: AccountId, n: int) {
    && b'.accounts == b.accounts
    && (forall a :: Bal(b'.balances, a) ==
                    Bal(b.balances, a) - (if a == x then n else 0) + (if a == y then n else 0))
    && (forall a :: Unexplained(b', a) == Unexplained(b, a))
    && (forall r :: JournalFor(b', r) ==
                    JournalFor(b, r) + if r == ref then [JournalItem(kind, Transfer(x, y, n))] else [])
  }

  /** A transfer that the debited account covers. */
  ghost predicate Covered(b: Books, b': Books, kind: TransactionType, ref: Ref, x: AccountId, y: AccountId, n: int) {
    Transferred(b, b', kind, ref, x, y, n) && Registered(b, x, y) && 0 < n <= Bal(b.balances, x)
  }

  lemma TransferKeepsBooks(b: Books, b': Books, kind: TransactionType, ref: Ref, x: AccountId, y: AccountId, n: int)
    requires BooksOk(b) && Covered(b, b', kind, ref, x, y, n)
    ensures BooksOk(b')
  {
    TransferSums(x, y, n);
    PostedAudit(b, b', kind, ref, Transfer(x, y, n));
    PostedKeepsLinks(b, b', kind, ref, Transfer(x, y, n));
    forall a | a in b'.balances ensures b'.balances[a].balance >= 0 {
      assert a in b.balances ==> b.balances[a].balance >= 0;
      assert Bal(b'.balances, a) >= 0;
    }
  }

  lemma TransferMoves(b: Books, b': Books, kind: TransactionType, ref: Ref, x: AccountId, y: AccountId, n: int)
    requires BooksOk(b) && Covered(b, b', kind, ref, x, y, n)
    ensures Moved(b, b', kind, ref, x, y, n)
  {
    TransferSums(x, y, n);
    PostedAudit(b, b', kind, ref, Transfer(x, y, n));
    forall r ensures JournalFor(b', r) ==
                     JournalFor(b, r) + if r == ref then [JournalItem(kind, Transfer(x, y, n))] else []
    {
      PostedJournal(b, b', kind, ref, Transfer(x, y, n), r);
    }
  }

  // ---------- One row of the payments table replaced ----------

  lemma PaymentsUpdate(db: Db, db': Db, i: nat, q: Payment)
    requires PaymentsOk(db) && i < |db.payments| && db'.payments == db.payments[i := q]
    requires db'.books.accounts == db.books.accounts && PaymentOk(db.books, q)
    ensures PaymentsOk(db')
  {
  }

  lemma ClosedFormUpdate(opening: map<AccountId, BalanceRow>, db: Db, db': Db, i: nat, q: Payment)
    requires ClosedForm(opening, db) && i < |db.payments| && db'.payments == db.payments[i := q]
    requires forall a :: Bal(db'.books.balances, a) - Bal(db.books.balances, a)
                      == Holding(q, a) - Holding(db.payments[i], a)
    ensures ClosedForm(opening, db')
  {
    forall a ensures Bal(db'.books.balances, a) == Bal(opening, a) + Holdings(db'.payments, a) {
      HoldingsUpdate(db.payments, i, q, a);
    }
  }

  /** A step that replaces payment `i`, keeps its parties and amount, and adds `items` to its journal. */
  lemma JournalUpdate(db: Db, db': Db, i: nat, q: Payment, items: seq<JournalItem>)
    requires JournalOk(db) && i < |db.payments| && db'.payments == db.payments[i := q] && db'.refunds == db.refunds
    requires q.payer == db.payments[i].payer && q.payee == db.payments[i].payee && q.amount == db.payments[i].amount
    requires forall r :: JournalFor(db'.books, r) == JournalFor(db.books, r) + if r == PaymentRef(i) then items else []
    requires ExpectedJournal(db'.payments, db.refunds, PaymentRef(i)) ==
             ExpectedJournal(db.payments, db.refunds, PaymentRef(i)) + items
    ensures JournalOk(db')
  {
    forall r ensures JournalFor(db'.books, r) == ExpectedJournal(db'.payments, db'.refunds, r) {
      assert JournalFor(db.books, r) == ExpectedJournal(db.payments, db.refunds, r);
      if r != PaymentRef(i) {
        assert ExpectedJournal(db'.payments, db'.refunds, r) == ExpectedJournal(db.payments, db.refunds, r);
      }
    }
  }

  /** A step that replaces payment `i`, keeps its terms, and emits one event for it. */
  lemma OutboxUpdate(db: Db, db': Db, i: nat, q: Payment, row: OutboxRow)
    requires OutboxOk(db) && i < |db.payments|
    requires db'.payments == db.payments[i := q] && db'.refunds == db.refunds && db'.outbox == db.outbox + [row]
    requires row.ref == PaymentRef(i)
    requires ExpectedEvents(db'.payments, db.refunds, PaymentRef(i)) ==
             ExpectedEvents(db.payments, db.refunds, PaymentRef(i)) + [row.event]
    ensures OutboxOk(db')
  {
    forall r ensures EventsOf(db'.outbox, r) == ExpectedEvents(db'.payments, db'.refunds, r) {
      assert EventsOf(db.outbox, r) == ExpectedEvents(db.payments, db.refunds, r);
      OutboxSnoc(db.outbox, row, r);
      if r != PaymentRef(i) {
        assert ExpectedEvents(db'.payments, db'.refunds, r) == ExpectedEvents(db.payments, db.refunds, r);
      }
    }
  }

  lemma LogUpdate(db: Db, db': Db, row: OutboxRow)
    requires LogOk(db) && db'.outbox == db.outbox + [row] && Learn(Table(db.payments), row) == Table(db'.payments)
    ensures LogOk(db')
  {
    OutboxSnoc(db.outbox, row, row.ref);
  }

  // ---------- hold ----------

  lemma ExpectedSnoc(ps: seq<Payment>, rs: seq<Refund>, p: Payment, ref: Ref)
    requires forall j :: 0 <= j < |rs| ==> rs[j].payment < |ps|
    requires Held(p)
    ensures ExpectedJournal(ps + [p], rs, ref) ==
            ExpectedJournal(ps, rs, ref) + if ref == PaymentRef(|ps|) then [HoldItem(p)] else []
    ensures ExpectedEvents(ps + [p], rs, ref) ==
            ExpectedEvents(ps, rs, ref) +
            if ref == PaymentRef(|ps|) then [PaymentProcessing(p.merchant, p.amount, p.currency)] else []
  {
  }

  lemma HoldKeepsTables(db: Db, db': Db, p: Payment)
    requires PaymentsOk(db) && RefundsOk(db) && db'.books.accounts == db.books.accounts && db'.refunds == db.refunds
    requires p.refunded == 0 && p.version == 0 && p.amount > 0 && {p.payer, p.payee} <= db.books.accounts
    requires db'.payments == db.payments + [p.(status := Processing)]
    ensures PaymentsOk(db') && RefundsOk(db')
  {
    NoRefundsYet(db.refunds, |db.payments|);
    forall i | 0 <= i < |db'.payments| ensures PaymentOk(db'.books, db'.payments[i]) {
      if i < |db.payments| {
        assert PaymentOk(db.books, db.payments[i]);
      }
    }
  }

  lemma HoldKeepsJournal(db: Db, db': Db, p: Payment)
    requires RefundsOk(db) && JournalOk(db) && db'.refunds == db.refunds
    requires db'.payments == db.payments + [p.(status := Processing)]
    requires Moved(db.books, db'.books, PaymentTxn, PaymentRef(|db.payments|), p.payer, PSP_SUSPENSE, p.amount)
    ensures JournalOk(db')
  {
    forall r ensures JournalFor(db'.books, r) == ExpectedJournal(db'.payments, db'.refunds, r) {
      assert JournalFor(db.books, r) == ExpectedJournal(db.payments, db.refunds, r);
      ExpectedSnoc(db.payments, db.refunds, p.(status := Processing), r);
    }
  }

  lemma HoldKeepsMoney(opening: map<AccountId, BalanceRow>, db: Db, db': Db, p: Payment)
    requires ClosedForm(opening, db) && Audited(opening, db.books) && p.refunded == 0
    requires db'.payments == db.payments + [p.(status := Processing)]
    requires Moved(db.books, db'.books, PaymentTxn, PaymentRef(|db.payments|), p.payer, PSP_SUSPENSE, p.amount)
    ensures ClosedForm(opening, db') && Audited(opening, db'.books)
  {
    forall a ensures Bal(db'.books.balances, a) == Bal(opening, a) + Holdings(db'.payments, a) {
      HoldingsSnoc(db.payments, p.(status := Processing), a);
    }
  }

  lemma HoldKeepsOutbox(db: Db, db': Db, p: Payment, row: OutboxRow)
    requires RefundsOk(db) && OutboxOk(db) && LogOk(db) && p.refunded == 0 && db'.refunds == db.refunds
    requires db'.payments == db.payments + [p.(status := Processing)] && db'.outbox == db.outbox + [row]
    requires row.ref == PaymentRef(|db.payments|) && row.event == PaymentProcessing(p.merchant, p.amount, p.currency)
    ensures OutboxOk(db') && LogOk(db')
  {
    forall r ensures EventsOf(db'.outbox, r) == ExpectedEvents(db'.payments, db'.refunds, r) {
      assert EventsOf(db.outbox, r) == ExpectedEvents(db.payments, db.refunds, r);
      OutboxSnoc(db.outbox, row, r);
      ExpectedSnoc(db.payments, db.refunds, p.(status := Processing), r);
    }
    OpeningLearned(db.payments, p.(status := Processing), row);
    LogUpdate(db, db', row);
  }

  lemma OpeningLearned(ps: seq<Payment>, p: Payment, row: OutboxRow)
    requires row.ref == PaymentRef(|ps|) && row.event == PaymentProcessing(p.merchant, p.amount, p.currency)
    requires Held(p) && p.refunded == 0
    ensures Learn(Table(ps), row) == Table(ps + [p])
  {
  }

  lemma HoldDoneKeepsInv(opening: map<AccountId, BalanceRow>, db: Db, db': Db, p: Payment, now: int)
    requires MoneyInv(opening, db) && p.refunded == 0 && p.version == 0 && HoldDone(db, db', p, now)
    requires {p.payer, p.payee} <= db.books.accounts && 0 < p.amount <= Bal(db.books.balances, p.payer)
    ensures MoneyInv(opening, db')
  {
    TransferMoves(db.books, db'.books, PaymentTxn, PaymentRef(|db.payments|), p.payer, PSP_SUSPENSE, p.amount);
    TransferKeepsBooks(db.books, db'.books, PaymentTxn, PaymentRef(|db.payments|), p.payer, PSP_SUSPENSE, p.amount);
    HoldKeepsTables(db, db', p);
    HoldKeepsJournal(db, db', p);
    HoldKeepsMoney(opening, db, db', p);
    HoldKeepsOutbox(db, db', p, db'.outbox[|db.outbox|]);
  }

  /** `hold` of a new payment keeps the invariant. */
  lemma HoldKeepsInv(opening: map<AccountId, BalanceRow>, db: Db, p: Payment, now: int)
    requires MoneyInv(opening, db) && Hold(db, p, now).Ok? && p.refunded == 0 && p.version == 0
    ensures MoneyInv(opening, Hold(db, p, now).value)
  {
    HoldEffect(db, p, now);
    HoldDoneKeepsInv(opening, db, Hold(db, p, now).value, p, now);
  }

  // ---------- settle and reverse ----------

  /** Payment `i`, held before, is closed: `q` is its row, `item` its journal item and `row` its event. */
  ghost predicate Closing(db: Db, db': Db, i: nat, q: Payment, row: OutboxRow) {
    && i < |db.payments| && Held(db.payments[i]) && (q.status == Succeeded || q.status == Failed)
    && q == db.payments[i].(status := q.status, pspReference := q.pspReference, version := db.payments[i].version + 1)
    && db'.payments == db.payments[i := q] && db'.refunds == db.refunds && db'.outbox == db.outbox + [row]
    && row.ref == PaymentRef(i)
    && row.event == (if q.status == Succeeded then PaymentSucceeded(q.merchant, q.amount, q.currency, q.pspReference)
                     else PaymentFailed(q.merchant, q.amount))
    && Moved(db.books, db'.books, if q.status == Succeeded then PaymentTxn else ReversalTxn, PaymentRef(i),
       PSP_SUSPENSE,
             if q.status == Succeeded then q.payee else q.payer, q.amount)
  }

  /** Closing a hold is learned from its succeeded or failed event. */
  lemma ClosingLearned(ps: seq<Payment>, i: nat, q: Payment, row: OutboxRow)
    requires i < |ps| && Held(ps[i]) && row.ref == PaymentRef(i)
    requires q.amount == ps[i].amount && q.refunded == ps[i].refunded
    requires (row.event.PaymentSucceeded? && q.status == Succeeded) || (row.event.PaymentFailed? && q.status == Failed)
    ensures Learn(Table(ps), row) == Table(ps[i := q])
  {
    assert Table(ps)[i] == KnownOf(ps[i]);
  }

  lemma ClosingKeepsTables(db: Db, db': Db, i: nat, q: Payment, row: OutboxRow)
    requires PaymentsOk(db) && RefundsOk(db) && Closing(db, db', i, q, row)
    ensures PaymentsOk(db') && RefundsOk(db')
  {
    assert PaymentOk(db.books, db.payments[i]);
    PaymentsUpdate(db, db', i, q);
  }

  lemma ClosingKeepsMoney(opening: map<AccountId, BalanceRow>, db: Db, db': Db, i: nat, q: Payment, row: OutboxRow)
    requires PaymentsOk(db) && ClosedForm(opening, db) && Audited(opening, db.books) && Closing(db, db', i, q, row)
    ensures ClosedForm(opening, db') && Audited(opening, db'.books)
  {
    assert PaymentOk(db.books, db.payments[i]);
    ClosedFormUpdate(opening, db, db', i, q);
  }

  lemma ClosingKeepsJournal(db: Db, db': Db, i: nat, q: Payment, row: OutboxRow)
    requires JournalOk(db) && Closing(db, db', i, q, row)
    ensures JournalOk(db')
  {
    JournalUpdate(db, db', i, q, [if q.status == Succeeded then SettleItem(q) else ReverseItem(q)]);
  }

  lemma ClosingKeepsOutbox(db: Db, db': Db, i: nat, q: Payment, row: OutboxRow)
    requires OutboxOk(db) && LogOk(db) && Closing(db, db', i, q, row)
    ensures OutboxOk(db') && LogOk(db')
  {
    ClosingLearned(db.payments, i, q, row);
    OutboxUpdate(db, db', i, q, row);
    LogUpdate(db, db', row);
  }

  lemma ClosingKeepsInv(opening: map<AccountId, BalanceRow>, db: Db, db': Db, i: nat, q: Payment, row: OutboxRow)
    requires MoneyInv(opening, db) && Closing(db, db', i, q, row) && BooksOk(db'.books)
    ensures MoneyInv(opening, db')
  {
    ClosingKeepsTables(db, db', i, q, row);
    ClosingKeepsMoney(opening, db, db', i, q, row);
    ClosingKeepsJournal(db, db', i, q, row);
    ClosingKeepsOutbox(db, db', i, q, row);
  }

  lemma SettleDoneCloses(db: Db, db': Db, i: nat, pspReference: string, now: int)
    requires BooksOk(db.books) && SettleDone(db, db', i, pspReference, now) && Held(db.payments[i])
    requires Registered(db.books, PSP_SUSPENSE, db.payments[i].payee)
    requires 0 < db.payments[i].amount <= Bal(db.books.balances, PSP_SUSPENSE)
    ensures BooksOk(db'.books) && Closing(db, db', i, db'.payments[i], db'.outbox[|db.outbox|])
  {
    var p := db.payments[i];
    TransferMoves(db.books, db'.books, PaymentTxn, PaymentRef(i), PSP_SUSPENSE, p.payee, p.amount);
    TransferKeepsBooks(db.books, db'.books, PaymentTxn, PaymentRef(i), PSP_SUSPENSE, p.payee, p.amount);
  }

  lemma ReverseDoneCloses(db: Db, db': Db, i: nat, now: int)
    requires BooksOk(db.books) && ReverseDone(db, db', i, now) && Held(db.payments[i])
    requires Registered(db.books, PSP_SUSPENSE, db.payments[i].payer)
    requires 0 < db.payments[i].amount <= Bal(db.books.balances, PSP_SUSPENSE)
    ensures BooksOk(db'.books) && Closing(db, db', i, db'.payments[i], db'.outbox[|db.outbox|])
  {
    var p := db.payments[i];
    TransferMoves(db.books, db'.books, ReversalTxn, PaymentRef(i), PSP_SUSPENSE, p.payer, p.amount);
    TransferKeepsBooks(db.books, db'.books, ReversalTxn, PaymentRef(i), PSP_SUSPENSE, p.payer, p.amount);
  }

  /** `settle` has no status guard; it keeps the invariant because its callers only settle a held payment. */
  lemma SettleKeepsInv(opening: map<AccountId, BalanceRow>, db: Db, i: nat, pspReference: string, now: int)
    requires MoneyInv(opening, db) && i < |db.payments| && Held(db.payments[i]) && Settle(db, i, pspReference, now).Ok?
    ensures MoneyInv(opening, Settle(db, i, pspReference, now).value)
  {
    var db' := Settle(db, i, pspReference, now).value;
    SettleEffect(db, i, pspReference, now);
    SettleDoneCloses(db, db', i, pspReference, now);
    ClosingKeepsInv(opening, db, db', i, db'.payments[i], db'.outbox[|db.outbox|]);
  }

  /** `reverse` has no status guard; it keeps the invariant because its callers only reverse a held payment. */
  lemma ReverseKeepsInv(opening: map<AccountId, BalanceRow>, db: Db, i: nat, now: int)
    requires MoneyInv(opening, db) && i < |db.payments| && Held(db.payments[i]) && Reverse(db, i, now).Ok?
    ensures MoneyInv(opening, Reverse(db, i, now).value)
  {
    var db' := Reverse(db, i, now).value;
    ReverseEffect(db, i, now);
    ReverseDoneCloses(db, db', i, now);
    ClosingKeepsInv(opening, db, db', i, db'.payments[i], db'.outbox[|db.outbox|]);
  }

  // ---------- authorize ----------

  /** Moving a PROCESSING payment to AUTHORIZED moves no money and writes no event. */
  lemma AuthorizeKeepsInv(opening: map<AccountId, BalanceRow>, db: Db, i: nat, pspReference: Option<string>)
    requires MoneyInv(opening, db) && i < |db.payments| && Held(db.payments[i])
    ensures MoneyInv(opening, Authorize(db, i, pspReference).value)
  {
    var db' := Authorize(db, i, pspReference).value;
    var p, q := db.payments[i], db'.payments[i];
    assert PaymentsOk(db') && RefundsOk(db') by {
      assert PaymentOk(db.books, p);
      PaymentsUpdate(db, db', i, q);
    }
    assert ClosedForm(opening, db') by { ClosedFormUpdate(opening, db, db', i, q); }
    assert JournalOk(db') by { JournalUpdate(db, db', i, q, []); }
    AuthorizeKeepsOutbox(db, db', i, q);
  }

  lemma AuthorizeKeepsOutbox(db: Db, db': Db, i: nat, q: Payment)
    requires OutboxOk(db) && LogOk(db) && i < |db.payments| && Held(db.payments[i]) && Held(q)
    requires q == db.payments[i].(status := q.status, pspReference := q.pspReference)
    requires db' == db.(payments := db.payments[i := q])
    ensures OutboxOk(db') && LogOk(db')
  {
    forall r ensures EventsOf(db'.outbox, r) == ExpectedEvents(db'.payments, db'.refunds, r) {
      assert EventsOf(db.outbox, r) == ExpectedEvents(db.payments, db.refunds, r);
    }
    assert Table(db'.payments) == Table(db.payments);
  }

  // ---------- refund ----------

  /** Payment `i` is refunded by `r`: `q` is its new row. */
  ghost predicate Refunds(db: Db, db': Db, i: nat, q: Payment, r: Refund, row: OutboxRow) {
    && i < |db.payments| && db.payments[i].status == Succeeded && r.payment == i && r.amount > 0
    && q == db.payments[i].(refunded := db.payments[i].refunded + r.amount, version := db.payments[i].version + 1,
                            status := if q.refunded == q.amount then Refunded else Succeeded)
    && q.refunded <= q.amount
    && db'.payments == db.payments[i := q] && db'.refunds == db.refunds + [r] && db'.outbox == db.outbox + [row]
    && row.ref == RefundRef(|db.refunds|) && row.event == RefundCompleted(i, r.amount)
    && Moved(db.books, db'.books, RefundTxn, RefundRef(|db.refunds|), q.payee, q.payer, r.amount)
  }

  lemma RefundKeepsTables(db: Db, db': Db, i: nat, q: Payment, r: Refund, row: OutboxRow)
    requires PaymentsOk(db) && RefundsOk(db) && Refunds(db, db', i, q, r, row)
    ensures PaymentsOk(db') && RefundsOk(db')
  {
    assert PaymentOk(db.books, db.payments[i]);
    PaymentsUpdate(db, db', i, q);
    forall k | 0 <= k < |db'.payments|
      ensures db'.payments[k].refunded == RefundTotal(db'.refunds, k)
      ensures db'.payments[k].version == (if Held(db'.payments[k]) then 0 else 1) + RefundCount(db'.refunds, k)
    {
      RefundSums(db.refunds, r, k);
    }
  }

  lemma RefundKeepsMoney(opening: map<AccountId, BalanceRow>, db: Db, db': Db, i: nat, q: Payment, r: Refund,
                         row: OutboxRow)
    requires ClosedForm(opening, db) && Audited(opening, db.books) && Refunds(db, db', i, q, r, row)
    ensures ClosedForm(opening, db') && Audited(opening, db'.books)
  {
    ClosedFormUpdate(opening, db, db', i, q);
  }

  /** A refund adds one item and one event under its own reference and changes no other expectation. */
  lemma ExpectedAfterRefund(ps: seq<Payment>, rs: seq<Refund>, i: nat, q: Payment, r: Refund, ref: Ref)
    requires i < |ps| && Paid(ps[i]) && Paid(q) && r.payment == i
    requires q == ps[i].(refunded := q.refunded, version := q.version, status := q.status)
    requires forall j :: 0 <= j < |rs| ==> rs[j].payment < |ps|
    ensures ExpectedJournal(ps[i := q], rs + [r], ref) ==
            ExpectedJournal(ps, rs, ref) + if ref == RefundRef(|rs|) then [RefundItem(q, r.amount)] else []
    ensures ExpectedEvents(ps[i := q], rs + [r], ref) ==
            ExpectedEvents(ps, rs, ref) + if ref == RefundRef(|rs|) then [RefundCompleted(i, r.amount)] else []
  {
    match ref
    case PaymentRef(k) =>
    case RefundRef(j) =>
  }

  lemma RefundKeepsJournal(db: Db, db': Db, i: nat, q: Payment, r: Refund, row: OutboxRow)
    requires RefundsOk(db) && JournalOk(db) && Refunds(db, db', i, q, r, row)
    ensures JournalOk(db')
  {
    forall ref ensures JournalFor(db'.books, ref) == ExpectedJournal(db'.payments, db'.refunds, ref) {
      assert JournalFor(db.books, ref) == ExpectedJournal(db.payments, db.refunds, ref);
      ExpectedAfterRefund(db.payments, db.refunds, i, q, r, ref);
    }
  }

  lemma RefundLearned(ps: seq<Payment>, i: nat, q: Payment, row: OutboxRow, amount: int)
    requires i < |ps| && ps[i].status == Succeeded && row.event == RefundCompleted(i, amount)
    requires q.refunded == ps[i].refunded + amount && q.amount == ps[i].amount
    requires q.status == if q.refunded == q.amount then Refunded else Succeeded
    ensures Learn(Table(ps), row) == Table(ps[i := q])
  {
    assert Table(ps)[i] == KnownOf(ps[i]);
  }

  lemma RefundKeepsOutbox(db: Db, db': Db, i: nat, q: Payment, r: Refund, row: OutboxRow)
    requires RefundsOk(db) && OutboxOk(db) && LogOk(db) && Refunds(db, db', i, q, r, row)
    ensures OutboxOk(db') && LogOk(db')
  {
    forall ref ensures EventsOf(db'.outbox, ref) == ExpectedEvents(db'.payments, db'.refunds, ref) {
      assert EventsOf(db.outbox, ref) == ExpectedEvents(db.payments, db.refunds, ref);
      OutboxSnoc(db.outbox, row, ref);
      ExpectedAfterRefund(db.payments, db.refunds, i, q, r, ref);
    }
    RefundLearned(db.payments, i, q, row, r.amount);
    LogUpdate(db, db', row);
  }

  lemma RefundDoneRefunds(db: Db, db': Db, i: nat, amount: int, now: int)
    requires BooksOk(db.books) && RefundDone(db, db', i, amount, now) && PaymentOk(db.books, db.payments[i])
    requires db.payments[i].status in {Succeeded, RefundPending}
              && 0 < amount <= Bal(db.books.balances, db.payments[i].payee)
    ensures BooksOk(db'.books)
    ensures Refunds(db, db', i, db'.payments[i], Refund(i, amount, now), db'.outbox[|db.outbox|])
  {
    var p := db.payments[i];
    TransferMoves(db.books, db'.books, RefundTxn, RefundRef(|db.refunds|), p.payee, p.payer, amount);
    TransferKeepsBooks(db.books, db'.books, RefundTxn, RefundRef(|db.refunds|), p.payee, p.payer, amount);
  }

  lemma RefundsKeepInv(opening: map<AccountId, BalanceRow>, db: Db, db': Db, i: nat, q: Payment, r: Refund,
                       row: OutboxRow)
    requires MoneyInv(opening, db) && Refunds(db, db', i, q, r, row) && BooksOk(db'.books)
    ensures MoneyInv(opening, db')
  {
    RefundKeepsTables(db, db', i, q, r, row);
    RefundKeepsMoney(opening, db, db', i, q, r, row);
    RefundKeepsJournal(db, db', i, q, r, row);
    RefundKeepsOutbox(db, db', i, q, r, row);
  }

  /** A refund that commits keeps the invariant. */
  lemma RefundKeepsInv(opening: map<AccountId, BalanceRow>, db: Db, i: nat, amount: int, now: int)
    requires MoneyInv(opening, db) && RefundMove(db, i, amount, now).Ok?
    ensures MoneyInv(opening, RefundMove(db, i, amount, now).value)
  {
    var db' := RefundMove(db, i, amount, now).value;
    RefundEffect(db, i, amount, now);
    assert PaymentOk(db.books, db.payments[i]);
    RefundDoneRefunds(db, db', i, amount, now);
    RefundsKeepInv(opening, db, db', i, db'.payments[i], Refund(i, amount, now), db'.outbox[|db.outbox|]);
  }

  // ---------- relay ----------

  lemma {:induction false} StampKeepsEvents(outbox: seq<OutboxRow>, outbox': seq<OutboxRow>, ref: Ref)
    requires |outbox'| == |outbox|
    requires forall i :: 0 <= i < |outbox| ==> outbox'[i].(published := outbox[i].published) == outbox[i]
    ensures EventsOf(outbox', ref) == EventsOf(outbox, ref) && Fold(outbox') == Fold(outbox)
    decreases |outbox|
  {
    if outbox != [] {
      StampKeepsEvents(outbox[..|outbox| - 1], outbox'[..|outbox| - 1], ref);
    }
  }

  /** Publishing rows changes nothing but the stamps. */
  lemma StampKeepsInv(opening: map<AccountId, BalanceRow>, db: Db, rows: seq<nat>)
    requires MoneyInv(opening, db)
    ensures MoneyInv(opening, db.(outbox := Stamp(db.outbox, rows)))
  {
    var db' := db.(outbox := Stamp(db.outbox, rows));
    assert OutboxOk(db') && LogOk(db') by { StampKeepsOutbox(db, db'); }
    SameBooksSameJournal(db, db');
  }

  lemma StampKeepsOutbox(db: Db, db': Db)
    requires OutboxOk(db) && LogOk(db) && db'.payments == db.payments && db'.refunds == db.refunds
    requires |db'.outbox| == |db.outbox|
    requires forall i :: 0 <= i < |db.outbox| ==> db'.outbox[i].(published := db.outbox[i].published) == db.outbox[i]
    ensures OutboxOk(db') && LogOk(db')
  {
    forall r ensures EventsOf(db'.outbox, r) == ExpectedEvents(db'.payments, db'.refunds, r) {
      assert EventsOf(db.outbox, r) == ExpectedEvents(db.payments, db.refunds, r);
      StampKeepsEvents(db.outbox, db'.outbox, r);
    }
    StampKeepsEvents(db.outbox, db'.outbox, PaymentRef(0));
  }

  lemma SameBooksSameJournal(db: Db, db': Db)
    requires JournalOk(db) && db'.books == db.books && db'.payments == db.payments && db'.refunds == db.refunds
    ensures JournalOk(db')
  {
    forall r ensures JournalFor(db'.books, r) == ExpectedJournal(db'.payments, db'.refunds, r) {
      assert JournalFor(db.books, r) == ExpectedJournal(db.payments, db.refunds, r);
    }
  }

  /** Only the claims and webhook tables differ: the invariant does not read them. */
  lemma BookkeepingKeepsInv(opening: map<AccountId, BalanceRow>, db: Db, db': Db)
    requires MoneyInv(opening, db) && db' == db.(claims := db'.claims, events := db'.events)
    ensures MoneyInv(opening, db')
  {
    SameBooksSameJournal(db, db');
    forall r ensures EventsOf(db'.outbox, r) == ExpectedEvents(db'.payments, db'.refunds, r) {
      assert EventsOf(db.outbox, r) == ExpectedEvents(db.payments, db.refunds, r);
    }
  }
}

/** The money invariant: what holds of the database after every committed transaction. */
module Invariant {
  import opened Domain
  import opened Ledger
  import opened Journal

  // ---------- Payment status ----------

  /** The amount sits in the suspense account. */
  predicate Held(p: Payment) {
    p.status == Processing || p.status == Authorized
  }

  /** The hold was settled to the payee. */
  predicate Paid(p: Payment) {
    p.status == Succeeded || p.status == Refunded
  }

  ghost predicate PaymentOk(b: Books, p: Payment) {
    && (Held(p) || Paid(p) || p.status == Failed)
    && p.amount > 0
    && 0 <= p.refunded <= p.amount
    && (p.refunded > 0 ==> Paid(p))
    && (p.status == Refunded <==> p.refunded == p.amount)
    && {p.payer, p.payee} <= b.accounts
  }

  ghost predicate PaymentsOk(db: Db) {
    forall i :: 0 <= i < |db.payments| ==> PaymentOk(db.books, db.payments[i])
  }

  // ---------- Ledger tables ----------

  ghost predicate BooksOk(b: Books) {
    && NonNegative(b.balances)
    && b.balances.Keys <= b.accounts
    && PSP_SUSPENSE in b.accounts
    && EntriesLinked(b)
    && TriggerHolds(b)
  }

  /** What payment `p` currently adds to the balance of account `a`. */
  function Holding(p: Payment, a: AccountId): int {
    (if p.payee == a && Paid(p) then p.amount - p.refunded else 0)
    - (if p.payer == a && p.status != Failed then p.amount - p.refunded else 0)
    + (if a == PSP_SUSPENSE && Held(p) then p.amount else 0)
  }

  function Holdings(ps: seq<Payment>, a: AccountId): int {
    if ps == [] then 0 else Holdings(ps[..|ps| - 1], a) + Holding(ps[|ps| - 1], a)
  }

  /** Every balance is its opening balance plus a sum over the payments table. */
  ghost predicate ClosedForm(opening: map<AccountId, BalanceRow>, db: Db) {
    forall a :: Bal(db.books.balances, a) == Bal(opening, a) + Holdings(db.payments, a)
  }

  /** The entries explain every balance and version up to its opening value. */
  ghost predicate Audited(opening: map<AccountId, BalanceRow>, b: Books) {
    forall a :: Unexplained(b, a) == (Bal(opening, a), Row(opening, a).version)
  }

  // ---------- Journal ----------

  function HoldItem(p: Payment): JournalItem {
    JournalItem(PaymentTxn, Transfer(p.payer, PSP_SUSPENSE, p.amount))
  }

  function SettleItem(p: Payment): JournalItem {
    JournalItem(PaymentTxn, Transfer(PSP_SUSPENSE, p.payee, p.amount))
  }

  function ReverseItem(p: Payment): JournalItem {
    JournalItem(ReversalTxn, Transfer(PSP_SUSPENSE, p.payer, p.amount))
  }

  function RefundItem(p: Payment, amount: int): JournalItem {
    JournalItem(RefundTxn, Transfer(p.payee, p.payer, amount))
  }

  /** The journal that the payments and refunds tables call for under `ref`. */
  function ExpectedJournal(ps: seq<Payment>, rs: seq<Refund>, ref: Ref): seq<JournalItem> {
    match ref
    case PaymentRef(i) =>
      if i >= |ps| then []
      else [HoldItem(ps[i])] +
           (if Paid(ps[i]) then [SettleItem(ps[i])] else if ps[i].status == Failed then [ReverseItem(ps[i])] else [])
    case RefundRef(j) =>
      if j >= |rs| || rs[j].payment >= |ps| then []
      else [RefundItem(ps[rs[j].payment], rs[j].amount)]
  }

  ghost predicate JournalOk(db: Db) {
    forall ref :: JournalFor(db.books, ref) == ExpectedJournal(db.payments, db.refunds, ref)
  }

  // ---------- Refunds ----------

  function RefundTotal(rs: seq<Refund>, i: nat): int {
    if rs == [] then 0
    else RefundTotal(rs[..|rs| - 1], i) + if rs[|rs| - 1].payment == i then rs[|rs| - 1].amount else 0
  }

  function RefundCount(rs: seq<Refund>, i: nat): nat {
    if rs == [] then 0
    else RefundCount(rs[..|rs| - 1], i) + if rs[|rs| - 1].payment == i then 1 else 0
  }

  ghost predicate RefundsOk(db: Db) {
    && (forall j :: 0 <= j < |db.refunds| ==> db.refunds[j].payment < |db.payments| && db.refunds[j].amount > 0)
    && (forall i :: 0 <= i < |db.payments| ==>
          && db.payments[i].refunded == RefundTotal(db.refunds, i)
          && db.payments[i].version == (if Held(db.payments[i]) then 0 else 1) + RefundCount(db.refunds, i))
  }

  // ---------- Outbox ----------

  /** The events of one aggregate, oldest first. */
  function EventsOf(outbox: seq<OutboxRow>, ref: Ref): seq<Event> {
    if outbox == [] then []
    else EventsOf(outbox[..|outbox| - 1], ref) +
         if outbox[|outbox| - 1].ref == ref then [outbox[|outbox| - 1].event] else []
  }

  /** The events that the payments and refunds tables call for under `ref`. */
  function ExpectedEvents(ps: seq<Payment>, rs: seq<Refund>, ref: Ref): seq<Event> {
    match ref
    case PaymentRef(i) =>
      if i >= |ps| then []
      else
        var p := ps[i];
        [PaymentProcessing(p.merchant, p.amount, p.currency)] +
        (if Paid(p) then [PaymentSucceeded(p.merchant, p.amount, p.currency, p.pspReference)]
         else if p.status == Failed then [PaymentFailed(p.merchant, p.amount)] else [])
    case RefundRef(j) =>
      if j >= |rs| then [] else [RefundCompleted(rs[j].payment, rs[j].amount)]
  }

  ghost predicate OutboxOk(db: Db) {
    forall ref :: EventsOf(db.outbox, ref) == ExpectedEvents(db.payments, db.refunds, ref)
  }

  /** A payment as a reader of the outbox knows it; PROCESSING and AUTHORIZED look the same. */
  datatype Stage = Reserved | Settled | FullyRefunded | Returned
  datatype Known = Known(stage: Stage, amount: int, refunded: int)

  function Learn(m: map<nat, Known>, row: OutboxRow): map<nat, Known> {
    match row.event
    case PaymentProcessing(_, amount, _) => m[row.ref.id := Known(Reserved, amount, 0)]
    case PaymentSucceeded(_, _, _, _) =>
      if row.ref.id in m then m[row.ref.id := m[row.ref.id].(stage := Settled)] else m
    case PaymentFailed(_, _) =>
      if row.ref.id in m then m[row.ref.id := m[row.ref.id].(stage := Returned)] else m
    case RefundCompleted(i, amount) =>
      if i in m then
        var total := m[i].refunded + amount;
        m[i := Known(if total == m[i].amount then FullyRefunded else m[i].stage, m[i].amount, total)]
      else m
  }

  /** Folds the outbox rows in commit order. */
  function Fold(outbox: seq<OutboxRow>): map<nat, Known> {
    if outbox == [] then map[] else Learn(Fold(outbox[..|outbox| - 1]), outbox[|outbox| - 1])
  }

  function KnownOf(p: Payment): Known {
    Known(if Held(p) then Reserved else if p.status == Failed then Returned
          else if p.status == Refunded then FullyRefunded else Settled,
          p.amount, p.refunded)
  }

  function Table(ps: seq<Payment>): map<nat, Known> {
    map i | 0 <= i < |ps| :: KnownOf(ps[i])
  }

  /** The outbox alone tells every payment's stage, amount and refunded total. */
  ghost predicate LogOk(db: Db) {
    Fold(db.outbox) == Table(db.payments)
  }

  // ---------- All together ----------

  ghost predicate MoneyInv(opening: map<AccountId, BalanceRow>, db: Db) {
    && BooksOk(db.books)
    && PaymentsOk(db)
    && ClosedForm(opening, db)
    && Audited(opening, db.books)
    && JournalOk(db)
    && RefundsOk(db)
    && OutboxOk(db)
    && LogOk(db)
  }

  // ---------- Sums over the payments table ----------

  lemma HoldingsSnoc(ps: seq<Payment>, p: Payment, a: AccountId)
    ensures Holdings(ps + [p], a) == Holdings(ps, a) + Holding(p, a)
  {
    assert (ps + [p])[..|ps + [p]| - 1] == ps;
  }

  lemma {:induction false} HoldingsUpdate(ps: seq<Payment>, i: nat, q: Payment, a: AccountId)
    requires i < |ps|
    ensures Holdings(ps[i := q], a) == Holdings(ps, a) - Holding(ps[i], a) + Holding(q, a)
  {
    var n := |ps| - 1;
    if i == n {
      assert ps[i := q][..n] == ps[..n];
    } else {
      assert ps[i := q][..n] == ps[..n][i := q];
      HoldingsUpdate(ps[..n], i, q, a);
    }
  }

  lemma RefundSums(rs: seq<Refund>, r: Refund, i: nat)
    ensures RefundTotal(rs + [r], i) == RefundTotal(rs, i) + if r.payment == i then r.amount else 0
    ensures RefundCount(rs + [r], i) == RefundCount(rs, i) + if r.payment == i then 1 else 0
  {
    assert (rs + [r])[..|rs + [r]| - 1] == rs;
  }

  lemma {:induction false} NoRefundsYet(rs: seq<Refund>, i: nat)
    requires forall j :: 0 <= j < |rs| ==> rs[j].payment != i
    ensures RefundTotal(rs, i) == 0 && RefundCount(rs, i) == 0
  {
    if rs != [] {
      NoRefundsYet(rs[..|rs| - 1], i);
    }
  }

  lemma OutboxSnoc(outbox: seq<OutboxRow>, row: OutboxRow, ref: Ref)
    ensures EventsOf(outbox + [row], ref) == EventsOf(outbox, ref) + if row.ref == ref then [row.event] else []
    ensures Fold(outbox + [row]) == Learn(Fold(outbox), row)
  {
    assert (outbox + [row])[..|outbox + [row]| - 1] == outbox;
  }
}

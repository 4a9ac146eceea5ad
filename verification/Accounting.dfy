/** Money over whole runs: closed form, conservation, audit, refunds, and the outbox as a log. */
module Accounting {
  import opened Domain
  import opened Ledger
  import opened LedgerLemmas
  import opened Journal
  import opened Rules
  import opened Effects
  import opened Invariant
  import opened System
  import opened SystemProof
  import opened History

  // ---------- Balances ----------

  /** Every balance of every reachable state is a closed form of the payments table. */
  lemma BalancesAreClosedForm(accounts: set<AccountId>, opening: map<AccountId, BalanceRow>, acts: seq<Action>,
                              a: AccountId)
    requires ValidOpening(accounts, opening)
    ensures var db := Run(Start(accounts, opening), acts).db;
            Bal(db.books.balances, a) == Bal(opening, a) + Holdings(db.payments, a) >= 0
  {
    ReachableInv(accounts, opening, acts);
  }

  lemma TotalOf(opening: map<AccountId, BalanceRow>, db: Db, n: nat)
    requires MoneyInv(opening, db) && IdsBelow(db.books, n)
    ensures TotalBelow(db.books.balances, n) == TotalBelow(opening, n)
  {
    var b := db.books;
    TriggerGivesZeroNet(b);
    forall i | 0 <= i < |b.entries| ensures b.entries[i].posting.account < n {
      assert b.entries[i].posting.account in b.balances;
    }
    AccountNetsRegroup(b.entries, n);
    forall a ensures Bal(b.balances, a) - AccountNet(b.entries, a) == Bal(opening, a) {
      assert Unexplained(b, a) == (Bal(opening, a), Row(opening, a).version);
    }
    TotalFromNets(b.balances, opening, b.entries, n);
  }

  lemma AccountsAfter(accounts: set<AccountId>, opening: map<AccountId, BalanceRow>, acts: seq<Action>)
    requires ValidOpening(accounts, opening)
    ensures Run(Start(accounts, opening), acts).db.books.accounts == accounts
  {
    HistoryIsKept(accounts, opening, [], acts);
    assert [] + acts == acts;
  }

  lemma BalanceWithinTotal(opening: map<AccountId, BalanceRow>, db: Db, n: nat, a: AccountId)
    requires MoneyInv(opening, db) && IdsBelow(db.books, n)
    ensures 0 <= Bal(db.books.balances, a) <= TotalBelow(opening, n)
  {
    TotalOf(opening, db, n);
    BalanceAtMostTotal(db.books.balances, n, a);
    assert a >= n ==> a !in db.books.balances;
  }

  /** Conservation: the sum of all balances never changes, and no balance exceeds it. */
  lemma MoneyIsConserved(accounts: set<AccountId>, opening: map<AccountId, BalanceRow>, acts: seq<Action>, n: nat,
                         a: AccountId)
    requires ValidOpening(accounts, opening) && (forall x :: x in accounts ==> x < n)
    ensures var db := Run(Start(accounts, opening), acts).db;
            && TotalBelow(db.books.balances, n) == TotalBelow(opening, n)
            && 0 <= Bal(db.books.balances, a) <= TotalBelow(opening, n)
  {
    ReachableInv(accounts, opening, acts);
    AccountsAfter(accounts, opening, acts);
    TotalOf(opening, Run(Start(accounts, opening), acts).db, n);
    BalanceWithinTotal(opening, Run(Start(accounts, opening), acts).db, n, a);
  }

  // ---------- A bound on every money column ----------

  ghost predicate AmountsWithin(ps: seq<Payment>, bound: int) {
    forall i :: 0 <= i < |ps| ==> ps[i].amount <= bound
  }

  lemma AmountsStay(opening: map<AccountId, BalanceRow>, s: Sys, a: Action)
    requires Inv(opening, s)
    ensures var ps, ps' := s.db.payments, Do(s, a).db.payments;
            |ps| <= |ps'| && forall i :: 0 <= i < |ps| ==> ps'[i].amount == ps[i].amount
  {
    DoIsNext(opening, s, a);
    var ps, ps' := s.db.payments, Do(s, a).db.payments;
    forall i | 0 <= i < |ps| ensures ps'[i].amount == ps[i].amount {
      assert SameTerms(ps[i], ps'[i]);
    }
  }

  lemma NewWithinTotal(opening: map<AccountId, BalanceRow>, s: Sys, a: Action, n: nat)
    requires Inv(opening, s) && IdsBelow(s.db.books, n)
    ensures var ps, ps' := s.db.payments, Do(s, a).db.payments;
            && |ps'| <= |ps| + 1
            && (|ps'| == |ps| + 1 ==> ps'[|ps|].amount <= TotalBelow(opening, n))
  {
    var ps, ps' := s.db.payments, Do(s, a).db.payments;
    NewPaymentIsFunded(opening, s, a);
    if |ps'| == |ps| + 1 {
      BalanceWithinTotal(opening, s.db, n, ps'[|ps|].payer);
    }
  }

  lemma StillWithin(ps: seq<Payment>, ps': seq<Payment>, bound: int)
    requires AmountsWithin(ps, bound) && |ps| <= |ps'| <= |ps| + 1
    requires forall i :: 0 <= i < |ps| ==> ps'[i].amount == ps[i].amount
    requires |ps'| == |ps| + 1 ==> ps'[|ps|].amount <= bound
    ensures AmountsWithin(ps', bound)
  {
  }

  lemma StepWithinTotal(opening: map<AccountId, BalanceRow>, s: Sys, a: Action, n: nat)
    requires Inv(opening, s) && IdsBelow(s.db.books, n)
    requires AmountsWithin(s.db.payments, TotalBelow(opening, n))
    ensures AmountsWithin(Do(s, a).db.payments, TotalBelow(opening, n))
  {
    AmountsStay(opening, s, a);
    NewWithinTotal(opening, s, a, n);
    StillWithin(s.db.payments, Do(s, a).db.payments, TotalBelow(opening, n));
  }

  lemma {:induction false} PaymentsWithinTotal(accounts: set<AccountId>, opening: map<AccountId, BalanceRow>,
                                               acts: seq<Action>, n: nat)
    requires ValidOpening(accounts, opening) && (forall x :: x in accounts ==> x < n)
    ensures AmountsWithin(Run(Start(accounts, opening), acts).db.payments, TotalBelow(opening, n))
  {
    if acts != [] {
      var init, last := acts[..|acts| - 1], acts[|acts| - 1];
      PaymentsWithinTotal(accounts, opening, init, n);
      assert Inv(opening, Run(Start(accounts, opening), init)) by { ReachableInv(accounts, opening, init); }
      AccountsAfter(accounts, opening, init);
      StepWithinTotal(opening, Run(Start(accounts, opening), init), last, n);
    }
  }

  /** Only a create step inserts payments, and only one whose payer covers the amount. */
  lemma NewPaymentIsFunded(opening: map<AccountId, BalanceRow>, s: Sys, a: Action)
    requires Inv(opening, s)
    ensures var ps, ps' := s.db.payments, Do(s, a).db.payments;
            && |ps'| <= |ps| + 1
            && (|ps'| == |ps| + 1 ==> ps'[|ps|].amount <= Bal(s.db.books.balances, ps'[|ps|].payer))
  {
    if a.Create? && a.request.CreateRequest? {
      CreateIsFunded(s, a.key, a.request, a.now);
    } else {
      assert |s.calls| == |s.db.payments|;
      assert |Do(s, a).calls| == |Do(s, a).db.payments| by { DoKeepsClaims(opening, s, a); }
      OnlyCreateCalls(s, a);
    }
  }

  lemma OnlyCreateCalls(s: Sys, a: Action)
    requires !(a.Create? && a.request.CreateRequest?)
    ensures |Do(s, a).calls| == |s.calls|
  {
  }

  lemma CreateIsFunded(s: Sys, key: string, request: Request, now: int)
    requires request.CreateRequest?
    ensures var ps, ps' := s.db.payments, DoCreate(s, key, request, now).db.payments;
            && |ps'| <= |ps| + 1
            && (|ps'| == |ps| + 1 ==> ps'[|ps|].amount <= Bal(s.db.books.balances, ps'[|ps|].payer))
  {
    if CreateTx1(s.db, key, request, now).Committed? {
      HoldEffect(ClaimOrReplay(s.db, Key(request.merchant, key), request).db, NewPayment(request, now), now);
    }
  }

  lemma {:induction false} EntryListed(entries: seq<Entry>, k: nat)
    requires k < |entries|
    ensures entries[k].posting in EntriesOf(entries, entries[k].txn)
  {
    if k < |entries| - 1 {
      EntryListed(entries[..|entries| - 1], k);
    }
  }

  lemma {:induction false} TxnListed(txns: seq<Txn>, entries: seq<Entry>, t: nat)
    requires t < |txns|
    ensures JournalItem(txns[t].kind, EntriesOf(entries, t)) in JournalOf(txns, entries, txns[t].ref)
  {
    if t < |txns| - 1 {
      TxnListed(txns[..|txns| - 1], entries, t);
    }
  }

  lemma {:induction false} RefundWithinTotal(rs: seq<Refund>, j: nat)
    requires j < |rs| && forall k :: 0 <= k < |rs| ==> rs[k].amount > 0
    ensures rs[j].amount <= RefundTotal(rs, rs[j].payment)
  {
    if j < |rs| - 1 {
      RefundWithinTotal(rs[..|rs| - 1], j);
    } else {
      RefundTotalNonNegative(rs[..|rs| - 1], rs[j].payment);
    }
  }

  lemma {:induction false} RefundTotalNonNegative(rs: seq<Refund>, i: nat)
    requires forall k :: 0 <= k < |rs| ==> rs[k].amount > 0
    ensures RefundTotal(rs, i) >= 0
  {
    if rs != [] {
      RefundTotalNonNegative(rs[..|rs| - 1], i);
    }
  }

  lemma RefundRowBounded(opening: map<AccountId, BalanceRow>, db: Db, j: nat)
    requires MoneyInv(opening, db) && j < |db.refunds|
    ensures 0 < db.refunds[j].amount <= db.payments[db.refunds[j].payment].amount
  {
    RefundWithinTotal(db.refunds, j);
    assert PaymentOk(db.books, db.payments[db.refunds[j].payment]);
  }

  /** The amount of every ledger entry is positive and within any bound on the payments' amounts. */
  lemma EntryBounded(opening: map<AccountId, BalanceRow>, db: Db, k: nat, bound: int)
    requires MoneyInv(opening, db) && AmountsWithin(db.payments, bound) && k < |db.books.entries|
    ensures 0 < db.books.entries[k].posting.amount <= bound
  {
    var b := db.books;
    var t := b.entries[k].txn;
    EntryListed(b.entries, k);
    TxnListed(b.txns, b.entries, t);
    var ref := b.txns[t].ref;
    assert JournalFor(b, ref) == ExpectedJournal(db.payments, db.refunds, ref);
    match ref
    case PaymentRef(i) => assert PaymentOk(b, db.payments[i]);
    case RefundRef(j) => RefundRowBounded(opening, db, j);
  }

  /** If the opening balances sum to less than 2^63, no money column ever leaves the BIGINT range. */
  lemma NoMoneyColumnOverflows(accounts: set<AccountId>, opening: map<AccountId, BalanceRow>, acts: seq<Action>,
                               n: nat, a: AccountId, i: nat, j: nat, k: nat)
    requires ValidOpening(accounts, opening) && (forall x :: x in accounts ==> x < n)
    requires TotalBelow(opening, n) < 0x8000_0000_0000_0000
    ensures var db := Run(Start(accounts, opening), acts).db;
            && 0 <= Bal(db.books.balances, a) < 0x8000_0000_0000_0000
            && (i < |db.payments| ==> 0 <= db.payments[i].refunded <= db.payments[i].amount < 0x8000_0000_0000_0000)
            && (j < |db.refunds| ==> 0 < db.refunds[j].amount < 0x8000_0000_0000_0000)
            && (k < |db.books.entries| ==> 0 < db.books.entries[k].posting.amount < 0x8000_0000_0000_0000)
  {
    var db := Run(Start(accounts, opening), acts).db;
    ReachableInv(accounts, opening, acts);
    MoneyIsConserved(accounts, opening, acts, n, a);
    PaymentsWithinTotal(accounts, opening, acts, n);
    if i < |db.payments| {
      assert PaymentOk(db.books, db.payments[i]);
    }
    if j < |db.refunds| {
      RefundRowBounded(opening, db, j);
    }
    if k < |db.books.entries| {
      EntryBounded(opening, db, k, TotalBelow(opening, n));
    }
  }

  // ---------- audit_integrity ----------

  /** The accounts whose materialized balance differs from the sum of their entries. */
  function Drifted(b: Books): set<AccountId> {
    set a | a in b.balances && b.balances[a].balance != AccountNet(b.entries, a)
  }

  datatype IntegrityResponse = IntegrityResponse(balanced: bool, ledgerNet: int, driftedAccountsCount: nat)

  function AuditIntegrity(b: Books): IntegrityResponse {
    var net, drifted := LedgerNet(b.entries), Drifted(b);
    IntegrityResponse(net == 0 && |drifted| == 0, net, |drifted|)
  }

  /** All that was ever debited, or credited. */
  function Turnover(entries: seq<Entry>, d: Direction): int {
    if entries == [] then 0
    else
      var p := entries[|entries| - 1].posting;
      Turnover(entries[..|entries| - 1], d) + if p.direction == d then p.amount else 0
  }

  /** The entries on account `a`. */
  function EntriesOn(entries: seq<Entry>, a: AccountId): seq<Entry> {
    if entries == [] then []
    else
      var e := entries[|entries| - 1];
      EntriesOn(entries[..|entries| - 1], a) + if e.posting.account == a then [e] else []
  }

  lemma {:induction false} NetIsTurnover(entries: seq<Entry>)
    ensures LedgerNet(entries) == Turnover(entries, Debit) - Turnover(entries, Credit)
    decreases |entries|
  {
    if entries != [] {
      NetIsTurnover(entries[..|entries| - 1]);
    }
  }

  lemma {:induction false} AccountNetIsTurnover(entries: seq<Entry>, a: AccountId)
    ensures AccountNet(entries, a) ==
            Turnover(EntriesOn(entries, a), Credit) - Turnover(EntriesOn(entries, a), Debit)
    decreases |entries|
  {
    if entries != [] {
      var init, e := entries[..|entries| - 1], entries[|entries| - 1];
      AccountNetIsTurnover(init, a);
      if e.posting.account == a {
        assert EntriesOn(entries, a) == EntriesOn(init, a) + [e];
        assert (EntriesOn(init, a) + [e])[..|EntriesOn(init, a)|] == EntriesOn(init, a);
      } else {
        assert EntriesOn(entries, a) == EntriesOn(init, a);
      }
    }
  }

  /** The balance rows that differ from the credits less the debits of their account. */
  function Differing(b: Books): set<AccountId> {
    set a | a in b.balances && b.balances[a].balance !=
                               Turnover(EntriesOn(b.entries, a), Credit) - Turnover(EntriesOn(b.entries, a), Debit)
  }

  /** The report, for any books: all debits less all credits, how many rows differ, and whether both are zero. */
  lemma AuditMeaning(b: Books)
    ensures var report := AuditIntegrity(b);
            && report.ledgerNet == Turnover(b.entries, Debit) - Turnover(b.entries, Credit)
            && report.driftedAccountsCount == |Differing(b)|
            && (report.balanced <==> Turnover(b.entries, Debit) == Turnover(b.entries, Credit) && Differing(b) == {})
  {
    NetIsTurnover(b.entries);
    forall a ensures a in Drifted(b) <==> a in Differing(b) {
      AccountNetIsTurnover(b.entries, a);
    }
    assert Drifted(b) == Differing(b);
  }

  lemma {:induction false} NoEntriesNoNet(entries: seq<Entry>, a: AccountId)
    requires forall i :: 0 <= i < |entries| ==> entries[i].posting.account != a
    ensures AccountNet(entries, a) == 0
  {
    if entries != [] {
      NoEntriesNoNet(entries[..|entries| - 1], a);
    }
  }

  lemma AuditOf(opening: map<AccountId, BalanceRow>, db: Db)
    requires MoneyInv(opening, db)
    ensures LedgerNet(db.books.entries) == 0
    ensures Drifted(db.books) == set a | a in opening && opening[a].balance != 0
  {
    var b := db.books;
    TriggerGivesZeroNet(b);
    forall a ensures a in Drifted(b) <==> a in opening && opening[a].balance != 0 {
      assert Unexplained(b, a) == (Bal(opening, a), Row(opening, a).version);
      if a !in b.balances {
        NoEntriesNoNet(b.entries, a);
      }
    }
  }

  /**
   The audit over every run: every transaction passes the deferred trigger, the global net is zero,
   and the drifted accounts are exactly those seeded with a non-zero balance outside the journal.
   */
  lemma AuditIsInvariant(accounts: set<AccountId>, opening: map<AccountId, BalanceRow>, acts: seq<Action>, a: AccountId)
    requires ValidOpening(accounts, opening)
    ensures var b := Run(Start(accounts, opening), acts).db.books;
            var seeded := set x | x in opening && opening[x].balance != 0;
            && TriggerHolds(b)
            && Drifted(b) == seeded
            && AuditIntegrity(b) == IntegrityResponse(seeded == {}, 0, |seeded|)
            && Row(b.balances, a).version == Row(opening, a).version + EntryCount(b.entries, a)
  {
    ReachableInv(accounts, opening, acts);
    var b := Run(Start(accounts, opening), acts).db.books;
    AuditOf(opening, Run(Start(accounts, opening), acts).db);
    assert Unexplained(b, a) == (Bal(opening, a), Row(opening, a).version);
  }

  lemma NoDriftNoOpening(opening: map<AccountId, BalanceRow>, db: Db)
    requires MoneyInv(opening, db) && AuditIntegrity(db.books).balanced
    ensures forall x :: Bal(opening, x) == 0
  {
    AuditOf(opening, db);
    forall x ensures Bal(opening, x) == 0 {
      assert x !in Drifted(db.books);
    }
  }

  /** A report of `balanced` says that there is no money in the system at all. */
  lemma BalancedMeansEmpty(accounts: set<AccountId>, opening: map<AccountId, BalanceRow>, acts: seq<Action>, n: nat,
                           a: AccountId)
    requires ValidOpening(accounts, opening) && (forall x :: x in accounts ==> x < n)
    requires AuditIntegrity(Run(Start(accounts, opening), acts).db.books).balanced
    ensures Bal(Run(Start(accounts, opening), acts).db.books.balances, a) == 0
  {
    ReachableInv(accounts, opening, acts);
    NoDriftNoOpening(opening, Run(Start(accounts, opening), acts).db);
    ZeroTotal(opening, n);
    MoneyIsConserved(accounts, opening, acts, n, a);
  }

  lemma {:induction false} ZeroTotal(m: map<AccountId, BalanceRow>, n: nat)
    requires forall x :: Bal(m, x) == 0
    ensures TotalBelow(m, n) == 0
  {
    if n > 0 {
      ZeroTotal(m, n - 1);
    }
  }

  // ---------- Refund accounting ----------

  function Debits(ps: seq<Posting>): int {
    if ps == [] then 0
    else Debits(ps[..|ps| - 1]) + if ps[|ps| - 1].direction.Debit? then ps[|ps| - 1].amount else 0
  }

  function ItemDebits(items: seq<JournalItem>): int {
    if items == [] then 0 else ItemDebits(items[..|items| - 1]) + Debits(items[|items| - 1].postings)
  }

  /** The debits posted under the ids of the first `n` refunds, as far as they refund payment `i`. */
  function RefundDebits(db: Db, i: nat, n: nat): int
    requires n <= |db.refunds|
  {
    if n == 0 then 0
    else RefundDebits(db, i, n - 1) +
         if db.refunds[n - 1].payment == i then ItemDebits(JournalFor(db.books, RefundRef(n - 1))) else 0
  }

  lemma TransferDebits(x: AccountId, y: AccountId, n: int, kind: TransactionType)
    ensures ItemDebits([JournalItem(kind, Transfer(x, y, n))]) == n
  {
    var ps := Transfer(x, y, n);
    assert ps[..1] == [ps[0]] && ps[..1][..0] == [];
    assert Debits(ps[..1]) == n;
    assert [JournalItem(kind, ps)][..0] == [];
  }

  lemma {:induction false} RefundDebitsAreTotal(opening: map<AccountId, BalanceRow>, db: Db, i: nat, n: nat)
    requires MoneyInv(opening, db) && n <= |db.refunds|
    ensures RefundDebits(db, i, n) == RefundTotal(db.refunds[..n], i)
  {
    if n > 0 {
      RefundDebitsAreTotal(opening, db, i, n - 1);
      assert db.refunds[..n][..n - 1] == db.refunds[..n - 1];
      var r := db.refunds[n - 1];
      var p := db.payments[r.payment];
      assert JournalFor(db.books, RefundRef(n - 1)) == ExpectedJournal(db.payments, db.refunds, RefundRef(n - 1));
      TransferDebits(p.payee, p.payer, r.amount, RefundTxn);
    }
  }

  /** In every reachable state the refunded total of a payment is the sum of its refund rows and of
      the debits posted for them; it is within the amount, and equals it exactly when REFUNDED. */
  lemma RefundsAddUp(accounts: set<AccountId>, opening: map<AccountId, BalanceRow>, acts: seq<Action>, i: nat)
    requires ValidOpening(accounts, opening) && i < |Run(Start(accounts, opening), acts).db.payments|
    ensures var db := Run(Start(accounts, opening), acts).db;
            var p := db.payments[i];
            && p.refunded == RefundTotal(db.refunds, i) == RefundDebits(db, i, |db.refunds|)
            && 0 <= p.refunded <= p.amount
            && (p.refunded > 0 ==> Paid(p))
            && (p.status == Refunded <==> p.refunded == p.amount)
  {
    ReachableInv(accounts, opening, acts);
    var db := Run(Start(accounts, opening), acts).db;
    assert PaymentOk(db.books, db.payments[i]);
    RefundDebitsAreTotal(opening, db, i, |db.refunds|);
    assert db.refunds[..|db.refunds|] == db.refunds;
  }

  /** Exactly when a refund with a fresh key is paid; a non-positive amount never is. */
  lemma RefundSucceedsIff(opening: map<AccountId, BalanceRow>, db: Db, key: string, i: nat, amount: int, now: int)
    requires MoneyInv(opening, db) && Key(REFUND_MERCHANT, key) !in db.claims
    ensures RefundTx(db, key, i, amount, now).Committed? <==>
            && i < |db.payments| && db.payments[i].status == Succeeded
            && 0 < amount <= db.payments[i].amount - db.payments[i].refunded
            && amount <= Bal(db.books.balances, db.payments[i].payee)
  {
    if i < |db.payments| {
      var p := db.payments[i];
      assert PaymentOk(db.books, p);
      PostTransfer(db.books, RefundTxn, RefundRef(|db.refunds|), p.payee, p.payer, amount);
    }
  }

  // ---------- The outbox as a log ----------

  /** The outbox of every reachable state: one processing event per payment, one succeeded or failed
      event per closed hold, one event per refund, nothing else; and their fold is the payments table. */
  lemma OutboxIsFaithful(accounts: set<AccountId>, opening: map<AccountId, BalanceRow>, acts: seq<Action>, ref: Ref)
    requires ValidOpening(accounts, opening)
    ensures var db := Run(Start(accounts, opening), acts).db;
            && EventsOf(db.outbox, ref) == ExpectedEvents(db.payments, db.refunds, ref)
            && Fold(db.outbox) == Table(db.payments)
  {
    ReachableInv(accounts, opening, acts);
  }

  lemma {:induction false} SameKnownSameHoldings(ps: seq<Payment>, qs: seq<Payment>, b: Books, c: Books, a: AccountId)
    requires |ps| == |qs|
    requires forall i :: 0 <= i < |ps| ==> PaymentOk(b, ps[i]) && PaymentOk(c, qs[i])
    requires forall i :: 0 <= i < |ps| ==>
               KnownOf(ps[i]) == KnownOf(qs[i]) && ps[i].payer == qs[i].payer && ps[i].payee == qs[i].payee
    ensures Holdings(ps, a) == Holdings(qs, a)
  {
    if ps != [] {
      var n := |ps| - 1;
      SameKnownSameHoldings(ps[..n], qs[..n], b, c, a);
      assert KnownOf(ps[n]) == KnownOf(qs[n]) && PaymentOk(b, ps[n]) && PaymentOk(c, qs[n]);
    }
  }

  lemma TableSize(ps: seq<Payment>, qs: seq<Payment>)
    requires Table(ps) == Table(qs)
    ensures |ps| <= |qs|
  {
    assert |qs| !in Table(qs);
  }

  /** Opening balances and the outbox, with the parties of each payment, determine every balance. */
  lemma OutboxDeterminesMoney(opening: map<AccountId, BalanceRow>, db: Db, db': Db, a: AccountId)
    requires MoneyInv(opening, db) && MoneyInv(opening, db')
    requires Fold(db.outbox) == Fold(db'.outbox)
    requires forall i :: 0 <= i < |db.payments| && i < |db'.payments| ==>
               db.payments[i].payer == db'.payments[i].payer && db.payments[i].payee == db'.payments[i].payee
    ensures Bal(db.books.balances, a) == Bal(db'.books.balances, a)
  {
    TableSize(db.payments, db'.payments);
    TableSize(db'.payments, db.payments);
    forall i | 0 <= i < |db.payments| ensures KnownOf(db.payments[i]) == KnownOf(db'.payments[i]) {
      assert Table(db.payments)[i] == Table(db'.payments)[i];
    }
    SameKnownSameHoldings(db.payments, db'.payments, db.books, db'.books, a);
  }
}

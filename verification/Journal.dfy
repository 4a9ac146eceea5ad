/** The immutable journal: entries per transaction, transactions per reference, audit sums. */
module Journal {
  import opened Domain
  import opened Ledger
  import opened LedgerLemmas

  // ---------- Reading the journal ----------

  /** The postings of transaction `t`, in insertion order. */
  function EntriesOf(entries: seq<Entry>, t: nat): seq<Posting> {
    if entries == [] then []
    else
      var last := entries[|entries| - 1];
      EntriesOf(entries[..|entries| - 1], t) + if last.txn == t then [last.posting] else []
  }

  datatype JournalItem = JournalItem(kind: TransactionType, postings: seq<Posting>)

  /** The transactions that carry reference `ref`, oldest first, each with its postings. */
  function JournalOf(txns: seq<Txn>, entries: seq<Entry>, ref: Ref): seq<JournalItem> {
    if txns == [] then []
    else
      var t := |txns| - 1;
      JournalOf(txns[..t], entries, ref) +
      if txns[t].ref == ref then [JournalItem(txns[t].kind, EntriesOf(entries, t))] else []
  }

  function JournalFor(b: Books, ref: Ref): seq<JournalItem> {
    JournalOf(b.txns, b.entries, ref)
  }

  /** Debits minus credits of transaction `t`, as the deferred trigger sums them. */
  function TxnNet(entries: seq<Entry>, t: nat): int {
    if entries == [] then 0
    else
      var last := entries[|entries| - 1];
      TxnNet(entries[..|entries| - 1], t) + if last.txn == t then Signed(last.posting) else 0
  }

  /** Debits minus credits over all entries, the first sum of the audit. */
  function LedgerNet(entries: seq<Entry>): int {
    if entries == [] then 0
    else LedgerNet(entries[..|entries| - 1]) + Signed(entries[|entries| - 1].posting)
  }

  /** Credits minus debits on account `a`, the computed balance of the audit. */
  function AccountNet(entries: seq<Entry>, a: AccountId): int {
    if entries == [] then 0
    else
      var last := entries[|entries| - 1].posting;
      AccountNet(entries[..|entries| - 1], a) + if last.account == a then -Signed(last) else 0
  }

  /** The number of entries on account `a`. */
  function EntryCount(entries: seq<Entry>, a: AccountId): nat {
    if entries == [] then 0
    else EntryCount(entries[..|entries| - 1], a) + if entries[|entries| - 1].posting.account == a then 1 else 0
  }

  /** Every entry belongs to a committed transaction and to an account with a balance row. */
  ghost predicate EntriesLinked(b: Books) {
    forall i :: 0 <= i < |b.entries| ==>
      b.entries[i].txn < |b.txns| && b.entries[i].posting.account in b.balances
  }

  /** The deferred constraint trigger holds for every committed transaction. */
  ghost predicate TriggerHolds(b: Books) {
    forall t :: 0 <= t < |b.txns| ==> TxnNet(b.entries, t) == 0
  }

  // ---------- Appending one transaction ----------

  lemma EntriesSnoc(es: seq<Entry>, e: Entry, u: nat, a: AccountId)
    ensures EntriesOf(es + [e], u) == EntriesOf(es, u) + if e.txn == u then [e.posting] else []
    ensures TxnNet(es + [e], u) == TxnNet(es, u) + if e.txn == u then Signed(e.posting) else 0
    ensures LedgerNet(es + [e]) == LedgerNet(es) + Signed(e.posting)
    ensures AccountNet(es + [e], a) == AccountNet(es, a) - if e.posting.account == a then Signed(e.posting) else 0
    ensures EntryCount(es + [e], a) == EntryCount(es, a) + if e.posting.account == a then 1 else 0
  {
    assert (es + [e])[..|es|] == es;
  }

  lemma TaggedSnoc(es: seq<Entry>, t: nat, ps: seq<Posting>)
    requires ps != []
    ensures es + Tagged(t, ps) == es + Tagged(t, ps[..|ps| - 1]) + [Entry(t, ps[|ps| - 1])]
  {
  }

  lemma {:induction false} AppendedEntries(es: seq<Entry>, t: nat, ps: seq<Posting>, u: nat)
    ensures EntriesOf(es + Tagged(t, ps), u) == EntriesOf(es, u) + if u == t then ps else []
    ensures TxnNet(es + Tagged(t, ps), u) == TxnNet(es, u) + if u == t then Net(ps) else 0
    decreases |ps|
  {
    if ps == [] {
      assert es + Tagged(t, ps) == es;
    } else {
      var init, last := ps[..|ps| - 1], ps[|ps| - 1];
      AppendedEntries(es, t, init, u);
      TaggedSnoc(es, t, ps);
      EntriesSnoc(es + Tagged(t, init), Entry(t, last), u, 0);
      assert ps == init + [last];
    }
  }

  lemma {:induction false} AppendedSums(es: seq<Entry>, t: nat, ps: seq<Posting>, a: AccountId)
    ensures LedgerNet(es + Tagged(t, ps)) == LedgerNet(es) + Net(ps)
    ensures AccountNet(es + Tagged(t, ps), a) == AccountNet(es, a) + Delta(ps, a)
    ensures EntryCount(es + Tagged(t, ps), a) == EntryCount(es, a) + Touches(ps, a)
    decreases |ps|
  {
    if ps == [] {
      assert es + Tagged(t, ps) == es;
    } else {
      var init, last := ps[..|ps| - 1], ps[|ps| - 1];
      AppendedSums(es, t, init, a);
      TaggedSnoc(es, t, ps);
      EntriesSnoc(es + Tagged(t, init), Entry(t, last), t, a);
    }
  }

  lemma {:induction false} NoEntriesYet(es: seq<Entry>, t: nat)
    requires forall i :: 0 <= i < |es| ==> es[i].txn != t
    ensures EntriesOf(es, t) == [] && TxnNet(es, t) == 0
  {
    if es != [] {
      NoEntriesYet(es[..|es| - 1], t);
    }
  }

  lemma {:induction false} JournalIgnoresLaterEntries(txns: seq<Txn>, es: seq<Entry>, t: nat, ps: seq<Posting>,
                                                      ref: Ref)
    requires |txns| <= t
    ensures JournalOf(txns, es + Tagged(t, ps), ref) == JournalOf(txns, es, ref)
  {
    if txns != [] {
      JournalIgnoresLaterEntries(txns[..|txns| - 1], es, t, ps, ref);
      AppendedEntries(es, t, ps, |txns| - 1);
      assert EntriesOf(es + Tagged(t, ps), |txns| - 1) == EntriesOf(es, |txns| - 1);
    }
  }

  lemma PostedKeepsLinks(b: Books, b': Books, kind: TransactionType, ref: Ref, ps: seq<Posting>)
    requires EntriesLinked(b) && Posted(b, b', kind, ref, ps)
    ensures EntriesLinked(b')
  {
    forall i | 0 <= i < |b'.entries|
      ensures b'.entries[i].txn < |b'.txns| && b'.entries[i].posting.account in b'.balances
    {
      if i >= |b.entries| {
        assert b'.entries[i].posting == ps[i - |b.entries|];
        assert ps[i - |b.entries|].account in AccountsOf(ps);
      }
    }
  }

  /** A successful `post` adds one item, with exactly its postings, under its own reference only. */
  lemma PostJournal(b: Books, kind: TransactionType, ref: Ref, ps: seq<Posting>, r: Ref)
    requires EntriesLinked(b) && Post(b, kind, ref, ps).Ok?
    ensures var b' := Post(b, kind, ref, ps).value;
            JournalFor(b', r) == JournalFor(b, r) + if r == ref then [JournalItem(kind, ps)] else []
  {
    PostEffect(b, kind, ref, ps);
    PostedJournal(b, Post(b, kind, ref, ps).value, kind, ref, ps, r);
  }

  lemma PostedJournal(b: Books, b': Books, kind: TransactionType, ref: Ref, ps: seq<Posting>, r: Ref)
    requires EntriesLinked(b) && Posted(b, b', kind, ref, ps)
    ensures JournalFor(b', r) == JournalFor(b, r) + if r == ref then [JournalItem(kind, ps)] else []
  {
    var t := |b.txns|;
    assert b'.txns[..t] == b.txns;
    NoEntriesYet(b.entries, t);
    AppendedEntries(b.entries, t, ps, t);
    JournalIgnoresLaterEntries(b.txns, b.entries, t, ps, r);
    assert EntriesOf(b'.entries, t) == ps;
  }

  // ---------- The audit sums ----------

  /** Balance and version of account `a`, less what the entries explain. */
  function Unexplained(b: Books, a: AccountId): (int, int) {
    (Bal(b.balances, a) - AccountNet(b.entries, a), Row(b.balances, a).version - EntryCount(b.entries, a))
  }

  /** `post` moves every balance by exactly what it adds to the account's computed balance, and
      every version by the number of new entries; global and per-transaction nets stay zero. */
  lemma PostAudit(b: Books, kind: TransactionType, ref: Ref, ps: seq<Posting>)
    requires EntriesLinked(b) && TriggerHolds(b) && Post(b, kind, ref, ps).Ok?
    ensures var b' := Post(b, kind, ref, ps).value;
            && TriggerHolds(b')
            && LedgerNet(b'.entries) == LedgerNet(b.entries)
            && forall a :: Unexplained(b', a) == Unexplained(b, a)
  {
    PostEffect(b, kind, ref, ps);
    PostIsBalanced(b, kind, ref, ps);
    PostedAudit(b, Post(b, kind, ref, ps).value, kind, ref, ps);
  }

  lemma PostIsBalanced(b: Books, kind: TransactionType, ref: Ref, ps: seq<Posting>)
    requires Post(b, kind, ref, ps).Ok?
    ensures Net(ps) == 0
  {
  }

  lemma PostedKeepsTrigger(b: Books, b': Books, kind: TransactionType, ref: Ref, ps: seq<Posting>)
    requires EntriesLinked(b) && TriggerHolds(b) && Posted(b, b', kind, ref, ps) && Net(ps) == 0
    ensures TriggerHolds(b') && LedgerNet(b'.entries) == LedgerNet(b.entries)
  {
    var t := |b.txns|;
    NoEntriesYet(b.entries, t);
    AppendedSums(b.entries, t, ps, 0);
    forall u | 0 <= u < |b'.txns| ensures TxnNet(b'.entries, u) == 0 {
      AppendedEntries(b.entries, t, ps, u);
    }
  }

  lemma PostedIsExplained(b: Books, b': Books, kind: TransactionType, ref: Ref, ps: seq<Posting>, a: AccountId)
    requires Posted(b, b', kind, ref, ps)
    ensures Unexplained(b', a) == Unexplained(b, a)
  {
    AppendedSums(b.entries, |b.txns|, ps, a);
    assert Row(b'.balances, a) ==
           BalanceRow(Bal(b.balances, a) + Delta(ps, a), Row(b.balances, a).version + Touches(ps, a));
  }

  lemma PostedAudit(b: Books, b': Books, kind: TransactionType, ref: Ref, ps: seq<Posting>)
    requires EntriesLinked(b) && TriggerHolds(b) && Posted(b, b', kind, ref, ps) && Net(ps) == 0
    ensures TriggerHolds(b') && LedgerNet(b'.entries) == LedgerNet(b.entries)
    ensures forall a :: Unexplained(b', a) == Unexplained(b, a)
  {
    PostedKeepsTrigger(b, b', kind, ref, ps);
    forall a ensures Unexplained(b', a) == Unexplained(b, a) {
      PostedIsExplained(b, b', kind, ref, ps, a);
    }
  }

  function NetUpTo(entries: seq<Entry>, n: nat): int {
    if n == 0 then 0 else NetUpTo(entries, n - 1) + TxnNet(entries, n - 1)
  }

  /** Per-transaction nets regroup to the global net. */
  lemma {:induction false} NetsRegroup(entries: seq<Entry>, n: nat)
    requires forall i :: 0 <= i < |entries| ==> entries[i].txn < n
    ensures NetUpTo(entries, n) == LedgerNet(entries)
  {
    if entries == [] {
      NetUpToEmpty(n);
    } else {
      NetsRegroup(entries[..|entries| - 1], n);
      NetUpToSnoc(entries, n);
    }
  }

  lemma {:induction false} NetUpToEmpty(n: nat)
    ensures NetUpTo([], n) == 0
  {
    if n > 0 {
      NetUpToEmpty(n - 1);
    }
  }

  lemma {:induction false} NetUpToSnoc(entries: seq<Entry>, n: nat)
    requires entries != []
    ensures var last := entries[|entries| - 1];
            NetUpTo(entries, n) == NetUpTo(entries[..|entries| - 1], n) + if last.txn < n then Signed(last.posting)
              else 0
  {
    if n > 0 {
      NetUpToSnoc(entries, n - 1);
    }
  }

  lemma {:induction false} ZeroNetsSum(entries: seq<Entry>, n: nat)
    requires forall t :: 0 <= t < n ==> TxnNet(entries, t) == 0
    ensures NetUpTo(entries, n) == 0
  {
    if n > 0 {
      ZeroNetsSum(entries, n - 1);
    }
  }

  /** When every transaction passes the trigger, the audit's global net is zero. */
  lemma TriggerGivesZeroNet(b: Books)
    requires EntriesLinked(b) && TriggerHolds(b)
    ensures LedgerNet(b.entries) == 0
  {
    NetsRegroup(b.entries, |b.txns|);
    ZeroNetsSum(b.entries, |b.txns|);
  }

  // ---------- Sum of all balances ----------

  /** The sum of the balances of all accounts with an id below `n`. */
  function TotalBelow(m: map<AccountId, BalanceRow>, n: nat): int {
    if n == 0 then 0 else TotalBelow(m, n - 1) + Bal(m, n - 1)
  }

  function DeltaBelow(ps: seq<Posting>, n: nat): int {
    if n == 0 then 0 else DeltaBelow(ps, n - 1) + Delta(ps, n - 1)
  }

  lemma {:induction false} DeltaBelowIsNet(ps: seq<Posting>, n: nat)
    requires forall i :: 0 <= i < |ps| ==> ps[i].account < n
    ensures DeltaBelow(ps, n) == -Net(ps)
  {
    if ps == [] {
      DeltaBelowEmpty(n);
    } else {
      var init, last := ps[..|ps| - 1], ps[|ps| - 1];
      DeltaBelowIsNet(init, n);
      DeltaBelowSnoc(ps, n);
    }
  }

  lemma {:induction false} DeltaBelowEmpty(n: nat)
    ensures DeltaBelow([], n) == 0
  {
    if n > 0 {
      DeltaBelowEmpty(n - 1);
    }
  }

  lemma {:induction false} DeltaBelowSnoc(ps: seq<Posting>, n: nat)
    requires ps != []
    ensures var last := ps[|ps| - 1];
            DeltaBelow(ps, n) == DeltaBelow(ps[..|ps| - 1], n) - if last.account < n then Signed(last) else 0
  {
    if n > 0 {
      DeltaBelowSnoc(ps, n - 1);
    }
  }

  lemma {:induction false} TotalShift(m: map<AccountId, BalanceRow>, m': map<AccountId, BalanceRow>,
                                      ps: seq<Posting>, n: nat)
    requires forall a :: Bal(m', a) == Bal(m, a) + Delta(ps, a)
    ensures TotalBelow(m', n) == TotalBelow(m, n) + DeltaBelow(ps, n)
  {
    if n > 0 {
      TotalShift(m, m', ps, n - 1);
    }
  }

  ghost predicate IdsBelow(b: Books, n: nat) {
    && (forall a :: a in b.accounts ==> a < n)
    && (forall a :: a in b.balances ==> a < n)
  }

  /** `post` conserves money: the sum of all balances does not change. */
  lemma PostConserves(b: Books, kind: TransactionType, ref: Ref, ps: seq<Posting>, n: nat)
    requires Post(b, kind, ref, ps).Ok?
    requires IdsBelow(b, n)
    ensures IdsBelow(Post(b, kind, ref, ps).value, n)
    ensures TotalBelow(Post(b, kind, ref, ps).value.balances, n) == TotalBelow(b.balances, n)
  {
    PostEffect(b, kind, ref, ps);
    forall a ensures Bal(Post(b, kind, ref, ps).value.balances, a) == Bal(b.balances, a) + Delta(ps, a) {
      assert Row(Post(b, kind, ref, ps).value.balances, a).balance == Bal(b.balances, a) + Delta(ps, a);
    }
    TotalShift(b.balances, Post(b, kind, ref, ps).value.balances, ps, n);
    forall i | 0 <= i < |ps| ensures ps[i].account < n {
      assert ps[i].account in AccountsOf(ps) && ps[i].account in b.balances.Keys + b.accounts;
    }
    DeltaBelowIsNet(ps, n);
  }

  function NetsBelow(entries: seq<Entry>, n: nat): int {
    if n == 0 then 0 else NetsBelow(entries, n - 1) + AccountNet(entries, n - 1)
  }

  lemma {:induction false} NetsBelowEmpty(n: nat)
    ensures NetsBelow([], n) == 0
  {
    if n > 0 {
      NetsBelowEmpty(n - 1);
    }
  }

  lemma {:induction false} NetsBelowSnoc(entries: seq<Entry>, n: nat)
    requires entries != []
    ensures var last := entries[|entries| - 1].posting;
            NetsBelow(entries, n) == NetsBelow(entries[..|entries| - 1], n) - if last.account < n then Signed(last)
              else 0
  {
    if n > 0 {
      NetsBelowSnoc(entries, n - 1);
    }
  }

  /** The computed balances of all accounts sum to minus the global net. */
  lemma {:induction false} AccountNetsRegroup(entries: seq<Entry>, n: nat)
    requires forall i :: 0 <= i < |entries| ==> entries[i].posting.account < n
    ensures NetsBelow(entries, n) == -LedgerNet(entries)
  {
    if entries == [] {
      NetsBelowEmpty(n);
    } else {
      AccountNetsRegroup(entries[..|entries| - 1], n);
      NetsBelowSnoc(entries, n);
    }
  }

  lemma {:induction false} TotalFromNets(m: map<AccountId, BalanceRow>, m0: map<AccountId, BalanceRow>,
                                         entries: seq<Entry>, n: nat)
    requires forall a :: Bal(m, a) - AccountNet(entries, a) == Bal(m0, a)
    ensures TotalBelow(m, n) == TotalBelow(m0, n) + NetsBelow(entries, n)
  {
    if n > 0 {
      TotalFromNets(m, m0, entries, n - 1);
    }
  }

  /** With non-negative balances each balance is at most the sum. */
  lemma {:induction false} BalanceAtMostTotal(m: map<AccountId, BalanceRow>, n: nat, a: AccountId)
    requires NonNegative(m)
    ensures 0 <= TotalBelow(m, n)
    ensures a < n ==> Bal(m, a) <= TotalBelow(m, n)
  {
    if n > 0 {
      BalanceAtMostTotal(m, n - 1, a);
    }
  }
}

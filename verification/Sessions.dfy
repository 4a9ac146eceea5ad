/** A database session and the ledger service that works on it in place. */
module Sessions {
  import opened Wrappers
  import opened Domain
  import opened Ledger
  import opened LedgerLemmas

  /**
   The tables as one open transaction sees and changes them.  `View` is their value; `Restore` and
   `Commit` are what the surrounding `session.begin()` block does when it is left with or without
   an exception.  `locks` lists the balance rows locked so far, in the order of the statements.
   */
  class Session {
    const accounts: set<AccountId>
    var balances: map<AccountId, BalanceRow>
    var txns: seq<Txn>
    var entries: seq<Entry>
    var payments: seq<Payment>
    var refunds: seq<Refund>
    var claims: map<Key, Claim>
    var events: set<string>
    var outbox: seq<OutboxRow>
    var locks: seq<AccountId>

    function View(): Db
      reads this
    {
      Db(Books(accounts, balances, txns, entries), payments, refunds, claims, events, outbox)
    }

    constructor (db: Db)
      ensures View() == db && locks == []
    {
      accounts := db.books.accounts;
      balances, txns, entries := db.books.balances, db.books.txns, db.books.entries;
      payments, refunds, claims := db.payments, db.refunds, db.claims;
      events, outbox, locks := db.events, db.outbox, [];
    }

    method Commit()
      modifies this`locks
      ensures locks == []
    {
      locks := [];
    }

    method Restore(db: Db)
      requires db.books.accounts == accounts
      modifies this
      ensures View() == db && locks == []
    {
      balances, txns, entries := db.books.balances, db.books.txns, db.books.entries;
      payments, refunds, claims := db.payments, db.refunds, db.claims;
      events, outbox, locks := db.events, db.outbox, [];
    }
  }

  class LedgerService {
    constructor () {}

    /** The balancing check, one pass over the postings. */
    method ValidateBalanced(postings: seq<Posting>) returns (r: Result<(), Error>)
      ensures r.Ok? <==> |postings| >= 2 && Positive(postings) && Net(postings) == 0
      ensures r == Validate(postings)
      ensures |postings| < 2 ==> r == Err(LedgerImbalance(0))
      ensures |postings| >= 2 && Positive(postings) && Net(postings) != 0 ==> r == Err(LedgerImbalance(Net(postings)))
      ensures |postings| >= 2 ==>
                forall k :: 0 <= k < |postings| && Positive(postings[..k]) && postings[k].amount <= 0 ==>
                  r == Err(NonPositiveAmount(postings[k].amount))
    {
      if |postings| < 2 {
        return Err(LedgerImbalance(0));
      }
      var net := 0;
      for i := 0 to |postings|
        invariant forall j :: 0 <= j < i ==> postings[j].amount > 0
        invariant net == Net(postings[..i])
      {
        assert postings[..i + 1][..i] == postings[..i];
        var p := postings[i];
        if p.amount <= 0 {
          return Err(NonPositiveAmount(p.amount));
        }
        match p.direction {
          case Debit => net := net + p.amount;
          case Credit => net := net - p.amount;
        }
      }
      assert postings[..|postings|] == postings;
      if net != 0 {
        return Err(LedgerImbalance(net));
      }
      return Ok(());
    }

    /** Step 3: lock the balance rows in ascending account order, creating the missing ones. */
    method LockBalances(s: Session, postings: seq<Posting>) returns (r: Result<(), Error>)
      modifies s`balances, s`locks
      ensures r == if AccountsOf(postings) <= old(s.balances).Keys + s.accounts then Ok(()) else Err(UnknownAccount)
      ensures r.Ok? ==> s.balances == Opened(old(s.balances), AccountsOf(postings))
      ensures r.Ok? ==> s.locks == old(s.locks) + SortedAccounts(postings)
    {
      var sorted := SortedAccounts(postings);
      ghost var m, known := s.balances, s.balances.Keys + s.accounts;
      ghost var done: set<AccountId> := {};
      for i := 0 to |sorted|
        invariant forall x :: x in done <==> x in sorted[..i]
        invariant done <= known
        invariant s.balances == Opened(m, done)
        invariant s.locks == old(s.locks) + sorted[..i]
      {
        var a := sorted[i];
        assert a in sorted && a !in sorted[..i];
        assert sorted[..i + 1] == sorted[..i] + [a];
        if a !in s.balances {
          if a !in s.accounts {
            assert a in AccountsOf(postings) && a !in known;
            return Err(UnknownAccount);
          }
          s.balances := s.balances[a := BalanceRow(0, 0)];
        }
        s.locks := s.locks + [a];
        OpenedSnoc(m, done, a);
        done := done + {a};
      }
      assert sorted[..|sorted|] == sorted;
      assert forall x :: x in done <==> x in AccountsOf(postings);
      assert done == AccountsOf(postings);
      return Ok(());
    }

    /**
     Step 4: apply the postings to the locked rows one by one, appending each entry before its
     funds check.  On success the entries of transaction `t` and the balances are the specified
     ones; on failure the error is the one of the first posting that overdraws.
     */
    method ApplyPostings(s: Session, t: nat, postings: seq<Posting>) returns (r: Result<(), Error>)
      modifies s`balances, s`entries
      ensures r.Ok? == Apply(old(s.balances), postings).Ok?
      ensures r.Ok? ==> s.balances == Apply(old(s.balances), postings).value
      ensures r.Ok? ==> s.entries == old(s.entries) + Tagged(t, postings)
      ensures r.Err? ==> r.error == Apply(old(s.balances), postings).error
    {
      for k := 0 to |postings|
        invariant Apply(old(s.balances), postings[..k]) == Ok(s.balances)
        invariant s.entries == old(s.entries) + Tagged(t, postings[..k])
      {
        var p := postings[k];
        assert postings[..k + 1][..k] == postings[..k];
        s.entries := s.entries + [Entry(t, p)];
        var row := Row(s.balances, p.account);
        match p.direction {
          case Debit =>
            if row.balance < p.amount {
              ApplyStopsAtFirstError(old(s.balances), postings, k + 1);
              return Err(InsufficientFunds(p.account, row.balance, p.amount));
            }
            row := row.(balance := row.balance - p.amount);
          case Credit =>
            row := row.(balance := row.balance + p.amount);
        }
        row := row.(version := row.version + 1);
        s.balances := s.balances[p.account := row];
      }
      assert postings[..|postings|] == postings;
      return Ok(());
    }

    /**
     Validate, insert the transaction row, lock the balance rows, apply the postings.  On an
     exception the session is left half-written for the caller's rollback.
     */
    method Post(s: Session, kind: TransactionType, ref: Ref, postings: seq<Posting>) returns (r: Result<(), Error>)
      modifies s`balances, s`locks, s`txns, s`entries
      ensures r.Ok? == Ledger.Post(old(s.View().books), kind, ref, postings).Ok?
      ensures r.Ok? ==> s.View().books == Ledger.Post(old(s.View().books), kind, ref, postings).value
      ensures r.Err? ==> r.error == Ledger.Post(old(s.View().books), kind, ref, postings).error
      ensures r.Ok? ==> s.locks == old(s.locks) + SortedAccounts(postings)
    {
      var valid := ValidateBalanced(postings);
      if valid.Err? {
        return valid;
      }
      var t := |s.txns|;
      s.txns := s.txns + [Txn(kind, ref)];
      var locked := LockBalances(s, postings);
      if locked.Err? {
        return locked;
      }
      r := ApplyPostings(s, t, postings);
    }
  }
}

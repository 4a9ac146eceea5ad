/** What `post` means: its closed form, when it succeeds, and what it leaves alone. */
module LedgerLemmas {
  import opened Wrappers
  import opened Domain
  import opened Ledger

  // ---------- Closed form of the apply loop ----------

  /** Each account ends at start + credits - debits, its version raised by its number of postings. */
  lemma {:induction false} ApplyClosedForm(m: map<AccountId, BalanceRow>, ps: seq<Posting>, a: AccountId)
    requires Apply(m, ps).Ok?
    ensures Row(Apply(m, ps).value, a) == BalanceRow(Bal(m, a) + Delta(ps, a), Row(m, a).version + Touches(ps, a))
    ensures Apply(m, ps).value.Keys == m.Keys + AccountsOf(ps)
    decreases |ps|
  {
    if ps == [] {
    } else {
      var init, last := ps[..|ps| - 1], ps[|ps| - 1];
      ApplyClosedForm(m, init, a);
      assert ps == init + [last];
      assert AccountsOf(ps) == AccountsOf(init) + {last.account};
    }
  }

  /** A failure of a prefix is the failure of the whole list. */
  lemma {:induction false} ApplyStopsAtFirstError(m: map<AccountId, BalanceRow>, ps: seq<Posting>, k: nat)
    requires k <= |ps|
    requires Apply(m, ps[..k]).Err?
    ensures Apply(m, ps) == Apply(m, ps[..k])
    decreases |ps|
  {
    if k == |ps| {
      assert ps[..k] == ps;
    } else {
      assert ps[..|ps| - 1][..k] == ps[..k];
      ApplyStopsAtFirstError(m, ps[..|ps| - 1], k);
    }
  }

  /** Every account stays non-negative after each prefix of the list. */
  ghost predicate NeverOverdrawn(m: map<AccountId, BalanceRow>, ps: seq<Posting>) {
    forall k, a | 0 <= k <= |ps| :: Bal(m, a) + Delta(ps[..k], a) >= 0
  }

  /** From non-negative balances, the loop succeeds exactly when no prefix overdraws an account. */
  lemma {:induction false} ApplySucceedsIff(m: map<AccountId, BalanceRow>, ps: seq<Posting>)
    requires NonNegative(m) && Positive(ps)
    ensures Apply(m, ps).Ok? <==> NeverOverdrawn(m, ps)
    ensures Apply(m, ps).Ok? ==> NonNegative(Apply(m, ps).value)
    decreases |ps|
  {
    if ps == [] {
      assert forall k | 0 <= k <= |ps| :: ps[..k] == [];
    } else {
      var init, last := ps[..|ps| - 1], ps[|ps| - 1];
      ApplySucceedsIff(m, init);
      assert ps[..|ps|] == ps;
      assert forall k | 0 <= k <= |init| :: init[..k] == ps[..k];
      if Apply(m, init).Ok? {
        forall a ensures Bal(Apply(m, init).value, a) == Bal(m, a) + Delta(init, a) {
          ApplyClosedForm(m, init, a);
        }
        if Apply(m, ps).Err? {
          assert Bal(m, last.account) + Delta(ps[..|ps|], last.account) < 0;
        } else {
          OneMorePrefix(m, ps);
        }
      } else {
        var k, a :| 0 <= k <= |init| && Bal(m, a) + Delta(init[..k], a) < 0;
        assert Bal(m, a) + Delta(ps[..k], a) < 0;
      }
    }
  }

  lemma OneMorePrefix(m: map<AccountId, BalanceRow>, ps: seq<Posting>)
    requires ps != [] && NonNegative(m) && Positive(ps)
    requires NeverOverdrawn(m, ps[..|ps| - 1]) && Apply(m, ps).Ok?
    ensures NeverOverdrawn(m, ps)
  {
    var init, last := ps[..|ps| - 1], ps[|ps| - 1];
    forall k, a | 0 <= k <= |ps| ensures Bal(m, a) + Delta(ps[..k], a) >= 0 {
      if k < |ps| {
        assert ps[..k] == init[..k];
      } else {
        assert ps[..k] == ps && init[..|init|] == init;
        ApplyClosedForm(m, init, a);
        assert Bal(m, a) + Delta(init[..|init|], a) >= 0;
      }
    }
  }

  lemma OpenedSnoc(m: map<AccountId, BalanceRow>, done: set<AccountId>, a: AccountId)
    ensures Opened(m, done + {a}) ==
            if a in Opened(m, done) then Opened(m, done) else Opened(m, done)[a := BalanceRow(0, 0)]
    ensures Opened(m, done).Keys == m.Keys + done
  {
    assert Opened(m, done).Keys == m.Keys + done;
  }

  // ---------- post ----------

  /** `post` accepts a list exactly when it is balanced, its accounts exist and no prefix overdraws. */
  lemma PostSucceedsIff(b: Books, kind: TransactionType, ref: Ref, ps: seq<Posting>)
    requires NonNegative(b.balances)
    ensures Post(b, kind, ref, ps).Ok? <==>
            && |ps| >= 2 && Positive(ps) && Net(ps) == 0
            && AccountsOf(ps) <= b.balances.Keys + b.accounts
            && NeverOverdrawn(b.balances, ps)
  {
    if Positive(ps) {
      var m := Opened(b.balances, AccountsOf(ps));
      assert forall a :: Bal(m, a) == Bal(b.balances, a);
      ApplySucceedsIff(m, ps);
    }
  }

  /** `b'` is `b` after one transaction with these postings: one row, one entry each, all balances and versions. */
  ghost predicate Posted(b: Books, b': Books, kind: TransactionType, ref: Ref, ps: seq<Posting>) {
    && b'.accounts == b.accounts
    && b'.txns == b.txns + [Txn(kind, ref)]
    && b'.entries == b.entries + Tagged(|b.txns|, ps)
    && b'.balances.Keys == b.balances.Keys + AccountsOf(ps)
    && forall a :: Row(b'.balances, a) ==
                   BalanceRow(Bal(b.balances, a) + Delta(ps, a), Row(b.balances, a).version + Touches(ps, a))
  }

  /** The whole new state of a successful `post`. */
  lemma PostEffect(b: Books, kind: TransactionType, ref: Ref, ps: seq<Posting>)
    requires Post(b, kind, ref, ps).Ok?
    ensures Posted(b, Post(b, kind, ref, ps).value, kind, ref, ps)
  {
    var m := Opened(b.balances, AccountsOf(ps));
    forall a ensures Row(Apply(m, ps).value, a) ==
      BalanceRow(Bal(m, a) + Delta(ps, a), Row(m, a).version + Touches(ps, a))
    {
      ApplyClosedForm(m, ps, a);
    }
    ApplyClosedForm(m, ps, 0);
  }

  lemma PostKeepsNonNegative(b: Books, kind: TransactionType, ref: Ref, ps: seq<Posting>)
    requires NonNegative(b.balances) && Post(b, kind, ref, ps).Ok?
    ensures NonNegative(Post(b, kind, ref, ps).value.balances)
  {
    ApplySucceedsIff(Opened(b.balances, AccountsOf(ps)), ps);
  }

  /** Account `x` paid `n` to account `y` in one new transaction, and nothing else changed. */
  ghost predicate Transferred(b: Books, b': Books, kind: TransactionType, ref: Ref, x: AccountId, y: AccountId,
                              n: int) {
    && Posted(b, b', kind, ref, Transfer(x, y, n))
    && b'.balances.Keys == b.balances.Keys + {x, y}
    && (forall a :: Bal(b'.balances, a) ==
                    Bal(b.balances, a) - (if a == x then n else 0) + (if a == y then n else 0))
  }

  /** Two postings: succeeds exactly for a positive amount that the debited account covers. */
  lemma PostTransfer(b: Books, kind: TransactionType, ref: Ref, x: AccountId, y: AccountId, n: int)
    ensures Post(b, kind, ref, Transfer(x, y, n)).Ok? <==>
            n > 0 && {x, y} <= b.balances.Keys + b.accounts && Bal(b.balances, x) >= n
    ensures Post(b, kind, ref, Transfer(x, y, n)).Ok? ==>
              Transferred(b, Post(b, kind, ref, Transfer(x, y, n)).value, kind, ref, x, y, n)
  {
    var ps := Transfer(x, y, n);
    assert ps[..1] == [ps[0]] && ps[..0] == [];
    assert AccountsOf(ps) == {x, y} by {
      assert ps[0].account == x && ps[1].account == y;
    }
    TransferSums(x, y, n);
    assert FirstBad(ps) < 2 <==> n <= 0;
    var m := Opened(b.balances, AccountsOf(ps));
    assert Bal(m, x) == Bal(b.balances, x);
    assert Apply(m, ps[..1]) == ApplyOne(m, ps[0]) by {
      assert ps[..1][..0] == [];
      assert Apply(m, []) == Ok(m);
    }
    if Post(b, kind, ref, ps).Ok? {
      PostEffect(b, kind, ref, ps);
    }
  }

  /** Why a transfer is refused, first reason first; `None` if it goes through. */
  function TransferRefusal(b: Books, x: AccountId, y: AccountId, n: int): Option<Error> {
    if n <= 0 then Some(NonPositiveAmount(n))
    else if !({x, y} <= b.balances.Keys + b.accounts) then Some(UnknownAccount)
    else if Bal(b.balances, x) < n then Some(InsufficientFunds(x, Bal(b.balances, x), n))
    else None
  }

  lemma TransferRefused(b: Books, kind: TransactionType, ref: Ref, x: AccountId, y: AccountId, n: int)
    ensures Post(b, kind, ref, Transfer(x, y, n)).Ok? <==> TransferRefusal(b, x, y, n).None?
    ensures Post(b, kind, ref, Transfer(x, y, n)).Err? ==>
              TransferRefusal(b, x, y, n) == Some(Post(b, kind, ref, Transfer(x, y, n)).error)
  {
    PostTransfer(b, kind, ref, x, y, n);
    var ps := Transfer(x, y, n);
    TransferSums(x, y, n);
    assert AccountsOf(ps) == {x, y} by {
      assert ps[0].account == x && ps[1].account == y;
    }
    if n > 0 && {x, y} <= b.balances.Keys + b.accounts && Bal(b.balances, x) < n {
      DebitFails(Opened(b.balances, {x, y}), x, y, n);
    } else if n <= 0 {
      assert ps[..1] == [ps[0]] && ps[..1][..0] == [];
    }
  }

  lemma DebitFails(m: map<AccountId, BalanceRow>, x: AccountId, y: AccountId, n: int)
    requires Bal(m, x) < n
    ensures Apply(m, Transfer(x, y, n)) == Err(InsufficientFunds(x, Bal(m, x), n))
  {
    var ps := Transfer(x, y, n);
    assert ps[..1] == [ps[0]] && ps[..1][..0] == [];
    assert Apply(m, ps[..1]) == ApplyOne(m, ps[0]);
  }

  /** The error of a posting list is that of its first debit that the account does not cover. */
  lemma {:induction false} ApplyErrorMeaning(m: map<AccountId, BalanceRow>, ps: seq<Posting>) returns (k: nat)
    requires Apply(m, ps).Err?
    ensures k < |ps| && Apply(m, ps[..k]).Ok? && ps[k].direction == Debit
    ensures var have := Bal(m, ps[k].account) + Delta(ps[..k], ps[k].account);
            have < ps[k].amount && Apply(m, ps).error == InsufficientFunds(ps[k].account, have, ps[k].amount)
    decreases |ps|
  {
    var n := |ps| - 1;
    if Apply(m, ps[..n]).Err? {
      k := ApplyErrorMeaning(m, ps[..n]);
      assert ps[..n][..k] == ps[..k];
    } else {
      k := n;
      ApplyClosedForm(m, ps[..n], ps[n].account);
    }
  }

  lemma TransferSums(x: AccountId, y: AccountId, n: int)
    ensures Net(Transfer(x, y, n)) == 0
    ensures forall a :: Delta(Transfer(x, y, n), a) == (if a == y then n else 0) - (if a == x then n else 0)
    ensures forall a :: Touches(Transfer(x, y, n), a) == (if a == y then 1 else 0) + (if a == x then 1 else 0)
  {
    var debit, credit := Posting(x, Debit, n), Posting(y, Credit, n);
    assert Transfer(x, y, n) == [] + [debit] + [credit];
    SumsSnoc([], debit, x);
    SumsSnoc([] + [debit], credit, x);
    forall a ensures
        && Delta(Transfer(x, y, n), a) == (if a == y then n else 0) - (if a == x then n else 0)
        && Touches(Transfer(x, y, n), a) == (if a == y then 1 else 0) + (if a == x then 1 else 0)
    {
      SumsSnoc([], debit, a);
      SumsSnoc([] + [debit], credit, a);
    }
  }

  lemma SumsSnoc(ps: seq<Posting>, p: Posting, a: AccountId)
    ensures Net(ps + [p]) == Net(ps) + Signed(p)
    ensures Delta(ps + [p], a) == Delta(ps, a) + if p.account == a then -Signed(p) else 0
    ensures Touches(ps + [p], a) == Touches(ps, a) + if p.account == a then 1 else 0
  {
    assert (ps + [p])[..|ps + [p]| - 1] == ps;
  }

  // ---------- Order of the postings ----------

  lemma {:induction false} DeltaRemove(ps: seq<Posting>, i: nat, a: AccountId)
    requires i < |ps|
    ensures Delta(ps, a) == Delta(ps[..i] + ps[i + 1..], a) + Delta([ps[i]], a)
    ensures Touches(ps, a) == Touches(ps[..i] + ps[i + 1..], a) + Touches([ps[i]], a)
  {
    var init, last := ps[..|ps| - 1], ps[|ps| - 1];
    assert [ps[i]][..0] == [];
    if i == |ps| - 1 {
      assert ps[..i] + ps[i + 1..] == init;
    } else {
      DeltaRemove(init, i, a);
      var rest := ps[..i] + ps[i + 1..];
      assert rest[..|rest| - 1] == init[..i] + init[i + 1..];
      assert rest[|rest| - 1] == last;
    }
  }

  lemma RemoveOne(s: seq<Posting>, i: nat)
    requires i < |s|
    ensures multiset(s[..i] + s[i + 1..]) == multiset(s) - multiset{s[i]}
  {
    assert s == s[..i] + [s[i]] + s[i + 1..];
  }

  lemma {:induction false} DeltaOfPermutation(ps: seq<Posting>, qs: seq<Posting>, a: AccountId)
    requires multiset(ps) == multiset(qs)
    ensures Delta(ps, a) == Delta(qs, a) && Touches(ps, a) == Touches(qs, a)
  {
    assert |ps| == |multiset(ps)| == |multiset(qs)| == |qs|;
    if ps != [] {
      var init, last := ps[..|ps| - 1], ps[|ps| - 1];
      assert ps == init + [last];
      assert last in multiset(ps);
      assert last in qs;
      var i :| 0 <= i < |qs| && qs[i] == last;
      RemoveOne(ps, |ps| - 1);
      RemoveOne(qs, i);
      assert ps[..|ps| - 1] + ps[|ps|..] == init;
      DeltaOfPermutation(init, qs[..i] + qs[i + 1..], a);
      DeltaRemove(qs, i, a);
      assert [last][..0] == [];
    }
  }

  /** Any two successful orders of the same postings leave the same balances and versions. */
  lemma PostOrderIrrelevant(b: Books, kind: TransactionType, ref: Ref, ps: seq<Posting>, qs: seq<Posting>)
    requires multiset(ps) == multiset(qs)
    requires Post(b, kind, ref, ps).Ok? && Post(b, kind, ref, qs).Ok?
    ensures Post(b, kind, ref, ps).value.balances == Post(b, kind, ref, qs).value.balances
  {
    PostEffect(b, kind, ref, ps);
    PostEffect(b, kind, ref, qs);
    PostedOrder(b, Post(b, kind, ref, ps).value, Post(b, kind, ref, qs).value, kind, ref, ps, qs);
  }

  lemma PostedOrder(b: Books, x: Books, y: Books, kind: TransactionType, ref: Ref, ps: seq<Posting>, qs: seq<Posting>)
    requires multiset(ps) == multiset(qs) && Posted(b, x, kind, ref, ps) && Posted(b, y, kind, ref, qs)
    ensures x.balances == y.balances
  {
    forall a ensures a in AccountsOf(ps) <==> a in AccountsOf(qs) {
      SameAccounts(ps, qs, a);
      SameAccounts(qs, ps, a);
    }
    assert x.balances.Keys == y.balances.Keys;
    forall a | a in x.balances ensures x.balances[a] == y.balances[a] {
      DeltaOfPermutation(ps, qs, a);
      assert Row(x.balances, a) == Row(y.balances, a);
    }
  }

  lemma SameAccounts(ps: seq<Posting>, qs: seq<Posting>, x: AccountId)
    requires multiset(ps) == multiset(qs)
    ensures x in AccountsOf(ps) ==> x in AccountsOf(qs)
  {
    if x in AccountsOf(ps) {
      var i :| 0 <= i < |ps| && ps[i].account == x;
      assert ps[i] in multiset(ps);
      assert ps[i] in qs;
    }
  }
}

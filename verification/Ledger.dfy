/** What one call of `LedgerService.post` does to the four ledger tables. */
module Ledger {
  import opened Wrappers
  import opened Domain

  // ---------- Sums over posting lists ----------

  /** The sign convention of the balancing check: debits count positive. */
  function Signed(p: Posting): int {
    if p.direction.Debit? then p.amount else -p.amount
  }

  function Net(ps: seq<Posting>): int {
    if ps == [] then 0 else Net(ps[..|ps| - 1]) + Signed(ps[|ps| - 1])
  }

  /** Credits minus debits on account `a`. */
  function Delta(ps: seq<Posting>, a: AccountId): int {
    if ps == [] then 0
    else Delta(ps[..|ps| - 1], a) + if ps[|ps| - 1].account == a then -Signed(ps[|ps| - 1]) else 0
  }

  /** The number of postings on account `a`. */
  function Touches(ps: seq<Posting>, a: AccountId): nat {
    if ps == [] then 0
    else Touches(ps[..|ps| - 1], a) + if ps[|ps| - 1].account == a then 1 else 0
  }

  function AccountsOf(ps: seq<Posting>): set<AccountId> {
    set i | 0 <= i < |ps| :: ps[i].account
  }

  predicate Positive(ps: seq<Posting>) {
    forall i :: 0 <= i < |ps| ==> ps[i].amount > 0
  }

  /** The two postings of every saga step: debit one account, credit another. */
  function Transfer(from: AccountId, to: AccountId, amount: int): seq<Posting> {
    [Posting(from, Debit, amount), Posting(to, Credit, amount)]
  }

  // ---------- validate_balanced ----------

  /** The index of the first posting with a non-positive amount, or the length. */
  function FirstBad(ps: seq<Posting>): (k: nat)
    ensures k <= |ps|
    ensures forall i :: 0 <= i < k ==> ps[i].amount > 0
    ensures k < |ps| ==> ps[k].amount <= 0
  {
    if ps == [] then 0
    else
      var k := FirstBad(ps[..|ps| - 1]);
      if k < |ps| - 1 then k
      else if ps[|ps| - 1].amount <= 0 then |ps| - 1
      else |ps|
  }

  function Validate(ps: seq<Posting>): Result<(), Error> {
    if |ps| < 2 then Err(LedgerImbalance(0))
    else if FirstBad(ps) < |ps| then Err(NonPositiveAmount(ps[FirstBad(ps)].amount))
    else if Net(ps) != 0 then Err(LedgerImbalance(Net(ps)))
    else Ok(())
  }

  // ---------- post ----------

  /** A missing balance row reads as the row that would be created for it. */
  function Row(m: map<AccountId, BalanceRow>, a: AccountId): BalanceRow {
    if a in m then m[a] else BalanceRow(0, 0)
  }

  function Bal(m: map<AccountId, BalanceRow>, a: AccountId): int {
    Row(m, a).balance
  }

  predicate NonNegative(m: map<AccountId, BalanceRow>) {
    forall a :: a in m ==> m[a].balance >= 0
  }

  /** The balance rows after every missing row of `accs` was inserted. */
  function Opened(m: map<AccountId, BalanceRow>, accs: set<AccountId>): map<AccountId, BalanceRow> {
    m + map a | a in accs && a !in m :: BalanceRow(0, 0)
  }

  function ApplyOne(m: map<AccountId, BalanceRow>, p: Posting): Result<map<AccountId, BalanceRow>, Error> {
    var row := Row(m, p.account);
    match p.direction
    case Debit =>
      if row.balance < p.amount then Err(InsufficientFunds(p.account, row.balance, p.amount))
      else Ok(m[p.account := BalanceRow(row.balance - p.amount, row.version + 1)])
    case Credit =>
      Ok(m[p.account := BalanceRow(row.balance + p.amount, row.version + 1)])
  }

  function Apply(m: map<AccountId, BalanceRow>, ps: seq<Posting>): Result<map<AccountId, BalanceRow>, Error> {
    if ps == [] then Ok(m)
    else
      var before :- Apply(m, ps[..|ps| - 1]);
      ApplyOne(before, ps[|ps| - 1])
  }

  function Tagged(t: nat, ps: seq<Posting>): (es: seq<Entry>)
    ensures |es| == |ps|
    ensures forall i :: 0 <= i < |ps| ==> es[i] == Entry(t, ps[i])
  {
    seq(|ps|, i requires 0 <= i < |ps| => Entry(t, ps[i]))
  }

  function Post(b: Books, kind: TransactionType, ref: Ref, ps: seq<Posting>): Result<Books, Error> {
    var _ :- Validate(ps);
    if !(AccountsOf(ps) <= b.balances.Keys + b.accounts) then Err(UnknownAccount)
    else
      var m :- Apply(Opened(b.balances, AccountsOf(ps)), ps);
      Ok(Books(b.accounts, m, b.txns + [Txn(kind, ref)], b.entries + Tagged(|b.txns|, ps)))
  }

  // ---------- sorted(list(set(...))) ----------

  predicate Ascending(s: seq<AccountId>) {
    forall i, j :: 0 <= i < j < |s| ==> s[i] < s[j]
  }

  /** Insert into a strictly ascending list unless present. */
  function Insert(s: seq<AccountId>, a: AccountId): (r: seq<AccountId>)
    requires Ascending(s)
    ensures Ascending(r)
    ensures forall x :: x in r <==> x in s || x == a
  {
    if s == [] then [a]
    else if a == s[|s| - 1] then s
    else if a > s[|s| - 1] then s + [a]
    else
      var r := Insert(s[..|s| - 1], a);
      assert s == s[..|s| - 1] + [s[|s| - 1]];
      assert forall i :: 0 <= i < |r| ==> r[i] in r && r[i] < s[|s| - 1];
      r + [s[|s| - 1]]
  }

  function SortedAccounts(ps: seq<Posting>): (r: seq<AccountId>)
    ensures Ascending(r)
    ensures forall x :: x in r <==> x in AccountsOf(ps)
  {
    if ps == [] then []
    else
      assert ps == ps[..|ps| - 1] + [ps[|ps| - 1]];
      assert AccountsOf(ps) == AccountsOf(ps[..|ps| - 1]) + {ps[|ps| - 1].account};
      Insert(SortedAccounts(ps[..|ps| - 1]), ps[|ps| - 1].account)
  }
}

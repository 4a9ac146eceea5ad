/** Concurrent equal debits of one account: exactly as many succeed as its balance affords. */
module Oversell {
  import opened Domain
  import opened Ledger
  import opened LedgerLemmas
  import opened Concurrency
  import opened Serializability

  /** Every job moves `d` from `src` to `dst`. */
  ghost predicate AllDebit(jobs: seq<Job>, src: AccountId, dst: AccountId, d: int) {
    src != dst && d > 0 && forall i :: 0 <= i < |jobs| ==> jobs[i].postings == Transfer(src, dst, d)
  }

  function Min(a: int, b: int): int {
    if a <= b then a else b
  }

  // ---------- Counting workers ----------

  predicate IsCommitted(w: Worker) {
    w.phase == Committed
  }

  predicate IsPoor(w: Worker) {
    w.phase.Aborted? && w.phase.why.Raised? && w.phase.why.error.InsufficientFunds?
  }

  predicate IsCrashed(w: Worker) {
    w.phase == Aborted(Crashed)
  }

  /** Stopped by anything but a lack of funds: a crash, a unique key, a missing account. */
  predicate IsLost(w: Worker) {
    w.phase.Aborted? && !IsPoor(w)
  }

  /** Stopped by the unique key of a row that another transaction inserted first. */
  predicate IsViolated(w: Worker) {
    w.phase == Aborted(UniqueViolation)
  }

  datatype Ending = ByCommit | ByPoverty | ByCrash | ByViolation | ByLoss

  predicate Ended(w: Worker, e: Ending) {
    match e
    case ByCommit => IsCommitted(w)
    case ByPoverty => IsPoor(w)
    case ByCrash => IsCrashed(w)
    case ByViolation => IsViolated(w)
    case ByLoss => IsLost(w)
  }

  function Count(ws: seq<Worker>, p: Ending): (r: nat)
    ensures r <= |ws|
  {
    if ws == [] then 0 else Count(ws[..|ws| - 1], p) + if Ended(ws[|ws| - 1], p) then 1 else 0
  }

  lemma {:induction false} CountUpdate(ws: seq<Worker>, i: nat, w: Worker, p: Ending)
    requires i < |ws|
    ensures Count(ws[i := w], p) == Count(ws, p) - (if Ended(ws[i], p) then 1 else 0) + (if Ended(w, p) then 1 else 0)
  {
    var n := |ws| - 1;
    if i == n {
      assert ws[i := w][..n] == ws[..n];
    } else {
      assert ws[i := w][..n] == ws[..n][i := w];
      CountUpdate(ws[..n], i, w, p);
    }
  }

  lemma {:induction false} CountNone(ws: seq<Worker>, p: Ending)
    requires forall i :: 0 <= i < |ws| ==> !Ended(ws[i], p)
    ensures Count(ws, p) == 0
  {
    if ws != [] {
      CountNone(ws[..|ws| - 1], p);
    }
  }

  lemma {:induction false} CountsAddUp(ws: seq<Worker>)
    requires forall i :: 0 <= i < |ws| ==> !Active(ws[i])
    ensures Count(ws, ByCommit) + Count(ws, ByPoverty) + Count(ws, ByLoss) == |ws|
  {
    if ws != [] {
      CountsAddUp(ws[..|ws| - 1]);
    }
  }

  // ---------- What every run keeps ----------

  ghost predicate DebitInv(b0: Books, jobs: seq<Job>, m: Machine, src: AccountId, d: int) {
    && |m.workers| == |jobs|
    && Bal(m.books.balances, src) == Bal(b0.balances, src) - d * |m.log|
    && Bal(m.books.balances, src) >= 0
    && |m.log| == Count(m.workers, ByCommit)
    && (forall i :: 0 <= i < |jobs| && IsPoor(m.workers[i]) ==> Bal(m.books.balances, src) < d)
  }

  lemma TransferIsValid(src: AccountId, dst: AccountId, d: int)
    requires d > 0
    ensures Validate(Transfer(src, dst, d)).Ok?
    ensures AccountsOf(Transfer(src, dst, d)) == {src, dst}
  {
    var ps := Transfer(src, dst, d);
    TransferSums(src, dst, d);
    assert ps[0].account == src && ps[1].account == dst;
  }

  /** The copy of `src` still equals the committed row when the debit is checked. */
  lemma DebitSeesCommitted(job: Job, b: Books, w: Worker, src: AccountId, dst: AccountId, d: int)
    requires src != dst && d > 0 && job.postings == Transfer(src, dst, d) && CopiesOk(job, b, w) && w.phase.Applying?
    ensures w.phase.done == 0 ==> Bal(w.work, src) == Bal(b.balances, src)
    ensures w.phase.done > 0 ==> Bal(b.balances, src) >= d
    ensures w.phase.done >= 2 ==> Bal(w.work, src) == Bal(b.balances, src) - d && w.work.Keys == {src, dst}
  {
    var ps := Transfer(src, dst, d);
    var copies := Copies(b, ps);
    TransferIsValid(src, dst, d);
    assert ps[..0] == [] && ps[..1] == [ps[0]] && ps[..2] == ps && ps[..1][..0] == [];
    assert Apply(copies, ps[..1]) == ApplyOne(copies, ps[0]);
    assert src in AccountsOf(ps);
    if w.phase.done == 2 {
      ApplyClosedForm(copies, ps, src);
      TransferSums(src, dst, d);
    }
  }

  /** A worker goes on or stops without a commit, and not for lack of funds. */
  lemma QuietKeepsDebits(b0: Books, jobs: seq<Job>, m: Machine, m': Machine, i: nat,
                         src: AccountId, d: int)
    requires DebitInv(b0, jobs, m, src, d) && i < |jobs| && Active(m.workers[i])
    requires m'.books == m.books && m'.log == m.log && |m'.workers| == |m.workers|
    requires m'.workers == m.workers[i := m'.workers[i]]
    requires !IsCommitted(m'.workers[i]) && (IsPoor(m'.workers[i]) ==> Bal(m.books.balances, src) < d)
    ensures DebitInv(b0, jobs, m', src, d)
  {
    CountUpdate(m.workers, i, m'.workers[i], ByCommit);
  }

  /** No lock statement of a debit raises InsufficientFunds or commits. */
  lemma LockIsQuiet(m: Machine, i: nat, job: Job, k: nat, inserting: bool)
    requires i < |m.workers| && m.workers[i].phase == Locking(k, inserting) && k < |Plan(job)|
    requires Validate(job.postings).Ok?
    ensures var m' := LockNext(m, i, job, k, inserting);
            && m'.books == m.books && m'.log == m.log && m'.workers == m.workers[i := m'.workers[i]]
            && !IsCommitted(m'.workers[i]) && !IsPoor(m'.workers[i])
  {
  }

  /** A commit takes `d` from the committed row of `src`. */
  lemma CommitTakes(job: Job, m: Machine, i: nat, src: AccountId, dst: AccountId, d: int)
    requires src != dst && d > 0 && job.postings == Transfer(src, dst, d)
    requires i < |m.workers| && CopiesOk(job, m.books, m.workers[i])
    requires m.workers[i].phase.Applying? && m.workers[i].phase.done >= 2
    ensures var m' := Commit(m, i, job);
            && Bal(m'.books.balances, src) == Bal(m.books.balances, src) - d >= 0
            && m'.books.balances.Keys == m.books.balances.Keys + {src, dst}
  {
    DebitSeesCommitted(job, m.books, m.workers[i], src, dst, d);
  }

  lemma CommitKeepsDebits(b0: Books, jobs: seq<Job>, m: Machine, i: nat, src: AccountId,
                          dst: AccountId, d: int)
    requires DebitInv(b0, jobs, m, src, d) && AllDebit(jobs, src, dst, d) && i < |jobs|
    requires CopiesOk(jobs[i], m.books, m.workers[i])
    requires m.workers[i].phase.Applying? && m.workers[i].phase.done >= 2
    ensures DebitInv(b0, jobs, Commit(m, i, jobs[i]), src, d)
  {
    CommitTakes(jobs[i], m, i, src, dst, d);
    CountUpdate(m.workers, i, Worker(Committed, map[]), ByCommit);
    assert d * (|m.log| + 1) == d * |m.log| + d;
  }

  lemma ActKeepsDebits(b0: Books, jobs: seq<Job>, m: Machine, i: nat, src: AccountId,
                       dst: AccountId, d: int)
    requires DebitInv(b0, jobs, m, src, d) && AllDebit(jobs, src, dst, d) && i < |jobs|
    requires CopiesOk(jobs[i], m.books, m.workers[i])
    ensures DebitInv(b0, jobs, Act(jobs, m, i), src, d)
  {
    var job, w, m' := jobs[i], m.workers[i], Act(jobs, m, i);
    TransferIsValid(src, dst, d);
    match w.phase
    case Locking(k, inserting) =>
      if k < |Plan(job)| {
        LockIsQuiet(m, i, job, k, inserting);
      }
      QuietKeepsDebits(b0, jobs, m, m', i, src, d);
    case Applying(j, closing) =>
      if j >= 2 && m' == Commit(m, i, job) {
        CommitKeepsDebits(b0, jobs, m, i, src, dst, d);
      } else {
        DebitSeesCommitted(job, m.books, w, src, dst, d);
        QuietKeepsDebits(b0, jobs, m, m', i, src, d);
      }
    case _ =>
  }

  lemma {:induction false} RunKeepsDebits(b0: Books, k0: set<nat>, jobs: seq<Job>, turns: seq<Turn>,
                                          src: AccountId, dst: AccountId, d: int)
    requires AllDebit(jobs, src, dst, d) && Bal(b0.balances, src) >= 0
    ensures DebitInv(b0, jobs, Exec(jobs, Begin(b0, k0, |jobs|), turns), src, d)
  {
    if turns == [] {
      CountNone(Begin(b0, k0, |jobs|).workers, ByCommit);
    } else {
      var n := |turns| - 1;
      var m, i := Exec(jobs, Begin(b0, k0, |jobs|), turns[..n]), turns[n].worker;
      RunKeepsDebits(b0, k0, jobs, turns[..n], src, dst, d);
      if i < |jobs| {
        ReachableCopies(b0, k0, jobs, turns[..n], i);
        if !turns[n].crash {
          ActKeepsDebits(b0, jobs, m, i, src, dst, d);
        } else if Active(m.workers[i]) {
          QuietKeepsDebits(b0, jobs, m, Fail(m, i, Crashed), i, src, d);
        }
      }
    }
  }

  lemma Multiply(d: int, a: int, b: int)
    requires d > 0 && a < b
    ensures d * a + d <= d * b
  {
    var k := b - a - 1;
    assert d * k >= 0;
    calc {
      d * b;
      d * (a + 1 + k);
      d * a + d + d * k;
    }
  }

  /** The quotient of `x` by `d` is the only `k` that leaves a remainder below `d`. */
  lemma QuotientIs(x: int, d: int, k: int)
    requires d > 0 && 0 <= x - d * k
    ensures k <= x / d
    ensures x - d * k < d ==> x / d == k
  {
    var q := x / d;
    assert x == d * q + x % d;
    if q < k {
      Multiply(d, q, k);
    } else if k < q {
      Multiply(d, k, q);
    }
  }

  /**
   No oversell: when n concurrent debits of d from an account with balance B have all finished, in
   whatever interleaving, with whatever crashes, keys, payment rows and missing rows, exactly
   min(n - lost, B div d) committed, where `lost` counts those stopped by anything but a lack of
   funds; and the account holds what is left.
   */
  lemma NoOversell(b0: Books, k0: set<nat>, jobs: seq<Job>, turns: seq<Turn>, src: AccountId,
                   dst: AccountId, d: int)
    requires AllDebit(jobs, src, dst, d) && Bal(b0.balances, src) >= 0
    requires Finished(Exec(jobs, Begin(b0, k0, |jobs|), turns))
    ensures var m := Exec(jobs, Begin(b0, k0, |jobs|), turns);
            var done := Count(m.workers, ByCommit);
            && done == Min(|jobs| - Count(m.workers, ByLoss), Bal(b0.balances, src) / d)
            && Bal(m.books.balances, src) == Bal(b0.balances, src) - d * done
  {
    RunKeepsDebits(b0, k0, jobs, turns, src, dst, d);
    FinishedCount(b0, jobs, Exec(jobs, Begin(b0, k0, |jobs|), turns), src, d);
  }

  lemma FinishedCount(b0: Books, jobs: seq<Job>, m: Machine, src: AccountId, d: int)
    requires DebitInv(b0, jobs, m, src, d) && Finished(m) && d > 0
    ensures var done := Count(m.workers, ByCommit);
            && done == Min(|jobs| - Count(m.workers, ByLoss), Bal(b0.balances, src) / d)
            && Bal(m.books.balances, src) == Bal(b0.balances, src) - d * done
  {
    CountsAddUp(m.workers);
    QuotientIs(Bal(b0.balances, src), d, |m.log|);
    if forall i :: 0 <= i < |m.workers| ==> !IsPoor(m.workers[i]) {
      CountNone(m.workers, ByPoverty);
    }
  }
}

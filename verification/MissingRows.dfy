/**
 Concurrent debits when the credited account has no balance row yet.  A row that is missing is
 inserted by the first `post` that needs it; two concurrent inserts make one of them fail.
 */
module MissingRows {
  import opened Wrappers
  import opened Domain
  import opened Ledger
  import opened Concurrency
  import opened Serializability
  import opened ClaimKeys
  import opened Oversell

  function KeyOf(jobs: seq<Job>, i: nat): Option<nat>
    requires i < |jobs|
  {
    jobs[i].key
  }

  /** The claim keys and event ids that the jobs insert are new and pairwise different. */
  ghost predicate FreshKeys(k0: set<nat>, jobs: seq<Job>) {
    && (forall i :: 0 <= i < |jobs| && KeyOf(jobs, i).Some? ==> KeyOf(jobs, i).value !in k0)
    && (forall i, j :: 0 <= i < j < |jobs| && KeyOf(jobs, i).Some? ==> KeyOf(jobs, i) != KeyOf(jobs, j))
  }

  /** Debits between known accounts that lock at most one payment row. */
  ghost predicate Transfers(b0: Books, jobs: seq<Job>, src: AccountId, dst: AccountId, d: int) {
    && AllDebit(jobs, src, dst, d)
    && {src, dst} <= b0.balances.Keys + b0.accounts
    && forall i :: 0 <= i < |jobs| ==> |jobs[i].payments| <= 1
  }

  /** Debits as the services post them, each with a new key or none. */
  ghost predicate Debits(b0: Books, k0: set<nat>, jobs: seq<Job>, src: AccountId, dst: AccountId, d: int) {
    Transfers(b0, jobs, src, dst, d) && FreshKeys(k0, jobs)
  }

  /** No two of the debits can insert the row of `dst` at once: a caller can check it before the call. */
  predicate SafeRow(b0: Books, src: AccountId, dst: AccountId, d: int) {
    dst in b0.balances || src < dst || Bal(b0.balances, src) < d
  }

  /** The worker found no row for account `a` and is about to insert one. */
  predicate Inserting(job: Job, w: Worker, a: AccountId) {
    w.phase.Locking? && w.phase.inserting && w.phase.held < |Plan(job)| && Plan(job)[w.phase.held] == BalanceOf(a)
  }

  /** Only keys and balance rows are inserted. */
  predicate InsertOk(job: Job, w: Worker) {
    w.phase.Locking? && w.phase.inserting ==>
      w.phase.held < |Plan(job)| && (Plan(job)[w.phase.held].KeyRow? || Plan(job)[w.phase.held].BalanceOf?)
  }

  ghost predicate StopOk(b0: Books, m: Machine, src: AccountId, dst: AccountId, d: int, w: Worker) {
    w.phase.Aborted? ==> IsCrashed(w) || IsPoor(w) || (IsViolated(w) && m.log != [] && !SafeRow(b0, src, dst, d))
  }

  ghost predicate RowsInv(b0: Books, jobs: seq<Job>, m: Machine, src: AccountId, dst: AccountId, d: int) {
    && |m.workers| == |jobs|
    && m.books.accounts == b0.accounts && b0.balances.Keys <= m.books.balances.Keys
    && (if m.log == [] then m.books == b0 else {src, dst} <= m.books.balances.Keys)
    && (forall i :: 0 <= i < |jobs| ==> StopOk(b0, m, src, dst, d, m.workers[i]))
    && (forall i :: 0 <= i < |jobs| ==> InsertOk(jobs[i], m.workers[i]))
    && (forall i, a :: 0 <= i < |jobs| && Inserting(jobs[i], m.workers[i], a) ==>
          a !in b0.balances && (SafeRow(b0, src, dst, d) ==> a !in m.books.balances))
  }

  // ---------- Keys ----------

  /** If the key of a worker is committed, the worker has committed it. */
  lemma TakenByItself(b0: Books, k0: set<nat>, jobs: seq<Job>, turns: seq<Turn>, i: nat)
    requires FreshKeys(k0, jobs) && i < |jobs| && jobs[i].key.Some?
    requires jobs[i].key.value in Exec(jobs, Begin(b0, k0, |jobs|), turns).keys
    ensures Exec(jobs, Begin(b0, k0, |jobs|), turns).workers[i].phase == Committed
  {
    ExecKeepsOnce(b0, k0, jobs, turns);
    OnlyItself(k0, jobs, Exec(jobs, Begin(b0, k0, |jobs|), turns), i);
  }

  lemma OnlyItself(k0: set<nat>, jobs: seq<Job>, m: Machine, i: nat)
    requires OnceInv(k0, jobs, m) && FreshKeys(k0, jobs) && i < |jobs| && jobs[i].key.Some?
    requires jobs[i].key.value in m.keys
    ensures m.workers[i].phase == Committed
  {
    assert KeyOf(jobs, i).Some?;
    var w := WhoInserted(k0, jobs, m, jobs[i].key.value);
    assert KeyOf(jobs, w) == KeyOf(jobs, i);
  }

  /** A worker that has not committed finds its key free. */
  lemma KeyIsFree(b0: Books, k0: set<nat>, jobs: seq<Job>, turns: seq<Turn>, i: nat)
    requires FreshKeys(k0, jobs) && i < |jobs| && jobs[i].key.Some?
    requires Active(Exec(jobs, Begin(b0, k0, |jobs|), turns).workers[i])
    ensures jobs[i].key.value !in Exec(jobs, Begin(b0, k0, |jobs|), turns).keys
  {
    if jobs[i].key.value in Exec(jobs, Begin(b0, k0, |jobs|), turns).keys {
      TakenByItself(b0, k0, jobs, turns, i);
    }
  }

  // ---------- Steps ----------

  lemma QuietKeepsRows(b0: Books, jobs: seq<Job>, m: Machine, m': Machine, i: nat,
                       src: AccountId, dst: AccountId, d: int)
    requires RowsInv(b0, jobs, m, src, dst, d) && i < |jobs|
    requires m'.books == m.books && m'.log == m.log && |m'.workers| == |m.workers|
    requires m'.workers == m.workers[i := m'.workers[i]]
    requires StopOk(b0, m, src, dst, d, m'.workers[i]) && InsertOk(jobs[i], m'.workers[i])
    requires forall a :: Inserting(jobs[i], m'.workers[i], a) ==>
               a !in b0.balances && (SafeRow(b0, src, dst, d) ==> a !in m.books.balances)
    ensures RowsInv(b0, jobs, m', src, dst, d)
  {
    forall j | 0 <= j < |jobs|
      ensures StopOk(b0, m', src, dst, d, m'.workers[j]) && InsertOk(jobs[j], m'.workers[j])
    {
      if j != i {
        assert StopOk(b0, m, src, dst, d, m.workers[j]) && InsertOk(jobs[j], m.workers[j]);
      }
    }
  }

  lemma DebitLocks(job: Job, k: nat, src: AccountId, dst: AccountId, d: int)
    requires d > 0 && job.postings == Transfer(src, dst, d) && k < |Plan(job)|
    ensures match Plan(job)[k]
            case KeyRow(q) => job.key == Some(q)
            case PaymentRow(_) => true
            case BalanceOf(a) => a in {src, dst}
            case ClaimRow(_) => false
  {
    TransferIsValid(src, dst, d);
    PlanAscends(job);
    assert Plan(job)[k] in Plan(job);
  }

  /** How the next lock statement of such a debit can end. */
  lemma LockOutcome(b0: Books, m: Machine, i: nat, job: Job, src: AccountId, dst: AccountId, d: int)
    requires i < |m.workers| && m.workers[i].phase.Locking? && m.workers[i].phase.held < |Plan(job)|
    requires d > 0 && job.postings == Transfer(src, dst, d) && |job.payments| <= 1
    requires job.key.Some? ==> job.key.value !in m.keys
    requires {src, dst} <= b0.balances.Keys + b0.accounts && InsertOk(job, m.workers[i])
    requires m.books.accounts == b0.accounts && b0.balances.Keys <= m.books.balances.Keys
    requires m.log == [] ==> m.books == b0
    requires forall a :: Inserting(job, m.workers[i], a) ==>
               a !in b0.balances && (SafeRow(b0, src, dst, d) ==> a !in m.books.balances)
    ensures var w := m.workers[i];
            var w' := LockNext(m, i, job, w.phase.held, w.phase.inserting).workers[i];
            && StopOk(b0, m, src, dst, d, w') && InsertOk(job, w')
            && forall a :: Inserting(job, w', a) ==>
                 a !in b0.balances && (SafeRow(b0, src, dst, d) ==> a !in m.books.balances)
  {
    var w := m.workers[i];
    var r := Plan(job)[w.phase.held];
    TransferIsValid(src, dst, d);
    DebitLocks(job, w.phase.held, src, dst, d);
    if r.BalanceOf? && w.phase.inserting {
      assert Inserting(job, w, r.account);
      assert Present(m, r) ==> m.books != b0;
    }
    assert r.PaymentRow? ==> !w.phase.inserting;
  }

  /** While worker `i` commits, nobody inserts a row that worker `i` brings in, if that is safe. */
  lemma CommitMeetsNoInsert(b0: Books, jobs: seq<Job>, m: Machine, i: nat, j: nat, a: AccountId,
                            src: AccountId, dst: AccountId, d: int)
    requires |m.workers| == |jobs| && AllDebit(jobs, src, dst, d) && i < |jobs| && j < |jobs| && i != j
    requires LocksOk(jobs, m, i) && LocksOk(jobs, m, j)
    requires m.workers[i].phase.Applying? && Inserting(jobs[j], m.workers[j], a)
    requires b0.balances.Keys <= m.books.balances.Keys && a !in m.books.balances
    requires d <= Bal(m.books.balances, src) <= Bal(b0.balances, src) && SafeRow(b0, src, dst, d)
    ensures a !in {src, dst}
  {
    if a == dst {
      SourceIsLocked(jobs[j], m.workers[j].phase.held, src, dst, d);
      NobodyElse(jobs, m, i, j, src);
    }
  }

  /** A debit that locks `dst` second holds `src` by then. */
  lemma SourceIsLocked(job: Job, k: nat, src: AccountId, dst: AccountId, d: int)
    requires src < dst && d > 0 && job.postings == Transfer(src, dst, d)
    requires k < |Plan(job)| && Plan(job)[k] == BalanceOf(dst)
    ensures BalanceOf(src) in Taken(job, k) && src in AccountsOf(job.postings)
  {
    TransferIsValid(src, dst, d);
    PlanAscends(job);
    assert BalanceOf(src) in Plan(job);
    var l :| 0 <= l < |Plan(job)| && Plan(job)[l] == BalanceOf(src);
    assert Taken(job, k)[l] == BalanceOf(src);
  }

  lemma CommitKeepsStops(b0: Books, jobs: seq<Job>, m: Machine, i: nat, src: AccountId, dst: AccountId, d: int)
    requires RowsInv(b0, jobs, m, src, dst, d) && i < |jobs|
    ensures var m' := Commit(m, i, jobs[i]);
            forall j :: 0 <= j < |jobs| ==>
              StopOk(b0, m', src, dst, d, m'.workers[j]) && InsertOk(jobs[j], m'.workers[j])
  {
    var m' := Commit(m, i, jobs[i]);
    forall j | 0 <= j < |jobs| ensures StopOk(b0, m', src, dst, d, m'.workers[j]) && InsertOk(jobs[j], m'.workers[j]) {
      if j != i {
        assert StopOk(b0, m, src, dst, d, m.workers[j]) && InsertOk(jobs[j], m.workers[j]);
      }
    }
  }

  lemma CommitKeepsRows(b0: Books, jobs: seq<Job>, m: Machine, i: nat, src: AccountId, dst: AccountId, d: int)
    requires RowsInv(b0, jobs, m, src, dst, d) && Transfers(b0, jobs, src, dst, d) && i < |jobs|
    requires forall j :: 0 <= j < |jobs| ==> LocksOk(jobs, m, j)
    requires CopiesOk(jobs[i], m.books, m.workers[i]) && DebitInv(b0, jobs, m, src, d)
    requires m.workers[i].phase.Applying? && m.workers[i].phase.done >= 2
    ensures RowsInv(b0, jobs, Commit(m, i, jobs[i]), src, dst, d)
  {
    var m' := Commit(m, i, jobs[i]);
    CommitTakes(jobs[i], m, i, src, dst, d);
    assert d * |m.log| >= 0;
    CommitKeepsStops(b0, jobs, m, i, src, dst, d);
    CommitKeepsInserts(b0, jobs, m, i, src, dst, d);
  }

  lemma CommitKeepsInserts(b0: Books, jobs: seq<Job>, m: Machine, i: nat, src: AccountId, dst: AccountId, d: int)
    requires RowsInv(b0, jobs, m, src, dst, d) && AllDebit(jobs, src, dst, d) && i < |jobs|
    requires forall j :: 0 <= j < |jobs| ==> LocksOk(jobs, m, j)
    requires m.workers[i].phase.Applying? && d <= Bal(m.books.balances, src) <= Bal(b0.balances, src)
    requires Commit(m, i, jobs[i]).books.balances.Keys == m.books.balances.Keys + {src, dst}
    ensures var m' := Commit(m, i, jobs[i]);
            forall j, a :: 0 <= j < |jobs| && Inserting(jobs[j], m'.workers[j], a) ==>
              a !in b0.balances && (SafeRow(b0, src, dst, d) ==> a !in m'.books.balances)
  {
    var m' := Commit(m, i, jobs[i]);
    forall j, a | 0 <= j < |jobs| && Inserting(jobs[j], m'.workers[j], a)
      ensures a !in b0.balances && (SafeRow(b0, src, dst, d) ==> a !in m'.books.balances)
    {
      assert Inserting(jobs[j], m.workers[j], a);
      if SafeRow(b0, src, dst, d) {
        CommitMeetsNoInsert(b0, jobs, m, i, j, a, src, dst, d);
      }
    }
  }

  lemma LockKeepsRows(b0: Books, jobs: seq<Job>, m: Machine, i: nat, src: AccountId,
                      dst: AccountId, d: int)
    requires RowsInv(b0, jobs, m, src, dst, d) && Transfers(b0, jobs, src, dst, d) && i < |jobs|
    requires m.workers[i].phase.Locking? && m.workers[i].phase.held < |Plan(jobs[i])|
    requires jobs[i].key.Some? ==> jobs[i].key.value !in m.keys
    ensures RowsInv(b0, jobs, LockNext(m, i, jobs[i], m.workers[i].phase.held, m.workers[i].phase.inserting), src,
              dst, d)
  {
    var k, inserting := m.workers[i].phase.held, m.workers[i].phase.inserting;
    LockOutcome(b0, m, i, jobs[i], src, dst, d);
    TransferIsValid(src, dst, d);
    LockIsQuiet(m, i, jobs[i], k, inserting);
    QuietKeepsRows(b0, jobs, m, LockNext(m, i, jobs[i], k, inserting), i, src, dst, d);
  }

  lemma ActKeepsRows(b0: Books, jobs: seq<Job>, m: Machine, i: nat, src: AccountId,
                     dst: AccountId, d: int)
    requires RowsInv(b0, jobs, m, src, dst, d) && Transfers(b0, jobs, src, dst, d) && i < |jobs|
    requires forall j :: 0 <= j < |jobs| ==> LocksOk(jobs, m, j)
    requires CopiesOk(jobs[i], m.books, m.workers[i]) && DebitInv(b0, jobs, m, src, d)
    requires Active(m.workers[i]) && jobs[i].key.Some? ==> jobs[i].key.value !in m.keys
    ensures RowsInv(b0, jobs, Act(jobs, m, i), src, dst, d)
  {
    var job, w, m' := jobs[i], m.workers[i], Act(jobs, m, i);
    match w.phase
    case Locking(k, inserting) =>
      if k < |Plan(job)| {
        LockKeepsRows(b0, jobs, m, i, src, dst, d);
      } else {
        TransferIsValid(src, dst, d);
        QuietKeepsRows(b0, jobs, m, m', i, src, dst, d);
      }
    case Applying(j, closing) =>
      if j >= 2 && m' == Commit(m, i, job) {
        CommitKeepsRows(b0, jobs, m, i, src, dst, d);
      } else {
        QuietKeepsRows(b0, jobs, m, m', i, src, dst, d);
      }
    case _ =>
  }

  lemma {:induction false} RunKeepsRows(b0: Books, k0: set<nat>, jobs: seq<Job>, turns: seq<Turn>,
                                        src: AccountId, dst: AccountId, d: int)
    requires Debits(b0, k0, jobs, src, dst, d) && Bal(b0.balances, src) >= 0
    ensures RowsInv(b0, jobs, Exec(jobs, Begin(b0, k0, |jobs|), turns), src, dst, d)
  {
    if turns != [] {
      var n := |turns| - 1;
      var m, i := Exec(jobs, Begin(b0, k0, |jobs|), turns[..n]), turns[n].worker;
      RunKeepsRows(b0, k0, jobs, turns[..n], src, dst, d);
      if i < |jobs| {
        if !turns[n].crash {
          RunKeepsDebits(b0, k0, jobs, turns[..n], src, dst, d);
          ReachableCopies(b0, k0, jobs, turns[..n], i);
          assert forall j :: 0 <= j < |jobs| ==> LocksOk(jobs, m, j) by { ExecKeepsInv(b0, k0, jobs, turns[..n]); }
          if Active(m.workers[i]) && jobs[i].key.Some? {
            KeyIsFree(b0, k0, jobs, turns[..n], i);
          }
          ActKeepsRows(b0, jobs, m, i, src, dst, d);
        } else if Active(m.workers[i]) {
          QuietKeepsRows(b0, jobs, m, Fail(m, i, Crashed), i, src, dst, d);
        }
      }
    }
  }

  // ---------- Runs without crashes ----------

  /** Every run without crashes commits exactly as many debits as the balance affords. */
  ghost predicate AlwaysExact(b0: Books, k0: set<nat>, jobs: seq<Job>, src: AccountId, d: int)
    requires d > 0
  {
    forall turns :: Crashless(turns) && Finished(Exec(jobs, Begin(b0, k0, |jobs|), turns)) ==>
      Count(Exec(jobs, Begin(b0, k0, |jobs|), turns).workers, ByCommit) == Min(|jobs|, Bal(b0.balances, src) / d)
  }

  lemma LockNeverCrashes(m: Machine, i: nat, job: Job, k: nat, inserting: bool)
    requires i < |m.workers| && k < |Plan(job)| && !IsCrashed(m.workers[i])
    ensures var m' := LockNext(m, i, job, k, inserting);
            m'.workers == m.workers[i := m'.workers[i]] && !IsCrashed(m'.workers[i])
  {
  }

  lemma ActNeverCrashes(jobs: seq<Job>, m: Machine, i: nat)
    requires i < |jobs| == |m.workers| && !IsCrashed(m.workers[i])
    ensures var m' := Act(jobs, m, i);
            m'.workers == m.workers[i := m'.workers[i]] && !IsCrashed(m'.workers[i])
  {
    match m.workers[i].phase
    case Locking(k, inserting) =>
      if k < |Plan(jobs[i])| {
        LockNeverCrashes(m, i, jobs[i], k, inserting);
      }
    case _ =>
  }

  lemma {:induction false} NobodyCrashes(jobs: seq<Job>, b0: Books, k0: set<nat>, turns: seq<Turn>)
    requires Crashless(turns)
    ensures forall i :: 0 <= i < |jobs| ==> !IsCrashed(Exec(jobs, Begin(b0, k0, |jobs|), turns).workers[i])
    decreases |turns|
  {
    if turns != [] {
      var n := |turns| - 1;
      NobodyCrashes(jobs, b0, k0, turns[..n]);
      if turns[n].worker < |jobs| {
        ActNeverCrashes(jobs, Exec(jobs, Begin(b0, k0, |jobs|), turns[..n]), turns[n].worker);
      }
    }
  }
}

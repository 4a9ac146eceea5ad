/**
 How many concurrent debits can lose the insert of a missing balance row.  Transactions that lock the
 same payment row take turns; only transactions with different payment rows, or none, are rivals.
 */
module Rivals {
  import opened Domain
  import opened Ledger
  import opened Concurrency
  import opened Serializability
  import opened ClaimKeys
  import opened Oversell
  import opened MissingRows

  // ---------- Transactions that do not take turns ----------

  predicate SamePayment(a: Job, b: Job) {
    a.payments != [] && b.payments != [] && a.payments[0] == b.payments[0]
  }

  /** No earlier job locks the same payment row. */
  predicate Leads(jobs: seq<Job>, i: nat)
    requires i < |jobs|
  {
    forall k :: 0 <= k < i ==> !SamePayment(jobs[k], jobs[i])
  }

  function Leaders(jobs: seq<Job>): set<nat> {
    set i | 0 <= i < |jobs| && Leads(jobs, i)
  }

  /** How many of the jobs can hold their payment rows at the same time. */
  function Width(jobs: seq<Job>): nat {
    |Leaders(jobs)|
  }

  ghost predicate Apart(jobs: seq<Job>, s: set<nat>) {
    && (forall i :: i in s ==> i < |jobs|)
    && forall i, j :: i in s && j in s && i != j ==> !SamePayment(jobs[i], jobs[j])
  }

  lemma LeaderOf(jobs: seq<Job>, i: nat) returns (k: nat)
    requires i < |jobs|
    ensures k in Leaders(jobs) && (k == i || SamePayment(jobs[k], jobs[i]))
  {
    if Leads(jobs, i) {
      k := i;
    } else {
      var j :| 0 <= j < i && SamePayment(jobs[j], jobs[i]);
      k := LeaderOf(jobs, j);
    }
  }

  /** Jobs that do not take turns are at most as many as the leaders that stand for them. */
  lemma {:induction false} ApartFitsIn(jobs: seq<Job>, s: set<nat>, leaders: set<nat>)
    requires Apart(jobs, s) && leaders <= Leaders(jobs)
    requires forall i, k :: i in s && k in Leaders(jobs) && (k == i || SamePayment(jobs[k], jobs[i])) ==> k in leaders
    ensures |s| <= |leaders|
    decreases |s|
  {
    if s != {} {
      var i :| i in s;
      var k := LeaderOf(jobs, i);
      forall j, l | j in s - {i} && l in Leaders(jobs) && (l == j || SamePayment(jobs[l], jobs[j]))
        ensures l in leaders - {k}
      {
        assert !SamePayment(jobs[i], jobs[j]);
      }
      ApartFitsIn(jobs, s - {i}, leaders - {k});
    }
  }

  lemma ApartIsNarrow(jobs: seq<Job>, s: set<nat>)
    requires Apart(jobs, s)
    ensures |s| <= Width(jobs)
  {
    ApartFitsIn(jobs, s, Leaders(jobs));
  }

  // ---------- Rivals for the row ----------

  predicate InsertsRow(job: Job, w: Worker) {
    w.phase.Locking? && w.phase.inserting && w.phase.held < |Plan(job)| && Plan(job)[w.phase.held].BalanceOf?
  }

  /** Has lost, or can still lose, an insert, or is the first to have committed. */
  predicate Rival(jobs: seq<Job>, m: Machine, i: nat)
    requires |m.workers| == |jobs|
  {
    && i < |jobs|
    && (IsViolated(m.workers[i]) || InsertsRow(jobs[i], m.workers[i]) || (m.log != [] && i == m.log[0]))
  }

  ghost predicate RivalsInv(jobs: seq<Job>, m: Machine) {
    && |m.workers| == |jobs|
    && (m.log != [] ==> forall i: nat, j: nat ::
          Rival(jobs, m, i) && Rival(jobs, m, j) && i != j ==> !SamePayment(jobs[i], jobs[j]))
  }

  /** A worker that inserts a balance row is past its key and payment rows. */
  lemma InsertsLate(job: Job, w: Worker)
    requires InsertsRow(job, w)
    ensures PastPayments(job, w)
  {
    PlanAscends(job);
  }

  /** The first commit finds only rivals that do not take turns. */
  lemma FirstCommitApart(jobs: seq<Job>, m: Machine, i: nat, j: nat, l: nat)
    requires i < |jobs| == |m.workers| && j < |jobs| && l < |jobs| && j != l
    requires forall k :: 0 <= k < |jobs| ==> LocksOk(jobs, m, k)
    requires m.workers[i].phase.Applying?
    requires j == i || InsertsRow(jobs[j], m.workers[j])
    requires l == i || InsertsRow(jobs[l], m.workers[l])
    ensures !SamePayment(jobs[j], jobs[l])
  {
    if SamePayment(jobs[j], jobs[l]) {
      if j != i {
        InsertsLate(jobs[j], m.workers[j]);
      }
      if l != i {
        InsertsLate(jobs[l], m.workers[l]);
      }
      OwnsPayment(jobs, m, j);
      OwnsPayment(jobs, m, l);
    }
  }

  lemma CommitKeepsRivals(b0: Books, jobs: seq<Job>, m: Machine, i: nat, src: AccountId, dst: AccountId, d: int)
    requires RivalsInv(jobs, m) && RowsInv(b0, jobs, m, src, dst, d) && i < |jobs| && m.workers[i].phase.Applying?
    requires forall k :: 0 <= k < |jobs| ==> LocksOk(jobs, m, k)
    ensures RivalsInv(jobs, Commit(m, i, jobs[i]))
  {
    var m' := Commit(m, i, jobs[i]);
    forall j: nat, l: nat | Rival(jobs, m', j) && Rival(jobs, m', l) && j != l ensures !SamePayment(jobs[j], jobs[l]) {
      if m.log == [] {
        assert StopOk(b0, m, src, dst, d, m.workers[j]) && StopOk(b0, m, src, dst, d, m.workers[l]);
        FirstCommitApart(jobs, m, i, j, l);
      } else {
        assert m'.log[0] == m.log[0];
        assert Rival(jobs, m, j) && Rival(jobs, m, l);
      }
    }
  }

  /** A worker that does not commit becomes no rival once the row is there. */
  lemma QuietKeepsRivals(jobs: seq<Job>, m: Machine, m': Machine, i: nat)
    requires RivalsInv(jobs, m) && i < |jobs| && m'.log == m.log && |m'.workers| == |m.workers|
    requires m'.workers == m.workers[i := m'.workers[i]]
    requires m.log != [] && (IsViolated(m'.workers[i]) || InsertsRow(jobs[i], m'.workers[i])) ==> Rival(jobs, m, i)
    ensures RivalsInv(jobs, m')
  {
    if m.log != [] {
      forall j: nat, l: nat | Rival(jobs, m', j) && Rival(jobs, m', l) && j != l
        ensures !SamePayment(jobs[j], jobs[l]) {
        assert Rival(jobs, m, j) && Rival(jobs, m, l);
      }
    }
  }

  lemma LockKeepsRivals(b0: Books, jobs: seq<Job>, m: Machine, i: nat, src: AccountId, dst: AccountId, d: int)
    requires RivalsInv(jobs, m) && RowsInv(b0, jobs, m, src, dst, d) && AllDebit(jobs, src, dst, d) && i < |jobs|
    requires m.workers[i].phase.Locking? && m.workers[i].phase.held < |Plan(jobs[i])|
    requires jobs[i].key.Some? ==> jobs[i].key.value !in m.keys
    ensures RivalsInv(jobs, LockNext(m, i, jobs[i], m.workers[i].phase.held, m.workers[i].phase.inserting))
  {
    var k, inserting := m.workers[i].phase.held, m.workers[i].phase.inserting;
    var m' := LockNext(m, i, jobs[i], k, inserting);
    TransferIsValid(src, dst, d);
    DebitLocks(jobs[i], k, src, dst, d);
    LockIsQuiet(m, i, jobs[i], k, inserting);
    assert InsertOk(jobs[i], m.workers[i]);
    QuietKeepsRivals(jobs, m, m', i);
  }

  lemma ActKeepsRivals(b0: Books, jobs: seq<Job>, m: Machine, i: nat, src: AccountId, dst: AccountId, d: int)
    requires RivalsInv(jobs, m) && RowsInv(b0, jobs, m, src, dst, d) && AllDebit(jobs, src, dst, d) && i < |jobs|
    requires forall k :: 0 <= k < |jobs| ==> LocksOk(jobs, m, k)
    requires Active(m.workers[i]) && jobs[i].key.Some? ==> jobs[i].key.value !in m.keys
    ensures RivalsInv(jobs, Act(jobs, m, i))
  {
    var job, m' := jobs[i], Act(jobs, m, i);
    match m.workers[i].phase
    case Locking(k, inserting) =>
      if k < |Plan(job)| {
        LockKeepsRivals(b0, jobs, m, i, src, dst, d);
      } else {
        QuietKeepsRivals(jobs, m, m', i);
      }
    case Applying(j, closing) =>
      if j >= |job.postings| && m' == Commit(m, i, job) {
        CommitKeepsRivals(b0, jobs, m, i, src, dst, d);
      } else {
        QuietKeepsRivals(jobs, m, m', i);
      }
    case _ =>
  }

  lemma {:induction false} RunKeepsRivals(b0: Books, k0: set<nat>, jobs: seq<Job>, turns: seq<Turn>,
                                          src: AccountId, dst: AccountId, d: int)
    requires Debits(b0, k0, jobs, src, dst, d) && Bal(b0.balances, src) >= 0
    ensures RivalsInv(jobs, Exec(jobs, Begin(b0, k0, |jobs|), turns))
    decreases |turns|
  {
    if turns != [] {
      var n := |turns| - 1;
      var m, i := Exec(jobs, Begin(b0, k0, |jobs|), turns[..n]), turns[n].worker;
      RunKeepsRivals(b0, k0, jobs, turns[..n], src, dst, d);
      if i < |jobs| {
        if !turns[n].crash {
          RunKeepsRows(b0, k0, jobs, turns[..n], src, dst, d);
          assert forall j :: 0 <= j < |jobs| ==> LocksOk(jobs, m, j) by { ExecKeepsInv(b0, k0, jobs, turns[..n]); }
          if Active(m.workers[i]) && jobs[i].key.Some? {
            KeyIsFree(b0, k0, jobs, turns[..n], i);
          }
          ActKeepsRivals(b0, jobs, m, i, src, dst, d);
        } else if Active(m.workers[i]) {
          QuietKeepsRivals(jobs, m, Fail(m, i, Crashed), i);
        }
      }
    }
  }

  // ---------- The bound ----------

  function Violated(ws: seq<Worker>): set<nat> {
    set i | 0 <= i < |ws| && IsViolated(ws[i])
  }

  lemma {:induction false} CountViolated(ws: seq<Worker>)
    ensures Count(ws, ByViolation) == |Violated(ws)|
    decreases |ws|
  {
    if ws != [] {
      var n := |ws| - 1;
      CountViolated(ws[..n]);
      assert Violated(ws) == Violated(ws[..n]) + if IsViolated(ws[n]) then {n} else {};
    }
  }

  lemma {:induction false} LossesAddUp(ws: seq<Worker>)
    requires forall i :: 0 <= i < |ws| && IsLost(ws[i]) ==> IsCrashed(ws[i]) || IsViolated(ws[i])
    ensures Count(ws, ByLoss) == Count(ws, ByCrash) + Count(ws, ByViolation)
    decreases |ws|
  {
    if ws != [] {
      LossesAddUp(ws[..|ws| - 1]);
    }
  }

  lemma ViolatedAreRivals(jobs: seq<Job>, m: Machine)
    requires RivalsInv(jobs, m) && LogOk(m) && m.log != []
    ensures |Violated(m.workers)| < Width(jobs)
  {
    var first := m.log[0];
    assert forall j :: j in Violated(m.workers) + {first} ==> Rival(jobs, m, j);
    ApartIsNarrow(jobs, Violated(m.workers) + {first});
    assert first !in Violated(m.workers);
  }

  /** At most width - 1 debits have lost an insert, all but the one that committed first; none if the row is safe. */
  lemma LosersBound(b0: Books, jobs: seq<Job>, m: Machine, src: AccountId, dst: AccountId, d: int)
    requires RowsInv(b0, jobs, m, src, dst, d) && RivalsInv(jobs, m) && LogOk(m)
    ensures var violated := Count(m.workers, ByViolation);
            violated == 0 || (violated < Width(jobs) && !SafeRow(b0, src, dst, d))
  {
    CountViolated(m.workers);
    if Violated(m.workers) != {} {
      var i :| i in Violated(m.workers);
      assert StopOk(b0, m, src, dst, d, m.workers[i]);
      ViolatedAreRivals(jobs, m);
    }
  }

  /** Such debits are lost to crashes and violations only. */
  lemma WhyLost(b0: Books, jobs: seq<Job>, m: Machine, src: AccountId, dst: AccountId, d: int)
    requires RowsInv(b0, jobs, m, src, dst, d)
    ensures Count(m.workers, ByLoss) == Count(m.workers, ByCrash) + Count(m.workers, ByViolation)
  {
    forall i | 0 <= i < |m.workers| && IsLost(m.workers[i])
      ensures IsCrashed(m.workers[i]) || IsViolated(m.workers[i]) {
      assert StopOk(b0, m, src, dst, d, m.workers[i]);
    }
    LossesAddUp(m.workers);
  }

  lemma Losses(b0: Books, k0: set<nat>, jobs: seq<Job>, turns: seq<Turn>, src: AccountId, dst: AccountId, d: int)
    requires Debits(b0, k0, jobs, src, dst, d) && Bal(b0.balances, src) >= 0
    ensures var ws := Exec(jobs, Begin(b0, k0, |jobs|), turns).workers;
            var crashed, violated := Count(ws, ByCrash), Count(ws, ByViolation);
            && Count(ws, ByLoss) == crashed + violated
            && (violated == 0 || (violated < Width(jobs) && !SafeRow(b0, src, dst, d)))
  {
    var m := Exec(jobs, Begin(b0, k0, |jobs|), turns);
    RunKeepsRows(b0, k0, jobs, turns, src, dst, d);
    WhyLost(b0, jobs, m, src, dst, d);
    RunKeepsRivals(b0, k0, jobs, turns, src, dst, d);
    assert LogOk(m) by { ExecKeepsOnce(b0, k0, jobs, turns); }
    LosersBound(b0, jobs, m, src, dst, d);
  }

  /** How the workers have ended: the affordable debits committed, less those that crashed or lost an insert. */
  ghost predicate Tally(b0: Books, jobs: seq<Job>, ws: seq<Worker>, src: AccountId, dst: AccountId, d: int)
    requires d > 0
  {
    var crashed, violated := Count(ws, ByCrash), Count(ws, ByViolation);
    && Count(ws, ByCommit) == Min(|jobs| - crashed - violated, Bal(b0.balances, src) / d)
    && (violated == 0 || (violated < Width(jobs) && !SafeRow(b0, src, dst, d)))
  }

  lemma TallyUp(b0: Books, jobs: seq<Job>, ws: seq<Worker>, src: AccountId, dst: AccountId, d: int)
    requires d > 0 && Count(ws, ByCommit) == Min(|jobs| - Count(ws, ByLoss), Bal(b0.balances, src) / d)
    requires Count(ws, ByLoss) == Count(ws, ByCrash) + Count(ws, ByViolation)
    requires Count(ws, ByViolation) == 0 || (Count(ws, ByViolation) < Width(jobs) && !SafeRow(b0, src, dst, d))
    ensures Tally(b0, jobs, ws, src, dst, d)
  {
  }

  lemma Affordable(b0: Books, k0: set<nat>, jobs: seq<Job>, turns: seq<Turn>, src: AccountId, dst: AccountId, d: int)
    requires Debits(b0, k0, jobs, src, dst, d) && Bal(b0.balances, src) >= 0
    requires Finished(Exec(jobs, Begin(b0, k0, |jobs|), turns))
    ensures var ws := Exec(jobs, Begin(b0, k0, |jobs|), turns).workers;
            Count(ws, ByCommit) == Min(|jobs| - Count(ws, ByLoss), Bal(b0.balances, src) / d)
  {
    assert AllDebit(jobs, src, dst, d);
    NoOversell(b0, k0, jobs, turns, src, dst, d);
  }

  /**
   Every run of such debits, with any crashes: exactly min(n - crashed - violated, B div d) commit, and
   at most width - 1 are violated, none of them if the row is safe.
   */
  lemma DebitsCommitted(b0: Books, k0: set<nat>, jobs: seq<Job>, turns: seq<Turn>, src: AccountId, dst: AccountId,
                        d: int)
    requires Debits(b0, k0, jobs, src, dst, d) && Bal(b0.balances, src) >= 0
    requires Finished(Exec(jobs, Begin(b0, k0, |jobs|), turns))
    ensures Tally(b0, jobs, Exec(jobs, Begin(b0, k0, |jobs|), turns).workers, src, dst, d)
  {
    Affordable(b0, k0, jobs, turns, src, dst, d);
    Losses(b0, k0, jobs, turns, src, dst, d);
    TallyUp(b0, jobs, Exec(jobs, Begin(b0, k0, |jobs|), turns).workers, src, dst, d);
  }

  /**
   Exactly min(n - crashed, B div d) debits commit if `dst` has a row, or is locked after `src`, or the
   balance affords no debit, or all take turns on one payment row, as a single one does; in every
   interleaving and with any crashes.
   */
  lemma SafeDebits(b0: Books, k0: set<nat>, jobs: seq<Job>, turns: seq<Turn>, src: AccountId, dst: AccountId, d: int)
    requires Debits(b0, k0, jobs, src, dst, d) && Bal(b0.balances, src) >= 0
    requires SafeRow(b0, src, dst, d) || Width(jobs) <= 1
    requires Finished(Exec(jobs, Begin(b0, k0, |jobs|), turns))
    ensures var ws := Exec(jobs, Begin(b0, k0, |jobs|), turns).workers;
            Count(ws, ByCommit) == Min(|jobs| - Count(ws, ByCrash), Bal(b0.balances, src) / d)
  {
    var ws := Exec(jobs, Begin(b0, k0, |jobs|), turns).workers;
    assert Tally(b0, jobs, ws, src, dst, d) by { DebitsCommitted(b0, k0, jobs, turns, src, dst, d); }
    SafeTally(b0, jobs, ws, src, dst, d);
  }

  lemma SafeTally(b0: Books, jobs: seq<Job>, ws: seq<Worker>, src: AccountId, dst: AccountId, d: int)
    requires d > 0 && Tally(b0, jobs, ws, src, dst, d) && (SafeRow(b0, src, dst, d) || Width(jobs) <= 1)
    ensures Count(ws, ByCommit) == Min(|jobs| - Count(ws, ByCrash), Bal(b0.balances, src) / d)
  {
  }

  /**
   The holds of one payer, each with its own new claim key: the migration seeds the balance row of
   suspense, so exactly min(n - crashed, B div d) of n concurrent holds of d commit.
   */
  lemma HoldsAreExact(b0: Books, k0: set<nat>, jobs: seq<Job>, turns: seq<Turn>, payer: AccountId, d: int)
    requires Debits(b0, k0, jobs, payer, PSP_SUSPENSE, d) && PSP_SUSPENSE in b0.balances && Bal(b0.balances, payer) >= 0
    requires Finished(Exec(jobs, Begin(b0, k0, |jobs|), turns))
    ensures var ws := Exec(jobs, Begin(b0, k0, |jobs|), turns).workers;
            Count(ws, ByCommit) == Min(|jobs| - Count(ws, ByCrash), Bal(b0.balances, payer) / d)
  {
    SafeDebits(b0, k0, jobs, turns, payer, PSP_SUSPENSE, d);
  }
}

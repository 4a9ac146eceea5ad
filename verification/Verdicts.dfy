/** Why a concurrent transaction ends as it does: every rollback has its reason, and nothing else stops a commit. */
module Verdicts {
  import opened Wrappers
  import opened Domain
  import opened Ledger
  import opened Concurrency
  import opened Serializability
  import opened ClaimKeys
  import opened Progress

  // ---------- What only grows ----------

  ghost predicate Grown(m: Machine, m': Machine) {
    && m.keys <= m'.keys && m.books.balances.Keys <= m'.books.balances.Keys
    && m'.books.accounts == m.books.accounts
  }

  lemma ActGrows(jobs: seq<Job>, m: Machine, i: nat)
    requires |jobs| == |m.workers|
    ensures Grown(m, Act(jobs, m, i))
  {
  }

  lemma {:induction false} ExecGrows(b0: Books, k0: set<nat>, jobs: seq<Job>, turns: seq<Turn>)
    ensures Grown(Begin(b0, k0, |jobs|), Exec(jobs, Begin(b0, k0, |jobs|), turns))
    decreases |turns|
  {
    if turns != [] {
      var init, t := turns[..|turns| - 1], turns[|turns| - 1];
      ExecGrows(b0, k0, jobs, init);
      ActGrows(jobs, Exec(jobs, Begin(b0, k0, |jobs|), init), t.worker);
    }
  }

  // ---------- Reasons ----------

  /** A key or balance row that the transaction inserts, absent at first and present now. */
  ghost predicate Appeared(b0: Books, k0: set<nat>, job: Job, m: Machine) {
    || (job.key.Some? && job.key.value in m.keys - k0)
    || exists a :: a in AccountsOf(job.postings) && a in m.books.balances.Keys - b0.balances.Keys
  }

  /** At some moment of the run, posting alone raised `e`. */
  ghost predicate RaisedAlone(b0: Books, k0: set<nat>, jobs: seq<Job>, turns: seq<Turn>, job: Job, e: Error) {
    exists n :: 0 <= n <= |turns|
                && Post(Exec(jobs, Begin(b0, k0, |jobs|), turns[..n]).books, job.kind, job.ref, job.postings) == Err(e)
  }

  ghost predicate Justified(b0: Books, k0: set<nat>, jobs: seq<Job>, turns: seq<Turn>, i: nat)
    requires i < |jobs|
  {
    var m, job := Exec(jobs, Begin(b0, k0, |jobs|), turns), jobs[i];
    match m.workers[i].phase
    case Aborted(KeyTaken) => job.key.Some? && job.key.value in m.keys
    case Aborted(Ambiguous) => |job.payments| > 1
    case Aborted(UniqueViolation) => Appeared(b0, k0, job, m)
    case Aborted(Raised(e)) => |job.payments| <= 1 && RaisedAlone(b0, k0, jobs, turns, job, e)
    case Aborted(Crashed) => Turn(i, true) in turns
    case Locking(k, inserting) => inserting ==> k < |Plan(job)| && !Present(Begin(b0, k0, |jobs|), Plan(job)[k])
    case _ => |job.payments| <= 1
  }

  lemma RaisedBefore(b0: Books, k0: set<nat>, jobs: seq<Job>, turns: seq<Turn>, t: Turn, job: Job, e: Error)
    requires RaisedAlone(b0, k0, jobs, turns, job, e)
    ensures RaisedAlone(b0, k0, jobs, turns + [t], job, e)
  {
    var n :| 0 <= n <= |turns|
             && Post(Exec(jobs, Begin(b0, k0, |jobs|), turns[..n]).books, job.kind, job.ref, job.postings) == Err(e);
    assert (turns + [t])[..n] == turns[..n];
  }

  /** A turn that leaves worker `i` where it is leaves its reason. */
  lemma UnmovedKeepsReason(b0: Books, k0: set<nat>, jobs: seq<Job>, turns: seq<Turn>, t: Turn, i: nat)
    requires i < |jobs| && Justified(b0, k0, jobs, turns, i)
    requires Exec(jobs, Begin(b0, k0, |jobs|), turns + [t]).workers[i].phase ==
             Exec(jobs, Begin(b0, k0, |jobs|), turns).workers[i].phase
    ensures Justified(b0, k0, jobs, turns + [t], i)
  {
    var m := Exec(jobs, Begin(b0, k0, |jobs|), turns);
    ExecSnoc(jobs, Begin(b0, k0, |jobs|), turns, t);
    ActGrows(jobs, m, t.worker);
    if m.workers[i].phase.Aborted? && m.workers[i].phase.why.Raised? {
      RaisedBefore(b0, k0, jobs, turns, t, jobs[i], m.workers[i].phase.why.error);
    }
  }

  /** What one lock statement can lead to, and why. */
  lemma LockVerdict(m: Machine, i: nat, job: Job, k: nat, inserting: bool)
    requires i < |m.workers| && k < |Plan(job)| && m.workers[i].phase == Locking(k, inserting)
    ensures var r, ph' := Plan(job)[k], LockNext(m, i, job, k, inserting).workers[i].phase;
            match ph'
            case Aborted(KeyTaken) => job.key.Some? && job.key.value in m.keys
            case Aborted(Ambiguous) => |job.payments| > 1
            case Aborted(UniqueViolation) => inserting && Present(m, r)
            case Aborted(Raised(e)) => |job.payments| <= 1
            case Aborted(Crashed) => false
            case Locking(k', inserting') => inserting' ==> k' == k && (inserting || !Present(m, r))
            case _ => false
  {
    if k >= |Keys(job)| {
      assert Plan(job)[k] == Balances(SortedAccounts(job.postings))[k - |Keys(job)|];
    } else {
      assert Plan(job)[k] == Keys(job)[k];
    }
  }

  /** A row of the plan that is present now and was absent at first has appeared. */
  lemma InsertedAppeared(b0: Books, k0: set<nat>, n: nat, job: Job, k: nat, m: Machine)
    requires k < |Plan(job)| && !Present(Begin(b0, k0, n), Plan(job)[k]) && Present(m, Plan(job)[k])
    ensures Appeared(b0, k0, job, m)
  {
    if k >= |Keys(job)| {
      var a := SortedAccounts(job.postings)[k - |Keys(job)|];
      assert Plan(job)[k] == BalanceOf(a) && a in SortedAccounts(job.postings);
    } else {
      assert Plan(job)[k] == Keys(job)[k];
    }
  }

  lemma LockingVerdict(b0: Books, k0: set<nat>, jobs: seq<Job>, turns: seq<Turn>, i: nat)
    requires i < |jobs| && Justified(b0, k0, jobs, turns, i)
    requires var m := Exec(jobs, Begin(b0, k0, |jobs|), turns);
             m.workers[i].phase.Locking? && m.workers[i].phase.held < |Plan(jobs[i])|
    ensures Justified(b0, k0, jobs, turns + [Turn(i, false)], i)
  {
    var m := Exec(jobs, Begin(b0, k0, |jobs|), turns);
    var k, inserting := m.workers[i].phase.held, m.workers[i].phase.inserting;
    var m' := LockNext(m, i, jobs[i], k, inserting);
    ExecSnoc(jobs, Begin(b0, k0, |jobs|), turns, Turn(i, false));
    ActGrows(jobs, m, i);
    ExecGrows(b0, k0, jobs, turns);
    LockVerdict(m, i, jobs[i], k, inserting);
    match m'.workers[i].phase
    case Aborted(UniqueViolation) => InsertedAppeared(b0, k0, |jobs|, jobs[i], k, m');
    case Aborted(Raised(e)) => RaisedNow(b0, k0, jobs, turns, i, e);
    case _ =>
  }

  lemma RaisedNow(b0: Books, k0: set<nat>, jobs: seq<Job>, turns: seq<Turn>, i: nat, e: Error)
    requires i < |jobs| && Active(Exec(jobs, Begin(b0, k0, |jobs|), turns).workers[i])
    requires Act(jobs, Exec(jobs, Begin(b0, k0, |jobs|), turns), i).workers[i].phase == Aborted(Raised(e))
    ensures RaisedAlone(b0, k0, jobs, turns + [Turn(i, false)], jobs[i], e)
  {
    FailureIsSerial(b0, k0, jobs, turns, i, e);
    assert (turns + [Turn(i, false)])[..|turns|] == turns;
  }

  lemma LockedVerdict(b0: Books, k0: set<nat>, jobs: seq<Job>, turns: seq<Turn>, i: nat)
    requires i < |jobs| && Justified(b0, k0, jobs, turns, i)
    requires var m := Exec(jobs, Begin(b0, k0, |jobs|), turns);
             m.workers[i].phase.Applying? ||
             (m.workers[i].phase.Locking? && m.workers[i].phase.held >= |Plan(jobs[i])|)
    ensures Justified(b0, k0, jobs, turns + [Turn(i, false)], i)
  {
    var m := Exec(jobs, Begin(b0, k0, |jobs|), turns);
    ExecSnoc(jobs, Begin(b0, k0, |jobs|), turns, Turn(i, false));
    match Act(jobs, m, i).workers[i].phase
    case Aborted(Raised(e)) => RaisedNow(b0, k0, jobs, turns, i, e);
    case _ =>
  }

  lemma TurnKeepsReason(b0: Books, k0: set<nat>, jobs: seq<Job>, turns: seq<Turn>, t: Turn, i: nat)
    requires i < |jobs| && Justified(b0, k0, jobs, turns, i)
    ensures Justified(b0, k0, jobs, turns + [t], i)
  {
    var m := Exec(jobs, Begin(b0, k0, |jobs|), turns);
    ExecSnoc(jobs, Begin(b0, k0, |jobs|), turns, t);
    if t.worker != i {
      if t.worker < |jobs| {
        ActChangesOne(jobs, m, t.worker);
      }
      UnmovedKeepsReason(b0, k0, jobs, turns, t, i);
    } else if !Active(m.workers[i]) {
      UnmovedKeepsReason(b0, k0, jobs, turns, t, i);
    } else if t.crash {
      assert t in turns + [t];
    } else if m.workers[i].phase.Locking? && m.workers[i].phase.held < |Plan(jobs[i])| {
      LockingVerdict(b0, k0, jobs, turns, i);
    } else {
      LockedVerdict(b0, k0, jobs, turns, i);
    }
  }

  /**
   After any interleaving, with any crashes, each transaction that ended without a commit has its
   reason: its key was committed by another, its reference matched several payments, a row that it
   inserted appeared meanwhile, posting alone raised its error at some moment, or it crashed.  And one
   that committed found at most one payment.
   */
  lemma {:induction false} EndsHaveReasons(b0: Books, k0: set<nat>, jobs: seq<Job>, turns: seq<Turn>, i: nat)
    requires i < |jobs|
    ensures Justified(b0, k0, jobs, turns, i)
    decreases |turns|
  {
    if turns != [] {
      var init, t := turns[..|turns| - 1], turns[|turns| - 1];
      EndsHaveReasons(b0, k0, jobs, init, i);
      TurnKeepsReason(b0, k0, jobs, init, t, i);
      assert init + [t] == turns;
    }
  }

  // ---------- A transaction without rivals ----------

  /** Only a commit writes, and a committed transaction does nothing more. */
  lemma OnlyCommitsWrite(jobs: seq<Job>, m: Machine, i: nat)
    requires i < |jobs| == |m.workers|
    ensures var m' := Act(jobs, m, i);
            if m.workers[i].phase != Committed && m'.workers[i].phase == Committed then m'.log == m.log + [i]
            else m'.log == m.log && m'.books == m.books && m'.keys == m.keys
                 && (m.workers[i].phase == Committed ==> m'.workers[i].phase == Committed)
  {
  }

  lemma {:induction false} LoneLog(b0: Books, k0: set<nat>, job: Job, turns: seq<Turn>)
    ensures var m := Exec([job], Begin(b0, k0, 1), turns);
            if m.workers[0].phase == Committed then m.log == [0]
            else m.log == [] && m.books == b0 && m.keys == k0
    decreases |turns|
  {
    if turns != [] {
      var init, t := turns[..|turns| - 1], turns[|turns| - 1];
      LoneLog(b0, k0, job, init);
      OnlyCommitsWrite([job], Exec([job], Begin(b0, k0, 1), init), 0);
    }
  }

  /** A lone transaction that has not committed has changed nothing at any moment. */
  lemma {:induction false} LoneUncommitted(b0: Books, k0: set<nat>, job: Job, turns: seq<Turn>, n: nat)
    requires n <= |turns| && Exec([job], Begin(b0, k0, 1), turns).workers[0].phase != Committed
    ensures Exec([job], Begin(b0, k0, 1), turns[..n]).books == b0
    decreases |turns|
  {
    if n == |turns| {
      assert turns[..n] == turns;
      LoneLog(b0, k0, job, turns);
    } else {
      var init := turns[..|turns| - 1];
      OnlyCommitsWrite([job], Exec([job], Begin(b0, k0, 1), init), 0);
      LoneUncommitted(b0, k0, job, init, n);
      assert init[..n] == turns[..n];
    }
  }

  lemma LoneRefusal(b0: Books, k0: set<nat>, job: Job, turns: seq<Turn>)
    requires Crashless(turns) && Exec([job], Begin(b0, k0, 1), turns).workers[0].phase.Aborted?
    ensures (job.key.Some? && job.key.value in k0) || |job.payments| > 1
            || Post(b0, job.kind, job.ref, job.postings).Err?
  {
    EndsHaveReasons(b0, k0, [job], turns, 0);
    LoneLog(b0, k0, job, turns);
    match Exec([job], Begin(b0, k0, 1), turns).workers[0].phase.why
    case Raised(e) =>
      var n :| 0 <= n <= |turns|
               && Post(Exec([job], Begin(b0, k0, 1), turns[..n]).books, job.kind, job.ref, job.postings) == Err(e);
      LoneUncommitted(b0, k0, job, turns, n);
    case _ =>
  }

  /**
   A transaction that runs with no other can be run to its end, and it commits exactly when its key is
   new, at most one payment matches, and `post` accepts its postings; it then leaves what `post` says.
   */
  lemma LoneCommitsIff(b0: Books, k0: set<nat>, job: Job) returns (turns: seq<Turn>)
    ensures Crashless(turns)
    ensures var m, posted := Exec([job], Begin(b0, k0, 1), turns), Post(b0, job.kind, job.ref, job.postings);
            && !Active(m.workers[0])
            && (m.workers[0].phase == Committed <==>
                  (job.key.Some? ==> job.key.value !in k0) && |job.payments| <= 1 && posted.Ok?)
            && m.books == (if m.workers[0].phase == Committed then posted.value else b0)
  {
    turns := CanFinish(b0, k0, [job], []);
    assert turns[0..] == turns;
    EndsHaveReasons(b0, k0, [job], turns, 0);
    LoneLog(b0, k0, job, turns);
    InterleavingIsSerial(b0, k0, [job], turns);
    var m := Exec([job], Begin(b0, k0, 1), turns);
    if m.workers[0].phase == Committed {
      assert Serial(b0, [job], []) == Ok(b0);
      assert [0][..0] == [];
      if job.key.Some? {
        KeyCommitsOnce(b0, k0, [job], turns, 0, 0);
      }
    } else {
      LoneRefusal(b0, k0, job, turns);
    }
  }
}

/** Every reachable state can be run to its end: each statement that executes is progress. */
module Progress {
  import opened Domain
  import opened Concurrency
  import opened Serializability
  import opened Deadlock

  /** A bound on the statements that a worker has left. */
  function Left(job: Job, w: Worker): int {
    match w.phase
    case Locking(k, inserting) => 2 * (|Plan(job)| - k) + (if inserting then 0 else 1) + |job.postings| + 3
    case Applying(j, closing) => (if j <= |job.postings| then |job.postings| - j else 0) + (if closing then 1 else 2)
    case _ => 0
  }

  function AllLeft(jobs: seq<Job>, ws: seq<Worker>): int
    requires |jobs| == |ws|
  {
    if ws == [] then 0
    else AllLeft(jobs[..|ws| - 1], ws[..|ws| - 1]) + Left(jobs[|ws| - 1], ws[|ws| - 1])
  }

  lemma {:induction false} AllLeftUpdate(jobs: seq<Job>, ws: seq<Worker>, i: nat, w: Worker)
    requires |jobs| == |ws| && i < |ws|
    ensures AllLeft(jobs, ws[i := w]) == AllLeft(jobs, ws) - Left(jobs[i], ws[i]) + Left(jobs[i], w)
    decreases |ws|
  {
    var n := |ws| - 1;
    if i == n {
      assert ws[i := w][..n] == ws[..n];
    } else {
      assert ws[i := w][..n] == ws[..n][i := w];
      AllLeftUpdate(jobs[..n], ws[..n], i, w);
    }
  }

  lemma {:induction false} AllLeftNonNegative(jobs: seq<Job>, ws: seq<Worker>)
    requires |jobs| == |ws|
    requires forall i :: 0 <= i < |ws| && ws[i].phase.Locking? ==> ws[i].phase.held <= |Plan(jobs[i])|
    ensures AllLeft(jobs, ws) >= 0
    decreases |ws|
  {
    if ws != [] {
      AllLeftNonNegative(jobs[..|ws| - 1], ws[..|ws| - 1]);
    }
  }

  lemma LockIsProgress(m: Machine, i: nat, job: Job)
    requires i < |m.workers| && m.workers[i].phase.Locking? && m.workers[i].phase.held < |Plan(job)|
    ensures var m' := LockNext(m, i, job, m.workers[i].phase.held, m.workers[i].phase.inserting);
            m' == m ||
            (m'.workers == m.workers[i := m'.workers[i]] && Left(job, m'.workers[i]) < Left(job, m.workers[i]))
  {
  }

  lemma ClosingIsProgress(m: Machine, i: nat, job: Job)
    requires i < |m.workers| && m.workers[i].phase.Applying?
    ensures var m' := CloseClaim(m, i, job);
            m' == m ||
            (m'.workers == m.workers[i := m'.workers[i]] && Left(job, m'.workers[i]) < Left(job, m.workers[i]))
  {
  }

  /** A statement that changes anything brings its worker closer to its end. */
  lemma ActIsProgress(jobs: seq<Job>, m: Machine, i: nat)
    requires i < |jobs| == |m.workers| && Act(jobs, m, i) != m
    requires m.workers[i].phase.Locking? ==> m.workers[i].phase.held <= |Plan(jobs[i])|
    ensures var m' := Act(jobs, m, i);
            m'.workers == m.workers[i := m'.workers[i]] && Left(jobs[i], m'.workers[i]) < Left(jobs[i], m.workers[i])
  {
    match m.workers[i].phase
    case Locking(k, _) =>
      if k < |Plan(jobs[i])| {
        LockIsProgress(m, i, jobs[i]);
      }
    case Applying(j, _) =>
      if j >= |jobs[i].postings| {
        ClosingIsProgress(m, i, jobs[i]);
      }
    case _ =>
  }

  lemma HeldBounded(b0: Books, k0: set<nat>, jobs: seq<Job>, turns: seq<Turn>)
    ensures var ws := Exec(jobs, Begin(b0, k0, |jobs|), turns).workers;
            forall i :: 0 <= i < |ws| && ws[i].phase.Locking? ==> ws[i].phase.held <= |Plan(jobs[i])|
  {
    var m := Exec(jobs, Begin(b0, k0, |jobs|), turns);
    ExecKeepsInv(b0, k0, jobs, turns);
    forall i | 0 <= i < |m.workers| && m.workers[i].phase.Locking? ensures m.workers[i].phase.held <= |Plan(jobs[i])| {
      assert LocksOk(jobs, m, i);
    }
  }

  /** Some unfinished worker can execute a statement, and one statement fewer is left after it. */
  lemma OneStep(b0: Books, k0: set<nat>, jobs: seq<Job>, turns: seq<Turn>) returns (t: Turn)
    requires !Finished(Exec(jobs, Begin(b0, k0, |jobs|), turns))
    ensures !t.crash
    ensures var m := Exec(jobs, Begin(b0, k0, |jobs|), turns);
            0 <= AllLeft(jobs, Exec(jobs, Begin(b0, k0, |jobs|), turns + [t]).workers) < AllLeft(jobs, m.workers)
  {
    var m := Exec(jobs, Begin(b0, k0, |jobs|), turns);
    var i :| 0 <= i < |m.workers| && Active(m.workers[i]);
    var j := CanAct(b0, k0, jobs, turns, i);
    t := Turn(j, false);
    ExecSnoc(jobs, Begin(b0, k0, |jobs|), turns, t);
    HeldBounded(b0, k0, jobs, turns);
    HeldBounded(b0, k0, jobs, turns + [t]);
    ActIsProgress(jobs, m, j);
    AllLeftUpdate(jobs, m.workers, j, Act(jobs, m, j).workers[j]);
    AllLeftNonNegative(jobs, Act(jobs, m, j).workers);
  }

  lemma CanAct(b0: Books, k0: set<nat>, jobs: seq<Job>, turns: seq<Turn>, i: nat) returns (j: nat)
    requires var m := Exec(jobs, Begin(b0, k0, |jobs|), turns); i < |jobs| && Active(m.workers[i])
    ensures j < |jobs|
              && Act(jobs, Exec(jobs, Begin(b0, k0, |jobs|), turns), j) != Exec(jobs, Begin(b0, k0, |jobs|), turns)
  {
    NeverStuck(b0, k0, jobs, turns, i);
    var m := Exec(jobs, Begin(b0, k0, |jobs|), turns);
    j :| 0 <= j < |jobs| && Active(m.workers[j]) && Act(jobs, m, j) != m;
  }

  /** From every reachable state all unfinished transactions can be run to their ends, without a crash. */
  lemma {:induction false} CanFinish(b0: Books, k0: set<nat>, jobs: seq<Job>, turns: seq<Turn>)
    returns (more: seq<Turn>)
    ensures turns <= more && Crashless(more[|turns|..])
    ensures Finished(Exec(jobs, Begin(b0, k0, |jobs|), more))
    decreases AllLeft(jobs, Exec(jobs, Begin(b0, k0, |jobs|), turns).workers)
  {
    if Finished(Exec(jobs, Begin(b0, k0, |jobs|), turns)) {
      more := turns;
    } else {
      var t := OneStep(b0, k0, jobs, turns);
      more := CanFinish(b0, k0, jobs, turns + [t]);
      assert more[|turns|] == t;
      assert more[|turns|..] == [t] + more[|turns| + 1..];
    }
  }
}

/** Unique keys under concurrency: of all transactions that insert one key, at most one commits. */
module ClaimKeys {
  import opened Wrappers
  import opened Domain
  import opened Concurrency
  import opened Serializability

  /** Some committed transaction inserted key `k`. */
  ghost predicate Inserted(jobs: seq<Job>, log: seq<nat>, k: nat) {
    exists n :: 0 <= n < |log| && log[n] < |jobs| && jobs[log[n]].key == Some(k)
  }

  /** The log names the committed workers, each once. */
  ghost predicate LogOk(m: Machine) {
    && (forall n :: 0 <= n < |m.log| ==> m.log[n] < |m.workers| && m.workers[m.log[n]].phase == Committed)
    && (forall i :: 0 <= i < |m.workers| && m.workers[i].phase == Committed ==> i in m.log)
  }

  ghost predicate KeysOk(k0: set<nat>, jobs: seq<Job>, m: Machine) {
    && (forall k :: KeyRow(k) in m.owner ==> k !in m.keys)
    && (forall k :: k in m.keys <==> k in k0 || Inserted(jobs, m.log, k))
    && (forall a, b :: 0 <= a < b < |m.log| && m.log[a] < |jobs| && m.log[b] < |jobs| && jobs[m.log[a]].key.Some? ==>
          jobs[m.log[a]].key != jobs[m.log[b]].key)
    && (forall a :: 0 <= a < |m.log| && m.log[a] < |jobs| && jobs[m.log[a]].key.Some? ==>
          jobs[m.log[a]].key.value !in k0)
  }

  /** A transaction refused for its key met a committed one. */
  ghost predicate RefusalsOk(jobs: seq<Job>, m: Machine) {
    |m.workers| == |jobs| &&
    forall i :: 0 <= i < |jobs| && m.workers[i].phase == Aborted(KeyTaken) ==>
      jobs[i].key.Some? && jobs[i].key.value in m.keys
  }

  ghost predicate OnceInv(k0: set<nat>, jobs: seq<Job>, m: Machine) {
    LogOk(m) && KeysOk(k0, jobs, m) && RefusalsOk(jobs, m)
  }

  // ---------- Steps that commit nothing ----------

  /** Worker `i` goes on or stops; no key is committed, and no committed key is locked. */
  lemma QuietKeepsOnce(k0: set<nat>, jobs: seq<Job>, m: Machine, m': Machine, i: nat)
    requires OnceInv(k0, jobs, m) && i < |jobs| && Active(m.workers[i])
    requires m'.keys == m.keys && m'.log == m.log && |m'.workers| == |m.workers|
    requires m'.workers == m.workers[i := m'.workers[i]] && m'.workers[i].phase != Committed
    requires m'.workers[i].phase == Aborted(KeyTaken) ==> jobs[i].key.Some? && jobs[i].key.value in m.keys
    requires forall k :: KeyRow(k) in m'.owner ==> KeyRow(k) in m.owner || k !in m.keys
    ensures OnceInv(k0, jobs, m')
  {
  }

  /** A lock statement commits nothing and locks a key only if it is not committed. */
  lemma LockNextIsQuiet(m: Machine, i: nat, job: Job, k: nat, inserting: bool)
    requires i < |m.workers| && k < |Plan(job)| && m.workers[i].phase == Locking(k, inserting)
    ensures var m' := LockNext(m, i, job, k, inserting);
            && m'.keys == m.keys && m'.log == m.log && m'.workers == m.workers[i := m'.workers[i]]
            && m'.workers[i].phase != Committed
            && (m'.workers[i].phase == Aborted(KeyTaken) ==> job.key.Some? && job.key.value in m.keys)
            && (forall q :: KeyRow(q) in m'.owner ==> KeyRow(q) in m.owner || q !in m.keys)
  {
    if Plan(job)[k].KeyRow? {
      KeyInPlan(job, k);
    }
  }

  lemma KeyInPlan(job: Job, k: nat)
    requires k < |Plan(job)| && Plan(job)[k].KeyRow?
    ensures job.key == Some(Plan(job)[k].id)
  {
  }

  lemma LockNextKeepsOnce(k0: set<nat>, jobs: seq<Job>, m: Machine, i: nat)
    requires OnceInv(k0, jobs, m) && i < |jobs| && m.workers[i].phase.Locking?
    requires m.workers[i].phase.held < |Plan(jobs[i])|
    ensures OnceInv(k0, jobs, LockNext(m, i, jobs[i], m.workers[i].phase.held, m.workers[i].phase.inserting))
  {
    var k, inserting := m.workers[i].phase.held, m.workers[i].phase.inserting;
    LockNextIsQuiet(m, i, jobs[i], k, inserting);
    QuietKeepsOnce(k0, jobs, m, LockNext(m, i, jobs[i], k, inserting), i);
  }

  // ---------- Commit ----------

  lemma InsertedSnoc(jobs: seq<Job>, log: seq<nat>, i: nat, k: nat)
    requires i < |jobs|
    ensures Inserted(jobs, log + [i], k) <==> Inserted(jobs, log, k) || jobs[i].key == Some(k)
  {
    if Inserted(jobs, log, k) {
      var n :| 0 <= n < |log| && log[n] < |jobs| && jobs[log[n]].key == Some(k);
      assert (log + [i])[n] == log[n];
    }
    assert (log + [i])[|log|] == i;
  }

  lemma KeyIsMine(jobs: seq<Job>, m: Machine, i: nat)
    requires i < |jobs| == |m.workers| && m.workers[i].phase.Applying? && LocksOk(jobs, m, i) && jobs[i].key.Some?
    ensures KeyRow(jobs[i].key.value) in m.owner && m.owner[KeyRow(jobs[i].key.value)] == i
  {
    assert Plan(jobs[i])[0] == KeyRow(jobs[i].key.value);
    assert KeyRow(jobs[i].key.value) in Locks(m.workers[i], jobs[i]);
  }

  /** The key of a committing transaction is new. */
  lemma CommitIsNew(k0: set<nat>, jobs: seq<Job>, m: Machine, i: nat, k: nat)
    requires KeysOk(k0, jobs, m) && i < |jobs| == |m.workers|
    requires m.workers[i].phase.Applying? && LocksOk(jobs, m, i) && jobs[i].key == Some(k)
    ensures k !in m.keys && k !in k0 && !Inserted(jobs, m.log, k)
  {
    KeyIsMine(jobs, m, i);
  }

  lemma CommittedKeys(k0: set<nat>, jobs: seq<Job>, m: Machine, i: nat, k: nat)
    requires KeysOk(k0, jobs, m) && i < |jobs| == |m.workers|
    ensures k in Commit(m, i, jobs[i]).keys <==> k in k0 || Inserted(jobs, Commit(m, i, jobs[i]).log, k)
  {
    InsertedSnoc(jobs, m.log, i, k);
  }

  lemma CommittedLocks(k0: set<nat>, jobs: seq<Job>, m: Machine, i: nat, k: nat)
    requires KeysOk(k0, jobs, m) && i < |jobs| == |m.workers|
    requires m.workers[i].phase.Applying? && LocksOk(jobs, m, i) && KeyRow(k) in Commit(m, i, jobs[i]).owner
    ensures k !in Commit(m, i, jobs[i]).keys
  {
    if jobs[i].key == Some(k) {
      KeyIsMine(jobs, m, i);
    }
  }

  lemma CommitKeepsKeys(k0: set<nat>, jobs: seq<Job>, m: Machine, i: nat)
    requires KeysOk(k0, jobs, m) && i < |jobs| == |m.workers|
    requires m.workers[i].phase.Applying? && LocksOk(jobs, m, i)
    ensures KeysOk(k0, jobs, Commit(m, i, jobs[i]))
  {
    var m' := Commit(m, i, jobs[i]);
    forall k ensures k in m'.keys <==> k in k0 || Inserted(jobs, m'.log, k) {
      CommittedKeys(k0, jobs, m, i, k);
    }
    forall k | KeyRow(k) in m'.owner ensures k !in m'.keys {
      CommittedLocks(k0, jobs, m, i, k);
    }
    if jobs[i].key.Some? {
      CommitIsNew(k0, jobs, m, i, jobs[i].key.value);
    }
    forall a | 0 <= a < |m.log| && m.log[a] < |jobs| && jobs[m.log[a]].key.Some?
      ensures jobs[m.log[a]].key != jobs[i].key {
      assert Inserted(jobs, m.log, jobs[m.log[a]].key.value);
    }
  }

  lemma CommitKeepsOnce(k0: set<nat>, jobs: seq<Job>, m: Machine, i: nat)
    requires OnceInv(k0, jobs, m) && i < |jobs| && m.workers[i].phase.Applying? && LocksOk(jobs, m, i)
    ensures OnceInv(k0, jobs, Commit(m, i, jobs[i]))
  {
    var m' := Commit(m, i, jobs[i]);
    CommitKeepsKeys(k0, jobs, m, i);
    forall j | 0 <= j < |m'.workers| && m'.workers[j].phase == Committed ensures j in m'.log {
      if j != i {
        assert j in m.log;
      }
    }
  }

  // ---------- Every run ----------

  lemma ActKeepsOnce(k0: set<nat>, jobs: seq<Job>, m: Machine, i: nat)
    requires OnceInv(k0, jobs, m) && i < |jobs| && LocksOk(jobs, m, i)
    ensures OnceInv(k0, jobs, Act(jobs, m, i))
  {
    var job, w := jobs[i], m.workers[i];
    match w.phase
    case Locking(k, inserting) =>
      if k < |Plan(job)| {
        LockNextKeepsOnce(k0, jobs, m, i);
      } else {
        QuietKeepsOnce(k0, jobs, m, Act(jobs, m, i), i);
      }
    case Applying(j, closing) =>
      if j >= |job.postings| && (closing || job.claim.None? || job.claim.value !in m.keys) {
        CommitKeepsOnce(k0, jobs, m, i);
      } else {
        QuietKeepsOnce(k0, jobs, m, Act(jobs, m, i), i);
      }
    case _ =>
  }

  lemma {:induction false} ExecKeepsOnce(b0: Books, k0: set<nat>, jobs: seq<Job>, turns: seq<Turn>)
    ensures OnceInv(k0, jobs, Exec(jobs, Begin(b0, k0, |jobs|), turns))
  {
    if turns != [] {
      var n := |turns| - 1;
      var m, i := Exec(jobs, Begin(b0, k0, |jobs|), turns[..n]), turns[n].worker;
      ExecKeepsOnce(b0, k0, jobs, turns[..n]);
      if i < |jobs| {
        assert LocksOk(jobs, m, i) by { ExecKeepsInv(b0, k0, jobs, turns[..n]); }
        if !turns[n].crash {
          ActKeepsOnce(k0, jobs, m, i);
        } else if Active(m.workers[i]) {
          QuietKeepsOnce(k0, jobs, m, Fail(m, i, Crashed), i);
        }
      }
    }
  }

  lemma CommittedIsLogged(m: Machine, i: nat) returns (a: nat)
    requires LogOk(m) && i < |m.workers| && m.workers[i].phase == Committed
    ensures a < |m.log| && m.log[a] == i
  {
    a :| 0 <= a < |m.log| && m.log[a] == i;
  }

  /** In a state that keeps the invariant, two committed workers have different keys. */
  lemma DifferentKeys(k0: set<nat>, jobs: seq<Job>, m: Machine, i: nat, j: nat)
    requires OnceInv(k0, jobs, m) && i < |jobs| && j < |jobs| && i != j && jobs[i].key.Some?
    requires m.workers[i].phase == Committed && m.workers[j].phase == Committed
    ensures jobs[j].key != jobs[i].key
  {
    var a := CommittedIsLogged(m, i);
    var b := CommittedIsLogged(m, j);
  }

  lemma CommittedKeyIsNew(k0: set<nat>, jobs: seq<Job>, m: Machine, i: nat)
    requires OnceInv(k0, jobs, m) && i < |jobs| && jobs[i].key.Some? && m.workers[i].phase == Committed
    ensures jobs[i].key.value in m.keys - k0
  {
    var a := CommittedIsLogged(m, i);
    assert Inserted(jobs, m.log, jobs[i].key.value);
  }

  /**
   Insert is win or abort: after any interleaving with any crashes, two transactions with one claim
   key or event id have not both committed, none has whose key was there before, and one that
   was answered instead (replay, conflict, duplicate) met the key of a committed transaction.
   */
  lemma KeyCommitsOnce(b0: Books, k0: set<nat>, jobs: seq<Job>, turns: seq<Turn>, i: nat, j: nat)
    requires i < |jobs| && j < |jobs| && jobs[i].key.Some?
    ensures var m := Exec(jobs, Begin(b0, k0, |jobs|), turns);
            && (m.workers[i].phase == Committed ==> jobs[i].key.value in m.keys - k0)
            && (m.workers[i].phase == Committed && m.workers[j].phase == Committed && i != j ==>
                  jobs[j].key != jobs[i].key)
            && (m.workers[i].phase == Aborted(KeyTaken) ==> jobs[i].key.value in m.keys)
            && (jobs[i].key.value in m.keys - k0 ==>
                  exists w :: 0 <= w < |jobs| && m.workers[w].phase == Committed && jobs[w].key == jobs[i].key)
  {
    ExecKeepsOnce(b0, k0, jobs, turns);
    var m := Exec(jobs, Begin(b0, k0, |jobs|), turns);
    if m.workers[i].phase == Committed {
      CommittedKeyIsNew(k0, jobs, m, i);
      if m.workers[j].phase == Committed && i != j {
        DifferentKeys(k0, jobs, m, i, j);
      }
    }
    if jobs[i].key.value in m.keys - k0 {
      var w := WhoInserted(k0, jobs, m, jobs[i].key.value);
    }
  }

  lemma WhoInserted(k0: set<nat>, jobs: seq<Job>, m: Machine, k: nat) returns (w: nat)
    requires OnceInv(k0, jobs, m) && k in m.keys - k0
    ensures w < |jobs| && m.workers[w].phase == Committed && jobs[w].key == Some(k)
  {
    var n :| 0 <= n < |m.log| && m.log[n] < |jobs| && jobs[m.log[n]].key == Some(k);
    w := m.log[n];
  }
}

/** With the lock order keys, payment, ascending balances, the waiting never becomes circular. */
module Deadlock {
  import opened Wrappers
  import opened Domain
  import opened Concurrency
  import opened Serializability

  /** Worker `i` waits: its next statement needs a lock that another transaction owns. */
  predicate Blocked(jobs: seq<Job>, m: Machine, i: nat)
    requires |jobs| == |m.workers|
  {
    i < |jobs| && Active(m.workers[i]) && Act(jobs, m, i) == m
  }

  /** The lock a blocked worker waits for. */
  function Wanted(jobs: seq<Job>, m: Machine, i: nat): Resource
    requires |jobs| == |m.workers| && Blocked(jobs, m, i)
  {
    var job, phase := jobs[i], m.workers[i].phase;
    if phase.Locking? && phase.held < |Plan(job)| then Obstacle(m, Plan(job)[phase.held]).GetOr(KeyRow(0))
    else ClaimRow(job.claim.GetOr(0))
  }

  /** A statement that takes the next lock leaves the machine alone only if something is in its way. */
  lemma LockNextWaits(m: Machine, i: nat, job: Job)
    requires i < |m.workers| && m.workers[i].phase.Locking? && m.workers[i].phase.held < |Plan(job)|
    requires LockNext(m, i, job, m.workers[i].phase.held, m.workers[i].phase.inserting) == m
    ensures Obstacle(m, Plan(job)[m.workers[i].phase.held]).Some?
  {
    var k, inserting := m.workers[i].phase.held, m.workers[i].phase.inserting;
    var m' := LockNext(m, i, job, k, inserting);
    assert m'.workers[i] == m.workers[i];
  }

  lemma CloseClaimWaits(m: Machine, i: nat, job: Job)
    requires i < |m.workers| && m.workers[i].phase.Applying? && CloseClaim(m, i, job) == m
    ensures !m.workers[i].phase.closing && job.claim.Some? && ClaimRow(job.claim.value) in m.owner
  {
    assert CloseClaim(m, i, job).workers[i] == m.workers[i];
  }

  /** What a blocked worker waits for, read off its phase. */
  lemma BlockedShape(jobs: seq<Job>, m: Machine, i: nat)
    requires |jobs| == |m.workers| && Blocked(jobs, m, i)
    ensures var w, job := m.workers[i], jobs[i];
            match w.phase
            case Locking(k, _) => k < |Plan(job)| && Obstacle(m, Plan(job)[k]) == Some(Wanted(jobs, m, i))
            case Applying(_, closing) => !closing && job.claim.Some? && Wanted(jobs, m, i) == ClaimRow(job.claim.value)
            case _ => false
    ensures Wanted(jobs, m, i) in m.owner
  {
    var w, job := m.workers[i], jobs[i];
    assert Act(jobs, m, i).workers[i] == w;
    match w.phase
    case Locking(k, _) =>
      if k < |Plan(job)| {
        LockNextWaits(m, i, job);
      }
    case Applying(j, _) =>
      if j >= |job.postings| {
        CloseClaimWaits(m, i, job);
      }
    case _ =>
  }

  /** Only locks make a worker wait, never one of its own. */
  lemma BlockedWaits(jobs: seq<Job>, m: Machine, i: nat, b0: Books)
    requires MachineInv(b0, jobs, m) && Blocked(jobs, m, i)
    ensures Wanted(jobs, m, i) in m.owner && m.owner[Wanted(jobs, m, i)] != i
  {
    var r := Wanted(jobs, m, i);
    BlockedShape(jobs, m, i);
    if m.owner[r] == i {
      assert r in Locks(m.workers[i], jobs[i]);
      LocksBelowWanted(jobs, m, i, r);
      assert false;
    }
  }

  /** A blocked worker wants a lock above all those it holds. */
  lemma LocksBelowWanted(jobs: seq<Job>, m: Machine, i: nat, r: Resource)
    requires |jobs| == |m.workers| && Blocked(jobs, m, i) && r in Locks(m.workers[i], jobs[i])
    ensures Below(r, Wanted(jobs, m, i))
  {
    BlockedShape(jobs, m, i);
    PlanAscends(jobs[i]);
    PlanBelowClaims(jobs[i]);
  }

  lemma PlanBelowClaims(job: Job)
    ensures forall r :: r in Plan(job) ==> !r.ClaimRow?
  {
  }

  /** `i` waits for a lock that `j` owns. */
  predicate WaitsFor(jobs: seq<Job>, m: Machine, i: nat, j: nat)
    requires |jobs| == |m.workers|
  {
    Blocked(jobs, m, i) && Wanted(jobs, m, i) in m.owner && m.owner[Wanted(jobs, m, i)] == j
  }

  /** Along an edge of the wait-for graph the wanted lock strictly rises. */
  lemma WantsRise(jobs: seq<Job>, m: Machine, i: nat, j: nat, b0: Books)
    requires MachineInv(b0, jobs, m) && WaitsFor(jobs, m, i, j) && Blocked(jobs, m, j)
    ensures Below(Wanted(jobs, m, i), Wanted(jobs, m, j))
  {
    LocksBelowWanted(jobs, m, j, Wanted(jobs, m, i));
  }

  ghost predicate WaitPath(jobs: seq<Job>, m: Machine, path: seq<nat>)
    requires |jobs| == |m.workers|
  {
    |path| >= 2 && forall k :: 0 <= k < |path| - 1 ==> WaitsFor(jobs, m, path[k], path[k + 1])
  }

  lemma BelowTransitive(a: Resource, b: Resource, c: Resource)
    requires Below(a, b) && Below(b, c)
    ensures Below(a, c)
  {
  }

  lemma {:induction false} PathRises(jobs: seq<Job>, m: Machine, path: seq<nat>, n: nat, b0: Books)
    requires MachineInv(b0, jobs, m) && WaitPath(jobs, m, path) && 1 <= n < |path| && Blocked(jobs, m, path[n])
    requires Blocked(jobs, m, path[0])
    ensures Below(Wanted(jobs, m, path[0]), Wanted(jobs, m, path[n]))
  {
    assert WaitsFor(jobs, m, path[n - 1], path[n - 1 + 1]);
    WantsRise(jobs, m, path[n - 1], path[n], b0);
    if n > 1 {
      PathRises(jobs, m, path, n - 1, b0);
      BelowTransitive(Wanted(jobs, m, path[0]), Wanted(jobs, m, path[n - 1]), Wanted(jobs, m, path[n]));
    }
  }

  /** The wait-for graph of every reachable state is acyclic. */
  lemma NoWaitCycle(b0: Books, k0: set<nat>, jobs: seq<Job>, turns: seq<Turn>, path: seq<nat>)
    requires WaitPath(jobs, Exec(jobs, Begin(b0, k0, |jobs|), turns), path)
    ensures path[0] != path[|path| - 1]
  {
    var m := Exec(jobs, Begin(b0, k0, |jobs|), turns);
    ExecKeepsInv(b0, k0, jobs, turns);
    assert WaitsFor(jobs, m, path[0], path[1]);
    if path[0] == path[|path| - 1] {
      PathRises(jobs, m, path, |path| - 1, b0);
    }
  }

  /** How many owned locks lie above the one that a blocked worker wants, plus one. */
  ghost function Height(jobs: seq<Job>, m: Machine, i: nat): nat
    requires |jobs| == |m.workers|
  {
    if Blocked(jobs, m, i) then |OwnedAbove(m, Wanted(jobs, m, i))| + 1 else 0
  }

  ghost function OwnedAbove(m: Machine, r: Resource): set<Resource> {
    set q | q in m.owner && Below(r, q)
  }

  lemma OwnedAboveShrinks(m: Machine, r: Resource, q: Resource)
    requires Below(r, q) && q in m.owner
    ensures |OwnedAbove(m, q)| < |OwnedAbove(m, r)|
  {
    assert q in OwnedAbove(m, r) && q !in OwnedAbove(m, q);
    assert OwnedAbove(m, q) <= OwnedAbove(m, r);
    SmallerSet(OwnedAbove(m, q), OwnedAbove(m, r), q);
  }

  /** The owner a blocked worker waits for is unfinished, and blocked at most on something higher. */
  lemma OwnerIsHigher(jobs: seq<Job>, m: Machine, i: nat, b0: Books)
    requires MachineInv(b0, jobs, m) && Blocked(jobs, m, i)
    ensures Wanted(jobs, m, i) in m.owner
    ensures var o := m.owner[Wanted(jobs, m, i)];
            o < |jobs| && Active(m.workers[o]) && Height(jobs, m, o) < Height(jobs, m, i)
  {
    BlockedWaits(jobs, m, i, b0);
    var o := m.owner[Wanted(jobs, m, i)];
    assert Wanted(jobs, m, i) in Locks(m.workers[o], jobs[o]);
    if Blocked(jobs, m, o) {
      WantsRise(jobs, m, i, o, b0);
      BlockedShape(jobs, m, o);
      OwnedAboveShrinks(m, Wanted(jobs, m, i), Wanted(jobs, m, o));
    }
  }

  /** From an unfinished worker, following owners leads to one that can act. */
  lemma {:induction false} SomeoneActs(b0: Books, jobs: seq<Job>, m: Machine, i: nat) returns (j: nat)
    requires MachineInv(b0, jobs, m) && i < |jobs| && Active(m.workers[i])
    ensures j < |jobs| && Active(m.workers[j]) && !Blocked(jobs, m, j)
    decreases Height(jobs, m, i)
  {
    if Blocked(jobs, m, i) {
      OwnerIsHigher(jobs, m, i, b0);
      j := SomeoneActs(b0, jobs, m, m.owner[Wanted(jobs, m, i)]);
    } else {
      j := i;
    }
  }

  lemma SmallerSet(s: set<Resource>, t: set<Resource>, r: Resource)
    requires s <= t && r in t && r !in s
    ensures |s| < |t|
  {
    assert t == (t - s) + s;
    assert |t| == |t - s| + |s|;
    assert r in t - s;
  }

  /** Deadlock freedom: while any transaction is unfinished, some transaction can execute a statement. */
  lemma NeverStuck(b0: Books, k0: set<nat>, jobs: seq<Job>, turns: seq<Turn>, i: nat)
    requires var m := Exec(jobs, Begin(b0, k0, |jobs|), turns); i < |jobs| && Active(m.workers[i])
    ensures var m := Exec(jobs, Begin(b0, k0, |jobs|), turns);
            exists j :: 0 <= j < |jobs| && Active(m.workers[j]) && Act(jobs, m, j) != m
  {
    ExecKeepsInv(b0, k0, jobs, turns);
    var m := Exec(jobs, Begin(b0, k0, |jobs|), turns);
    var j := SomeoneActs(b0, jobs, m, i);
    assert Act(jobs, m, j) != m;
  }
}

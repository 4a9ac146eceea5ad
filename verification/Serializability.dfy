/** Any interleaving of locked transactions equals posting the committed ones in commit order. */
module Serializability {
  import opened Wrappers
  import opened Domain
  import opened Ledger
  import opened LedgerLemmas
  import opened Journal
  import opened Concurrency

  // ---------- Posting on private copies ----------

  /** The rows a worker sees once it holds all its balance locks. */
  function Copies(b: Books, ps: seq<Posting>): map<AccountId, BalanceRow> {
    map a | a in AccountsOf(ps) :: Row(b.balances, a)
  }

  /** Applying postings to copies of the touched rows is applying them to the whole table. */
  lemma {:induction false} ApplyLocally(m: map<AccountId, BalanceRow>, w: map<AccountId, BalanceRow>, ps: seq<Posting>)
    requires w.Keys <= m.Keys && (forall a :: a in w ==> m[a] == w[a])
    requires forall i :: 0 <= i < |ps| ==> ps[i].account in w
    ensures Apply(w, ps).Ok? == Apply(m, ps).Ok?
    ensures Apply(w, ps).Ok? ==> Apply(m, ps).value == m + Apply(w, ps).value && Apply(w, ps).value.Keys == w.Keys
    ensures Apply(w, ps).Err? ==> Apply(m, ps) == Apply(w, ps)
    decreases |ps|
  {
    if ps == [] {
      assert m + w == m;
    } else {
      var init := ps[..|ps| - 1];
      ApplyLocally(m, w, init);
      if Apply(w, init).Ok? {
        ApplyOneLocally(m, Apply(w, init).value, ps[|ps| - 1]);
      }
    }
  }

  lemma ApplyOneLocally(m: map<AccountId, BalanceRow>, w: map<AccountId, BalanceRow>, p: Posting)
    requires p.account in w
    ensures ApplyOne(w, p).Ok? ==>
              ApplyOne(m + w, p) == Ok(m + ApplyOne(w, p).value) && ApplyOne(w, p).value.Keys == w.Keys
    ensures ApplyOne(w, p).Err? ==> ApplyOne(m + w, p) == ApplyOne(w, p)
  {
    assert (m + w)[p.account] == w[p.account];
    if ApplyOne(w, p).Ok? {
      var row := ApplyOne(w, p).value[p.account];
      assert (m + w)[p.account := row] == m + w[p.account := row];
    }
  }

  lemma PostLocally(b: Books, kind: TransactionType, ref: Ref, ps: seq<Posting>)
    requires Validate(ps).Ok? && AccountsOf(ps) <= b.balances.Keys + b.accounts
    ensures Apply(Copies(b, ps), ps).Err? ==> Post(b, kind, ref, ps) == Err(Apply(Copies(b, ps), ps).error)
    ensures Apply(Copies(b, ps), ps).Ok? ==>
              Post(b, kind, ref, ps) == Ok(Books(b.accounts, b.balances + Apply(Copies(b, ps), ps).value,
                                                 b.txns + [Txn(kind, ref)], b.entries + Tagged(|b.txns|, ps)))
  {
    var m := Opened(b.balances, AccountsOf(ps));
    var w := Copies(b, ps);
    CopiesAgree(b, ps);
    ApplyLocally(m, w, ps);
    if Apply(w, ps).Ok? {
      OpenedUnderCopies(b.balances, AccountsOf(ps), Apply(w, ps).value);
    }
  }

  lemma CopiesAgree(b: Books, ps: seq<Posting>)
    ensures var m, w := Opened(b.balances, AccountsOf(ps)), Copies(b, ps);
            w.Keys <= m.Keys && forall a :: a in w ==> m[a] == w[a]
    ensures forall i :: 0 <= i < |ps| ==> ps[i].account in Copies(b, ps)
  {
    forall i | 0 <= i < |ps| ensures ps[i].account in Copies(b, ps) {
      assert ps[i].account in AccountsOf(ps);
    }
  }

  /** The rows opened for the postings do not show once all of them are overwritten. */
  lemma OpenedUnderCopies(m: map<AccountId, BalanceRow>, accs: set<AccountId>, w: map<AccountId, BalanceRow>)
    requires accs <= w.Keys
    ensures Opened(m, accs) + w == m + w
  {
  }

  // ---------- The invariant ----------

  /** The first `k` locks of a plan. */
  function Taken(job: Job, k: nat): seq<Resource> {
    Plan(job)[..if k <= |Plan(job)| then k else |Plan(job)|]
  }

  lemma TakenSnoc(job: Job, k: nat)
    requires k < |Plan(job)|
    ensures forall r :: r in Taken(job, k + 1) <==> r in Taken(job, k) || r == Plan(job)[k]
  {
    assert Plan(job)[..k + 1] == Plan(job)[..k] + [Plan(job)[k]];
  }

  /** The locks a worker holds. */
  function Locks(w: Worker, job: Job): seq<Resource> {
    match w.phase
    case Locking(k, _) => Taken(job, k)
    case Applying(_, closing) => if closing then FullPlan(job) else Plan(job)
    case _ => []
  }

  /** A worker owns the locks it took. */
  ghost predicate LocksOk(jobs: seq<Job>, m: Machine, i: nat)
    requires i < |m.workers| == |jobs|
  {
    && (m.workers[i].phase.Locking? ==> m.workers[i].phase.held <= |Plan(jobs[i])|)
    && forall r :: r in Locks(m.workers[i], jobs[i]) ==> r in m.owner && m.owner[r] == i
  }

  /** Every lock is owned by a worker that took it. */
  ghost predicate OwnersOk(jobs: seq<Job>, m: Machine)
    requires |m.workers| == |jobs|
  {
    forall r :: r in m.owner ==>
      m.owner[r] < |jobs| && r in Locks(m.workers[m.owner[r]], jobs[m.owner[r]])
  }

  /** The private copies equal the committed rows, plus the postings applied so far. */
  ghost predicate WorkOk(jobs: seq<Job>, m: Machine, i: nat)
    requires i < |m.workers| == |jobs|
  {
    CopiesOk(jobs[i], m.books, m.workers[i])
  }

  ghost predicate CopiesOk(job: Job, b: Books, w: Worker) {
    match w.phase
    case Locking(k, _) =>
      && (forall a :: a in w.work <==> BalanceOf(a) in Taken(job, k))
      && (forall a :: a in w.work ==> w.work[a] == Row(b.balances, a) && a in b.balances.Keys + b.accounts)
    case Applying(j, _) =>
      && j <= |job.postings|
      && Refusal(job).None?
      && AccountsOf(job.postings) <= b.balances.Keys + b.accounts
      && Apply(Copies(b, job.postings), job.postings[..j]) == Ok(w.work)
    case _ => true
  }

  ghost predicate MachineInv(b0: Books, jobs: seq<Job>, m: Machine) {
    && |m.workers| == |jobs|
    && OwnersOk(jobs, m)
    && (forall i :: 0 <= i < |jobs| ==> LocksOk(jobs, m, i))
    && (forall i :: 0 <= i < |jobs| ==> WorkOk(jobs, m, i))
    && (forall k :: 0 <= k < |m.log| ==> m.log[k] < |jobs|)
    && Serial(b0, jobs, m.log) == Ok(m.books)
  }

  // ---------- Plans ----------

  lemma PlanAscends(job: Job)
    ensures forall k, l :: 0 <= k < l < |Plan(job)| ==> Below(Plan(job)[k], Plan(job)[l])
    ensures forall a :: BalanceOf(a) in Plan(job) <==> a in AccountsOf(job.postings)
    ensures forall k :: 0 <= k < |Keys(job)| ==> !Keys(job)[k].BalanceOf? && Plan(job)[k] == Keys(job)[k]
  {
    var keys, ids := Keys(job), SortedAccounts(job.postings);
    forall a ensures BalanceOf(a) in Plan(job) <==> a in AccountsOf(job.postings) {
      if a in AccountsOf(job.postings) {
        assert a in ids;
        var i :| 0 <= i < |ids| && ids[i] == a;
        assert Plan(job)[|keys| + i] == BalanceOf(a);
      }
    }
  }

  /** The worker has locked its key and its payment rows. */
  predicate PastPayments(job: Job, w: Worker) {
    (w.phase.Locking? && w.phase.held >= |Keys(job)|) || w.phase.Applying?
  }

  /** Until it ends it owns its payment row. */
  lemma OwnsPayment(jobs: seq<Job>, m: Machine, i: nat)
    requires i < |jobs| == |m.workers| && LocksOk(jobs, m, i) && jobs[i].payments != []
    requires PastPayments(jobs[i], m.workers[i])
    ensures PaymentRow(jobs[i].payments[0]) in m.owner && m.owner[PaymentRow(jobs[i].payments[0])] == i
  {
    var job, r := jobs[i], PaymentRow(jobs[i].payments[0]);
    var k := if job.key.Some? then 1 else 0;
    assert Keys(job)[k] == r && Plan(job)[k] == r;
    if m.workers[i].phase.Locking? {
      assert Taken(job, m.workers[i].phase.held)[k] == r;
    }
    assert r in Locks(m.workers[i], job);
  }

  // ---------- Steps that leave the committed rows alone ----------

  /** Worker `i` drops all its locks and stops; nobody else notices. */
  lemma StopKeepsLocks(jobs: seq<Job>, m: Machine, m': Machine, i: nat, w: Worker)
    requires |m.workers| == |jobs| && i < |jobs| && !Active(w)
    requires OwnersOk(jobs, m) && forall j :: 0 <= j < |jobs| ==> LocksOk(jobs, m, j)
    requires m'.workers == m.workers[i := w] && m'.owner == Release(m.owner, i)
    ensures OwnersOk(jobs, m') && forall j :: 0 <= j < |jobs| ==> LocksOk(jobs, m', j)
  {
    forall j | 0 <= j < |jobs| ensures LocksOk(jobs, m', j) {
      assert LocksOk(jobs, m, j);
    }
  }

  lemma FailKeepsInv(b0: Books, jobs: seq<Job>, m: Machine, i: nat, why: Failure)
    requires MachineInv(b0, jobs, m) && i < |jobs|
    ensures MachineInv(b0, jobs, Fail(m, i, why))
  {
    var m' := Fail(m, i, why);
    StopKeepsLocks(jobs, m, m', i, Worker(Aborted(why), map[]));
    forall j | 0 <= j < |jobs| ensures WorkOk(jobs, m', j) {
      assert WorkOk(jobs, m, j);
    }
  }

  /** Worker `i` moves on with the same locks. */
  lemma BecomeKeepsInv(b0: Books, jobs: seq<Job>, m: Machine, i: nat, w: Worker)
    requires MachineInv(b0, jobs, m) && i < |jobs|
    requires Locks(w, jobs[i]) == Locks(m.workers[i], jobs[i])
    requires w.phase.Locking? ==> w.phase.held <= |Plan(jobs[i])|
    requires WorkOk(jobs, Become(m, i, w), i)
    ensures MachineInv(b0, jobs, Become(m, i, w))
  {
    var m' := Become(m, i, w);
    forall j | 0 <= j < |jobs| ensures LocksOk(jobs, m', j) && WorkOk(jobs, m', j) {
      assert LocksOk(jobs, m, j) && WorkOk(jobs, m, j);
    }
  }

  lemma AcquireKeepsLocks(jobs: seq<Job>, m: Machine, i: nat, k: nat)
    requires |m.workers| == |jobs| && i < |jobs| && k < |Plan(jobs[i])| && Plan(jobs[i])[k] !in m.owner
    requires m.workers[i].phase.Locking? && m.workers[i].phase.held == k
    requires OwnersOk(jobs, m) && forall j :: 0 <= j < |jobs| ==> LocksOk(jobs, m, j)
    ensures var m' := Acquire(m, i, k, Plan(jobs[i])[k]);
            OwnersOk(jobs, m') && forall j :: 0 <= j < |jobs| ==> LocksOk(jobs, m', j)
  {
    var r := Plan(jobs[i])[k];
    var m' := Acquire(m, i, k, r);
    TakenSnoc(jobs[i], k);
    assert Locks(m'.workers[i], jobs[i]) == Taken(jobs[i], k + 1);
    assert Locks(m.workers[i], jobs[i]) == Taken(jobs[i], k);
    forall j | 0 <= j < |jobs| ensures LocksOk(jobs, m', j) {
      assert LocksOk(jobs, m, j);
    }
  }

  lemma AcquireKeepsWork(job: Job, b: Books, w: Worker, k: nat)
    requires k < |Plan(job)| && w.phase.Locking? && w.phase.held == k && CopiesOk(job, b, w)
    requires var r := Plan(job)[k]; r.BalanceOf? ==> r.account in b.balances.Keys + b.accounts
    ensures var r := Plan(job)[k];
            var work := if r.BalanceOf? then w.work[r.account := Row(b.balances, r.account)] else w.work;
            CopiesOk(job, b, Worker(Locking(k + 1, false), work))
  {
    TakenSnoc(job, k);
  }

  lemma AcquireKeepsInv(b0: Books, jobs: seq<Job>, m: Machine, i: nat, k: nat)
    requires MachineInv(b0, jobs, m) && i < |jobs| && k < |Plan(jobs[i])| && Plan(jobs[i])[k] !in m.owner
    requires m.workers[i].phase.Locking? && m.workers[i].phase.held == k
    requires var r := Plan(jobs[i])[k]; r.BalanceOf? ==> r.account in m.books.balances.Keys + m.books.accounts
    ensures MachineInv(b0, jobs, Acquire(m, i, k, Plan(jobs[i])[k]))
  {
    var m' := Acquire(m, i, k, Plan(jobs[i])[k]);
    AcquireKeepsLocks(jobs, m, i, k);
    assert WorkOk(jobs, m, i);
    AcquireKeepsWork(jobs[i], m.books, m.workers[i], k);
    forall j | 0 <= j < |jobs| ensures WorkOk(jobs, m', j) {
      assert WorkOk(jobs, m, j);
    }
  }

  /** Once all locks are held, the private copies are exactly the rows the postings touch. */
  lemma AllLocked(b0: Books, jobs: seq<Job>, m: Machine, i: nat)
    requires MachineInv(b0, jobs, m) && i < |jobs| && m.workers[i].phase.Locking?
    requires m.workers[i].phase.held >= |Plan(jobs[i])|
    ensures m.workers[i].work == Copies(m.books, jobs[i].postings)
    ensures AccountsOf(jobs[i].postings) <= m.books.balances.Keys + m.books.accounts
  {
    assert WorkOk(jobs, m, i) && LocksOk(jobs, m, i);
    PlanAscends(jobs[i]);
    var plan := Plan(jobs[i]);
    assert Taken(jobs[i], |plan|) == plan;
    assert m.workers[i].phase.held == |plan|;
    forall a ensures a in m.workers[i].work <==> a in AccountsOf(jobs[i].postings) {
      assert a in m.workers[i].work <==> BalanceOf(a) in plan;
    }
  }

  // ---------- Commit ----------

  /** The accounts that worker `i` posts to are locked by nobody else. */
  lemma NobodyElse(jobs: seq<Job>, m: Machine, i: nat, j: nat, a: AccountId)
    requires |m.workers| == |jobs| && i < |jobs| && j < |jobs| && i != j && m.workers[i].phase.Applying?
    requires LocksOk(jobs, m, i) && LocksOk(jobs, m, j) && a in AccountsOf(jobs[i].postings)
    ensures BalanceOf(a) !in Locks(m.workers[j], jobs[j])
  {
    PlanAscends(jobs[i]);
    assert BalanceOf(a) in Locks(m.workers[i], jobs[i]);
  }

  /** Copies stay right when only rows outside the worker's locks change. */
  lemma CopiesSurvive(job: Job, b: Books, b': Books, w: Worker)
    requires CopiesOk(job, b, w)
    requires b'.accounts == b.accounts && b.balances.Keys <= b'.balances.Keys
    requires forall a :: BalanceOf(a) in Locks(w, job) ==> Row(b'.balances, a) == Row(b.balances, a)
    ensures CopiesOk(job, b', w)
  {
    if w.phase.Applying? {
      PlanAscends(job);
      forall a | a in AccountsOf(job.postings) ensures Row(b'.balances, a) == Row(b.balances, a) {
        assert BalanceOf(a) in Locks(w, job);
      }
      assert Copies(b', job.postings) == Copies(b, job.postings);
    }
  }

  lemma WorkSurvivesCommit(jobs: seq<Job>, m: Machine, i: nat, j: nat)
    requires |m.workers| == |jobs| && i < |jobs| && j < |jobs| && i != j
    requires LocksOk(jobs, m, i) && LocksOk(jobs, m, j) && WorkOk(jobs, m, j)
    requires m.workers[i].phase.Applying? && m.workers[i].work.Keys == AccountsOf(jobs[i].postings)
    ensures WorkOk(jobs, Commit(m, i, jobs[i]), j)
  {
    var b' := Commit(m, i, jobs[i]).books;
    forall a | BalanceOf(a) in Locks(m.workers[j], jobs[j]) ensures Row(b'.balances, a) == Row(m.books.balances, a) {
      if a in AccountsOf(jobs[i].postings) {
        NobodyElse(jobs, m, i, j, a);
      }
    }
    CopiesSurvive(jobs[j], m.books, b', m.workers[j]);
  }

  lemma CommitIsPost(job: Job, m: Machine, i: nat)
    requires i < |m.workers| && CopiesOk(job, m.books, m.workers[i])
    requires m.workers[i].phase.Applying? && m.workers[i].phase.done >= |job.postings|
    ensures Post(m.books, job.kind, job.ref, job.postings) == Ok(Commit(m, i, job).books)
    ensures m.workers[i].work.Keys == AccountsOf(job.postings)
  {
    assert job.postings[..|job.postings|] == job.postings;
    PostLocally(m.books, job.kind, job.ref, job.postings);
    ApplyClosedForm(Copies(m.books, job.postings), job.postings, 0);
  }

  lemma CommitKeepsInv(b0: Books, jobs: seq<Job>, m: Machine, i: nat)
    requires MachineInv(b0, jobs, m) && i < |jobs|
    requires m.workers[i].phase.Applying? && m.workers[i].phase.done >= |jobs[i].postings|
    ensures MachineInv(b0, jobs, Commit(m, i, jobs[i]))
  {
    var m' := Commit(m, i, jobs[i]);
    assert WorkOk(jobs, m, i);
    CommitIsPost(jobs[i], m, i);
    StopKeepsLocks(jobs, m, m', i, Worker(Committed, map[]));
    forall j | 0 <= j < |jobs| ensures WorkOk(jobs, m', j) {
      if j != i {
        WorkSurvivesCommit(jobs, m, i, j);
      }
    }
    assert m'.log[..|m'.log| - 1] == m.log;
  }

  // ---------- Every statement ----------

  lemma LockNextKeepsInv(b0: Books, jobs: seq<Job>, m: Machine, i: nat)
    requires MachineInv(b0, jobs, m) && i < |jobs| && m.workers[i].phase.Locking?
    requires m.workers[i].phase.held < |Plan(jobs[i])|
    ensures MachineInv(b0, jobs, LockNext(m, i, jobs[i], m.workers[i].phase.held, m.workers[i].phase.inserting))
  {
    var job, k, inserting := jobs[i], m.workers[i].phase.held, m.workers[i].phase.inserting;
    var r := Plan(job)[k];
    if k >= |Keys(job)| && Refusal(job).Some? {
      FailKeepsInv(b0, jobs, m, i, Refusal(job).value);
    } else if !Present(m, r) && !inserting {
      LookedKeepsInv(b0, jobs, m, i, k);
    } else if r.KeyRow? && !inserting {
      FailKeepsInv(b0, jobs, m, i, KeyTaken);
    } else if Obstacle(m, r).Some? {
    } else if inserting && Present(m, r) {
      FailKeepsInv(b0, jobs, m, i, UniqueViolation);
    } else if r.BalanceOf? && inserting && r.account !in m.books.accounts {
      FailKeepsInv(b0, jobs, m, i, Raised(UnknownAccount));
    } else {
      AcquireKeepsInv(b0, jobs, m, i, k);
    }
  }

  /** A SELECT that finds no row changes nothing but the worker's next statement. */
  lemma LookedKeepsInv(b0: Books, jobs: seq<Job>, m: Machine, i: nat, k: nat)
    requires MachineInv(b0, jobs, m) && i < |jobs| && m.workers[i].phase.Locking? && m.workers[i].phase.held == k
    ensures MachineInv(b0, jobs, Become(m, i, m.workers[i].(phase := Locking(k, true))))
  {
    assert WorkOk(jobs, m, i) && LocksOk(jobs, m, i);
    BecomeKeepsInv(b0, jobs, m, i, m.workers[i].(phase := Locking(k, true)));
  }

  lemma ApplyKeepsInv(b0: Books, jobs: seq<Job>, m: Machine, i: nat, work: map<AccountId, BalanceRow>)
    requires MachineInv(b0, jobs, m) && i < |jobs| && m.workers[i].phase.Applying?
    requires m.workers[i].phase.done < |jobs[i].postings|
    requires ApplyOne(m.workers[i].work, jobs[i].postings[m.workers[i].phase.done]) == Ok(work)
    ensures MachineInv(b0, jobs, Become(m, i, Worker(m.workers[i].phase.(done := m.workers[i].phase.done + 1), work)))
  {
    var w := Worker(m.workers[i].phase.(done := m.workers[i].phase.done + 1), work);
    assert CopiesOk(jobs[i], m.books, w) by {
      assert WorkOk(jobs, m, i);
      ApplyKeepsCopies(jobs[i], m.books, m.workers[i], work);
    }
    BecomeKeepsInv(b0, jobs, m, i, w);
  }

  lemma ApplyKeepsCopies(job: Job, b: Books, w: Worker, work: map<AccountId, BalanceRow>)
    requires CopiesOk(job, b, w) && w.phase.Applying? && w.phase.done < |job.postings|
    requires ApplyOne(w.work, job.postings[w.phase.done]) == Ok(work)
    ensures CopiesOk(job, b, Worker(w.phase.(done := w.phase.done + 1), work))
  {
    var j := w.phase.done;
    assert job.postings[..j + 1][..j] == job.postings[..j];
  }

  lemma CloseClaimKeepsInv(b0: Books, jobs: seq<Job>, m: Machine, i: nat)
    requires MachineInv(b0, jobs, m) && i < |jobs| && m.workers[i].phase.Applying?
    requires m.workers[i].phase.done >= |jobs[i].postings|
    ensures MachineInv(b0, jobs, CloseClaim(m, i, jobs[i]))
  {
    var job, m' := jobs[i], CloseClaim(m, i, jobs[i]);
    if m.workers[i].phase.closing || job.claim.None? || job.claim.value !in m.keys {
      CommitKeepsInv(b0, jobs, m, i);
    } else if ClaimRow(job.claim.value) !in m.owner {
      ClaimRowKeepsLocks(jobs, m, i);
      forall j | 0 <= j < |jobs| ensures WorkOk(jobs, m', j) {
        assert WorkOk(jobs, m, j);
      }
    }
  }

  lemma ClaimRowKeepsLocks(jobs: seq<Job>, m: Machine, i: nat)
    requires |m.workers| == |jobs| && i < |jobs| && m.workers[i].phase.Applying? && !m.workers[i].phase.closing
    requires jobs[i].claim.Some? && jobs[i].claim.value in m.keys && ClaimRow(jobs[i].claim.value) !in m.owner
    requires OwnersOk(jobs, m) && forall j :: 0 <= j < |jobs| ==> LocksOk(jobs, m, j)
    ensures var m' := CloseClaim(m, i, jobs[i]);
            OwnersOk(jobs, m') && forall j :: 0 <= j < |jobs| ==> LocksOk(jobs, m', j)
  {
    var m' := CloseClaim(m, i, jobs[i]);
    assert FullPlan(jobs[i]) == Plan(jobs[i]) + [ClaimRow(jobs[i].claim.value)];
    forall j | 0 <= j < |jobs| ensures LocksOk(jobs, m', j) {
      assert LocksOk(jobs, m, j);
    }
  }

  lemma StartKeepsInv(b0: Books, jobs: seq<Job>, m: Machine, i: nat)
    requires MachineInv(b0, jobs, m) && i < |jobs| && m.workers[i].phase.Locking? && Refusal(jobs[i]).None?
    requires m.workers[i].phase.held >= |Plan(jobs[i])|
    ensures MachineInv(b0, jobs, Become(m, i, m.workers[i].(phase := Applying(0, false))))
  {
    AllLocked(b0, jobs, m, i);
    assert LocksOk(jobs, m, i);
    BecomeKeepsInv(b0, jobs, m, i, m.workers[i].(phase := Applying(0, false)));
  }

  lemma ActKeepsInv(b0: Books, jobs: seq<Job>, m: Machine, i: nat)
    requires MachineInv(b0, jobs, m)
    ensures MachineInv(b0, jobs, Act(jobs, m, i))
  {
    if i < |jobs| {
      var job, w := jobs[i], m.workers[i];
      match w.phase
      case Locking(k, inserting) =>
        if k < |Plan(job)| {
          LockNextKeepsInv(b0, jobs, m, i);
        } else if Refusal(job).Some? {
          FailKeepsInv(b0, jobs, m, i, Refusal(job).value);
        } else {
          StartKeepsInv(b0, jobs, m, i);
        }
      case Applying(j, closing) =>
        if j >= |job.postings| {
          CloseClaimKeepsInv(b0, jobs, m, i);
        } else if ApplyOne(w.work, job.postings[j]).Err? {
          FailKeepsInv(b0, jobs, m, i, Raised(ApplyOne(w.work, job.postings[j]).error));
        } else {
          ApplyKeepsInv(b0, jobs, m, i, ApplyOne(w.work, job.postings[j]).value);
        }
      case _ =>
    }
  }

  lemma StepKeepsInv(b0: Books, jobs: seq<Job>, m: Machine, t: Turn)
    requires MachineInv(b0, jobs, m)
    ensures MachineInv(b0, jobs, Step(jobs, m, t))
  {
    if !t.crash {
      ActKeepsInv(b0, jobs, m, t.worker);
    } else if t.worker < |m.workers| && Active(m.workers[t.worker]) {
      FailKeepsInv(b0, jobs, m, t.worker, Crashed);
    }
  }

  lemma {:induction false} ExecKeepsInv(b0: Books, k0: set<nat>, jobs: seq<Job>, turns: seq<Turn>)
    ensures MachineInv(b0, jobs, Exec(jobs, Begin(b0, k0, |jobs|), turns))
  {
    if turns != [] {
      ExecKeepsInv(b0, k0, jobs, turns[..|turns| - 1]);
      StepKeepsInv(b0, jobs, Exec(jobs, Begin(b0, k0, |jobs|), turns[..|turns| - 1]), turns[|turns| - 1]);
    }
  }

  /**
   Serializability: after any interleaving of any number of transactions, with any crashes, the
   balances, versions, transactions and entries are those of posting the committed transactions
   one at a time, in commit order, every one of them succeeding.
   */
  lemma InterleavingIsSerial(b0: Books, k0: set<nat>, jobs: seq<Job>, turns: seq<Turn>)
    ensures var m := Exec(jobs, Begin(b0, k0, |jobs|), turns);
            && (forall k :: 0 <= k < |m.log| ==> m.log[k] < |jobs|)
            && Serial(b0, jobs, m.log) == Ok(m.books)
  {
    ExecKeepsInv(b0, k0, jobs, turns);
  }

  lemma {:induction false} SerialConserves(b0: Books, jobs: seq<Job>, log: seq<nat>, n: nat)
    requires forall k :: 0 <= k < |log| ==> log[k] < |jobs|
    requires IdsBelow(b0, n) && Serial(b0, jobs, log).Ok?
    ensures var b := Serial(b0, jobs, log).value;
            IdsBelow(b, n) && TotalBelow(b.balances, n) == TotalBelow(b0.balances, n)
  {
    if log != [] {
      var init, job := log[..|log| - 1], jobs[log[|log| - 1]];
      SerialConserves(b0, jobs, init, n);
      PostConserves(Serial(b0, jobs, init).value, job.kind, job.ref, job.postings, n);
    }
  }

  /** No interleaving, with any crashes, makes or loses money: the sum of all balances is constant. */
  lemma InterleavingConserves(b0: Books, k0: set<nat>, jobs: seq<Job>, turns: seq<Turn>, n: nat)
    requires IdsBelow(b0, n)
    ensures TotalBelow(Exec(jobs, Begin(b0, k0, |jobs|), turns).books.balances, n) == TotalBelow(b0.balances, n)
  {
    InterleavingIsSerial(b0, k0, jobs, turns);
    SerialConserves(b0, jobs, Exec(jobs, Begin(b0, k0, |jobs|), turns).log, n);
  }

  lemma ReachableCopies(b0: Books, k0: set<nat>, jobs: seq<Job>, turns: seq<Turn>, i: nat)
    requires i < |jobs|
    ensures var m := Exec(jobs, Begin(b0, k0, |jobs|), turns); CopiesOk(jobs[i], m.books, m.workers[i])
  {
    ExecKeepsInv(b0, k0, jobs, turns);
    assert WorkOk(jobs, Exec(jobs, Begin(b0, k0, |jobs|), turns), i);
  }

  /** A transaction that raises, after any interleaving, would have raised the same error alone at that moment. */
  lemma FailureIsSerial(b0: Books, k0: set<nat>, jobs: seq<Job>, turns: seq<Turn>, i: nat, e: Error)
    requires i < |jobs| && Active(Exec(jobs, Begin(b0, k0, |jobs|), turns).workers[i])
    requires Act(jobs, Exec(jobs, Begin(b0, k0, |jobs|), turns), i).workers[i].phase == Aborted(Raised(e))
    ensures var b := Exec(jobs, Begin(b0, k0, |jobs|), turns).books;
            Post(b, jobs[i].kind, jobs[i].ref, jobs[i].postings) == Err(e)
  {
    ReachableCopies(b0, k0, jobs, turns, i);
    RaisesAlone(jobs, Exec(jobs, Begin(b0, k0, |jobs|), turns), i, e);
  }

  lemma RaisesAlone(jobs: seq<Job>, m: Machine, i: nat, e: Error)
    requires i < |jobs| == |m.workers| && Active(m.workers[i]) && CopiesOk(jobs[i], m.books, m.workers[i])
    requires Act(jobs, m, i).workers[i].phase == Aborted(Raised(e))
    ensures Post(m.books, jobs[i].kind, jobs[i].ref, jobs[i].postings) == Err(e)
  {
    var job, w := jobs[i], m.workers[i];
    match w.phase
    case Locking(k, inserting) =>
      if k < |Plan(job)| {
        LockingRaises(job, m, i, e);
      }
    case Applying(j, _) =>
      if j >= |job.postings| {
        ClosingRaisesNothing(m, i, job);
      } else {
        ApplyingRaises(job, m.books, w, e);
      }
  }

  lemma ClosingRaisesNothing(m: Machine, i: nat, job: Job)
    requires i < |m.workers| && m.workers[i].phase.Applying?
    ensures !CloseClaim(m, i, job).workers[i].phase.Aborted?
  {
  }

  lemma LockingRaises(job: Job, m: Machine, i: nat, e: Error)
    requires i < |m.workers| && m.workers[i].phase.Locking? && m.workers[i].phase.held < |Plan(job)|
    requires var ph := m.workers[i].phase;
             LockNext(m, i, job, ph.held, ph.inserting).workers[i].phase == Aborted(Raised(e))
    ensures Post(m.books, job.kind, job.ref, job.postings) == Err(e)
  {
    var k := m.workers[i].phase.held;
    PlanAscends(job);
    assert Plan(job)[k] in Plan(job);
  }

  lemma ApplyingRaises(job: Job, b: Books, w: Worker, e: Error)
    requires CopiesOk(job, b, w) && w.phase.Applying? && w.phase.done < |job.postings|
    requires ApplyOne(w.work, job.postings[w.phase.done]) == Err(e)
    ensures Post(b, job.kind, job.ref, job.postings) == Err(e)
  {
    var j, ps := w.phase.done, job.postings;
    assert ps[..j + 1][..j] == ps[..j];
    ApplyStopsAtFirstError(Copies(b, ps), ps, j + 1);
    PostLocally(b, job.kind, job.ref, ps);
  }
}

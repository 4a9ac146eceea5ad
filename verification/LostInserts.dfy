/** A schedule that loses as many debits as can be lost, and exactly when no schedule loses any. */
module LostInserts {
  import opened Domain
  import opened Ledger
  import opened Concurrency
  import opened Serializability
  import opened Progress
  import opened ClaimKeys
  import opened Oversell
  import opened MissingRows
  import opened Rivals

  // ---------- All leaders look for the missing row ----------

  /** The row of `dst` is missing and locked first, and a debit is affordable. */
  ghost predicate Contended(b0: Books, k0: set<nat>, jobs: seq<Job>, src: AccountId, dst: AccountId, d: int) {
    Debits(b0, k0, jobs, src, dst, d) && dst !in b0.balances && dst < src && Bal(b0.balances, src) >= d
  }

  lemma InsertBelow(src: AccountId, dst: AccountId)
    requires dst < src
    ensures Insert([], src) == [src] && Insert([src], dst) == [dst, src]
  {
    assert [src][..0] == [];
    assert Insert([], dst) == [dst];
  }

  lemma DebitAccounts(src: AccountId, dst: AccountId, d: int)
    requires dst < src
    ensures SortedAccounts(Transfer(src, dst, d)) == [dst, src]
  {
    var ps := Transfer(src, dst, d);
    InsertBelow(src, dst);
    assert ps[..1] == [ps[0]] && [ps[0]][..0] == [];
    assert SortedAccounts([]) == [];
    assert SortedAccounts([ps[0]]) == [src];
  }

  /** The first balance row that such a debit locks is that of `dst`. */
  lemma FirstBalance(job: Job, src: AccountId, dst: AccountId, d: int)
    requires dst < src && job.postings == Transfer(src, dst, d)
    ensures |Keys(job)| < |Plan(job)| && Plan(job)[|Keys(job)|] == BalanceOf(dst)
  {
    DebitAccounts(src, dst, d);
  }

  /** Leaders before `n` have found no row for `dst`, worker `n` holds `h` locks, the others have not begun. */
  function ParkedPhase(jobs: seq<Job>, i: nat, n: nat, h: nat, inserting: bool): Phase
    requires i < |jobs|
  {
    if i < n && Leads(jobs, i) then Locking(|Keys(jobs[i])|, true)
    else if i == n then Locking(h, inserting)
    else Locking(0, false)
  }

  ghost predicate Parked(b0: Books, k0: set<nat>, jobs: seq<Job>, m: Machine, n: nat, h: nat, inserting: bool,
                         dst: AccountId) {
    && |m.workers| == |jobs| && m.books == b0 && m.keys == k0 && m.log == []
    && forall i :: 0 <= i < |jobs| ==> m.workers[i].phase == ParkedPhase(jobs, i, n, h, inserting)
  }

  /** Nothing is in the way of leader `n`: the keys are new and no earlier leader has its payment row. */
  lemma NothingInTheWay(b0: Books, k0: set<nat>, jobs: seq<Job>, m: Machine, n: nat, h: nat, inserting: bool,
                        dst: AccountId)
    requires Parked(b0, k0, jobs, m, n, h, inserting, dst) && OwnersOk(jobs, m) && FreshKeys(k0, jobs)
    requires n < |jobs| && Leads(jobs, n) && h < |Keys(jobs[n])| && |jobs[n].payments| <= 1
    requires forall i :: 0 <= i < |jobs| ==> |jobs[i].payments| <= 1
    ensures Obstacle(m, Plan(jobs[n])[h]).None?
  {
    PlanAscends(jobs[n]);
    var o := Obstacle(m, Plan(jobs[n])[h]);
    if o.Some? {
      var j := m.owner[o.value];
      assert o.value in Locks(m.workers[j], jobs[j]);
      if j == n {
        NotOwn(jobs[n], h, o.value);
      } else {
        LockedByLeader(b0, k0, jobs, m, n, h, inserting, dst, o.value, j);
        KeysDiffer(k0, jobs, j, n, h, o.value);
      }
    }
  }

  lemma NotOwn(job: Job, h: nat, r: Resource)
    requires h < |Keys(job)| && r in Taken(job, h)
    ensures r != Plan(job)[h] && !r.ClaimRow?
  {
    PlanAscends(job);
  }

  /** Whatever is locked by another worker then is a key or payment row of an earlier leader. */
  lemma LockedByLeader(b0: Books, k0: set<nat>, jobs: seq<Job>, m: Machine, n: nat, h: nat, inserting: bool,
                       dst: AccountId, r: Resource, j: nat)
    requires Parked(b0, k0, jobs, m, n, h, inserting, dst) && j < |jobs| && j != n
    requires r in Locks(m.workers[j], jobs[j])
    ensures j < n && Leads(jobs, j) && r in Keys(jobs[j])
  {
    assert Plan(jobs[j])[..|Keys(jobs[j])|] == Keys(jobs[j]);
  }

  lemma KeysDiffer(k0: set<nat>, jobs: seq<Job>, j: nat, n: nat, h: nat, r: Resource)
    requires FreshKeys(k0, jobs) && j < n < |jobs| && Leads(jobs, n) && |jobs[j].payments| <= 1
              && |jobs[n].payments| <= 1
    requires h < |Keys(jobs[n])| && r in Keys(jobs[j])
    ensures r != Keys(jobs[n])[h] && !r.ClaimRow?
  {
    assert !SamePayment(jobs[j], jobs[n]);
    assert KeyOf(jobs, j).Some? ==> KeyOf(jobs, j) != KeyOf(jobs, n);
  }

  /** One statement of worker `n`. */
  lemma ParkStep(b0: Books, k0: set<nat>, jobs: seq<Job>, m: Machine, n: nat, h: nat, inserting: bool,
                 src: AccountId, dst: AccountId, d: int) returns (h': nat, inserting': bool)
    requires Contended(b0, k0, jobs, src, dst, d)
    requires n < |jobs| && Leads(jobs, n) && h < |Keys(jobs[n])| && (inserting ==> Plan(jobs[n])[h].KeyRow?)
    requires Parked(b0, k0, jobs, m, n, h, inserting, dst) && OwnersOk(jobs, m)
    ensures Parked(b0, k0, jobs, Act(jobs, m, n), n, h', inserting', dst)
    ensures if inserting' then h' == h && !inserting && Plan(jobs[n])[h].KeyRow? else h' == h + 1
  {
    var job := jobs[n];
    NothingInTheWay(b0, k0, jobs, m, n, h, inserting, dst);
    PlanAscends(job);
    if Plan(job)[h].KeyRow? {
      KeyInPlan(job, h);
      assert KeyOf(jobs, n).value !in k0;
      if inserting {
        h', inserting' := h + 1, false;
      } else {
        h', inserting' := h, true;
      }
    } else {
      h', inserting' := h + 1, false;
    }
  }

  /** Worker `n`, past its key and payment rows, looks for the row of `dst`. */
  lemma ParkLook(b0: Books, k0: set<nat>, jobs: seq<Job>, m: Machine, n: nat, src: AccountId, dst: AccountId, d: int)
    requires Contended(b0, k0, jobs, src, dst, d)
    requires n < |jobs| && Leads(jobs, n) && Parked(b0, k0, jobs, m, n, |Keys(jobs[n])|, false, dst)
    ensures Parked(b0, k0, jobs, Act(jobs, m, n), n + 1, 0, false, dst)
  {
    FirstBalance(jobs[n], src, dst, d);
    TransferIsValid(src, dst, d);
  }

  lemma {:induction false} ParkOne(b0: Books, k0: set<nat>, jobs: seq<Job>, turns: seq<Turn>, n: nat, h: nat,
                                   inserting: bool, src: AccountId, dst: AccountId, d: int) returns (more: seq<Turn>)
    requires Contended(b0, k0, jobs, src, dst, d) && Crashless(turns) && n < |jobs| && Leads(jobs, n)
    requires h <= |Keys(jobs[n])| && (inserting ==> h < |Keys(jobs[n])| && Plan(jobs[n])[h].KeyRow?)
    requires Parked(b0, k0, jobs, Exec(jobs, Begin(b0, k0, |jobs|), turns), n, h, inserting, dst)
    ensures Crashless(more) && Parked(b0, k0, jobs, Exec(jobs, Begin(b0, k0, |jobs|), more), n + 1, 0, false, dst)
    decreases |Keys(jobs[n])| - h, if inserting then 0 else 1
  {
    var m := Exec(jobs, Begin(b0, k0, |jobs|), turns);
    more := OneMoreTurn(jobs, Begin(b0, k0, |jobs|), turns, n);
    if h == |Keys(jobs[n])| {
      ParkLook(b0, k0, jobs, m, n, src, dst, d);
    } else {
      assert OwnersOk(jobs, m) by { ExecKeepsInv(b0, k0, jobs, turns); }
      var h', inserting' := ParkStep(b0, k0, jobs, m, n, h, inserting, src, dst, d);
      more := ParkOne(b0, k0, jobs, more, n, h', inserting', src, dst, d);
    }
  }

  lemma ParkNext(b0: Books, k0: set<nat>, jobs: seq<Job>, turns: seq<Turn>, n: nat, src: AccountId, dst: AccountId,
                 d: int)
    returns (more: seq<Turn>)
    requires Contended(b0, k0, jobs, src, dst, d) && Crashless(turns) && n < |jobs|
    requires Parked(b0, k0, jobs, Exec(jobs, Begin(b0, k0, |jobs|), turns), n, 0, false, dst)
    ensures Crashless(more) && Parked(b0, k0, jobs, Exec(jobs, Begin(b0, k0, |jobs|), more), n + 1, 0, false, dst)
  {
    if Leads(jobs, n) {
      more := ParkOne(b0, k0, jobs, turns, n, 0, false, src, dst, d);
    } else {
      more := turns;
      ParkSkip(b0, k0, jobs, Exec(jobs, Begin(b0, k0, |jobs|), turns), n, dst);
    }
  }

  lemma ParkSkip(b0: Books, k0: set<nat>, jobs: seq<Job>, m: Machine, n: nat, dst: AccountId)
    requires n < |jobs| && !Leads(jobs, n) && Parked(b0, k0, jobs, m, n, 0, false, dst)
    ensures Parked(b0, k0, jobs, m, n + 1, 0, false, dst)
  {
    forall i | 0 <= i < |jobs| ensures m.workers[i].phase == ParkedPhase(jobs, i, n + 1, 0, false) {
      assert m.workers[i].phase == ParkedPhase(jobs, i, n, 0, false);
    }
  }

  lemma {:induction false} ParkAll(b0: Books, k0: set<nat>, jobs: seq<Job>, n: nat, src: AccountId, dst: AccountId,
                                   d: int)
    returns (turns: seq<Turn>)
    requires Contended(b0, k0, jobs, src, dst, d) && n <= |jobs|
    ensures Crashless(turns) && Parked(b0, k0, jobs, Exec(jobs, Begin(b0, k0, |jobs|), turns), n, 0, false, dst)
    decreases n
  {
    if n == 0 {
      turns := [];
    } else {
      turns := ParkAll(b0, k0, jobs, n - 1, src, dst, d);
      turns := ParkNext(b0, k0, jobs, turns, n - 1, src, dst, d);
    }
  }

  // ---------- From there on every leader but one loses ----------

  /** A leader is about to insert, has lost, holds the row it inserted, or was the first to commit. */
  predicate Fate(job: Job, m: Machine, i: nat, dst: AccountId)
    requires i < |m.workers|
  {
    || m.workers[i].phase == Locking(|Keys(job)|, true)
    || IsViolated(m.workers[i])
    || (m.log == [] && BalanceOf(dst) in Locks(m.workers[i], job))
    || (m.log != [] && i == m.log[0])
  }

  ghost predicate FateInv(jobs: seq<Job>, m: Machine, dst: AccountId) {
    && |m.workers| == |jobs|
    && forall i :: 0 <= i < |jobs| && Leads(jobs, i) ==> Fate(jobs[i], m, i, dst)
  }

  lemma InsertFate(m: Machine, i: nat, job: Job, src: AccountId, dst: AccountId, d: int)
    requires i < |m.workers| && m.workers[i].phase == Locking(|Keys(job)|, true)
    requires dst < src && d > 0 && job.postings == Transfer(src, dst, d) && |job.payments| <= 1
    requires dst in m.books.balances.Keys + m.books.accounts && (m.log != [] ==> dst in m.books.balances)
    ensures |Keys(job)| < |Plan(job)|
    ensures Fate(job, LockNext(m, i, job, |Keys(job)|, true), i, dst)
  {
    FirstBalance(job, src, dst, d);
    TransferIsValid(src, dst, d);
    assert |Keys(job)| < |Plan(job)|;
    TakenSnoc(job, |Keys(job)|);
  }

  lemma HolderLocks(m: Machine, i: nat, job: Job, src: AccountId, dst: AccountId, d: int)
    requires i < |m.workers| && m.workers[i].phase.Locking? && m.workers[i].phase.held < |Plan(job)|
    requires dst < src && d > 0 && job.postings == Transfer(src, dst, d) && |job.payments| <= 1
    requires src in m.books.balances && !InsertsRow(job, m.workers[i])
    requires BalanceOf(dst) in Taken(job, m.workers[i].phase.held)
    ensures var m' := LockNext(m, i, job, m.workers[i].phase.held, m.workers[i].phase.inserting);
            m'.log == m.log && BalanceOf(dst) in Locks(m'.workers[i], job)
  {
    DebitAccounts(src, dst, d);
    TransferIsValid(src, dst, d);
    PlanAscends(job);
    var h := m.workers[i].phase.held;
    assert h == |Keys(job)| + 1 && Plan(job)[h] == BalanceOf(src) by {
      var l :| 0 <= l < |Taken(job, h)| && Taken(job, h)[l] == BalanceOf(dst);
      assert Plan(job)[l] == BalanceOf(dst);
    }
    TakenSnoc(job, h);
  }

  lemma HolderApplies(m: Machine, i: nat, job: Job, src: AccountId, dst: AccountId, d: int)
    requires i < |m.workers| && m.workers[i].phase.Applying? && CopiesOk(job, m.books, m.workers[i])
    requires src != dst && d > 0 && job.postings == Transfer(src, dst, d) && Bal(m.books.balances, src) >= d
    requires m.workers[i].phase.done < 2
    ensures ApplyOne(m.workers[i].work, job.postings[m.workers[i].phase.done]).Ok?
  {
    DebitSeesCommitted(job, m.books, m.workers[i], src, dst, d);
  }

  /** Nothing is committed yet, and worker `i` holds the row of `dst`. */
  predicate Holding(jobs: seq<Job>, m: Machine, i: nat, dst: AccountId) {
    i < |m.workers| == |jobs| && m.log == [] && BalanceOf(dst) in Locks(m.workers[i], jobs[i])
  }

  /** The worker that inserted the row goes on until it commits. */
  lemma HolderGoesOn(b0: Books, jobs: seq<Job>, m: Machine, i: nat, src: AccountId, dst: AccountId, d: int)
    requires RowsInv(b0, jobs, m, src, dst, d) && Transfers(b0, jobs, src, dst, d) && i < |jobs| && m.log == []
    requires dst < src && Bal(b0.balances, src) >= d && src in b0.balances
    requires CopiesOk(jobs[i], m.books, m.workers[i]) && BalanceOf(dst) in Locks(m.workers[i], jobs[i])
    ensures Act(jobs, m, i) == Commit(m, i, jobs[i]) || Holding(jobs, Act(jobs, m, i), i, dst)
  {
    var job, w := jobs[i], m.workers[i];
    TransferIsValid(src, dst, d);
    DebitAccounts(src, dst, d);
    match w.phase
    case Locking(k, inserting) =>
      if k < |Plan(job)| {
        HolderLocksNext(b0, jobs, m, i, src, dst, d);
      }
    case Applying(j, closing) =>
      if j < 2 {
        HolderApplies(m, i, job, src, dst, d);
      }
    case _ =>
  }

  lemma HolderLocksNext(b0: Books, jobs: seq<Job>, m: Machine, i: nat, src: AccountId, dst: AccountId, d: int)
    requires RowsInv(b0, jobs, m, src, dst, d) && Transfers(b0, jobs, src, dst, d) && i < |jobs| && m.log == []
    requires dst < src && src in b0.balances && BalanceOf(dst) in Locks(m.workers[i], jobs[i])
    requires m.workers[i].phase.Locking? && m.workers[i].phase.held < |Plan(jobs[i])|
    ensures Holding(jobs, LockNext(m, i, jobs[i], m.workers[i].phase.held, m.workers[i].phase.inserting), i, dst)
  {
    NoSourceInsert(b0, jobs, m, i, src, dst, d);
    HolderLocks(m, i, jobs[i], src, dst, d);
    LockChangesOne(m, i, jobs[i], m.workers[i].phase.held, m.workers[i].phase.inserting);
  }

  /** The row of `src` is there, and that of `dst` is held: nothing is left to insert. */
  lemma NoSourceInsert(b0: Books, jobs: seq<Job>, m: Machine, i: nat, src: AccountId, dst: AccountId, d: int)
    requires RowsInv(b0, jobs, m, src, dst, d) && Transfers(b0, jobs, src, dst, d) && i < |jobs|
    requires src in b0.balances && BalanceOf(dst) in Locks(m.workers[i], jobs[i])
    ensures !InsertsRow(jobs[i], m.workers[i])
  {
    if InsertsRow(jobs[i], m.workers[i]) {
      InsertsSource(jobs[i], m.workers[i], src, dst, d);
    }
  }

  lemma InsertsSource(job: Job, w: Worker, src: AccountId, dst: AccountId, d: int)
    requires d > 0 && job.postings == Transfer(src, dst, d) && InsertsRow(job, w) && BalanceOf(dst) in Locks(w, job)
    ensures Inserting(job, w, src)
  {
    DebitLocks(job, w.phase.held, src, dst, d);
    PlanAscends(job);
  }

  /** The next statement of a leader keeps its fate. */
  lemma OwnFate(b0: Books, jobs: seq<Job>, m: Machine, i: nat, src: AccountId, dst: AccountId, d: int)
    requires RowsInv(b0, jobs, m, src, dst, d) && Transfers(b0, jobs, src, dst, d) && i < |jobs|
    requires dst < src && Bal(b0.balances, src) >= d && CopiesOk(jobs[i], m.books, m.workers[i])
    requires Fate(jobs[i], m, i, dst)
    requires m.log != [] ==> m.log[0] < |m.workers| && m.workers[m.log[0]].phase == Committed
    ensures i < |Act(jobs, m, i).workers| && Fate(jobs[i], Act(jobs, m, i), i, dst)
  {
    assert src in b0.balances;
    if m.workers[i].phase == Locking(|Keys(jobs[i])|, true) {
      InsertFate(m, i, jobs[i], src, dst, d);
    } else if m.log == [] && BalanceOf(dst) in Locks(m.workers[i], jobs[i]) {
      HolderGoesOn(b0, jobs, m, i, src, dst, d);
    }
  }

  /** A statement of worker `i` keeps the fate of another leader. */
  lemma OtherFate(jobs: seq<Job>, m: Machine, m': Machine, i: nat, j: nat, src: AccountId, dst: AccountId, d: int)
    requires i < |jobs| == |m.workers| == |m'.workers| && j < |jobs| && j != i && AllDebit(jobs, src, dst, d)
    requires LocksOk(jobs, m, i) && LocksOk(jobs, m, j) && Fate(jobs[j], m, j, dst)
    requires m'.workers[j] == m.workers[j]
    requires m'.log == m.log || (m.workers[i].phase.Applying? && m'.log == m.log + [i])
    ensures Fate(jobs[j], m', j, dst)
  {
    if m.log == [] && m'.log != [] {
      TransferIsValid(src, dst, d);
      NobodyElse(jobs, m, i, j, dst);
    }
  }

  lemma ActKeepsFate(b0: Books, jobs: seq<Job>, m: Machine, i: nat, src: AccountId, dst: AccountId, d: int)
    requires FateInv(jobs, m, dst) && RowsInv(b0, jobs, m, src, dst, d) && Transfers(b0, jobs, src, dst, d)
              && i < |jobs|
    requires dst < src && Bal(b0.balances, src) >= d && CopiesOk(jobs[i], m.books, m.workers[i])
    requires forall j :: 0 <= j < |jobs| ==> LocksOk(jobs, m, j)
    requires m.log != [] ==> m.log[0] < |m.workers| && m.workers[m.log[0]].phase == Committed
    ensures FateInv(jobs, Act(jobs, m, i), dst)
  {
    var m' := Act(jobs, m, i);
    ActChangesOne(jobs, m, i);
    forall j | 0 <= j < |jobs| && Leads(jobs, j) ensures Fate(jobs[j], m', j, dst) {
      if j == i {
        OwnFate(b0, jobs, m, i, src, dst, d);
      } else {
        OtherFate(jobs, m, m', i, j, src, dst, d);
      }
    }
  }

  /** What a run has reached when the next statement of worker `i` is due. */
  lemma Reached(b0: Books, k0: set<nat>, jobs: seq<Job>, turns: seq<Turn>, i: nat, src: AccountId, dst: AccountId,
                d: int)
    requires Contended(b0, k0, jobs, src, dst, d) && i < |jobs|
    ensures var m := Exec(jobs, Begin(b0, k0, |jobs|), turns);
            && RowsInv(b0, jobs, m, src, dst, d) && CopiesOk(jobs[i], m.books, m.workers[i])
            && (forall j :: 0 <= j < |jobs| ==> LocksOk(jobs, m, j))
            && (m.log != [] ==> m.log[0] < |m.workers| && m.workers[m.log[0]].phase == Committed)
  {
    var m := Exec(jobs, Begin(b0, k0, |jobs|), turns);
    RunKeepsRows(b0, k0, jobs, turns, src, dst, d);
    ReachableCopies(b0, k0, jobs, turns, i);
    assert forall j :: 0 <= j < |jobs| ==> LocksOk(jobs, m, j) by { ExecKeepsInv(b0, k0, jobs, turns); }
    assert LogOk(m) by { ExecKeepsOnce(b0, k0, jobs, turns); }
  }

  lemma FateStep(b0: Books, k0: set<nat>, jobs: seq<Job>, turns: seq<Turn>, t: Turn, src: AccountId, dst: AccountId,
                 d: int)
    requires Contended(b0, k0, jobs, src, dst, d) && !t.crash
    requires FateInv(jobs, Exec(jobs, Begin(b0, k0, |jobs|), turns), dst)
    ensures FateInv(jobs, Exec(jobs, Begin(b0, k0, |jobs|), turns + [t]), dst)
  {
    ExecSnoc(jobs, Begin(b0, k0, |jobs|), turns, t);
    if t.worker < |jobs| {
      Reached(b0, k0, jobs, turns, t.worker, src, dst, d);
      ActKeepsFate(b0, jobs, Exec(jobs, Begin(b0, k0, |jobs|), turns), t.worker, src, dst, d);
    }
  }

  lemma FateAppend(b0: Books, k0: set<nat>, jobs: seq<Job>, before: seq<Turn>, t: Turn, after: seq<Turn>,
                   src: AccountId, dst: AccountId, d: int)
    requires Contended(b0, k0, jobs, src, dst, d) && !t.crash && after == before + [t]
    requires FateInv(jobs, Exec(jobs, Begin(b0, k0, |jobs|), before), dst)
    ensures FateInv(jobs, Exec(jobs, Begin(b0, k0, |jobs|), after), dst)
  {
    FateStep(b0, k0, jobs, before, t, src, dst, d);
  }

  /** Whatever happens after `turns` without a crash, every leader meets its fate. */
  lemma {:induction false} FateIsKept(b0: Books, k0: set<nat>, jobs: seq<Job>, turns: seq<Turn>, more: seq<Turn>,
                                      all: seq<Turn>, src: AccountId, dst: AccountId, d: int)
    requires Contended(b0, k0, jobs, src, dst, d) && Crashless(more) && all == turns + more
    requires FateInv(jobs, Exec(jobs, Begin(b0, k0, |jobs|), turns), dst)
    ensures FateInv(jobs, Exec(jobs, Begin(b0, k0, |jobs|), all), dst)
    decreases |more|
  {
    if more == [] {
      assert all == turns;
    } else {
      var init, last := more[..|more| - 1], more[|more| - 1];
      FateIsKept(b0, k0, jobs, turns, init, turns + init, src, dst, d);
      assert all == turns + init + [last];
      FateAppend(b0, k0, jobs, turns + init, last, all, src, dst, d);
    }
  }

  lemma AllCrashless(parked: seq<Turn>, turns: seq<Turn>)
    requires parked <= turns && Crashless(parked) && Crashless(turns[|parked|..])
    ensures Crashless(turns)
  {
    forall n | 0 <= n < |turns| ensures !turns[n].crash {
      if n < |parked| {
        assert turns[n] == parked[n];
      } else {
        assert turns[n] == turns[|parked|..][n - |parked|];
      }
    }
  }

  lemma ParkedFate(b0: Books, k0: set<nat>, jobs: seq<Job>, m: Machine, dst: AccountId)
    requires Parked(b0, k0, jobs, m, |jobs|, 0, false, dst)
    ensures FateInv(jobs, m, dst)
  {
  }

  /** Once all are done, every leader but the first to commit has lost. */
  lemma FateCounts(b0: Books, jobs: seq<Job>, m: Machine, src: AccountId, dst: AccountId, d: int)
    requires FateInv(jobs, m, dst) && Finished(m) && jobs != [] && RowsInv(b0, jobs, m, src, dst, d)
    ensures Count(m.workers, ByViolation) >= Width(jobs) - 1
  {
    assert Leads(jobs, 0);
    assert !Active(m.workers[0]) && Fate(jobs[0], m, 0, dst);
    if IsViolated(m.workers[0]) {
      assert StopOk(b0, m, src, dst, d, m.workers[0]);
    }
    assert m.log != [];
    assert Leaders(jobs) - {m.log[0]} <= Violated(m.workers) by {
      forall i | i in Leaders(jobs) - {m.log[0]} ensures i in Violated(m.workers) {
        assert Fate(jobs[i], m, i, dst) && !Active(m.workers[i]);
      }
    }
    CountViolated(m.workers);
    SmallerBy(Leaders(jobs), m.log[0], Violated(m.workers));
  }

  lemma SmallerBy(s: set<nat>, x: nat, t: set<nat>)
    requires s - {x} <= t
    ensures |s| - 1 <= |t|
  {
    assert s - {x} + (t - (s - {x})) == t;
    assert s <= (s - {x}) + {x};
    assert |s - {x}| >= |s| - 1;
  }

  /** A crashless schedule of all debits in which width - 1 of them lose the insert of the missing row. */
  lemma LostDebits(b0: Books, k0: set<nat>, jobs: seq<Job>, src: AccountId, dst: AccountId, d: int)
    returns (turns: seq<Turn>)
    requires Contended(b0, k0, jobs, src, dst, d) && jobs != []
    ensures Crashless(turns) && Finished(Exec(jobs, Begin(b0, k0, |jobs|), turns))
    ensures Count(Exec(jobs, Begin(b0, k0, |jobs|), turns).workers, ByViolation) >= Width(jobs) - 1
  {
    var parked := ParkAll(b0, k0, jobs, |jobs|, src, dst, d);
    ParkedFate(b0, k0, jobs, Exec(jobs, Begin(b0, k0, |jobs|), parked), dst);
    turns := CanFinish(b0, k0, jobs, parked);
    FateIsKept(b0, k0, jobs, parked, turns[|parked|..], turns, src, dst, d);
    assert Crashless(turns) by { AllCrashless(parked, turns); }
    RunKeepsRows(b0, k0, jobs, turns, src, dst, d);
    FateCounts(b0, jobs, Exec(jobs, Begin(b0, k0, |jobs|), turns), src, dst, d);
  }

  // ---------- When the count is exact ----------

  lemma ExactRun(b0: Books, k0: set<nat>, jobs: seq<Job>, turns: seq<Turn>, src: AccountId, dst: AccountId, d: int)
    requires Debits(b0, k0, jobs, src, dst, d) && Bal(b0.balances, src) >= 0
    requires Crashless(turns) && Finished(Exec(jobs, Begin(b0, k0, |jobs|), turns))
    requires dst in b0.balances || src < dst || Width(jobs) <= 1
              || Bal(b0.balances, src) / d <= |jobs| - Width(jobs) + 1
    ensures Count(Exec(jobs, Begin(b0, k0, |jobs|), turns).workers, ByCommit) == Min(|jobs|, Bal(b0.balances, src) / d)
  {
    DebitsCommitted(b0, k0, jobs, turns, src, dst, d);
    NobodyCrashes(jobs, b0, k0, turns);
    CountNone(Exec(jobs, Begin(b0, k0, |jobs|), turns).workers, ByCrash);
  }

  lemma InexactRun(b0: Books, k0: set<nat>, jobs: seq<Job>, src: AccountId, dst: AccountId, d: int)
    returns (turns: seq<Turn>)
    requires Debits(b0, k0, jobs, src, dst, d) && Bal(b0.balances, src) >= 0
    requires dst !in b0.balances && dst < src && Width(jobs) > 1
    requires Bal(b0.balances, src) / d > |jobs| - Width(jobs) + 1
    ensures Crashless(turns) && Finished(Exec(jobs, Begin(b0, k0, |jobs|), turns))
    ensures Count(Exec(jobs, Begin(b0, k0, |jobs|), turns).workers, ByCommit) < Min(|jobs|, Bal(b0.balances, src) / d)
  {
    WidthBound(jobs);
    AffordsOne(Bal(b0.balances, src), d);
    turns := LostDebits(b0, k0, jobs, src, dst, d);
    var ws := Exec(jobs, Begin(b0, k0, |jobs|), turns).workers;
    DebitsCommitted(b0, k0, jobs, turns, src, dst, d);
    NobodyCrashes(jobs, b0, k0, turns);
    CountNone(ws, ByCrash);
    FallsShort(|jobs|, Count(ws, ByViolation), Width(jobs), Bal(b0.balances, src) / d, Count(ws, ByCommit));
  }

  lemma AffordsOne(x: int, d: int)
    requires d > 0 && x >= 0
    ensures x / d > 0 ==> x >= d
  {
    if x < d {
      QuotientIs(x, d, 0);
    }
  }

  lemma FallsShort(n: int, violated: int, width: int, q: int, done: int)
    requires 1 < width <= n && violated >= width - 1 && q > n - width + 1 && done == Min(n - violated, q)
    ensures done < Min(n, q)
  {
  }

  lemma {:induction false} Numbers(n: nat) returns (s: set<nat>)
    ensures |s| == n && forall i :: i in s <==> 0 <= i < n
  {
    s := {};
    if n > 0 {
      s := Numbers(n - 1);
      s := s + {n - 1};
    }
  }

  lemma WidthBound(jobs: seq<Job>)
    ensures Width(jobs) <= |jobs|
  {
    var all := Numbers(|jobs|);
    assert Leaders(jobs) <= all;
    assert all == Leaders(jobs) + (all - Leaders(jobs));
  }

  /**
   Debits as the services post them commit exactly as often as the balance affords, in every
   crashless schedule, if and only if `dst` has a balance row, or is locked after `src`, or all of
   them take turns on one payment row, or what is affordable is left even when width - 1 are lost.
   */
  lemma ExactIff(b0: Books, k0: set<nat>, jobs: seq<Job>, src: AccountId, dst: AccountId, d: int)
    requires Debits(b0, k0, jobs, src, dst, d) && Bal(b0.balances, src) >= 0
    ensures AlwaysExact(b0, k0, jobs, src, d) <==>
              dst in b0.balances || src < dst || Width(jobs) <= 1
              || Bal(b0.balances, src) / d <= |jobs| - Width(jobs) + 1
  {
    if dst in b0.balances || src < dst || Width(jobs) <= 1 || Bal(b0.balances, src) / d <= |jobs| - Width(jobs) + 1 {
      forall turns | Crashless(turns) && Finished(Exec(jobs, Begin(b0, k0, |jobs|), turns))
        ensures Count(Exec(jobs, Begin(b0, k0, |jobs|), turns).workers, ByCommit) ==
                Min(|jobs|, Bal(b0.balances, src) / d)
      {
        ExactRun(b0, k0, jobs, turns, src, dst, d);
      }
    } else {
      var turns := InexactRun(b0, k0, jobs, src, dst, d);
    }
  }
}

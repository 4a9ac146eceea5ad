/**
 Concurrent refunds of one payment, statement by statement.  Each reads the refunded total under its
 row lock, checks it, and writes back what it read plus its own amount when it commits.
 */
module RefundRaces {
  import opened Wrappers
  import opened Domain
  import opened Ledger
  import opened Concurrency
  import opened Serializability

  /** The columns of a payment row that a refund reads and writes. */
  datatype Total = Total(amount: int, refunded: int)

  /** `totals` are the committed rows; `seen` is the row that each worker read when it locked it. */
  datatype Race = Race(m: Machine, totals: map<nat, Total>, seen: map<nat, Total>)

  /** Which jobs are refunds, and of how much: of the one payment row that they lock. */
  ghost predicate RefundJobs(jobs: seq<Job>, refunds: seq<Option<int>>, totals: map<nat, Total>) {
    && |refunds| == |jobs|
    && forall i :: 0 <= i < |jobs| && refunds[i].Some? ==>
         && |jobs[i].payments| == 1 && jobs[i].payments[0] in totals
         && jobs[i].postings != [] && jobs[i].postings[0].amount == refunds[i].value
  }

  /** Worker `i` holds its payment row and has not looked at the balances: the guard is due. */
  predicate GuardDue(job: Job, w: Worker) {
    w.phase.Locking? && w.phase.held == |Keys(job)|
  }

  predicate Exceeds(seen: Total, amount: int) {
    seen.refunded + amount > seen.amount
  }

  /** What the statement of worker `i` does to the payment rows, given what it did to the machine. */
  function Write(jobs: seq<Job>, refunds: seq<Option<int>>, r: Race, m': Machine, i: nat): Race
    requires i < |jobs| == |refunds| == |r.m.workers| == |m'.workers|
  {
    if refunds[i].None? || jobs[i].payments == [] || jobs[i].payments[0] !in r.totals then r.(m := m')
    else
      var p := jobs[i].payments[0];
      if !PastPayments(jobs[i], r.m.workers[i]) && PastPayments(jobs[i], m'.workers[i]) then
        r.(m := m', seen := r.seen[i := r.totals[p]])
      else if m'.log != r.m.log && i in r.seen then
        r.(m := m', totals := r.totals[p := r.seen[i].(refunded := r.seen[i].refunded + refunds[i].value)])
      else r.(m := m')
  }

  /** One turn; a refund that exceeds what it read is refused. */
  function RaceStep(jobs: seq<Job>, refunds: seq<Option<int>>, r: Race, t: Turn): (r': Race)
    requires |jobs| == |refunds| == |r.m.workers|
    ensures |r'.m.workers| == |jobs|
  {
    var i := t.worker;
    if t.crash || i >= |jobs| then r.(m := Step(jobs, r.m, t))
    else if refunds[i].Some? && GuardDue(jobs[i], r.m.workers[i]) && i in r.seen
      && Exceeds(r.seen[i], refunds[i].value) then
      r.(m := Fail(r.m, i, Raised(RefundNotAllowed)))
    else Write(jobs, refunds, r, Step(jobs, r.m, t), i)
  }

  function RaceAll(jobs: seq<Job>, refunds: seq<Option<int>>, r: Race, turns: seq<Turn>): (r': Race)
    requires |jobs| == |refunds| == |r.m.workers|
    ensures |r'.m.workers| == |jobs|
  {
    if turns == [] then r
      else RaceStep(jobs, refunds, RaceAll(jobs, refunds, r, turns[..|turns| - 1]), turns[|turns| - 1])
  }

  /** What the committed refunds of payment `p` add up to. */
  function Refunded(jobs: seq<Job>, refunds: seq<Option<int>>, log: seq<nat>, p: nat): int
    requires |refunds| == |jobs|
  {
    if log == [] then 0
    else
      var i := log[|log| - 1];
      Refunded(jobs, refunds, log[..|log| - 1], p) +
      if i < |jobs| && refunds[i].Some? && jobs[i].payments != []
        && jobs[i].payments[0] == p then refunds[i].value else 0
  }

  // ---------- The invariant ----------

  /** A worker that owns its payment row has read the committed row, and its guard held when it went on. */
  ghost predicate SeenOk(jobs: seq<Job>, refunds: seq<Option<int>>, r: Race, i: nat)
    requires i < |jobs| == |refunds| == |r.m.workers|
  {
    refunds[i].Some? && jobs[i].payments != [] && PastPayments(jobs[i], r.m.workers[i]) ==>
      && i in r.seen && jobs[i].payments[0] in r.totals && r.seen[i] == r.totals[jobs[i].payments[0]]
      && (r.m.workers[i].phase.Applying? ==> !Exceeds(r.seen[i], refunds[i].value) && refunds[i].value > 0)
      && (r.m.workers[i].phase.Locking? && r.m.workers[i].phase.held > |Keys(jobs[i])| ==>
            !Exceeds(r.seen[i], refunds[i].value))
  }

  /** Every total is what it was plus the committed refunds, and within the amount. */
  ghost predicate TotalsOk(jobs: seq<Job>, refunds: seq<Option<int>>, totals0: map<nat, Total>, r: Race)
    requires |refunds| == |jobs|
  {
    && r.totals.Keys == totals0.Keys
    && forall p :: p in totals0 ==>
         && r.totals[p].amount == totals0[p].amount
         && r.totals[p].refunded == totals0[p].refunded + Refunded(jobs, refunds, r.m.log, p)
         && 0 <= r.totals[p].refunded <= r.totals[p].amount
  }

  ghost predicate RaceInv(b0: Books, jobs: seq<Job>, refunds: seq<Option<int>>, totals0: map<nat, Total>, r: Race) {
    && RefundJobs(jobs, refunds, totals0)
    && MachineInv(b0, jobs, r.m)
    && TotalsOk(jobs, refunds, totals0, r)
    && forall i :: 0 <= i < |jobs| ==> SeenOk(jobs, refunds, r, i)
  }

  // ---------- Steps ----------

  /** A worker that does not commit, and newly owns no payment row, keeps everything. */
  lemma QuietKeepsRace(b0: Books, jobs: seq<Job>, refunds: seq<Option<int>>, totals0: map<nat, Total>,
                       r: Race, m': Machine, i: nat)
    requires RaceInv(b0, jobs, refunds, totals0, r) && MachineInv(b0, jobs, m') && i < |jobs|
    requires m'.workers == r.m.workers[i := m'.workers[i]] && SeenOk(jobs, refunds, r.(m := m'), i)
    requires forall p :: Refunded(jobs, refunds, m'.log, p) == Refunded(jobs, refunds, r.m.log, p)
    ensures RaceInv(b0, jobs, refunds, totals0, r.(m := m'))
  {
    forall j | 0 <= j < |jobs| ensures SeenOk(jobs, refunds, r.(m := m'), j) {
      assert SeenOk(jobs, refunds, r, j);
    }
  }

  lemma RefundedSnoc(jobs: seq<Job>, refunds: seq<Option<int>>, log: seq<nat>, i: nat, p: nat)
    requires |refunds| == |jobs| && i < |jobs|
    ensures Refunded(jobs, refunds, log + [i], p) == Refunded(jobs, refunds, log, p) +
              if refunds[i].Some? && jobs[i].payments != [] && jobs[i].payments[0] == p then refunds[i].value else 0
  {
    assert (log + [i])[..|log|] == log;
  }

  /** A statement of a job that is no refund. */
  lemma OtherJobKeepsRace(b0: Books, jobs: seq<Job>, refunds: seq<Option<int>>, totals0: map<nat, Total>, r: Race,
                          i: nat)
    requires RaceInv(b0, jobs, refunds, totals0, r) && i < |jobs| && refunds[i].None?
    ensures RaceInv(b0, jobs, refunds, totals0, r.(m := Act(jobs, r.m, i)))
  {
    var m' := Act(jobs, r.m, i);
    ActKeepsInv(b0, jobs, r.m, i);
    ActChangesOne(jobs, r.m, i);
    forall p ensures Refunded(jobs, refunds, m'.log, p) == Refunded(jobs, refunds, r.m.log, p) {
      RefundedSnoc(jobs, refunds, r.m.log, i, p);
    }
    QuietKeepsRace(b0, jobs, refunds, totals0, r, m', i);
  }

  /** The worker stops without a commit: refused, or crashed. */
  lemma StopKeepsRace(b0: Books, jobs: seq<Job>, refunds: seq<Option<int>>, totals0: map<nat, Total>,
                      r: Race, i: nat, why: Failure)
    requires RaceInv(b0, jobs, refunds, totals0, r) && i < |jobs|
    ensures RaceInv(b0, jobs, refunds, totals0, r.(m := Fail(r.m, i, why)))
  {
    FailKeepsInv(b0, jobs, r.m, i, why);
    QuietKeepsRace(b0, jobs, refunds, totals0, r, Fail(r.m, i, why), i);
  }

  /** The refund reads the row at the moment it locks it. */
  lemma ReadKeepsRace(b0: Books, jobs: seq<Job>, refunds: seq<Option<int>>, totals0: map<nat, Total>,
                      r: Race, m': Machine, i: nat)
    requires RaceInv(b0, jobs, refunds, totals0, r) && MachineInv(b0, jobs, m') && i < |jobs| && refunds[i].Some?
    requires m'.workers == r.m.workers[i := m'.workers[i]] && m'.log == r.m.log && GuardDue(jobs[i], m'.workers[i])
    ensures RaceInv(b0, jobs, refunds, totals0, r.(m := m', seen := r.seen[i := r.totals[jobs[i].payments[0]]]))
  {
    var r' := r.(m := m', seen := r.seen[i := r.totals[jobs[i].payments[0]]]);
    forall j | 0 <= j < |jobs| ensures SeenOk(jobs, refunds, r', j) {
      assert SeenOk(jobs, refunds, r, j);
    }
  }

  /** No two workers that are past their payment rows refund the same payment. */
  lemma RowsApart(jobs: seq<Job>, m: Machine, i: nat, j: nat)
    requires i < |jobs| == |m.workers| && j < |jobs| && i != j && LocksOk(jobs, m, i) && LocksOk(jobs, m, j)
    requires jobs[i].payments != [] && jobs[j].payments != []
    requires PastPayments(jobs[i], m.workers[i]) && PastPayments(jobs[j], m.workers[j])
    ensures jobs[i].payments[0] != jobs[j].payments[0]
  {
    OwnsPayment(jobs, m, i);
    OwnsPayment(jobs, m, j);
  }

  lemma WriteKeepsSeen(b0: Books, jobs: seq<Job>, refunds: seq<Option<int>>, totals0: map<nat, Total>,
                       r: Race, m': Machine, i: nat, row: Total)
    requires RaceInv(b0, jobs, refunds, totals0, r) && MachineInv(b0, jobs, m') && i < |jobs| && refunds[i].Some?
    requires m'.workers == r.m.workers[i := m'.workers[i]] && m'.workers[i].phase == Committed
    requires r.m.workers[i].phase.Applying?
    ensures var r' := r.(m := m', totals := r.totals[jobs[i].payments[0] := row]);
            forall j :: 0 <= j < |jobs| ==> SeenOk(jobs, refunds, r', j)
  {
    var r' := r.(m := m', totals := r.totals[jobs[i].payments[0] := row]);
    forall j | 0 <= j < |jobs| ensures SeenOk(jobs, refunds, r', j) {
      assert SeenOk(jobs, refunds, r, j);
      if j != i && refunds[j].Some? && PastPayments(jobs[j], r.m.workers[j]) {
        assert LocksOk(jobs, r.m, i) && LocksOk(jobs, r.m, j);
        RowsApart(jobs, r.m, i, j);
      }
    }
  }

  /** The refund writes back what it read plus its own amount. */
  lemma WriteKeepsRace(b0: Books, jobs: seq<Job>, refunds: seq<Option<int>>, totals0: map<nat, Total>,
                       r: Race, m': Machine, i: nat)
    requires RaceInv(b0, jobs, refunds, totals0, r) && MachineInv(b0, jobs, m') && i < |jobs| && refunds[i].Some?
    requires m'.workers == r.m.workers[i := m'.workers[i]] && m'.workers[i].phase == Committed
    requires r.m.workers[i].phase.Applying? && m'.log == r.m.log + [i]
    ensures i in r.seen
    ensures RaceInv(b0, jobs, refunds, totals0,
              r.(m := m', totals := r.totals[jobs[i].payments[0] := r.seen[i].(refunded := r.seen[i].refunded +
                refunds[i].value)]))
  {
    assert SeenOk(jobs, refunds, r, i);
    var row := r.seen[i].(refunded := r.seen[i].refunded + refunds[i].value);
    WriteKeepsSeen(b0, jobs, refunds, totals0, r, m', i, row);
    forall p | p in totals0
      ensures Refunded(jobs, refunds, m'.log, p) == Refunded(jobs, refunds, r.m.log, p) +
                if jobs[i].payments[0] == p then refunds[i].value else 0
    {
      RefundedSnoc(jobs, refunds, r.m.log, i, p);
    }
  }

  /** Where a lock statement can lead: on, or nowhere, or out. */
  lemma LockLeads(m: Machine, i: nat, job: Job, k: nat, inserting: bool)
    requires i < |m.workers| && k < |Plan(job)| && m.workers[i].phase == Locking(k, inserting)
    ensures var w' := LockNext(m, i, job, k, inserting).workers[i];
            w'.phase.Aborted? || (w'.phase.Locking? && (w'.phase.held == k || w'.phase.held == k + 1))
  {
  }

  lemma RefundIsPositive(job: Job, amount: int)
    requires Refusal(job).None? && job.postings != [] && job.postings[0].amount == amount
    ensures amount > 0
  {
  }

  lemma RefundLocksBalances(job: Job)
    requires job.postings != []
    ensures |Keys(job)| < |Plan(job)|
  {
    assert job.postings[0].account in AccountsOf(job.postings);
    assert job.postings[0].account in SortedAccounts(job.postings);
  }

  /** A refund past its row and its guard goes on or ends; what it has read stays right. */
  lemma PastKeepsSeen(b0: Books, jobs: seq<Job>, refunds: seq<Option<int>>, totals0: map<nat, Total>, r: Race, i: nat)
    requires RaceInv(b0, jobs, refunds, totals0, r) && i < |jobs| && refunds[i].Some?
    requires PastPayments(jobs[i], r.m.workers[i])
    requires GuardDue(jobs[i], r.m.workers[i]) ==> i in r.seen && !Exceeds(r.seen[i], refunds[i].value)
    ensures SeenOk(jobs, refunds, r.(m := Act(jobs, r.m, i)), i)
  {
    var m, job, w := r.m, jobs[i], r.m.workers[i];
    assert SeenOk(jobs, refunds, r, i);
    RefundLocksBalances(job);
    if Refusal(job).None? {
      RefundIsPositive(job, refunds[i].value);
    }
    match w.phase
    case Locking(k, inserting) =>
      if k < |Plan(job)| {
        LockLeads(m, i, job, k, inserting);
      }
    case Applying(j, _) =>
    case _ =>
  }

  lemma BeforeRow(jobs: seq<Job>, refunds: seq<Option<int>>, r: Race, i: nat)
    requires i < |jobs| == |refunds| == |r.m.workers| && refunds[i].Some? && |jobs[i].payments| == 1
    requires !PastPayments(jobs[i], r.m.workers[i])
    ensures var m' := Act(jobs, r.m, i);
            && m'.log == r.m.log && i < |m'.workers|
            && (PastPayments(jobs[i], m'.workers[i]) ==> GuardDue(jobs[i], m'.workers[i]))
  {
    match r.m.workers[i].phase
    case Locking(k, inserting) =>
      LockLeads(r.m, i, jobs[i], k, inserting);
      LockChangesOne(r.m, i, jobs[i], k, inserting);
    case _ =>
  }

  /** Any statement of a refund that its guard lets through. */
  lemma RefundKeepsRace(b0: Books, jobs: seq<Job>, refunds: seq<Option<int>>, totals0: map<nat, Total>, r: Race, i: nat)
    requires RaceInv(b0, jobs, refunds, totals0, r) && i < |jobs| && refunds[i].Some?
    requires GuardDue(jobs[i], r.m.workers[i]) && i in r.seen ==> !Exceeds(r.seen[i], refunds[i].value)
    ensures |Act(jobs, r.m, i).workers| == |jobs|
    ensures RaceInv(b0, jobs, refunds, totals0, Write(jobs, refunds, r, Act(jobs, r.m, i), i))
  {
    var m' := Act(jobs, r.m, i);
    assert jobs[i].payments[0] in r.totals;
    assert MachineInv(b0, jobs, m') by { ActKeepsInv(b0, jobs, r.m, i); }
    ActChangesOne(jobs, r.m, i);
    if !PastPayments(jobs[i], r.m.workers[i]) {
      BeforeRow(jobs, refunds, r, i);
      if PastPayments(jobs[i], m'.workers[i]) {
        ReadKeepsRace(b0, jobs, refunds, totals0, r, m', i);
      } else {
        QuietKeepsRace(b0, jobs, refunds, totals0, r, m', i);
      }
    } else {
      PastKeepsRace(b0, jobs, refunds, totals0, r, i);
    }
  }

  lemma PastKeepsRace(b0: Books, jobs: seq<Job>, refunds: seq<Option<int>>, totals0: map<nat, Total>, r: Race, i: nat)
    requires RaceInv(b0, jobs, refunds, totals0, r) && i < |jobs| && refunds[i].Some?
    requires PastPayments(jobs[i], r.m.workers[i]) && MachineInv(b0, jobs, Act(jobs, r.m, i))
    requires GuardDue(jobs[i], r.m.workers[i]) && i in r.seen ==> !Exceeds(r.seen[i], refunds[i].value)
    ensures RaceInv(b0, jobs, refunds, totals0, Write(jobs, refunds, r, Act(jobs, r.m, i), i))
  {
    var m' := Act(jobs, r.m, i);
    ActChangesOne(jobs, r.m, i);
    assert i in r.seen by { assert SeenOk(jobs, refunds, r, i); }
    WriteCases(jobs, refunds, r, m', i);
    if m'.log != r.m.log {
      CommitsWhenLogged(jobs, r.m, i);
      WriteKeepsRace(b0, jobs, refunds, totals0, r, m', i);
    } else {
      PastKeepsSeen(b0, jobs, refunds, totals0, r, i);
      QuietKeepsRace(b0, jobs, refunds, totals0, r, m', i);
    }
  }

  lemma WriteCases(jobs: seq<Job>, refunds: seq<Option<int>>, r: Race, m': Machine, i: nat)
    requires i < |jobs| == |refunds| == |r.m.workers| == |m'.workers| && refunds[i].Some? && i in r.seen
    requires jobs[i].payments != [] && jobs[i].payments[0] in r.totals && PastPayments(jobs[i], r.m.workers[i])
    ensures Write(jobs, refunds, r, m', i) ==
            if m'.log == r.m.log then r.(m := m')
            else r.(m := m', totals := r.totals[jobs[i].payments[0] :=
                                                r.seen[i].(refunded := r.seen[i].refunded + refunds[i].value)])
  {
  }

  lemma CommitsWhenLogged(jobs: seq<Job>, m: Machine, i: nat)
    requires i < |jobs| == |m.workers| && Act(jobs, m, i).log != m.log
    ensures m.workers[i].phase.Applying? && i < |Act(jobs, m, i).workers|
              && Act(jobs, m, i).workers[i].phase == Committed
  {
    ActChangesOne(jobs, m, i);
  }

  lemma RaceStepKeepsInv(b0: Books, jobs: seq<Job>, refunds: seq<Option<int>>, totals0: map<nat, Total>, r: Race,
                         t: Turn)
    requires RaceInv(b0, jobs, refunds, totals0, r)
    ensures RaceInv(b0, jobs, refunds, totals0, RaceStep(jobs, refunds, r, t))
  {
    var i := t.worker;
    if i >= |jobs| {
    } else if t.crash {
      if Active(r.m.workers[i]) {
        StopKeepsRace(b0, jobs, refunds, totals0, r, i, Crashed);
      }
    } else if refunds[i].None? {
      OtherJobKeepsRace(b0, jobs, refunds, totals0, r, i);
    } else if GuardDue(jobs[i], r.m.workers[i]) && i in r.seen && Exceeds(r.seen[i], refunds[i].value) {
      StopKeepsRace(b0, jobs, refunds, totals0, r, i, Raised(RefundNotAllowed));
    } else {
      RefundKeepsRace(b0, jobs, refunds, totals0, r, i);
    }
  }

  lemma {:induction false} RaceAllKeepsInv(b0: Books, k0: set<nat>, jobs: seq<Job>, refunds: seq<Option<int>>,
                                           totals0: map<nat, Total>, turns: seq<Turn>)
    requires RefundJobs(jobs, refunds, totals0)
    requires forall p :: p in totals0 ==> 0 <= totals0[p].refunded <= totals0[p].amount
    ensures RaceInv(b0, jobs, refunds, totals0,
              RaceAll(jobs, refunds, Race(Begin(b0, k0, |jobs|), totals0, map[]), turns))
    decreases |turns|
  {
    var r0 := Race(Begin(b0, k0, |jobs|), totals0, map[]);
    if turns == [] {
      ExecKeepsInv(b0, k0, jobs, []);
      forall i | 0 <= i < |jobs| && refunds[i].Some? ensures !PastPayments(jobs[i], r0.m.workers[i]) {
        assert |Keys(jobs[i])| > 0;
      }
    } else {
      var n := |turns| - 1;
      RaceAllKeepsInv(b0, k0, jobs, refunds, totals0, turns[..n]);
      RaceStepKeepsInv(b0, jobs, refunds, totals0, RaceAll(jobs, refunds, r0, turns[..n]), turns[n]);
    }
  }

  /**
   No interleaving of refunds with each other and with any other transactions, with any crashes,
   loses an update or refunds more than the amount: every total is what it was plus the refunds that
   committed, and the ledger is that of the committed transactions one at a time.
   */
  lemma NoOverRefund(b0: Books, k0: set<nat>, jobs: seq<Job>, refunds: seq<Option<int>>, totals0: map<nat, Total>,
                     turns: seq<Turn>, p: nat)
    requires RefundJobs(jobs, refunds, totals0) && p in totals0
    requires forall q :: q in totals0 ==> 0 <= totals0[q].refunded <= totals0[q].amount
    ensures var r := RaceAll(jobs, refunds, Race(Begin(b0, k0, |jobs|), totals0, map[]), turns);
            && p in r.totals && r.totals[p].amount == totals0[p].amount
            && r.totals[p].refunded == totals0[p].refunded + Refunded(jobs, refunds, r.m.log, p)
            && r.totals[p].refunded <= totals0[p].amount
            && (forall k :: 0 <= k < |r.m.log| ==> r.m.log[k] < |jobs|)
            && Serial(b0, jobs, r.m.log) == Ok(r.m.books)
  {
    RaceAllKeepsInv(b0, k0, jobs, refunds, totals0, turns);
  }

  // ---------- Refusals ----------

  /** A refused worker is a refund that does not fit into what is left of its payment. */
  ghost predicate RefusedOk(jobs: seq<Job>, refunds: seq<Option<int>>, r: Race, i: nat)
    requires i < |jobs| == |refunds| == |r.m.workers|
  {
    r.m.workers[i].phase == Aborted(Raised(RefundNotAllowed)) ==>
      && refunds[i].Some? && jobs[i].payments != [] && jobs[i].payments[0] in r.totals
      && r.totals[jobs[i].payments[0]].refunded + refunds[i].value > r.totals[jobs[i].payments[0]].amount
  }

  lemma ActRefusesNone(jobs: seq<Job>, m: Machine, i: nat)
    requires i < |jobs| == |m.workers| && m.workers[i].phase != Aborted(Raised(RefundNotAllowed))
    ensures Act(jobs, m, i).workers[i].phase != Aborted(Raised(RefundNotAllowed))
  {
  }

  /** Totals only grow, and amounts stay. */
  ghost predicate TotalsGrow(totals: map<nat, Total>, totals': map<nat, Total>) {
    forall p :: p in totals ==>
      p in totals' && totals'[p].amount == totals[p].amount && totals'[p].refunded >= totals[p].refunded
  }

  lemma WriteGrows(jobs: seq<Job>, refunds: seq<Option<int>>, r: Race, i: nat)
    requires i < |jobs| == |refunds| == |r.m.workers| && SeenOk(jobs, refunds, r, i)
    ensures TotalsGrow(r.totals, Write(jobs, refunds, r, Act(jobs, r.m, i), i).totals)
    ensures Write(jobs, refunds, r, Act(jobs, r.m, i), i).m == Act(jobs, r.m, i)
  {
    if i < |jobs| && Act(jobs, r.m, i).log != r.m.log {
      CommitsWhenLogged(jobs, r.m, i);
    }
  }

  lemma StepRefusesRightly(b0: Books, jobs: seq<Job>, refunds: seq<Option<int>>, totals0: map<nat, Total>, r: Race,
                           t: Turn, j: nat)
    requires RaceInv(b0, jobs, refunds, totals0, r) && j < |jobs| && RefusedOk(jobs, refunds, r, j)
    ensures RefusedOk(jobs, refunds, RaceStep(jobs, refunds, r, t), j)
  {
    var i := t.worker;
    if !t.crash && i < |jobs| {
      assert SeenOk(jobs, refunds, r, i);
      WriteGrows(jobs, refunds, r, i);
      ActChangesOne(jobs, r.m, i);
      if r.m.workers[i].phase != Aborted(Raised(RefundNotAllowed)) {
        ActRefusesNone(jobs, r.m, i);
      }
    }
  }

  /**
   Whoever was refused for exceeding the refundable balance does exceed it, then and ever after: no
   interleaving refuses a refund that still fits.
   */
  lemma {:induction false} RefusedRightly(b0: Books, k0: set<nat>, jobs: seq<Job>, refunds: seq<Option<int>>,
                                          totals0: map<nat, Total>, turns: seq<Turn>, i: nat)
    requires RefundJobs(jobs, refunds, totals0) && i < |jobs|
    requires forall p :: p in totals0 ==> 0 <= totals0[p].refunded <= totals0[p].amount
    ensures var r := RaceAll(jobs, refunds, Race(Begin(b0, k0, |jobs|), totals0, map[]), turns);
            RefusedOk(jobs, refunds, r, i)
    decreases |turns|
  {
    if turns != [] {
      var init := turns[..|turns| - 1];
      RefusedRightly(b0, k0, jobs, refunds, totals0, init, i);
      RaceAllKeepsInv(b0, k0, jobs, refunds, totals0, init);
      StepRefusesRightly(b0, jobs, refunds, totals0,
                         RaceAll(jobs, refunds, Race(Begin(b0, k0, |jobs|), totals0, map[]), init),
                         turns[|turns| - 1], i);
    }
  }
}

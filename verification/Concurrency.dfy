/**
 Concurrent transactions under row locks, statement by statement.  Each worker runs one transaction
 with one `post`: it inserts its key, locks its payment row, locks the balance rows in ascending
 order, works on private copies, completes its claim row, and commits or rolls back, releasing all
 locks at once.
 */
module Concurrency {
  import opened Wrappers
  import opened Domain
  import opened Ledger

  // ---------- Locks ----------

  /** A claim key or event id being inserted, a payment row, a balance row, or a committed claim's row. */
  datatype Resource = KeyRow(id: nat) | PaymentRow(id: nat) | BalanceOf(account: AccountId) | ClaimRow(id: nat)

  function Rank(r: Resource): nat {
    match r
    case KeyRow(_) => 0
    case PaymentRow(_) => 1
    case BalanceOf(_) => 2
    case ClaimRow(_) => 3
  }

  function Number(r: Resource): nat {
    match r
    case KeyRow(n) => n
    case PaymentRow(n) => n
    case BalanceOf(a) => a
    case ClaimRow(n) => n
  }

  /** The lock order: keys, then payments, then balances by account id, then claim rows. */
  predicate Below(r: Resource, q: Resource) {
    Rank(r) < Rank(q) || (Rank(r) == Rank(q) && Number(r) < Number(q))
  }

  /** Row numbers in the order in which a query scans them. */
  type Scan = s: seq<nat> | Ascending(s) witness []

  /**
   One transaction: an optional claim key or event id to insert, the payment rows that its
   `SELECT ... FOR UPDATE` finds, one `post`, and an optional claim, committed by an earlier
   transaction, to complete.  It raises if the query finds several payment rows.
   */
  datatype Job = Job(key: Option<nat>, payments: Scan, claim: Option<nat>,
                     kind: TransactionType, ref: Ref, postings: seq<Posting>)

  function PaymentRows(ids: seq<nat>): seq<Resource> {
    seq(|ids|, i requires 0 <= i < |ids| => PaymentRow(ids[i]))
  }

  function Keys(job: Job): seq<Resource> {
    (if job.key.Some? then [KeyRow(job.key.value)] else []) + PaymentRows(job.payments)
  }

  function Balances(ids: seq<AccountId>): seq<Resource> {
    seq(|ids|, i requires 0 <= i < |ids| => BalanceOf(ids[i]))
  }

  /** The row locks that a transaction takes before it applies its postings, in order. */
  function Plan(job: Job): seq<Resource> {
    Keys(job) + Balances(SortedAccounts(job.postings))
  }

  /** All its row locks, including the claim row that it updates last. */
  function FullPlan(job: Job): seq<Resource> {
    Plan(job) + if job.claim.Some? then [ClaimRow(job.claim.value)] else []
  }

  // ---------- The machine ----------

  /**
   Why a transaction leaves nothing behind; `KeyTaken` stands for a replay, a conflict or a
   duplicate, `Ambiguous` for a reference that is stored on several payments.
   */
  datatype Failure = Raised(error: Error) | KeyTaken | Ambiguous | UniqueViolation | Crashed

  /** Why a transaction stops before it locks any balance row, if it does. */
  function Refusal(job: Job): Option<Failure> {
    if |job.payments| > 1 then Some(Ambiguous)
    else if Validate(job.postings).Err? then Some(Raised(Validate(job.postings).error))
    else None
  }

  /**
   `held` locks taken so far; `inserting` after a SELECT found no row; `done` postings applied;
   `closing` once the claim row is updated.
   */
  datatype Phase =
    | Locking(held: nat, inserting: bool)
    | Applying(done: nat, closing: bool)
    | Committed
    | Aborted(why: Failure)

  datatype Worker = Worker(phase: Phase, work: map<AccountId, BalanceRow>)

  /** `keys` are the committed claim keys and event ids; `log` names the workers in commit order. */
  datatype Machine = Machine(books: Books, keys: set<nat>, owner: map<Resource, nat>,
                             workers: seq<Worker>, log: seq<nat>)

  function Begin(books: Books, keys: set<nat>, n: nat): Machine {
    Machine(books, keys, map[], seq(n, i => Worker(Locking(0, false), map[])), [])
  }

  predicate Active(w: Worker) {
    w.phase.Locking? || w.phase.Applying?
  }

  function Release(owner: map<Resource, nat>, i: nat): map<Resource, nat> {
    map r | r in owner && owner[r] != i :: owner[r]
  }

  function Become(m: Machine, i: nat, w: Worker): Machine
    requires i < |m.workers|
  {
    m.(workers := m.workers[i := w])
  }

  /** Rollback: the private copies and all locks go, the committed rows stay. */
  function Fail(m: Machine, i: nat, why: Failure): Machine
    requires i < |m.workers|
  {
    m.(owner := Release(m.owner, i), workers := m.workers[i := Worker(Aborted(why), map[])])
  }

  /** Commit: the private copies become the committed rows, and all locks go. */
  function Commit(m: Machine, i: nat, job: Job): Machine
    requires i < |m.workers|
  {
    var b := m.books;
    Machine(Books(b.accounts, b.balances + m.workers[i].work, b.txns + [Txn(job.kind, job.ref)],
                  b.entries + Tagged(|b.txns|, job.postings)),
            m.keys + if job.key.Some? then {job.key.value} else {},
            Release(m.owner, i),
            m.workers[i := Worker(Committed, map[])],
            m.log + [i])
  }

  /** Take the lock on `r`; a balance row is read at that moment. */
  function Acquire(m: Machine, i: nat, k: nat, r: Resource): Machine
    requires i < |m.workers|
  {
    var work := if r.BalanceOf? then m.workers[i].work[r.account := Row(m.books.balances, r.account)]
      else m.workers[i].work;
    m.(owner := m.owner[r := i], workers := m.workers[i := Worker(Locking(k + 1, false), work)])
  }

  /** Rows that are inserted when missing: is there a committed one? */
  predicate Present(m: Machine, r: Resource) {
    match r
    case KeyRow(k) => k in m.keys
    case BalanceOf(a) => a in m.books.balances
    case _ => true
  }

  /**
   The lock that the statement for `r` has to wait for, if any: the row itself, or, for the INSERT
   of a key, the committed claim row that another transaction is completing.
   */
  function Obstacle(m: Machine, r: Resource): Option<Resource> {
    if r in m.owner then Some(r)
    else if r.KeyRow? && ClaimRow(r.id) in m.owner then Some(ClaimRow(r.id))
    else None
  }

  /** The next lock of worker `i`, which holds `k` of them. */
  function LockNext(m: Machine, i: nat, job: Job, k: nat, inserting: bool): Machine
    requires i < |m.workers| && k < |Plan(job)|
  {
    var r := Plan(job)[k];
    if k >= |Keys(job)| && Refusal(job).Some? then Fail(m, i, Refusal(job).value)
    else if !Present(m, r) && !inserting then Become(m, i, m.workers[i].(phase := Locking(k, true)))
    else if r.KeyRow? && !inserting then Fail(m, i, KeyTaken)
    else if Obstacle(m, r).Some? then m
    else if inserting && Present(m, r) then Fail(m, i, UniqueViolation)
    else if r.BalanceOf? && inserting && r.account !in m.books.accounts then Fail(m, i, Raised(UnknownAccount))
    else Acquire(m, i, k, r)
  }

  /** The last statement before the commit: complete the claim, if its row is there. */
  function CloseClaim(m: Machine, i: nat, job: Job): Machine
    requires i < |m.workers| && m.workers[i].phase.Applying?
  {
    if m.workers[i].phase.closing || job.claim.None? || job.claim.value !in m.keys then Commit(m, i, job)
    else if ClaimRow(job.claim.value) in m.owner then m
    else m.(owner := m.owner[ClaimRow(job.claim.value) := i],
            workers := m.workers[i := m.workers[i].(phase := m.workers[i].phase.(closing := true))])
  }

  /** One statement of worker `i`; a worker that waits for a lock leaves the machine as it is. */
  function Act(jobs: seq<Job>, m: Machine, i: nat): (m': Machine)
    requires |jobs| == |m.workers|
    ensures |m'.workers| == |jobs|
  {
    if i >= |m.workers| then m
    else
      var job, w := jobs[i], m.workers[i];
      match w.phase
      case Locking(k, inserting) =>
        if k < |Plan(job)| then LockNext(m, i, job, k, inserting)
        else if Refusal(job).Some? then Fail(m, i, Refusal(job).value)
        else Become(m, i, w.(phase := Applying(0, false)))
      case Applying(j, closing) =>
        if j >= |job.postings| then CloseClaim(m, i, job)
        else (
          match ApplyOne(w.work, job.postings[j])
          case Err(e) => Fail(m, i, Raised(e))
          case Ok(work) => Become(m, i, Worker(Applying(j + 1, closing), work)))
      case _ => m
  }

  /** One turn of the scheduler: a statement of a worker, or its death. */
  datatype Turn = Turn(worker: nat, crash: bool)

  function Step(jobs: seq<Job>, m: Machine, t: Turn): (m': Machine)
    requires |jobs| == |m.workers|
    ensures |jobs| == |m'.workers|
  {
    if !t.crash then Act(jobs, m, t.worker)
    else if t.worker < |m.workers| && Active(m.workers[t.worker]) then Fail(m, t.worker, Crashed)
    else m
  }

  function Exec(jobs: seq<Job>, m: Machine, turns: seq<Turn>): (m': Machine)
    requires |jobs| == |m.workers|
    ensures |jobs| == |m'.workers|
  {
    if turns == [] then m else Step(jobs, Exec(jobs, m, turns[..|turns| - 1]), turns[|turns| - 1])
  }

  /** A statement of worker `i` changes no other worker, and only a commit adds to the log. */
  lemma ActChangesOne(jobs: seq<Job>, m: Machine, i: nat)
    requires i < |jobs| == |m.workers|
    ensures var m' := Act(jobs, m, i);
            && m'.workers == m.workers[i := m'.workers[i]]
            && (m'.log == m.log || (m.workers[i].phase.Applying? && m'.log == m.log + [i]))
  {
    match m.workers[i].phase
    case Locking(k, inserting) =>
      if k < |Plan(jobs[i])| {
        LockChangesOne(m, i, jobs[i], k, inserting);
      }
    case _ =>
  }

  lemma LockChangesOne(m: Machine, i: nat, job: Job, k: nat, inserting: bool)
    requires i < |m.workers| && k < |Plan(job)|
    ensures var m' := LockNext(m, i, job, k, inserting);
            m'.log == m.log && m'.workers == m.workers[i := m'.workers[i]]
  {
  }

  ghost predicate Finished(m: Machine) {
    forall i :: 0 <= i < |m.workers| ==> !Active(m.workers[i])
  }

  ghost predicate Crashless(turns: seq<Turn>) {
    forall n :: 0 <= n < |turns| ==> !turns[n].crash
  }

  lemma ExecSnoc(jobs: seq<Job>, m: Machine, turns: seq<Turn>, t: Turn)
    requires |jobs| == |m.workers|
    ensures Exec(jobs, m, turns + [t]) == Step(jobs, Exec(jobs, m, turns), t)
  {
    assert (turns + [t])[..|turns|] == turns;
  }

  /** One more crashless turn of worker `i`. */
  lemma OneMoreTurn(jobs: seq<Job>, m: Machine, turns: seq<Turn>, i: nat) returns (more: seq<Turn>)
    requires |jobs| == |m.workers| && Crashless(turns)
    ensures Crashless(more) && Exec(jobs, m, more) == Act(jobs, Exec(jobs, m, turns), i)
  {
    more := turns + [Turn(i, false)];
    ExecSnoc(jobs, m, turns, Turn(i, false));
  }

  /** The jobs named by `log`, posted one at a time. */
  function Serial(b: Books, jobs: seq<Job>, log: seq<nat>): Result<Books, Error>
    requires forall k :: 0 <= k < |log| ==> log[k] < |jobs|
  {
    if log == [] then Ok(b)
    else
      var before :- Serial(b, jobs, log[..|log| - 1]);
      var job := jobs[log[|log| - 1]];
      Post(before, job.kind, job.ref, job.postings)
  }
}

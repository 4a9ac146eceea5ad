/** The outbox relay: what one drain takes, and what a lone relay does over many drains. */
module Relay {
  import opened Sequences
  import opened Domain
  import opened Rules
  import opened Sessions

  const BATCH_SIZE: nat := 50

  // ---------- SELECT ... WHERE published_at IS NULL ORDER BY created_at LIMIT n ----------

  /** Rows that a drain may take: unpublished and not locked by another drain. */
  function Free(outbox: seq<OutboxRow>, locked: set<nat>): set<nat> {
    set i | 0 <= i < |outbox| && !outbox[i].published && i !in locked
  }

  function Age(outbox: seq<OutboxRow>, x: nat): int {
    if x < |outbox| then outbox[x].createdAt else 0
  }

  ghost predicate Ordered(outbox: seq<OutboxRow>, rows: seq<nat>) {
    forall j, k :: 0 <= j < k < |rows| ==> Age(outbox, rows[j]) <= Age(outbox, rows[k])
  }

  ghost predicate NoneNewer(outbox: seq<OutboxRow>, older: set<nat>, newer: set<nat>) {
    forall x, y :: x in older && y in newer ==> Age(outbox, x) <= Age(outbox, y)
  }

  /** A legal answer of the query: the oldest free rows in created_at order, ties in any order. */
  ghost predicate LegalBatch(outbox: seq<OutboxRow>, locked: set<nat>, limit: nat, batch: seq<nat>) {
    && NoRepeats(batch) && Ordered(outbox, batch)
    && Elements(batch) <= Free(outbox, locked)
    && |batch| <= limit
    && (|batch| < limit ==> Elements(batch) == Free(outbox, locked))
    && NoneNewer(outbox, Elements(batch), Free(outbox, locked) - Elements(batch))
  }

  /** Insert row `i` into a list ordered by created_at, after rows that are not newer. */
  function InsertByAge(outbox: seq<OutboxRow>, rows: seq<nat>, i: nat): seq<nat>
    decreases |rows|
  {
    if rows == [] || Age(outbox, rows[|rows| - 1]) <= Age(outbox, i) then rows + [i]
    else InsertByAge(outbox, rows[..|rows| - 1], i) + [rows[|rows| - 1]]
  }

  /** All unpublished rows among the first `n`, oldest first. */
  function ByAge(outbox: seq<OutboxRow>, n: nat): seq<nat>
    requires n <= |outbox|
    decreases n
  {
    if n == 0 then []
    else if outbox[n - 1].published then ByAge(outbox, n - 1)
    else InsertByAge(outbox, ByAge(outbox, n - 1), n - 1)
  }

  function Earliest(outbox: seq<OutboxRow>, limit: nat): seq<nat> {
    var rows := ByAge(outbox, |outbox|);
    if |rows| <= limit then rows else rows[..limit]
  }

  lemma OrderedSnoc(outbox: seq<OutboxRow>, rows: seq<nat>, y: nat)
    requires NoRepeats(rows) && Ordered(outbox, rows) && y !in Elements(rows)
    requires NoneNewer(outbox, Elements(rows), {y})
    ensures NoRepeats(rows + [y]) && Ordered(outbox, rows + [y])
  {
    assert forall k :: 0 <= k < |rows| ==> rows[k] in Elements(rows);
  }

  lemma {:induction false} InsertKeepsOrder(outbox: seq<OutboxRow>, rows: seq<nat>, i: nat)
    requires NoRepeats(rows) && Ordered(outbox, rows) && i !in Elements(rows)
    ensures var r := InsertByAge(outbox, rows, i);
            NoRepeats(r) && Ordered(outbox, r) && Elements(r) == Elements(rows) + {i}
    decreases |rows|
  {
    ElementsSnoc(rows, i);
    if rows == [] || Age(outbox, rows[|rows| - 1]) <= Age(outbox, i) {
      forall x | x in Elements(rows) ensures Age(outbox, x) <= Age(outbox, i) {
        var j := ElementAt(rows, x);
      }
      OrderedSnoc(outbox, rows, i);
    } else {
      var n := |rows| - 1;
      ElementsSnoc(rows[..n], rows[n]);
      assert rows[..n] + [rows[n]] == rows;
      forall x | x in Elements(rows[..n]) ensures x != rows[n] && Age(outbox, x) <= Age(outbox, rows[n]) {
        var j := ElementAt(rows[..n], x);
        assert rows[j] == x;
      }
      InsertKeepsOrder(outbox, rows[..n], i);
      ElementsSnoc(InsertByAge(outbox, rows[..n], i), rows[n]);
      OrderedSnoc(outbox, InsertByAge(outbox, rows[..n], i), rows[n]);
    }
  }

  lemma FreeStep(outbox: seq<OutboxRow>, n: nat)
    requires 0 < n <= |outbox|
    ensures Free(outbox[..n], {}) == Free(outbox[..n - 1], {}) + if outbox[n - 1].published then {} else {n - 1}
    ensures n - 1 !in Free(outbox[..n - 1], {})
  {
  }

  lemma {:induction false} ByAgeIsOrdered(outbox: seq<OutboxRow>, n: nat)
    requires n <= |outbox|
    ensures var r := ByAge(outbox, n);
            NoRepeats(r) && Ordered(outbox, r) && Elements(r) == Free(outbox[..n], {})
    decreases n
  {
    if n > 0 {
      ByAgeIsOrdered(outbox, n - 1);
      FreeStep(outbox, n);
      if !outbox[n - 1].published {
        InsertKeepsOrder(outbox, ByAge(outbox, n - 1), n - 1);
      }
    }
  }

  lemma PrefixIsLegal(outbox: seq<OutboxRow>, rows: seq<nat>, limit: nat)
    requires NoRepeats(rows) && Ordered(outbox, rows) && Elements(rows) == Free(outbox, {})
    requires limit < |rows|
    ensures LegalBatch(outbox, {}, limit, rows[..limit])
  {
    var batch := rows[..limit];
    forall x | x in Elements(batch) ensures x in Elements(rows) {
      var k := ElementAt(batch, x);
      assert rows[k] == x;
    }
    forall x, y | x in Elements(batch) && y in Elements(rows) - Elements(batch)
      ensures Age(outbox, x) <= Age(outbox, y)
    {
      var k := ElementAt(batch, x);
      var j := ElementAt(rows, y);
      assert rows[k] == x;
      assert forall l :: 0 <= l < limit ==> batch[l] == rows[l] && batch[l] in Elements(batch);
    }
  }

  /** The query of a lone drain answers legally. */
  lemma EarliestIsLegal(outbox: seq<OutboxRow>, limit: nat)
    ensures LegalBatch(outbox, {}, limit, Earliest(outbox, limit))
  {
    var rows := ByAge(outbox, |outbox|);
    ByAgeIsOrdered(outbox, |outbox|);
    assert outbox[..|outbox|] == outbox;
    if |rows| > limit {
      PrefixIsLegal(outbox, rows, limit);
    }
  }

  lemma EarliestExists(outbox: seq<OutboxRow>, limit: nat)
    ensures forall k :: 0 <= k < |Earliest(outbox, limit)| ==> Earliest(outbox, limit)[k] < |outbox|
  {
    EarliestIsLegal(outbox, limit);
    var batch := Earliest(outbox, limit);
    forall k | 0 <= k < |batch| ensures batch[k] < |outbox| {
      assert batch[k] in Elements(batch);
    }
  }

  /**
   What a lone relay has done after `k` drains with no new rows in between: `log` names the rows it
   handed out, in order. Each row appears once, in created_at order, exactly the rows that
   became published; min(n, 50 k) of the n unpublished rows are gone, so n rows take ceil(n / 50)
   non-empty drains; nothing but published flags changed.
   */
  ghost predicate Relayed(before: seq<OutboxRow>, after: seq<OutboxRow>, log: seq<nat>, k: nat) {
    && after == Stamp(before, log)
    && NoRepeats(log) && Ordered(before, log)
    && Free(after, {}) == Free(before, {}) - Elements(log)
    && Elements(log) <= Free(before, {})
    && NoneNewer(before, Elements(log), Free(after, {}))
    && |log| == if |Free(before, {})| <= 50 * k then |Free(before, {})| else 50 * k
  }

  lemma StampSnoc(outbox: seq<OutboxRow>, rows: seq<nat>, x: nat)
    requires x < |outbox|
    ensures Stamp(outbox, rows + [x]) == Stamp(outbox, rows)[x := Stamp(outbox, rows)[x].(published := true)]
  {
  }

  // ---------- The relay worker ----------

  /** One turn of the worker loop: a drain that commits, one that raises, or the loop is cancelled in it. */
  datatype Tick = Polled | RolledBack | Cancelled

  /** How many drains commit before the loop is cancelled. */
  function Polls(ticks: seq<Tick>): nat {
    if ticks == [] then 0
    else
      var init := ticks[..|ticks| - 1];
      Polls(init) + if ticks[|ticks| - 1].Polled? && Cancelled !in init then 1 else 0
  }

  lemma PollsSnoc(ticks: seq<Tick>, n: nat)
    requires n < |ticks| && Cancelled !in ticks[..n]
    ensures Polls(ticks[..n + 1]) == Polls(ticks[..n]) + if ticks[n].Polled? then 1 else 0
    ensures ticks[n] != Cancelled ==> Cancelled !in ticks[..n + 1]
  {
    assert ticks[..n + 1][..n] == ticks[..n];
  }

  lemma {:induction false} CancelEnds(ticks: seq<Tick>, n: nat)
    requires n < |ticks| && ticks[n] == Cancelled
    ensures Polls(ticks) == Polls(ticks[..n])
    decreases |ticks|
  {
    var init := ticks[..|ticks| - 1];
    if n < |init| {
      assert init[n] == Cancelled && init[..n] == ticks[..n];
      CancelEnds(init, n);
    }
  }

  class OutboxRelay {
    var running: bool

    constructor ()
      ensures !running
    {
      running := false;
    }

    /** One batch: select, hand out (`log`) and stamp each event, commit. */
    method DrainBatch(s: Session, batchSize: nat) returns (n: nat, log: seq<nat>)
      modifies s`outbox
      ensures LegalBatch(old(s.outbox), {}, batchSize, log)
      ensures s.outbox == Stamp(old(s.outbox), log) && n == |log|
    {
      var events := Earliest(s.outbox, batchSize);
      EarliestIsLegal(s.outbox, batchSize);
      EarliestExists(s.outbox, batchSize);
      log := [];
      assert s.outbox == Stamp(s.outbox, []);
      for k := 0 to |events|
        invariant log == events[..k]
        invariant s.outbox == Stamp(old(s.outbox), log)
      {
        StampSnoc(old(s.outbox), log, events[k]);
        log := log + [events[k]];
        s.outbox := s.outbox[events[k] := s.outbox[events[k]].(published := true)];
      }
      return |events|, log;
    }

    /**
     The worker loop, until it is cancelled or another task calls `Stop`, which happens after the
     last tick.  A drain that raises is rolled back, logged and tried again; a cancelled loop ends
     with the flag still set.
     */
    method RunLoop(s: Session, ticks: seq<Tick>) returns (log: seq<nat>)
      requires ticks != []
      modifies this, s`outbox
      ensures Relayed(old(s.outbox), s.outbox, log, Polls(ticks))
      ensures running <==> Cancelled in ticks
      ensures |Free(old(s.outbox), {})| <= 50 * Polls(ticks) ==>
                forall x :: 0 <= x < |s.outbox| ==> s.outbox[x].published
    {
      running := true;
      var n := 0;
      log := [];
      RelayedNothing(s.outbox);
      while running
        invariant n <= |ticks| && (running <==> n < |ticks|)
        invariant Cancelled !in ticks[..n]
        invariant Relayed(old(s.outbox), s.outbox, log, Polls(ticks[..n]))
        decreases |ticks| - n
      {
        PollsSnoc(ticks, n);
        match ticks[n] {
          case Polled =>
            ghost var mid := s.outbox;
            var drained, batch := DrainBatch(s, BATCH_SIZE);
            RelayedStep(old(s.outbox), mid, log, Polls(ticks[..n]), batch);
            log := log + batch;
          case RolledBack =>
          case Cancelled =>
            CancelEnds(ticks, n);
            EnoughDrains(old(s.outbox), s.outbox, log, Polls(ticks));
            return;
        }
        n := n + 1;
        if n == |ticks| {
          Stop();
        }
      }
      assert ticks[..|ticks|] == ticks;
      EnoughDrains(old(s.outbox), s.outbox, log, Polls(ticks));
    }

    method Stop()
      modifies this
      ensures !running
    {
      running := false;
    }
  }

  // ---------- A lone relay ----------

  lemma SubsetSize(s: set<nat>, t: set<nat>)
    requires s <= t
    ensures |t - s| == |t| - |s|
  {
    assert t == s + (t - s);
  }

  /** A drain takes min(limit, free) rows. */
  lemma BatchSize(free: set<nat>, limit: nat, batch: seq<nat>)
    requires NoRepeats(batch) && Elements(batch) <= free
    requires |batch| <= limit && (|batch| < limit ==> Elements(batch) == free)
    ensures |batch| == if |free| <= limit then |free| else limit
  {
    CountElements(batch);
    SubsetSize(Elements(batch), free);
  }

  lemma RelayedNothing(outbox: seq<OutboxRow>)
    ensures Relayed(outbox, outbox, [], 0)
  {
    assert Stamp(outbox, []) == outbox;
    assert Free(outbox, {}) - Elements([]) == Free(outbox, {});
  }

  lemma StampStamp(outbox: seq<OutboxRow>, rows: seq<nat>, more: seq<nat>)
    ensures Stamp(Stamp(outbox, rows), more) == Stamp(outbox, rows + more)
    ensures Elements(rows + more) == Elements(rows) + Elements(more)
  {
  }

  lemma AppendOrdered(outbox: seq<OutboxRow>, rows: seq<nat>, more: seq<nat>)
    requires NoRepeats(rows) && NoRepeats(more) && Elements(rows) !! Elements(more)
    requires Ordered(outbox, rows) && Ordered(outbox, more) && NoneNewer(outbox, Elements(rows), Elements(more))
    ensures NoRepeats(rows + more) && Ordered(outbox, rows + more)
  {
    assert forall k :: 0 <= k < |rows| ==> rows[k] in Elements(rows);
    assert forall k :: 0 <= k < |more| ==> more[k] in Elements(more);
  }

  lemma SameAges(outbox: seq<OutboxRow>, rows: seq<nat>, batch: seq<nat>, left: set<nat>)
    requires Ordered(Stamp(outbox, rows), batch) && NoneNewer(Stamp(outbox, rows), Elements(batch), left)
    ensures Ordered(outbox, batch) && NoneNewer(outbox, Elements(batch), left)
  {
    assert forall x :: Age(Stamp(outbox, rows), x) == Age(outbox, x);
  }

  lemma NoneNewerSplit(outbox: seq<OutboxRow>, taken: set<nat>, batch: set<nat>, left: set<nat>)
    requires NoneNewer(outbox, taken, batch + left) && NoneNewer(outbox, batch, left)
    ensures NoneNewer(outbox, taken, batch) && NoneNewer(outbox, taken + batch, left)
  {
  }

  lemma CountStep(free: set<nat>, log: seq<nat>, batch: seq<nat>, k: nat)
    requires NoRepeats(log) && Elements(log) <= free
    requires |log| == if |free| <= 50 * k then |free| else 50 * k
    requires NoRepeats(batch) && Elements(batch) <= free - Elements(log)
    requires |batch| <= 50 && (|batch| < 50 ==> Elements(batch) == free - Elements(log))
    ensures |log + batch| == if |free| <= 50 * (k + 1) then |free| else 50 * (k + 1)
  {
    CountElements(log);
    SubsetSize(Elements(log), free);
    BatchSize(free - Elements(log), 50, batch);
  }

  /** What one more drain does to the rows. */
  lemma StepRows(before: seq<OutboxRow>, log: seq<nat>, batch: seq<nat>)
    requires Elements(log) <= Free(before, {})
    requires LegalBatch(Stamp(before, log), {}, 50, batch)
    ensures Stamp(Stamp(before, log), batch) == Stamp(before, log + batch)
    ensures Free(Stamp(before, log), {}) == Free(before, {}) - Elements(log)
    ensures Free(Stamp(before, log + batch), {}) == Free(before, {}) - Elements(log + batch)
    ensures Elements(log + batch) == Elements(log) + Elements(batch) && Elements(log) !! Elements(batch)
    ensures Elements(batch) <= Free(before, {})
  {
    StampStamp(before, log, batch);
  }

  /** What one more drain does to the order of the log. */
  lemma StepOrder(before: seq<OutboxRow>, log: seq<nat>, batch: seq<nat>, left: set<nat>)
    requires NoRepeats(log) && Ordered(before, log) && NoRepeats(batch) && Elements(log) !! Elements(batch)
    requires NoneNewer(before, Elements(log), Elements(batch) + left)
    requires Ordered(Stamp(before, log), batch) && NoneNewer(Stamp(before, log), Elements(batch), left)
    ensures NoRepeats(log + batch) && Ordered(before, log + batch)
    ensures NoneNewer(before, Elements(log) + Elements(batch), left)
  {
    SameAges(before, log, batch, left);
    NoneNewerSplit(before, Elements(log), Elements(batch), left);
    AppendOrdered(before, log, batch);
  }

  /** One more drain keeps everything said of a lone relay. */
  lemma RelayedStep(before: seq<OutboxRow>, mid: seq<OutboxRow>, log: seq<nat>, k: nat, batch: seq<nat>)
    requires Relayed(before, mid, log, k) && LegalBatch(mid, {}, 50, batch)
    ensures Relayed(before, Stamp(mid, batch), log + batch, k + 1)
  {
    StepRows(before, log, batch);
    var left := Free(mid, {}) - Elements(batch);
    assert Free(mid, {}) == Elements(batch) + left;
    StepOrder(before, log, batch, left);
    assert left == Free(before, {}) - Elements(log + batch);
    CountStep(Free(before, {}), log, batch, k);
  }

  /** Drains of 50 rows each, as many as there are unpublished rows, hand out and publish them all. */
  lemma EnoughDrains(before: seq<OutboxRow>, after: seq<OutboxRow>, log: seq<nat>, k: nat)
    requires Relayed(before, after, log, k)
    ensures |Free(before, {})| <= 50 * k ==>
              && (forall x :: 0 <= x < |after| ==> after[x].published)
              && (forall x :: 0 <= x < |before| && !before[x].published ==> x in log)
  {
    CountElements(log);
    SubsetSize(Elements(log), Free(before, {}));
    if |Free(before, {})| <= 50 * k {
      forall x | 0 <= x < |after| ensures after[x].published {
        assert x !in Free(after, {});
      }
      forall x | 0 <= x < |before| && !before[x].published ensures x in log {
        assert x in Free(before, {}) && x in Elements(log);
      }
    }
  }
}

/** Any number of relays draining at once, with crashes and new rows in between. */
module RelayRaces {
  import opened Sequences
  import opened Domain
  import opened Rules
  import opened Relay

  /** An open drain transaction: the rows it locked and how many it has handed out. */
  datatype DrainTx = DrainTx(batch: seq<nat>, handed: nat)

  datatype Fleet = Fleet(outbox: seq<OutboxRow>, open: map<nat, DrainTx>, handedOut: set<nat>, stamps: seq<nat>)

  datatype Move =
    | Insert(row: OutboxRow)
    | Select(relay: nat, limit: nat, batch: seq<nat>)
    | HandOut(relay: nat)
    | Commit(relay: nat)
    | Die(relay: nat)

  /** Rows locked by some open drain. */
  function Locked(open: map<nat, DrainTx>): set<nat> {
    set d, x | d in open && x in Elements(open[d].batch) :: x
  }

  /** One move; SKIP LOCKED lets a select see only rows that no other drain holds. */
  ghost function Go(f: Fleet, move: Move): Fleet {
    match move
    case Insert(row) => f.(outbox := f.outbox + [row.(published := false)])
    case Select(d, limit, batch) =>
      if d in f.open || !LegalBatch(f.outbox, Locked(f.open), limit, batch) then f
      else f.(open := f.open[d := DrainTx(batch, 0)])
    case HandOut(d) =>
      if d !in f.open || f.open[d].handed >= |f.open[d].batch| then f
      else f.(open := f.open[d := f.open[d].(handed := f.open[d].handed + 1)],
              handedOut := f.handedOut + {f.open[d].batch[f.open[d].handed]})
    case Commit(d) =>
      if d !in f.open || f.open[d].handed < |f.open[d].batch| then f
      else Fleet(Stamp(f.outbox, f.open[d].batch), f.open - {d}, f.handedOut, f.stamps + f.open[d].batch)
    case Die(d) => f.(open := f.open - {d})
  }

  ghost function GoAll(f: Fleet, moves: seq<Move>): Fleet {
    if moves == [] then f else Go(GoAll(f, moves[..|moves| - 1]), moves[|moves| - 1])
  }

  ghost predicate DrainOk(f: Fleet, d: nat)
    requires d in f.open
  {
    var t := f.open[d];
    && t.handed <= |t.batch|
    && NoRepeats(t.batch)
    && (forall k :: 0 <= k < |t.batch| ==> t.batch[k] < |f.outbox| && !f.outbox[t.batch[k]].published)
    && (forall k :: 0 <= k < t.handed ==> t.batch[k] in f.handedOut)
  }

  /** Two open drains never hold the same row. */
  ghost predicate Disjoint(open: map<nat, DrainTx>) {
    forall d, e, x :: d in open && e in open && d != e && x in open[d].batch ==> x !in open[e].batch
  }

  ghost predicate FleetInv(f: Fleet) {
    && (forall d :: d in f.open ==> DrainOk(f, d))
    && Disjoint(f.open)
    && NoRepeats(f.stamps)
    && (forall x: nat :: x in f.stamps <==> x < |f.outbox| && f.outbox[x].published)
    && (forall x :: x in f.stamps ==> x in f.handedOut)
  }

  lemma SelectKeepsInv(f: Fleet, d: nat, limit: nat, batch: seq<nat>)
    requires FleetInv(f) && d !in f.open && LegalBatch(f.outbox, Locked(f.open), limit, batch)
    ensures FleetInv(f.(open := f.open[d := DrainTx(batch, 0)]))
  {
    var f' := f.(open := f.open[d := DrainTx(batch, 0)]);
    forall e | e in f'.open ensures DrainOk(f', e) {
      if e != d {
        assert DrainOk(f, e);
      } else {
        forall k | 0 <= k < |batch| ensures batch[k] < |f.outbox| && !f.outbox[batch[k]].published {
          assert batch[k] in Free(f.outbox, Locked(f.open));
        }
      }
    }
    forall e, x | e in f.open && x in batch ensures x !in f.open[e].batch {
      assert x in Elements(batch) && x !in Locked(f.open);
      assert x in Elements(f.open[e].batch) <==> x in f.open[e].batch;
    }
  }

  lemma HandOutKeepsInv(f: Fleet, d: nat)
    requires FleetInv(f)
    ensures FleetInv(Go(f, HandOut(d)))
  {
    var f' := Go(f, HandOut(d));
    assert f'.outbox == f.outbox && f'.stamps == f.stamps && f.handedOut <= f'.handedOut;
    forall e | e in f'.open ensures f'.open[e].batch == f.open[e].batch && DrainOk(f', e) {
      assert DrainOk(f, e);
    }
  }

  lemma CommitKeepsInv(f: Fleet, d: nat)
    requires FleetInv(f) && d in f.open && f.open[d].handed >= |f.open[d].batch|
    ensures FleetInv(Go(f, Commit(d)))
  {
    var f' := Go(f, Commit(d));
    var batch := f.open[d].batch;
    assert DrainOk(f, d);
    forall e | e in f'.open ensures DrainOk(f', e) {
      assert DrainOk(f, e);
      forall k | 0 <= k < |f.open[e].batch| ensures !f'.outbox[f.open[e].batch[k]].published {
        assert f.open[e].batch[k] in f.open[e].batch;
      }
    }
    forall x: nat ensures x in f'.stamps <==> x < |f'.outbox| && f'.outbox[x].published {
      assert x in f'.stamps <==> x in f.stamps || x in batch;
    }
    forall j, k | 0 <= j < k < |f'.stamps| ensures f'.stamps[j] != f'.stamps[k] {
      if j < |f.stamps| <= k {
        assert f.stamps[j] in f.stamps && f'.stamps[k] == batch[k - |f.stamps|];
      }
    }
    forall x | x in f'.stamps ensures x in f'.handedOut {
      if x !in f.stamps {
        assert x in batch;
      }
    }
  }

  lemma DieKeepsInv(f: Fleet, d: nat)
    requires FleetInv(f)
    ensures FleetInv(Go(f, Die(d)))
  {
    var f' := Go(f, Die(d));
    forall e | e in f'.open ensures DrainOk(f', e) {
      assert DrainOk(f, e);
    }
  }

  lemma InsertKeepsInv(f: Fleet, row: OutboxRow)
    requires FleetInv(f)
    ensures FleetInv(Go(f, Insert(row)))
  {
    var f' := Go(f, Insert(row));
    forall e | e in f'.open ensures DrainOk(f', e) {
      assert DrainOk(f, e);
    }
  }

  lemma GoKeepsInv(f: Fleet, move: Move)
    requires FleetInv(f)
    ensures FleetInv(Go(f, move))
  {
    match move
    case Insert(row) => InsertKeepsInv(f, row);
    case Select(d, limit, batch) =>
      if d !in f.open && LegalBatch(f.outbox, Locked(f.open), limit, batch) {
        SelectKeepsInv(f, d, limit, batch);
      }
    case HandOut(d) => HandOutKeepsInv(f, d);
    case Commit(d) =>
      if d in f.open && f.open[d].handed >= |f.open[d].batch| {
        CommitKeepsInv(f, d);
      }
    case Die(d) => DieKeepsInv(f, d);
  }

  ghost predicate Fresh(f: Fleet) {
    f.open == map[] && f.stamps == [] && forall x :: 0 <= x < |f.outbox| ==> !f.outbox[x].published
  }

  /**
   Over every run of any number of relays: open drains hold disjoint batches, no row is stamped
   twice, and every stamped row was handed out, even when relays die before they commit.
   */
  lemma {:induction false} RelaysAreSafe(f: Fleet, moves: seq<Move>)
    requires Fresh(f)
    ensures var g := GoAll(f, moves);
            && FleetInv(g)
            && Disjoint(g.open) && NoRepeats(g.stamps)
            && (forall x :: 0 <= x < |g.outbox| && g.outbox[x].published ==> x in g.stamps && x in g.handedOut)
  {
    if moves != [] {
      RelaysAreSafe(f, moves[..|moves| - 1]);
      GoKeepsInv(GoAll(f, moves[..|moves| - 1]), moves[|moves| - 1]);
    }
  }

  /** A stamp is never taken back and no row is lost or rewritten. */
  lemma {:induction false} StampsAreForever(f: Fleet, moves: seq<Move>)
    ensures var g := GoAll(f, moves);
            && |f.outbox| <= |g.outbox|
            && (forall x :: 0 <= x < |f.outbox| ==>
                  g.outbox[x] == f.outbox[x] || g.outbox[x] == f.outbox[x].(published := true))
            && f.stamps <= g.stamps
  {
    if moves != [] {
      StampsAreForever(f, moves[..|moves| - 1]);
    }
  }

  // ---------- A drain that is not cut off ----------

  /** One drain from its select to its commit. */
  function WholeDrain(d: nat, limit: nat, batch: seq<nat>): seq<Move> {
    [Select(d, limit, batch)] + seq(|batch|, _ => HandOut(d)) + [Commit(d)]
  }

  lemma {:induction false} GoAllSplits(f: Fleet, moves: seq<Move>, more: seq<Move>)
    ensures GoAll(f, moves + more) == GoAll(GoAll(f, moves), more)
    decreases |more|
  {
    if more == [] {
      assert moves + more == moves;
    } else {
      var n, all := |more| - 1, moves + more;
      GoAllSplits(f, moves, more[..n]);
      assert all[..|all| - 1] == moves + more[..n] && all[|all| - 1] == more[n];
    }
  }

  lemma GoOne(f: Fleet, move: Move)
    ensures GoAll(f, [move]) == Go(f, move)
  {
    assert [move][..0] == [];
    assert GoAll(f, []) == f;
  }

  /** The fleet after relay `d` handed out the first `n` rows of its batch. */
  function Handed(f: Fleet, d: nat, batch: seq<nat>, n: nat): Fleet
    requires n <= |batch|
  {
    f.(open := f.open[d := DrainTx(batch, n)], handedOut := f.handedOut + Elements(batch[..n]))
  }

  lemma HandedNext(f: Fleet, d: nat, batch: seq<nat>, n: nat)
    requires n < |batch|
    ensures Go(Handed(f, d, batch, n), HandOut(d)) == Handed(f, d, batch, n + 1)
  {
    ElementsSnoc(batch[..n], batch[n]);
    assert batch[..n] + [batch[n]] == batch[..n + 1];
  }

  lemma {:induction false} HandOuts(f: Fleet, d: nat, batch: seq<nat>, n: nat)
    requires n <= |batch| && d in f.open && f.open[d] == DrainTx(batch, 0)
    ensures GoAll(f, seq(n, _ => HandOut(d))) == Handed(f, d, batch, n)
    decreases n
  {
    if n == 0 {
      assert f.open[d := DrainTx(batch, 0)] == f.open;
      assert f.handedOut + Elements(batch[..0]) == f.handedOut;
    } else {
      HandOuts(f, d, batch, n - 1);
      HandedNext(f, d, batch, n - 1);
      var moves := seq(n, _ => HandOut(d));
      assert moves[..n - 1] == seq(n - 1, _ => HandOut(d)) && moves[n - 1] == HandOut(d);
    }
  }

  /**
   In the midst of any other drains, a drain that is not cut off stamps exactly its batch, after it
   handed out every row of it, and leaves the other drains alone.
   */
  lemma DrainCompletes(f: Fleet, d: nat, limit: nat, batch: seq<nat>)
    requires d !in f.open && LegalBatch(f.outbox, Locked(f.open), limit, batch)
    ensures GoAll(f, WholeDrain(d, limit, batch)) ==
            Fleet(Stamp(f.outbox, batch), f.open, f.handedOut + Elements(batch), f.stamps + batch)
  {
    var out := seq(|batch|, _ => HandOut(d));
    var selected := f.(open := f.open[d := DrainTx(batch, 0)]);
    GoAllSplits(f, [Select(d, limit, batch)] + out, [Commit(d)]);
    GoAllSplits(f, [Select(d, limit, batch)], out);
    GoOne(f, Select(d, limit, batch));
    HandOuts(selected, d, batch, |batch|);
    GoOne(Handed(selected, d, batch, |batch|), Commit(d));
    CommitCloses(f, d, batch);
  }

  lemma CommitCloses(f: Fleet, d: nat, batch: seq<nat>)
    requires d !in f.open
    ensures Go(Handed(f.(open := f.open[d := DrainTx(batch, 0)]), d, batch, |batch|), Commit(d)) ==
            Fleet(Stamp(f.outbox, batch), f.open, f.handedOut + Elements(batch), f.stamps + batch)
  {
    assert batch[..|batch|] == batch;
    assert f.open[d := DrainTx(batch, 0)][d := DrainTx(batch, |batch|)] - {d} == f.open;
  }

  /** With no other drain open, one big drain publishes every row. */
  lemma OneDrainPublishesAll(f: Fleet) returns (moves: seq<Move>)
    requires f.open == map[]
    ensures GoAll(f, moves).open == map[] && Published(f.outbox, GoAll(f, moves).outbox)
  {
    var batch := ByAge(f.outbox, |f.outbox|);
    EarliestIsLegal(f.outbox, |batch| + 1);
    assert Locked(f.open) == {};
    DrainCompletes(f, 0, |batch| + 1, batch);
    moves := WholeDrain(0, |batch| + 1, batch);
    forall x | 0 <= x < |f.outbox| ensures f.outbox[x].published || x in batch {
      assert x in Free(f.outbox, {}) ==> x in Elements(batch);
    }
  }

  /** The same rows, all published. */
  ghost predicate Published(outbox: seq<OutboxRow>, outbox': seq<OutboxRow>) {
    && |outbox'| == |outbox|
    && forall x :: 0 <= x < |outbox| ==> outbox'[x] == outbox[x].(published := true)
  }

  /**
   No row is ever out of reach: from every state, whatever drains are open, if those die then a drain of
   another relay publishes every row that was left.
   */
  lemma {:induction false} RowsAreRecoverable(f: Fleet) returns (moves: seq<Move>)
    ensures GoAll(f, moves).open == map[] && Published(f.outbox, GoAll(f, moves).outbox)
    decreases |f.open|
  {
    if f.open == map[] {
      moves := OneDrainPublishesAll(f);
    } else {
      var d :| d in f.open;
      assert |f.open - {d}| < |f.open| by { assert f.open.Keys == (f.open - {d}).Keys + {d}; }
      var rest := RowsAreRecoverable(Go(f, Die(d)));
      moves := [Die(d)] + rest;
      GoAllSplits(f, [Die(d)], rest);
      GoOne(f, Die(d));
    }
  }
}

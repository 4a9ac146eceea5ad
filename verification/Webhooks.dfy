/** Lists of webhooks: duplicates do nothing, and the first decisive event wins. */
module Webhooks {
  import opened Wrappers
  import opened Sequences
  import opened Domain
  import opened Ledger
  import opened LedgerLemmas
  import opened Rules
  import opened Effects
  import opened Invariant
  import opened Moves
  import opened System
  import opened SystemProof
  import opened Solvency

  datatype Delivery = Delivery(webhook: Webhook, now: int)

  // ---------- Consuming a list of deliveries ----------

  type Consumer = (Db, Delivery) -> Db

  function Consume(step: Consumer, db: Db, ds: seq<Delivery>): Db {
    if ds == [] then db else step(Consume(step, db, ds[..|ds| - 1]), ds[|ds| - 1])
  }

  predicate HasId(ds: seq<Delivery>, id: string) {
    exists i :: 0 <= i < |ds| && ds[i].webhook.id == id
  }

  /** Only the first delivery of each event id. */
  function FirstPerId(ds: seq<Delivery>): seq<Delivery> {
    if ds == [] then []
    else
      var init, last := ds[..|ds| - 1], ds[|ds| - 1];
      FirstPerId(init) + if HasId(init, last.webhook.id) then [] else [last]
  }

  ghost predicate Keeps(step: Consumer, inv: Db -> bool) {
    forall db, d :: inv(db) ==> inv(step(db, d))
  }

  /** Once delivered, an event is done; what is done stays done; a done delivery changes nothing. */
  ghost predicate Idempotent(step: Consumer, inv: Db -> bool, done: (Db, Webhook) -> bool) {
    && (forall db, d :: inv(db) ==> done(step(db, d), d.webhook))
    && (forall db, d, w :: inv(db) && done(db, w) ==> done(step(db, d), w))
    && (forall db, d: Delivery :: inv(db) && done(db, d.webhook) ==> step(db, d) == db)
  }

  lemma {:induction false} ConsumeKeeps(step: Consumer, inv: Db -> bool, db: Db, ds: seq<Delivery>)
    requires Keeps(step, inv) && inv(db)
    ensures inv(Consume(step, db, ds))
  {
    if ds != [] {
      ConsumeKeeps(step, inv, db, ds[..|ds| - 1]);
    }
  }

  lemma {:induction false} ConsumedIsDone(step: Consumer, inv: Db -> bool, done: (Db, Webhook) -> bool,
                                          db: Db, ds: seq<Delivery>, i: nat)
    requires Keeps(step, inv) && Idempotent(step, inv, done) && inv(db) && i < |ds|
    ensures done(Consume(step, db, ds), ds[i].webhook)
  {
    var n := |ds| - 1;
    ConsumeKeeps(step, inv, db, ds[..n]);
    if i < n {
      ConsumedIsDone(step, inv, done, db, ds[..n], i);
    }
  }

  // ---------- Lists and their first deliveries ----------

  /** One delivery of `id`, with or without effect. */
  ghost predicate Recorded(db: Db, db': Db, id: string, inert: bool) {
    && db.events <= db'.events <= db.events + {id}
    && (if inert then db' == db else id !in db.events && id in db'.events)
  }

  ghost predicate Records(step: Consumer, inv: Db -> bool, inert: (Db, Webhook) -> bool) {
    forall db, d: Delivery :: inv(db) ==> Recorded(db, step(db, d), d.webhook.id, inert(db, d.webhook))
  }

  /** Among the first `n` deliveries, those whose id came before are without effect when their turn comes. */
  ghost predicate NoLateEffect(step: Consumer, inert: (Db, Webhook) -> bool, db: Db, ds: seq<Delivery>, n: nat) {
    forall k :: 0 <= k < n <= |ds| && HasId(ds[..k], ds[k].webhook.id) ==>
      inert(Consume(step, db, ds[..k]), ds[k].webhook)
  }

  lemma PrefixStep(step: Consumer, db: Db, ds: seq<Delivery>, k: nat)
    requires k < |ds|
    ensures Consume(step, db, ds[..k + 1]) == step(Consume(step, db, ds[..k]), ds[k])
    ensures FirstPerId(ds[..k + 1]) == FirstPerId(ds[..k]) + if HasId(ds[..k], ds[k].webhook.id) then [] else [ds[k]]
    ensures Consume(step, db, FirstPerId(ds[..k + 1])) ==
            if HasId(ds[..k], ds[k].webhook.id) then Consume(step, db, FirstPerId(ds[..k]))
            else step(Consume(step, db, FirstPerId(ds[..k])), ds[k])
  {
    assert ds[..k + 1][..k] == ds[..k];
    if HasId(ds[..k], ds[k].webhook.id) {
      assert FirstPerId(ds[..k + 1]) == FirstPerId(ds[..k]);
    } else {
      ConsumeSnoc(step, db, FirstPerId(ds[..k]), ds[k]);
    }
  }

  lemma ConsumeSnoc(step: Consumer, db: Db, ds: seq<Delivery>, d: Delivery)
    ensures Consume(step, db, ds + [d]) == step(Consume(step, db, ds), d)
  {
    assert (ds + [d])[..|ds|] == ds;
  }

  lemma {:induction false} NoLateEffectSuffices(step: Consumer, inv: Db -> bool, inert: (Db, Webhook) -> bool,
                                                db: Db, ds: seq<Delivery>, k: nat)
    requires Keeps(step, inv) && Records(step, inv, inert) && inv(db) && k <= |ds|
    requires NoLateEffect(step, inert, db, ds, k)
    ensures Consume(step, db, ds[..k]) == Consume(step, db, FirstPerId(ds[..k]))
    decreases k
  {
    if k == 0 {
      assert ds[..0] == [];
    } else {
      NoLateEffectSuffices(step, inv, inert, db, ds, k - 1);
      PrefixStep(step, db, ds, k - 1);
      ConsumeKeeps(step, inv, db, ds[..k - 1]);
      assert Recorded(Consume(step, db, ds[..k - 1]), Consume(step, db, ds[..k]), ds[k - 1].webhook.id,
                      inert(Consume(step, db, ds[..k - 1]), ds[k - 1].webhook));
    }
  }

  /** What is recorded stays recorded. */
  lemma {:induction false} RecordedStays(step: Consumer, inv: Db -> bool, inert: (Db, Webhook) -> bool,
                                         db: Db, ds: seq<Delivery>, k: nat, n: nat, id: string)
    requires Keeps(step, inv) && Records(step, inv, inert) && inv(db)
    requires k <= n <= |ds| && id in Consume(step, db, ds[..k]).events
    ensures id in Consume(step, db, ds[..n]).events
    decreases n
  {
    if k < n {
      RecordedStays(step, inv, inert, db, ds, k, n - 1, id);
      PrefixStep(step, db, ds, n - 1);
      ConsumeKeeps(step, inv, db, ds[..n - 1]);
      assert Recorded(Consume(step, db, ds[..n - 1]), Consume(step, db, ds[..n]), ds[n - 1].webhook.id,
                      inert(Consume(step, db, ds[..n - 1]), ds[n - 1].webhook));
    }
  }

  /** What the first deliveries among the first `n` leave behind. */
  function Kept(step: Consumer, db: Db, ds: seq<Delivery>, n: nat): Db
    requires n <= |ds|
  {
    if n == 0 then db
    else if HasId(ds[..n - 1], ds[n - 1].webhook.id) then Kept(step, db, ds, n - 1)
    else step(Kept(step, db, ds, n - 1), ds[n - 1])
  }

  lemma {:induction false} KeptMeaning(step: Consumer, db: Db, ds: seq<Delivery>, n: nat)
    requires n <= |ds|
    ensures Kept(step, db, ds, n) == Consume(step, db, FirstPerId(ds[..n]))
    decreases n
  {
    if n > 0 {
      KeptMeaning(step, db, ds, n - 1);
      PrefixStep(step, db, ds, n - 1);
    } else {
      assert ds[..0] == [];
    }
  }

  lemma {:induction false} KeptKeeps(step: Consumer, inv: Db -> bool, db: Db, ds: seq<Delivery>, n: nat)
    requires Keeps(step, inv) && inv(db) && n <= |ds|
    ensures inv(Kept(step, db, ds, n))
    decreases n
  {
    if n > 0 {
      KeptKeeps(step, inv, db, ds, n - 1);
    }
  }

  lemma NextNotRecorded(step: Consumer, inv: Db -> bool, inert: (Db, Webhook) -> bool, db: Db, ds: seq<Delivery>,
                        n: nat, i: nat)
    requires Records(step, inv, inert) && i < n < |ds| && inv(Kept(step, db, ds, n))
    requires ds[i].webhook.id !in Kept(step, db, ds, n).events
    ensures ds[i].webhook.id !in Kept(step, db, ds, n + 1).events
  {
    var before, id := Kept(step, db, ds, n), ds[n].webhook.id;
    assert Recorded(before, step(before, ds[n]), id, inert(before, ds[n].webhook));
    if id == ds[i].webhook.id {
      assert ds[..n][i].webhook.id == id;
      assert HasId(ds[..n], id);
    }
  }

  /** With only first deliveries, an id that its first delivery did not record is never recorded. */
  lemma {:induction false} NeverRecorded(step: Consumer, inv: Db -> bool, inert: (Db, Webhook) -> bool,
                                         db: Db, ds: seq<Delivery>, k: nat, n: nat, i: nat)
    requires Keeps(step, inv) && Records(step, inv, inert) && inv(db) && i < k <= n <= |ds|
    requires ds[i].webhook.id !in Kept(step, db, ds, k).events
    ensures ds[i].webhook.id !in Kept(step, db, ds, n).events
    decreases n
  {
    if k < n {
      NeverRecorded(step, inv, inert, db, ds, k, n - 1, i);
      KeptKeeps(step, inv, db, ds, n - 1);
      NextNotRecorded(step, inv, inert, db, ds, n - 1, i);
    }
  }

  lemma LateIsRecorded(step: Consumer, inv: Db -> bool, inert: (Db, Webhook) -> bool, db: Db, ds: seq<Delivery>, k: nat)
    requires Keeps(step, inv) && Records(step, inv, inert) && inv(db) && k < |ds|
    requires !inert(Consume(step, db, ds[..k]), ds[k].webhook)
    ensures ds[k].webhook.id !in Consume(step, db, ds[..k]).events
    ensures ds[k].webhook.id in Consume(step, db, ds).events
  {
    var before := Consume(step, db, ds[..k]);
    ConsumeKeeps(step, inv, db, ds[..k]);
    assert Recorded(before, step(before, ds[k]), ds[k].webhook.id, inert(before, ds[k].webhook));
    PrefixStep(step, db, ds, k);
    RecordedStays(step, inv, inert, db, ds, k + 1, |ds|, ds[k].webhook.id);
    assert ds[..|ds|] == ds;
  }

  /** The first late delivery that takes effect records an id that the first deliveries alone never record. */
  lemma LateEffectShows(step: Consumer, inv: Db -> bool, inert: (Db, Webhook) -> bool, db: Db, ds: seq<Delivery>,
                        k: nat)
    requires Keeps(step, inv) && Records(step, inv, inert) && inv(db)
    requires k < |ds| && HasId(ds[..k], ds[k].webhook.id) && NoLateEffect(step, inert, db, ds, k)
    requires !inert(Consume(step, db, ds[..k]), ds[k].webhook)
    ensures Consume(step, db, ds) != Consume(step, db, FirstPerId(ds))
  {
    LateIsRecorded(step, inv, inert, db, ds, k);
    NoLateEffectSuffices(step, inv, inert, db, ds, k);
    KeptMeaning(step, db, ds, k);
    KeptMeaning(step, db, ds, |ds|);
    var i :| 0 <= i < k && ds[..k][i].webhook.id == ds[k].webhook.id;
    NeverRecorded(step, inv, inert, db, ds, k, |ds|, i);
    assert ds[..|ds|] == ds;
  }

  lemma {:induction false} FirstLate(step: Consumer, inert: (Db, Webhook) -> bool, db: Db, ds: seq<Delivery>, n: nat)
    returns (k: nat)
    requires n <= |ds| && !NoLateEffect(step, inert, db, ds, n)
    ensures k < n && HasId(ds[..k], ds[k].webhook.id) && !inert(Consume(step, db, ds[..k]), ds[k].webhook)
    ensures NoLateEffect(step, inert, db, ds, k)
    decreases n
  {
    if NoLateEffect(step, inert, db, ds, n - 1) {
      k := n - 1;
    } else {
      k := FirstLate(step, inert, db, ds, n - 1);
    }
  }

  lemma LateInTwo(step: Consumer, inert: (Db, Webhook) -> bool, db: Db, d: Delivery, e: Delivery)
    requires d.webhook.id == e.webhook.id
    ensures NoLateEffect(step, inert, db, [d, e], 2) <==> inert(step(db, d), e.webhook)
  {
    var ds := [d, e];
    assert ds[..0] == [] && ds[..1] == [d];
    assert HasId(ds[..1], e.webhook.id) by { assert ds[..1][0].webhook.id == e.webhook.id; }
    assert !HasId(ds[..0], d.webhook.id);
    assert Consume(step, db, [d]) == step(db, d) by { assert [d][..0] == []; }
  }

  /** A list equals its first delivery per event id if and only if no later delivery of an id takes effect. */
  lemma ListsAgreeIff(step: Consumer, inv: Db -> bool, inert: (Db, Webhook) -> bool, db: Db, ds: seq<Delivery>)
    requires Keeps(step, inv) && Records(step, inv, inert) && inv(db)
    ensures Consume(step, db, ds) == Consume(step, db, FirstPerId(ds)) <==> NoLateEffect(step, inert, db, ds, |ds|)
  {
    assert ds[..|ds|] == ds;
    if NoLateEffect(step, inert, db, ds, |ds|) {
      NoLateEffectSuffices(step, inv, inert, db, ds, |ds|);
    } else {
      var k := FirstLate(step, inert, db, ds, |ds|);
      LateEffectShows(step, inv, inert, db, ds, k);
    }
  }

  // ---------- One webhook transaction ----------

  function Receive(db: Db, d: Delivery): Db {
    OrElse(Handle(db, d.webhook, d.now), db)
  }

  /** The event types that capture a payment. */
  predicate Captures(kind: string) {
    kind in {"payment.captured", "payment_intent.succeeded", "payment_intent.amount_capturable_updated",
             "charge.captured"}
  }

  /** The event types that fail a payment. */
  predicate Fails(kind: string) {
    kind in {"payment.failed", "payment_intent.payment_failed", "payment_intent.canceled"}
  }

  /** The reference names exactly one payment, which waits, and the event is decisive. */
  predicate Closes(db: Db, w: Webhook) {
    var found := WithReference(db.payments, w.pspReference);
    && w.pspReference != "" && |found| == 1
    && found[0] < |db.payments| && db.payments[found[0]].status == Authorized
    && (Captures(w.kind) || Fails(w.kind))
  }

  function Target(db: Db, w: Webhook): nat
    requires Closes(db, w)
  {
    WithReference(db.payments, w.pspReference)[0]
  }

  /** A delivery that has no effect: recorded before, ambiguous, or not covered by suspense. */
  predicate Inert(db: Db, w: Webhook) {
    || w.id in db.events
    || (w.pspReference != "" && |WithReference(db.payments, w.pspReference)| > 1)
    || (Closes(db, w) && Bal(db.books.balances, PSP_SUSPENSE) < db.payments[Target(db, w)].amount)
  }

  /** Payment `i` was waiting and is now closed as the event says. */
  ghost predicate Closed(db: Db, db': Db, i: nat, w: Webhook) {
    && i < |db.payments| && db.payments[i].status == Authorized
    && |db'.payments| == |db.payments|
    && (forall k :: 0 <= k < |db.payments| && k != i ==> db'.payments[k] == db.payments[k])
    && db'.payments[i].pspReference == db.payments[i].pspReference
    && db'.payments[i].amount == db.payments[i].amount
    && db'.payments[i].payer == db.payments[i].payer
    && db'.payments[i].status == if Captures(w.kind) then Succeeded else Failed
  }

  /** Everything later proofs need to know about one delivery. */
  ghost predicate Effect(db: Db, db': Db, w: Webhook) {
    && (Inert(db, w) ==> db' == db)
    && (!Inert(db, w) ==> db'.events == db.events + {w.id})
    && (!Inert(db, w) && Closes(db, w) ==> Closed(db, db', Target(db, w), w))
    && (!Closes(db, w) ==> db'.payments == db.payments)
    && Bal(db'.books.balances, PSP_SUSPENSE) <= Bal(db.books.balances, PSP_SUSPENSE)
  }

  lemma SettleCloses(opening: map<AccountId, BalanceRow>, db: Db, i: nat, w: Webhook, now: int)
    requires MoneyInv(opening, db) && i < |db.payments| && db.payments[i].status == Authorized
    requires db.payments[i].pspReference == Some(w.pspReference) && Captures(w.kind)
    ensures Settle(db, i, w.pspReference, now).Ok? <==> Bal(db.books.balances, PSP_SUSPENSE) >= db.payments[i].amount
    ensures Settle(db, i, w.pspReference, now).Ok? ==>
              var db' := Settle(db, i, w.pspReference, now).value;
              && Closed(db, db', i, w) && db'.events == db.events
              && Bal(db'.books.balances, PSP_SUSPENSE) <= Bal(db.books.balances, PSP_SUSPENSE)
  {
    var p := db.payments[i];
    assert PaymentOk(db.books, p);
    SettleEffect(db, i, w.pspReference, now);
  }

  lemma ReverseCloses(opening: map<AccountId, BalanceRow>, db: Db, i: nat, w: Webhook, now: int)
    requires MoneyInv(opening, db) && i < |db.payments| && db.payments[i].status == Authorized
    requires !Captures(w.kind)
    ensures Reverse(db, i, now).Ok? <==> Bal(db.books.balances, PSP_SUSPENSE) >= db.payments[i].amount
    ensures Reverse(db, i, now).Ok? ==>
              var db' := Reverse(db, i, now).value;
              && Closed(db, db', i, w) && db'.events == db.events
              && Bal(db'.books.balances, PSP_SUSPENSE) <= Bal(db.books.balances, PSP_SUSPENSE)
  {
    var p := db.payments[i];
    assert PaymentOk(db.books, p);
    ReverseEffect(db, i, now);
  }

  lemma TargetMeaning(db: Db, w: Webhook)
    requires Closes(db, w)
    ensures db.payments[Target(db, w)].pspReference == Some(w.pspReference)
  {
    WithReferenceMeaning(db.payments, w.pspReference);
    assert Target(db, w) in WithReference(db.payments, w.pspReference);
  }

  lemma ReceiveHasEffect(opening: map<AccountId, BalanceRow>, db: Db, d: Delivery)
    requires MoneyInv(opening, db)
    ensures Effect(db, Receive(db, d), d.webhook)
  {
    var w := d.webhook;
    if w.id !in db.events && Closes(db, w) {
      var recorded := db.(events := db.events + {w.id});
      assert MoneyInv(opening, recorded) by { BookkeepingKeepsInv(opening, db, recorded); }
      TargetMeaning(db, w);
      if Captures(w.kind) {
        SettleCloses(opening, recorded, Target(db, w), w, d.now);
      } else {
        ReverseCloses(opening, recorded, Target(db, w), w, d.now);
      }
    }
  }

  /** Payment `i` is closed in the ledger and the outbox as the event says. */
  ghost predicate PaidOut(db: Db, db': Db, i: nat, w: Webhook, now: int)
    requires i < |db.payments|
  {
    var p := db.payments[i];
    var receiver := if Captures(w.kind) then p.payee else p.payer;
    var kind := if Captures(w.kind) then PaymentTxn else ReversalTxn;
    var event := if Captures(w.kind) then PaymentSucceeded(p.merchant, p.amount, p.currency, Some(w.pspReference))
                 else PaymentFailed(p.merchant, p.amount);
    && Transferred(db.books, db'.books, kind, PaymentRef(i), PSP_SUSPENSE, receiver, p.amount)
    && db'.outbox == db.outbox + [OutboxRow(PaymentRef(i), event, now, false)]
    && db'.payments == db.payments[i := p.(status := StatusFor(w), version := p.version + 1)]
  }

  /** The rest of what one delivery changes: ledger, outbox and payment row, and no other table. */
  lemma ReceiveMovesMoney(db: Db, d: Delivery)
    ensures var db', w := Receive(db, d), d.webhook;
            && db'.claims == db.claims && db'.refunds == db.refunds && db'.books.accounts == db.books.accounts
            && (Receive(db, d) == db || !Closes(db, w) ==> db'.books == db.books && db'.outbox == db.outbox)
            && (Receive(db, d) != db && Closes(db, w) ==> PaidOut(db, db', Target(db, w), w, d.now))
  {
    var w := d.webhook;
    if w.id !in db.events && Closes(db, w) {
      var recorded := db.(events := db.events + {w.id});
      TargetMeaning(db, w);
      if Captures(w.kind) && Settle(recorded, Target(db, w), w.pspReference, d.now).Ok? {
        SettlePaysOut(db, recorded, Target(db, w), w, d.now);
      }
      if !Captures(w.kind) && Reverse(recorded, Target(db, w), d.now).Ok? {
        ReversePaysOut(db, recorded, Target(db, w), w, d.now);
      }
    }
  }

  lemma SettlePaysOut(db: Db, recorded: Db, i: nat, w: Webhook, now: int)
    requires recorded == db.(events := recorded.events) && i < |db.payments| && Captures(w.kind)
    requires db.payments[i].pspReference == Some(w.pspReference) && Settle(recorded, i, w.pspReference, now).Ok?
    ensures var db' := Settle(recorded, i, w.pspReference, now).value;
            PaidOut(db, db', i, w, now) && db'.claims == db.claims && db'.refunds == db.refunds
              && db'.books.accounts == db.books.accounts
  {
    SettleEffect(recorded, i, w.pspReference, now);
  }

  lemma ReversePaysOut(db: Db, recorded: Db, i: nat, w: Webhook, now: int)
    requires recorded == db.(events := recorded.events) && i < |db.payments| && !Captures(w.kind)
    requires Reverse(recorded, i, now).Ok?
    ensures var db' := Reverse(recorded, i, now).value;
            PaidOut(db, db', i, w, now) && db'.claims == db.claims && db'.refunds == db.refunds
              && db'.books.accounts == db.books.accounts
  {
    ReverseEffect(recorded, i, now);
  }

  /** Done before: nothing; nothing to close: only its id recorded; else that and the payment closed. */
  ghost predicate HandleDone(db: Db, db': Db, w: Webhook, now: int) {
    var recorded := db.(events := db.events + {w.id});
    if w.id in db.events then db' == db
    else if !Closes(db, w) then db' == recorded
    else if Captures(w.kind) then SettleDone(recorded, db', Target(db, w), w.pspReference, now)
    else ReverseDone(recorded, db', Target(db, w), now)
  }

  /** Exactly when a webhook raises, and what it does otherwise. */
  lemma HandleEffect(db: Db, w: Webhook, now: int)
    ensures Handle(db, w, now).Err? <==>
              w.id !in db.events && w.pspReference != "" &&
              (|WithReference(db.payments, w.pspReference)| > 1 ||
               (Closes(db, w) && !Closable(db, Target(db, w), Captures(w.kind))))
    ensures Handle(db, w, now).Ok? ==> HandleDone(db, Handle(db, w, now).value, w, now)
  {
    if w.id !in db.events && Closes(db, w) {
      CloseEffect(db, w, now);
    }
  }

  lemma CloseEffect(db: Db, w: Webhook, now: int)
    requires w.id !in db.events && Closes(db, w)
    ensures Handle(db, w, now).Err? <==> !Closable(db, Target(db, w), Captures(w.kind))
    ensures Handle(db, w, now).Ok? ==> HandleDone(db, Handle(db, w, now).value, w, now)
  {
    var recorded := db.(events := db.events + {w.id});
    if Captures(w.kind) {
      assert Handle(db, w, now) == Settle(recorded, Target(db, w), w.pspReference, now);
      SettleEffect(recorded, Target(db, w), w.pspReference, now);
    } else {
      assert Handle(db, w, now) == Reverse(recorded, Target(db, w), now);
      ReverseEffect(recorded, Target(db, w), now);
    }
  }

  /** Suspense covers the payment, and the receiving account exists. */
  predicate Closable(db: Db, i: nat, capture: bool)
    requires i < |db.payments|
  {
    var p := db.payments[i];
    Registered(db.books, PSP_SUSPENSE, if capture then p.payee else p.payer) &&
    0 < p.amount <= Bal(db.books.balances, PSP_SUSPENSE)
  }

  /** The payments that store reference `r`. */
  function Matches(ps: seq<Payment>, r: string): set<nat> {
    set i | 0 <= i < |ps| && ps[i].pspReference == Some(r)
  }

  lemma MatchesFound(ps: seq<Payment>, r: string)
    ensures Matches(ps, r) == Elements(WithReference(ps, r)) && |Matches(ps, r)| == |WithReference(ps, r)|
  {
    WithReferenceMeaning(ps, r);
    CountElements(WithReference(ps, r));
  }

  lemma OneMatch(ps: seq<Payment>, r: string, i: nat)
    requires Matches(ps, r) == {i}
    ensures i < |ps| && ps[i].pspReference == Some(r) && WithReference(ps, r) == [i]
  {
    assert i in Matches(ps, r);
    MatchesFound(ps, r);
    assert WithReference(ps, r)[0] in Elements(WithReference(ps, r));
  }

  /**
   What each event type does to the one waiting payment that stores the reference, when the id is new
   and suspense covers the payment: four types settle it, three reverse it, any other leaves it.
   */
  lemma KindsDecide(db: Db, id: string, kind: string, r: string, i: nat, now: int)
    requires id !in db.events && r != "" && Matches(db.payments, r) == {i} && db.payments[i].status == Authorized
    requires 0 < db.payments[i].amount <= Bal(db.books.balances, PSP_SUSPENSE)
    requires Registered(db.books, db.payments[i].payer, db.payments[i].payee) && PSP_SUSPENSE in db.books.accounts
    ensures var recorded := db.(events := db.events + {id});
            var done := Handle(db, Webhook(id, kind, r), now);
            && done.Ok?
            && (kind == "payment.captured" || kind == "payment_intent.succeeded"
                || kind == "payment_intent.amount_capturable_updated" || kind == "charge.captured" ==>
                  SettleDone(recorded, done.value, i, r, now))
            && (kind == "payment.failed" || kind == "payment_intent.payment_failed"
                || kind == "payment_intent.canceled" ==>
                  ReverseDone(recorded, done.value, i, now))
            && (kind !in {"payment.captured", "payment_intent.succeeded", "payment_intent.amount_capturable_updated",
                          "charge.captured", "payment.failed", "payment_intent.payment_failed",
                          "payment_intent.canceled"} ==>
                  done.value == recorded)
  {
    var recorded := db.(events := db.events + {id});
    OneMatch(db.payments, r, i);
    SettleEffect(recorded, i, r, now);
    ReverseEffect(recorded, i, now);
  }

  /** A webhook without a waiting payment only records its id; a recorded id does nothing; a shared reference raises. */
  lemma NothingWaits(db: Db, w: Webhook, now: int)
    ensures w.id in db.events ==> Handle(db, w, now) == Ok(db)
    ensures w.id !in db.events && (w.pspReference == "" || Matches(db.payments, w.pspReference) == {}) ==>
              Handle(db, w, now) == Ok(db.(events := db.events + {w.id}))
    ensures w.id !in db.events && w.pspReference != "" ==>
              forall i :: Matches(db.payments, w.pspReference) == {i} && db.payments[i].status != Authorized ==>
                Handle(db, w, now) == Ok(db.(events := db.events + {w.id}))
    ensures w.id !in db.events && w.pspReference != "" && |Matches(db.payments, w.pspReference)| > 1 ==>
              Handle(db, w, now) == Err(MultipleResults)
  {
    MatchesFound(db.payments, w.pspReference);
    forall i | Matches(db.payments, w.pspReference) == {i} && db.payments[i].status != Authorized
      ensures w.id !in db.events && w.pspReference != "" ==> Handle(db, w, now) == Ok(db.(events := db.events + {w.id}))
    {
      OneMatch(db.payments, w.pspReference, i);
    }
  }

  // ---------- Duplicates ----------

  lemma {:induction false} ReferencesKept(ps: seq<Payment>, qs: seq<Payment>, r: string)
    requires |ps| == |qs| && forall i :: 0 <= i < |ps| ==> qs[i].pspReference == ps[i].pspReference
    ensures WithReference(qs, r) == WithReference(ps, r)
  {
    if ps != [] {
      ReferencesKept(ps[..|ps| - 1], qs[..|ps| - 1], r);
    }
  }

  lemma EffectKeepsReferences(db: Db, db': Db, w: Webhook, r: string)
    requires Effect(db, db', w)
    ensures WithReference(db'.payments, r) == WithReference(db.payments, r)
  {
    ReferencesKept(db.payments, db'.payments, r);
  }

  /** What has no effect now has none after any other webhook. */
  lemma InertStays(db: Db, db': Db, w: Webhook, v: Webhook)
    requires Effect(db, db', w) && Inert(db, v)
    ensures Inert(db', v)
  {
    EffectKeepsReferences(db, db', w, v.pspReference);
  }

  lemma DeliveredIsInert(db: Db, db': Db, w: Webhook)
    requires Effect(db, db', w)
    ensures Inert(db', w)
  {
  }

  lemma ReceiveIsIdempotent(opening: map<AccountId, BalanceRow>)
    ensures Keeps(Receive, db => MoneyInv(opening, db))
    ensures Idempotent(Receive, db => MoneyInv(opening, db), Inert)
  {
    forall db, d | MoneyInv(opening, db)
      ensures MoneyInv(opening, Receive(db, d)) && Effect(db, Receive(db, d), d.webhook)
                && Inert(Receive(db, d), d.webhook)
    {
      HandleKeepsMoney(opening, db, d.webhook, d.now);
      ReceiveHasEffect(opening, db, d);
      DeliveredIsInert(db, Receive(db, d), d.webhook);
    }
    forall db, d, v | MoneyInv(opening, db) && Inert(db, v) ensures Inert(Receive(db, d), v) {
      ReceiveHasEffect(opening, db, d);
      InertStays(db, Receive(db, d), d.webhook, v);
    }
  }

  /** An event id names one event. */
  ghost predicate IdsNameEvents(ds: seq<Delivery>) {
    forall i, j :: 0 <= i < j < |ds| && ds[i].webhook.id == ds[j].webhook.id ==> ds[i].webhook == ds[j].webhook
  }

  /** A delivery records at most its own id, never takes one back, and does nothing if it is inert. */
  lemma ReceiveRecords(opening: map<AccountId, BalanceRow>)
    ensures Keeps(Receive, x => MoneyInv(opening, x)) && Records(Receive, x => MoneyInv(opening, x), Inert)
  {
    ReceiveIsIdempotent(opening);
    forall x, d: Delivery | MoneyInv(opening, x)
      ensures Recorded(x, Receive(x, d), d.webhook.id, Inert(x, d.webhook))
    {
      ReceiveHasEffect(opening, x, d);
    }
  }

  /**
   For every list of deliveries, with ids reused for any content: it equals its first delivery per
   event id if and only if no later delivery of an id takes effect.
   */
  lemma ListIff(opening: map<AccountId, BalanceRow>, db: Db, ds: seq<Delivery>)
    requires MoneyInv(opening, db)
    ensures Consume(Receive, db, ds) == Consume(Receive, db, FirstPerId(ds)) <==>
              NoLateEffect(Receive, Inert, db, ds, |ds|)
  {
    ReceiveRecords(opening);
    ListsAgreeIff(Receive, x => MoneyInv(opening, x), Inert, db, ds);
  }

  /** A list whose ids name one event each equals its first delivery per event id. */
  lemma DuplicatesDoNothing(opening: map<AccountId, BalanceRow>, db: Db, ds: seq<Delivery>)
    requires MoneyInv(opening, db) && IdsNameEvents(ds)
    ensures Consume(Receive, db, ds) == Consume(Receive, db, FirstPerId(ds))
  {
    ReceiveIsIdempotent(opening);
    forall k | 0 <= k < |ds| && HasId(ds[..k], ds[k].webhook.id)
      ensures Inert(Consume(Receive, db, ds[..k]), ds[k].webhook)
    {
      var i :| 0 <= i < k && ds[..k][i].webhook.id == ds[k].webhook.id;
      ConsumedIsDone(Receive, x => MoneyInv(opening, x), Inert, db, ds[..k], i);
      assert ds[i].webhook == ds[k].webhook;
    }
    ListIff(opening, db, ds);
  }

  // ---------- Reused ids, and the first decisive event ----------

  /** In a list of two under one id, the second is late without effect if the first took effect or it has none. */
  lemma TwoLate(opening: map<AccountId, BalanceRow>, db: Db, d: Delivery, e: Delivery)
    requires MoneyInv(opening, db) && d.webhook.id == e.webhook.id
    ensures NoLateEffect(Receive, Inert, db, [d, e], 2) <==> !Inert(db, d.webhook) || Inert(db, e.webhook)
  {
    LateInTwo(Receive, Inert, db, d, e);
    ReceiveHasEffect(opening, db, d);
    DeliveredIsInert(db, Receive(db, d), d.webhook);
  }

  /**
   Two deliveries under one id, whatever they carry, equal the first alone exactly when the first
   took effect or the second cannot.  The other case is a first delivery that was refused and rolled
   back, so that its id was never recorded.
   */
  lemma TwoDeliveries(opening: map<AccountId, BalanceRow>, db: Db, d: Delivery, e: Delivery)
    requires MoneyInv(opening, db) && d.webhook.id == e.webhook.id
    ensures FirstPerId([d, e]) == [d]
    ensures Consume(Receive, db, [d, e]) == Consume(Receive, db, [d]) <==>
              !Inert(db, d.webhook) || Inert(db, e.webhook)
  {
    var ds := [d, e];
    assert ds[..0] == [] && ds[..1] == [d] && ds[..2] == ds;
    assert HasId([d], e.webhook.id) by { assert [d][0].webhook.id == e.webhook.id; }
    assert !HasId([], d.webhook.id);
    assert FirstPerId([d]) == [d] && FirstPerId(ds) == [d];
    ListIff(opening, db, ds);
    TwoLate(opening, db, d, e);
  }

  const DEMO_FIRST: Delivery := Delivery(Webhook("e", "payment.captured", "r"), 0)
  const DEMO_SECOND: Delivery := Delivery(Webhook("e", "payment.captured", ""), 0)

  /** The hold that suspense no longer covers waits for its webhook. */
  function DemoWaiting(s0: Sys): Sys {
    Do(Demo(s0), Finish(0, Pending(Some("r")), 0))
  }

  lemma DemoKeepsMoney(s0: Sys)
    requires s0 == Start(DEMO_ACCOUNTS, DEMO_OPENING)
    ensures MoneyInv(DEMO_OPENING, DemoWaiting(s0).db)
  {
    StartInv(DEMO_ACCOUNTS, DEMO_OPENING);
    var first := Create("a", CreateRequest("m", 2, 3, 100, "INR"), 0);
    DoKeepsInv(DEMO_OPENING, s0, first);
    DoKeepsInv(DEMO_OPENING, Do(s0, first), Create("b", CreateRequest("m", PSP_SUSPENSE, 3, 100, "INR"), 0));
    DoKeepsInv(DEMO_OPENING, DemoHeld(s0), Finish(1, Captured(None), 0));
    DoKeepsInv(DEMO_OPENING, Demo(s0), Finish(0, Pending(Some("r")), 0));
  }

  /** The first delivery is refused for lack of funds; the second names no payment. */
  lemma DemoDeliveries(s: Sys)
    requires Spent(s)
    ensures var db := Do(s, Finish(0, Pending(Some("r")), 0)).db;
            Inert(db, DEMO_FIRST.webhook) && !Inert(db, DEMO_SECOND.webhook)
  {
    var db := Do(s, Finish(0, Pending(Some("r")), 0)).db;
    var ps := db.payments;
    assert Conclude(s.db, 0, Pending(Some("r")), 0).Ok?;
    assert |ps| == 2 && ps[0].status == Authorized && ps[0].pspReference == Some("r");
    assert ps[..1] == [ps[0]] && ps[..1][..0] == [];
    assert WithReference(ps[..1], "r") == [0];
    assert "r" != "";
    assert WithReference(ps, "r") == [0];
  }

  /** A reachable state in which the second delivery of an id still has an effect. */
  lemma ReusedIdAfterRefusal(s0: Sys)
    requires s0 == Start(DEMO_ACCOUNTS, DEMO_OPENING)
    ensures var db, ds := DemoWaiting(s0).db, [DEMO_FIRST, DEMO_SECOND];
            Consume(Receive, db, ds) != Consume(Receive, db, FirstPerId(ds))
  {
    DemoSpent(s0);
    DemoKeepsMoney(s0);
    DemoDeliveries(Demo(s0));
    TwoDeliveries(DEMO_OPENING, DemoWaiting(s0).db, DEMO_FIRST, DEMO_SECOND);
  }

  /** No non-empty reference is stored on two payments. */
  ghost predicate ReferencesUnique(ps: seq<Payment>) {
    forall i, j :: 0 <= i < j < |ps| && ps[i].pspReference.Some? && ps[i].pspReference.value != "" ==>
      ps[i].pspReference != ps[j].pspReference
  }

  /** A reachable state in which no delivery can be refused: solvent, and with unique references. */
  ghost predicate Orderly(opening: map<AccountId, BalanceRow>, db: Db) {
    MoneyInv(opening, db) && Solvent(db) && ReferencesUnique(db.payments)
  }

  lemma UniqueReference(ps: seq<Payment>, r: string)
    requires ReferencesUnique(ps) && r != ""
    ensures |WithReference(ps, r)| <= 1
  {
    WithReferenceMeaning(ps, r);
    var found := WithReference(ps, r);
    if |found| > 1 {
      assert found[0] in found && found[1] in found;
    }
  }

  lemma OrderlyIsNeverRefused(opening: map<AccountId, BalanceRow>, db: Db, w: Webhook)
    requires Orderly(opening, db)
    ensures Inert(db, w) <==> w.id in db.events
  {
    if w.pspReference != "" {
      UniqueReference(db.payments, w.pspReference);
    }
    if Closes(db, w) {
      HeldCanClose(opening, db, Target(db, w), "", 0);
    }
  }

  lemma OrderlyKept(db: Db, db': Db, w: Webhook)
    requires Effect(db, db', w) && ReferencesUnique(db.payments)
    ensures ReferencesUnique(db'.payments)
  {
  }

  lemma OrderlyStep(opening: map<AccountId, BalanceRow>, db: Db, d: Delivery)
    requires Orderly(opening, db)
    ensures Orderly(opening, Receive(db, d)) && Effect(db, Receive(db, d), d.webhook)
    ensures Receive(db, d).events == db.events + {d.webhook.id}
    ensures d.webhook.id in db.events ==> Receive(db, d) == db
  {
    ReceiveHasEffect(opening, db, d);
    HandleKeepsMoney(opening, db, d.webhook, d.now);
    SlackAfterHandle(opening, db, d.webhook, d.now);
    OrderlyKept(db, Receive(db, d), d.webhook);
    OrderlyIsNeverRefused(opening, db, d.webhook);
  }

  /** From an orderly state every delivery is recorded. */
  lemma {:induction false} OrderlyRecords(opening: map<AccountId, BalanceRow>, db: Db, ds: seq<Delivery>, id: string)
    requires Orderly(opening, db)
    ensures Orderly(opening, Consume(Receive, db, ds))
    ensures HasId(ds, id) ==> id in Consume(Receive, db, ds).events
    decreases |ds|
  {
    if ds != [] {
      var init, last := ds[..|ds| - 1], ds[|ds| - 1];
      OrderlyRecords(opening, db, init, id);
      OrderlyStep(opening, Consume(Receive, db, init), last);
      HasIdSnoc(ds, id);
    }
  }

  /** In an orderly state duplicates do nothing even when a reused id carries another payload. */
  lemma ReusedIdsDoNothing(opening: map<AccountId, BalanceRow>, db: Db, ds: seq<Delivery>)
    requires Orderly(opening, db)
    ensures Consume(Receive, db, ds) == Consume(Receive, db, FirstPerId(ds))
  {
    forall k | 0 <= k < |ds| && HasId(ds[..k], ds[k].webhook.id)
      ensures Inert(Consume(Receive, db, ds[..k]), ds[k].webhook)
    {
      OrderlyRecords(opening, db, ds[..k], ds[k].webhook.id);
    }
    ListIff(opening, db, ds);
  }

  /** A capture or fail event for reference `r`. */
  predicate Decisive(w: Webhook, r: string) {
    w.pspReference == r && (Captures(w.kind) || Fails(w.kind))
  }

  function StatusFor(w: Webhook): PaymentStatus {
    if Captures(w.kind) then Succeeded else Failed
  }

  /** The status that the first decisive event of the list calls for; ids in `seen` or earlier in the list are old. */
  function Verdict(seen: set<string>, ds: seq<Delivery>, r: string): PaymentStatus {
    if ds == [] then Authorized
    else
      var init, w := ds[..|ds| - 1], ds[|ds| - 1].webhook;
      if Verdict(seen, init, r) != Authorized then Verdict(seen, init, r)
      else if w.id !in seen && !HasId(init, w.id) && Decisive(w, r) then StatusFor(w)
      else Authorized
  }

  /** How one delivery changes the recorded ids and the status of the payment with reference `r`. */
  ghost predicate Decides(db: Db, db': Db, w: Webhook, i: nat, r: string) {
    && db'.events == db.events + {w.id}
    && i < |db.payments| && |db'.payments| == |db.payments|
    && db'.payments[i].pspReference == db.payments[i].pspReference
    && db'.payments[i].status ==
       if db.payments[i].status == Authorized && w.id !in db.events && Decisive(w, r) then StatusFor(w)
       else db.payments[i].status
  }

  /** Only a webhook that bears reference `r` can close the payment that stores it. */
  lemma ReferencedTarget(db: Db, w: Webhook, i: nat, r: string)
    requires ReferencesUnique(db.payments) && r != "" && i < |db.payments| && db.payments[i].pspReference == Some(r)
    ensures w.pspReference == r ==> WithReference(db.payments, w.pspReference) == [i]
    ensures Closes(db, w) ==> (Target(db, w) == i <==> w.pspReference == r)
  {
    if Closes(db, w) {
      TargetMeaning(db, w);
    }
    if w.pspReference == r {
      UniqueReference(db.payments, r);
      WithReferenceMeaning(db.payments, r);
      assert i in WithReference(db.payments, r);
    }
  }

  lemma EffectDecides(opening: map<AccountId, BalanceRow>, db: Db, db': Db, w: Webhook, i: nat, r: string)
    requires Orderly(opening, db) && Effect(db, db', w) && db'.events == db.events + {w.id}
    requires i < |db.payments| && db.payments[i].pspReference == Some(r) && r != ""
    ensures Decides(db, db', w, i, r)
  {
    assert Inert(db, w) <==> w.id in db.events by { OrderlyIsNeverRefused(opening, db, w); }
    ReferencedTarget(db, w, i, r);
  }

  lemma {:induction false} FirstDecisive(step: Consumer, inv: Db -> bool, db: Db, ds: seq<Delivery>, i: nat, r: string)
    requires Keeps(step, inv) && inv(db) && r != ""
    requires i < |db.payments| && db.payments[i].status == Authorized && db.payments[i].pspReference == Some(r)
    requires forall x, d: Delivery :: inv(x) && i < |x.payments| && x.payments[i].pspReference == Some(r) ==>
               Decides(x, step(x, d), d.webhook, i, r)
    ensures var db' := Consume(step, db, ds);
            && i < |db'.payments|
            && db'.payments[i].pspReference == Some(r)
            && db'.payments[i].status == Verdict(db.events, ds, r)
            && forall id :: id in db'.events <==> id in db.events || HasId(ds, id)
  {
    if ds != [] {
      var n := |ds| - 1;
      FirstDecisive(step, inv, db, ds[..n], i, r);
      ConsumeKeeps(step, inv, db, ds[..n]);
      assert Decides(Consume(step, db, ds[..n]), Consume(step, db, ds), ds[n].webhook, i, r);
      forall id ensures HasId(ds, id) <==> HasId(ds[..n], id) || ds[n].webhook.id == id {
        HasIdSnoc(ds, id);
      }
    }
  }

  lemma HasIdSnoc(ds: seq<Delivery>, id: string)
    requires ds != []
    ensures HasId(ds, id) <==> HasId(ds[..|ds| - 1], id) || ds[|ds| - 1].webhook.id == id
  {
    var init := ds[..|ds| - 1];
    if HasId(init, id) {
      var k :| 0 <= k < |init| && init[k].webhook.id == id;
      assert ds[k] == init[k];
    }
    if HasId(ds, id) && ds[|ds| - 1].webhook.id != id {
      var k :| 0 <= k < |ds| && ds[k].webhook.id == id;
      assert init[k] == ds[k];
    }
  }

  /**
   An AUTHORIZED payment ends by the first fresh capture or fail event that bears its reference,
   however many other events come before or after it; without one it stays AUTHORIZED.
   */
  lemma FirstDecisiveWins(opening: map<AccountId, BalanceRow>, db: Db, ds: seq<Delivery>, i: nat, r: string)
    requires Orderly(opening, db) && r != ""
    requires i < |db.payments| && db.payments[i].status == Authorized && db.payments[i].pspReference == Some(r)
    ensures var db' := Consume(Receive, db, ds);
            i < |db'.payments| && db'.payments[i].status == Verdict(db.events, ds, r)
  {
    var inv := x => Orderly(opening, x);
    forall x, d | Orderly(opening, x) ensures Orderly(opening, Receive(x, d)) {
      OrderlyStep(opening, x, d);
    }
    forall x, d: Delivery | Orderly(opening, x) && i < |x.payments| && x.payments[i].pspReference == Some(r)
      ensures Decides(x, Receive(x, d), d.webhook, i, r)
    {
      OrderlyStep(opening, x, d);
      EffectDecides(opening, x, Receive(x, d), d.webhook, i, r);
    }
    FirstDecisive(Receive, inv, db, ds, i, r);
  }
}

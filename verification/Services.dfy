/**
 The application services, working in place on a session.  Each method is proved to do what the
 function of the same name in `Rules` says; the endpoints add the commit or the rollback.
 */
module Services {
  import opened Wrappers
  import opened Domain
  import opened Ledger
  import opened Sessions
  import Rules
  import System
  import Effects
  import Expiry
  import Webhooks

  class PaymentSaga {
    const ledger: LedgerService

    constructor (ledger: LedgerService)
      ensures this.ledger == ledger
    {
      this.ledger := ledger;
    }

    /** Reserve the funds in suspense. */
    method Hold(s: Session, p: Payment, now: int) returns (r: Result<nat, Error>)
      modifies s
      ensures r.Ok? == Rules.Hold(old(s.View()), p, now).Ok?
      ensures r.Ok? ==> s.View() == Rules.Hold(old(s.View()), p, now).value && r.value == |old(s.payments)|
      ensures r.Err? ==> r.error == Rules.Hold(old(s.View()), p, now).error
      ensures r.Ok? ==> Effects.HoldDone(old(s.View()), s.View(), p, now)
    {
      Effects.HoldEffect(s.View(), p, now);
      var id := |s.payments|;
      var payment := p.(status := Processing);
      if payment.payer !in s.accounts || payment.payee !in s.accounts {
        return Err(UnknownAccount);
      }
      s.payments := s.payments + [payment];
      var posted := ledger.Post(s, PaymentTxn, PaymentRef(id), Transfer(payment.payer, PSP_SUSPENSE, payment.amount));
      if posted.Err? {
        return Err(posted.error);
      }
      s.outbox := s.outbox +
        [OutboxRow(PaymentRef(id), PaymentProcessing(p.merchant, p.amount, p.currency), now, false)];
      return Ok(id);
    }

    /** Pay the held funds out to the payee; the status is overwritten, not checked. */
    method Settle(s: Session, id: nat, pspReference: string, now: int) returns (r: Result<Payment, Error>)
      modifies s
      ensures r.Ok? == Rules.Settle(old(s.View()), id, pspReference, now).Ok?
      ensures r.Ok? ==> s.View() == Rules.Settle(old(s.View()), id, pspReference, now).value
      ensures r.Ok? ==> id < |s.payments| && r.value == s.payments[id]
      ensures r.Err? ==> r.error == Rules.Settle(old(s.View()), id, pspReference, now).error
      ensures r.Ok? ==> Effects.SettleDone(old(s.View()), s.View(), id, pspReference, now)
    {
      Effects.SettleEffect(s.View(), id, pspReference, now);
      if id >= |s.payments| {
        return Err(PaymentNotFound(id));
      }
      var p := s.payments[id];
      p := p.(status := Succeeded);
      p := p.(pspReference := Some(pspReference));
      p := p.(version := p.version + 1);
      s.payments := s.payments[id := p];
      var posted := ledger.Post(s, PaymentTxn, PaymentRef(id), Transfer(PSP_SUSPENSE, p.payee, p.amount));
      if posted.Err? {
        return Err(posted.error);
      }
      s.outbox := s.outbox +
        [OutboxRow(PaymentRef(id), PaymentSucceeded(p.merchant, p.amount, p.currency, p.pspReference), now, false)];
      return Ok(p);
    }

    /** Return the held funds to the payer; the status is overwritten, not checked. */
    method Reverse(s: Session, id: nat, now: int) returns (r: Result<Payment, Error>)
      modifies s
      ensures r.Ok? == Rules.Reverse(old(s.View()), id, now).Ok?
      ensures r.Ok? ==> s.View() == Rules.Reverse(old(s.View()), id, now).value
      ensures r.Ok? ==> id < |s.payments| && r.value == s.payments[id]
      ensures r.Err? ==> r.error == Rules.Reverse(old(s.View()), id, now).error
      ensures r.Ok? ==> Effects.ReverseDone(old(s.View()), s.View(), id, now)
    {
      Effects.ReverseEffect(s.View(), id, now);
      if id >= |s.payments| {
        return Err(PaymentNotFound(id));
      }
      var p := s.payments[id];
      p := p.(status := Failed);
      p := p.(version := p.version + 1);
      s.payments := s.payments[id := p];
      var posted := ledger.Post(s, ReversalTxn, PaymentRef(id), Transfer(PSP_SUSPENSE, p.payer, p.amount));
      if posted.Err? {
        return Err(posted.error);
      }
      s.outbox := s.outbox + [OutboxRow(PaymentRef(id), PaymentFailed(p.merchant, p.amount), now, false)];
      return Ok(p);
    }
  }

  /** `None` lets the caller go on with a fresh claim; a pair is the stored answer. */
  type Replay = Option<(int, Response)>

  class IdempotencyService {
    constructor () {}

    method ClaimOrReplay(s: Session, key: Key, request: Request) returns (r: Result<Replay, Error>)
      modifies s`claims
      ensures match Rules.ClaimOrReplay(old(s.View()), key, request)
              case Claimed(db) => r == Ok(None) && s.View() == db
              case Replayed(code, body) => r == Ok(Some((code, body))) && s.View() == old(s.View())
              case Refused(e) => r == Err(e) && s.View() == old(s.View())
      ensures r == Ok(None) <==> key !in old(s.claims)
      ensures r == Ok(None) ==> s.claims == old(s.claims)[key := Claim(request, InProgress)]
      ensures r != Ok(None) ==> s.claims == old(s.claims)
      ensures r == Err(IdempotencyMismatch) <==> key in old(s.claims) && old(s.claims)[key].request != request
      ensures r == Err(IdempotencyConflict) <==>
                key in old(s.claims) && old(s.claims)[key] == Claim(request, InProgress)
      ensures r.Err? ==> r.error in {IdempotencyMismatch, IdempotencyConflict}
      ensures r.Ok? && r.value.Some? ==> Effects.Answers(old(s.claims), key, request, r.value.value.0, r.value.value.1)
    {
      if key !in s.claims {
        s.claims := s.claims[key := Claim(request, InProgress)];
        return Ok(None);
      }
      var record := s.claims[key];
      if record.request != request {
        return Err(IdempotencyMismatch);
      }
      match record.state {
        case InProgress => return Err(IdempotencyConflict);
        case Completed(_, code, body) => return Ok(Some((if code != 0 then code else 200, body)));
      }
    }

    method Complete(s: Session, key: Key, resource: Ref, code: int, body: Response)
      modifies s`claims
      ensures s.View() == Rules.Complete(old(s.View()), key, resource, code, body)
      ensures s.claims.Keys == old(s.claims).Keys
      ensures forall k :: k in s.claims && k != key ==> s.claims[k] == old(s.claims)[k]
      ensures key in s.claims ==>
                s.claims[key] == Claim(old(s.claims)[key].request, Completed(resource, code, body))
    {
      if key in s.claims {
        s.claims := s.claims[key := s.claims[key].(state := Completed(resource, code, body))];
      }
    }
  }

  /** What transaction 1 of a create call leads to. */
  datatype FirstResult = Proceed(id: nat) | Answer(code: int, body: Response) | Raise(error: Error)

  class PaymentService {
    const saga: PaymentSaga
    const idempotency: IdempotencyService

    constructor (saga: PaymentSaga, idempotency: IdempotencyService)
      ensures this.saga == saga && this.idempotency == idempotency
    {
      this.saga, this.idempotency := saga, idempotency;
    }

    /** Transaction 1: claim the key and hold the funds, or roll back. */
    method CreateTx1(s: Session, key: string, request: Request, now: int) returns (r: FirstResult)
      requires request.CreateRequest?
      modifies s
      ensures match Rules.CreateTx1(old(s.View()), key, request, now)
              case Committed(db) => r == Proceed(|old(s.payments)|) && s.View() == db
              case Answered(code, body) => r == Answer(code, body) && s.View() == old(s.View())
              case Raised(e) => r == Raise(e) && s.View() == old(s.View())
      ensures var db, k := old(s.View()), Key(request.merchant, key);
              match r
              case Proceed(id) => id == |db.payments| && Effects.CreateDone(db, s.View(), k, request, now)
              case Answer(code, body) => Effects.Answers(db.claims, k, request, code, body) && s.View() == db
              case Raise(e) => Effects.CreateRefused(db, k, request, e) && s.View() == db
      ensures s.locks == []
    {
      Effects.CreateTx1Effect(s.View(), key, request, now);
      var saved := s.View();
      var claim := idempotency.ClaimOrReplay(s, Key(request.merchant, key), request);
      if claim.Err? {
        s.Restore(saved);
        return Raise(claim.error);
      }
      if claim.value.Some? {
        s.Commit();
        return Answer(claim.value.value.0, claim.value.value.1);
      }
      var held := saga.Hold(s, Rules.NewPayment(request, now), now);
      if held.Err? {
        s.Restore(saved);
        return Raise(held.error);
      }
      s.Commit();
      return Proceed(held.value);
    }

    /** Transaction 2: act on the provider's answer and complete the claim, or roll back. */
    method CreateTx2(s: Session, key: Key, id: nat, outcome: Rules.Outcome, now: int) returns (r: FirstResult)
      modifies s
      ensures match Rules.CreateTx2(old(s.View()), key, id, outcome, now)
              case Committed(db) =>
                && s.View() == db && id < |db.payments|
                && r == Answer(201, Rules.ToResponse(id, db.payments[id]))
              case Answered(code, body) => false
              case Raised(e) => r == Raise(e) && s.View() == old(s.View())
      ensures var db := old(s.View());
              match r
              case Proceed(_) => false
              case Answer(code, body) =>
                && Effects.FinishDone(db, s.View(), key, id, outcome, now)
                && code == 201 && body == Effects.FinishAnswer(db, id, outcome)
              case Raise(e) => Effects.FinishRefusal(db, id, outcome) == Some(e) && s.View() == db
      ensures s.locks == []
    {
      Effects.CreateTx2Effect(s.View(), key, id, outcome, now);
      var saved := s.View();
      var concluded: Result<Payment, Error>;
      match outcome {
        case Captured(reference) => concluded := saga.Settle(s, id, reference.GetOr(""), now);
        case Declined => concluded := saga.Reverse(s, id, now);
        case Pending(reference) =>
          if id >= |s.payments| {
            concluded := Err(PaymentNotFound(id));
          } else {
            var p := s.payments[id].(status := Authorized, pspReference := reference);
            s.payments := s.payments[id := p];
            concluded := Ok(p);
          }
      }
      if concluded.Err? {
        s.Restore(saved);
        return Raise(concluded.error);
      }
      var response := Rules.ToResponse(id, concluded.value);
      idempotency.Complete(s, key, PaymentRef(id), 201, response);
      s.Commit();
      return Answer(201, response);
    }
  }

  class WebhookService {
    const saga: PaymentSaga

    constructor (saga: PaymentSaga)
      ensures this.saga == saga
    {
      this.saga := saga;
    }

    /** Deduplicate, record, and close the payment if it waits. */
    method Handle(s: Session, w: Rules.Webhook, now: int) returns (r: Result<(), Error>)
      modifies s
      ensures r.Ok? == Rules.Handle(old(s.View()), w, now).Ok?
      ensures r.Ok? ==> s.View() == Rules.Handle(old(s.View()), w, now).value
      ensures r.Err? ==> r.error == Rules.Handle(old(s.View()), w, now).error
      ensures r.Ok? ==> Webhooks.HandleDone(old(s.View()), s.View(), w, now)
    {
      Webhooks.HandleEffect(s.View(), w, now);
      if w.id in s.events {
        return Ok(());
      }
      s.events := s.events + {w.id};
      if w.pspReference != "" {
        var found := Rules.WithReference(s.payments, w.pspReference);
        if |found| > 1 {
          return Err(MultipleResults);
        }
        if |found| == 1 && found[0] < |s.payments| && s.payments[found[0]].status == Authorized {
          if Rules.IsCapture(w.kind) {
            var settled := saga.Settle(s, found[0], w.pspReference, now);
            if settled.Err? {
              return Err(settled.error);
            }
          } else if Rules.IsFailure(w.kind) {
            var reversed := saga.Reverse(s, found[0], now);
            if reversed.Err? {
              return Err(reversed.error);
            }
          }
        }
      }
      return Ok(());
    }
  }

  class RefundService {
    const ledger: LedgerService
    const idempotency: IdempotencyService

    constructor (ledger: LedgerService, idempotency: IdempotencyService)
      ensures this.ledger == ledger && this.idempotency == idempotency
    {
      this.ledger, this.idempotency := ledger, idempotency;
    }

    /** The guards of a refund, first failure first. */
    method Check(s: Session, id: nat, amount: int) returns (r: Result<Payment, Error>)
      ensures r.Ok? <==>
                id < |s.payments| && s.payments[id].status in {Succeeded, RefundPending}
                && amount <= s.payments[id].amount - s.payments[id].refunded
      ensures r.Ok? ==> r.value == s.payments[id]
      ensures r.Err? ==> r.error == if id >= |s.payments| then PaymentNotFound(id) else RefundNotAllowed
    {
      if id >= |s.payments| {
        return Err(PaymentNotFound(id));
      }
      var p := s.payments[id];
      if p.status != Succeeded && p.status != RefundPending {
        return Err(RefundNotAllowed);
      }
      if p.refunded + amount > p.amount {
        return Err(RefundNotAllowed);
      }
      return Ok(p);
    }

    /** A refund that passed its guards: rows, ledger, event. */
    method Record(s: Session, id: nat, p: Payment, amount: int, now: int) returns (r: Result<nat, Error>)
      requires id < |s.payments| && p == s.payments[id] && p.status in {Succeeded, RefundPending}
      requires amount <= p.amount - p.refunded
      modifies s
      ensures r.Ok? == Rules.RefundMove(old(s.View()), id, amount, now).Ok?
      ensures r.Ok? ==>
                s.View() == Rules.RefundMove(old(s.View()), id, amount, now).value && r.value == |old(s.refunds)|
      ensures r.Err? ==> r.error == Rules.RefundMove(old(s.View()), id, amount, now).error
    {
      var rid := |s.refunds|;
      s.refunds := s.refunds + [Domain.Refund.Refund(id, amount, now)];
      var total := p.refunded + amount;
      var q := p.(refunded := total, version := p.version + 1, status := if total == p.amount then Refunded
        else p.status);
      s.payments := s.payments[id := q];
      ghost var mid := s.View();
      RefundPosts(old(s.View()), mid, id, amount, now);
      var posted := ledger.Post(s, RefundTxn, RefundRef(rid), Transfer(p.payee, p.payer, amount));
      if posted.Err? {
        return Err(posted.error);
      }
      s.outbox := s.outbox + [OutboxRow(RefundRef(rid), RefundCompleted(id, amount), now, false)];
      return Ok(rid);
    }

    /** The refund after its key was claimed. */
    method Move(s: Session, id: nat, amount: int, now: int) returns (r: Result<nat, Error>)
      modifies s
      ensures r.Ok? == Rules.RefundMove(old(s.View()), id, amount, now).Ok?
      ensures r.Ok? ==>
                s.View() == Rules.RefundMove(old(s.View()), id, amount, now).value && r.value == |old(s.refunds)|
      ensures r.Err? ==> r.error == Rules.RefundMove(old(s.View()), id, amount, now).error
      ensures r.Ok? ==> Effects.RefundDone(old(s.View()), s.View(), id, amount, now)
    {
      Effects.RefundEffect(s.View(), id, amount, now);
      var checked := Check(s, id, amount);
      if checked.Err? {
        return Err(checked.error);
      }
      r := Record(s, id, checked.value, amount, now);
    }

    method Refund(s: Session, key: string, id: nat, amount: int, now: int) returns (r: Result<(int, Response), Error>)
      modifies s
      ensures match Rules.RefundTx(old(s.View()), key, id, amount, now)
              case Committed(db) => s.View() == db && r == Ok((201, RefundBody(|old(s.refunds)|, id, amount, now)))
              case Answered(code, body) => s.View() == old(s.View()) && r == Ok((code, body))
              case Raised(e) => r == Err(e)
      ensures var db, k := old(s.View()), Key("merchant_refund", key);
              match r
              case Ok((code, body)) =>
                if k in db.claims then
                  Effects.Answers(db.claims, k, RefundRequest(id, amount), code, body) && s.View() == db
                else
                  Effects.RefundTxDone(db, s.View(), k, id, amount, now)
                  && code == 201 && body == RefundBody(|db.refunds|, id, amount, now)
              case Err(e) => Effects.RefundRefused(db, k, id, amount, e)
    {
      Effects.RefundTxEffect(s.View(), key, id, amount, now);
      var k := Key(Rules.REFUND_MERCHANT, key);
      var claim := idempotency.ClaimOrReplay(s, k, RefundRequest(id, amount));
      if claim.Err? {
        return Err(claim.error);
      }
      if claim.value.Some? {
        return Ok(claim.value.value);
      }
      var moved := Move(s, id, amount, now);
      if moved.Err? {
        return Err(moved.error);
      }
      var response := RefundBody(moved.value, id, amount, now);
      idempotency.Complete(s, k, RefundRef(moved.value), 201, response);
      return Ok((201, response));
    }
  }

  /** Past its guards, a refund fails or succeeds with its posting. */
  lemma RefundPosts(db: Db, mid: Db, id: nat, amount: int, now: int)
    requires id < |db.payments| && db.payments[id].status in {Succeeded, RefundPending}
    requires amount <= db.payments[id].amount - db.payments[id].refunded
    requires var p := db.payments[id];
             var q := p.(refunded := p.refunded + amount, version := p.version + 1,
                         status := if p.refunded + amount == p.amount then Refunded else p.status);
             mid == db.(refunds := db.refunds + [Domain.Refund.Refund(id, amount, now)],
               payments := db.payments[id := q])
    ensures var p, ref := db.payments[id], RefundRef(|db.refunds|);
            Rules.RefundMove(db, id, amount, now) ==
            match Rules.PostInto(mid, RefundTxn, ref, Transfer(p.payee, p.payer, amount))
            case Ok(posted) => Ok(Rules.Emit(posted, ref, RefundCompleted(id, amount), now))
            case Err(e) => Err(e)
  {
  }

  class ReconciliationService {
    const saga: PaymentSaga

    constructor (saga: PaymentSaga)
      ensures this.saga == saga
    {
      this.saga := saga;
    }

    /** Reverse every stale hold, one after the other, and count them. */
    method ExpireStaleHolds(s: Session, cutoff: int, now: int) returns (r: Result<nat, Error>)
      modifies s
      ensures r.Ok? == Rules.Expire(old(s.View()), cutoff, now).Ok?
      ensures r.Ok? ==> s.View() == Rules.Expire(old(s.View()), cutoff, now).value
      ensures r.Ok? ==> r.value == |Rules.StaleIds(old(s.payments), cutoff)|
      ensures r.Err? ==> r.error == Rules.Expire(old(s.View()), cutoff, now).error
      ensures var ps := old(s.payments);
              r.Ok? ==>
                && r.value == |set i | 0 <= i < |ps| && ps[i].status == Authorized && ps[i].createdAt < cutoff|
                && Expiry.HoldsExpired(ps, s.payments, cutoff)
    {
      ghost var db := s.View();
      var stale := Rules.StaleIds(s.payments, cutoff);
      var count := 0;
      while count < |stale|
        invariant count <= |stale|
        invariant Rules.ReverseAll(db, stale[..count], now) == Ok(s.View())
      {
        OneMoreReversal(db, stale, count, now);
        var reversed := saga.Reverse(s, stale[count], now);
        if reversed.Err? {
          ErrorStops(db, stale, count + 1, now);
          return Err(reversed.error);
        }
        count := count + 1;
      }
      assert stale[..|stale|] == stale;
      Expiry.SweepRows(db, cutoff, now);
      return Ok(count);
    }
  }

  /** The fold of the loop, one iteration further. */
  lemma OneMoreReversal(db: Db, ids: seq<nat>, k: nat, now: int)
    requires k < |ids| && Rules.ReverseAll(db, ids[..k], now).Ok?
    ensures Rules.ReverseAll(db, ids[..k + 1], now) ==
              Rules.Reverse(Rules.ReverseAll(db, ids[..k], now).value, ids[k], now)
  {
    assert ids[..k + 1][..k] == ids[..k];
  }

  /** A failing iteration of the expiry loop makes the whole sweep fail, with the same error. */
  lemma {:induction false} ErrorStops(db: Db, ids: seq<nat>, k: nat, now: int)
    requires k <= |ids| && Rules.ReverseAll(db, ids[..k], now).Err?
    ensures Rules.ReverseAll(db, ids, now) == Rules.ReverseAll(db, ids[..k], now)
    decreases |ids|
  {
    if k == |ids| {
      assert ids[..k] == ids;
    } else {
      assert ids[..|ids| - 1][..k] == ids[..k];
      ErrorStops(db, ids[..|ids| - 1], k, now);
    }
  }

  /** Each endpoint runs one service call in one transaction: commit, or roll back when it raises. */
  class Endpoints {
    const webhooks: WebhookService
    const refunds: RefundService

    constructor (webhooks: WebhookService, refunds: RefundService)
      ensures this.webhooks == webhooks && this.refunds == refunds
    {
      this.webhooks, this.refunds := webhooks, refunds;
    }

    method PostWebhook(s: Session, w: Rules.Webhook, now: int)
      modifies s
      ensures s.View() == System.OrElse(Rules.Handle(old(s.View()), w, now), old(s.View())) && s.locks == []
    {
      var saved := s.View();
      var r := webhooks.Handle(s, w, now);
      if r.Err? {
        s.Restore(saved);
      } else {
        s.Commit();
      }
    }

    method PostRefund(s: Session, key: string, id: nat, amount: int, now: int)
      returns (r: Result<(int, Response), Error>)
      modifies s
      ensures match Rules.RefundTx(old(s.View()), key, id, amount, now)
              case Committed(db) => s.View() == db && r == Ok((201, RefundBody(|old(s.refunds)|, id, amount, now)))
              case Answered(code, body) => s.View() == old(s.View()) && r == Ok((code, body))
              case Raised(e) => s.View() == old(s.View()) && r == Err(e)
      ensures var db, k := old(s.View()), Key("merchant_refund", key);
              match r
              case Ok((code, body)) =>
                if k in db.claims then
                  Effects.Answers(db.claims, k, RefundRequest(id, amount), code, body) && s.View() == db
                else
                  Effects.RefundTxDone(db, s.View(), k, id, amount, now)
                  && code == 201 && body == RefundBody(|db.refunds|, id, amount, now)
              case Err(e) => Effects.RefundRefused(db, k, id, amount, e) && s.View() == db
      ensures s.locks == []
    {
      var saved := s.View();
      r := refunds.Refund(s, key, id, amount, now);
      if r.Err? {
        s.Restore(saved);
      } else {
        s.Commit();
      }
    }
  }

  /** A sweep in a transaction of its own; the source defines the sweep and leaves its scheduling open. */
  method RunExpiry(reconciliation: ReconciliationService, s: Session, cutoff: int, now: int)
    modifies s
    ensures s.View() == System.OrElse(Rules.Expire(old(s.View()), cutoff, now), old(s.View())) && s.locks == []
  {
    var saved := s.View();
    var r := reconciliation.ExpireStaleHolds(s, cutoff, now);
    if r.Err? {
      s.Restore(saved);
    } else {
      s.Commit();
    }
  }
}

/** The repository of Toss repair-payment orders and the service that confirms and reconciles them
    with the provider, each proved to be the matching step of the machine. */
module OrderRepository {
  import opened Options
  import opened Types
  import opened Workflow
  import opened Payments
  import opened Platform
  import E = OrderEffects
  import opened Database

  datatype ClaimOutcome = ClaimedNow | AlreadyClaimed | ClaimThrown

  class Repository {
    const db: Store

    constructor (db: Store)
      ensures this.db == db
    {
      this.db := db;
    }

    /** lockPaymentAuthority: the actor is the payer of an existing request. */
    method HasAuthority(i: nat, party: Party, user: nat) returns (ok: bool)
      ensures ok == Pays(db.View(), i, party, user)
    {
      ok := i < |db.repairs| && db.repairs[i].request.Some? && db.repairs[i].request.value.payer == party;
      if ok {
        ok := user == (if party == Manager then db.repairs[i].manager else db.repairs[i].tenant);
      }
    }

    method CreateOrder(i: nat, party: Party, user: nat, creation: CreationPayload) returns (ok: bool)
      modifies db
      ensures ok <==> Platform.CreateOrder(old(db.View()), i, party, user, creation).Some?
      ensures ok ==> Platform.CreateOrder(old(db.View()), i, party, user, creation) == Some(db.View())
      ensures !ok ==> db.View() == old(db.View())
    {
      hide SameCreation;
      ok := HasAuthority(i, party, user);
      if ok {
        var q := db.repairs[i].request.value;
        ok := CanPrepareToss(q);
        if ok {
          if creation.key in db.creations {
            ok := SameCreation(db.View(), db.creations[creation.key], i, q.amount, creation, None);
          } else {
            ok := InsertOrder(i, creation, None);
          }
        }
      }
    }

    /** INSERT of a READY order holding the open key, unless the key is held. */
    method InsertOrder(i: nat, creation: CreationPayload, retryOf: Option<nat>) returns (ok: bool)
      requires HasRequest(db.View(), i) && creation.key !in db.creations
      modifies db
      ensures var q := old(db.repairs)[i].request.value;
              && (ok <==> !OpenKeyHeld(q, i))
              && db.View() == if ok then Created(old(db.View()), i, q.(orders := q.orders + [NewOrder(q, i, creation, retryOf)]), creation)
                              else old(db.View())
    {
      var q := db.repairs[i].request.value;
      ok := !OpenKeyHeld(q, i);
      if ok {
        db.UpdateRequest(i, q.(orders := q.orders + [NewOrder(q, i, creation, retryOf)]));
        db.creations := db.creations[creation.key := OrderRef(i, |q.orders|)];
      }
    }

    /** UPDATE of an order row. */
    method UpdateOrder(ref: OrderRef, order: Order)
      requires HasOrder(db.View(), ref)
      modifies db
      ensures db.View() == WithRequest(old(db.View()), ref.request, WithOrder(old(db.repairs)[ref.request].request.value, ref.order, order))
    {
      var q := db.repairs[ref.request].request.value;
      db.UpdateRequest(ref.request, q.(orders := q.orders[ref.order := order]));
    }

    method RetryOrder(ref: OrderRef, party: Party, user: nat, creation: CreationPayload) returns (ok: bool)
      modifies db
      ensures ok <==> Platform.RetryOrder(old(db.View()), ref, party, user, creation).Some?
      ensures ok ==> Platform.RetryOrder(old(db.View()), ref, party, user, creation) == Some(db.View())
      ensures !ok ==> db.View() == old(db.View())
    {
      hide SameCreation, OpenKeyHeld;
      var s := db.View();
      ok := HasAuthority(ref.request, party, user);
      if ok {
        var q := db.repairs[ref.request].request.value;
        ok := ref.order < |q.orders|;
        if ok {
          if creation.key in db.creations {
            ok := SameCreation(s, db.creations[creation.key], ref.request, q.orders[ref.order].amount, creation, Some(ref.order));
          } else {
            ok := CanPrepareToss(q) && (q.orders[ref.order].status == Ready || q.orders[ref.order].status == Failed);
            if ok {
              ok := ReplaceOrder(ref, creation);
            }
          }
        }
      }
      if !ok {
        db.Rollback(s);
      }
    }

    /** Cancels a READY order, then inserts its successor. */
    method ReplaceOrder(ref: OrderRef, creation: CreationPayload) returns (ok: bool)
      requires HasOrder(db.View(), ref) && creation.key !in db.creations
      requires var q := db.repairs[ref.request].request.value; CanPrepareToss(q) && (q.orders[ref.order].status == Ready || q.orders[ref.order].status == Failed)
      modifies db
      ensures var next := OrderRetried(old(db.repairs)[ref.request].request.value, ref.request, ref.order, creation);
              && (ok <==> next.Some?)
              && (ok ==> db.View() == Created(old(db.View()), ref.request, next.value, creation))
    {
      hide OpenKeyHeld;
      var s := db.View();
      var q := db.repairs[ref.request].request.value;
      if q.orders[ref.order].status == Ready {
        UpdateOrder(ref, q.orders[ref.order].(status := OrderCancelled, openOrderKey := None));
      }
      ghost var cleared := db.repairs[ref.request].request.value;
      ok := InsertOrder(ref.request, creation, Some(ref.order));
      if ok {
        WithRequestTwice(s, ref.request, cleared, cleared.(orders := cleared.orders + [NewOrder(cleared, ref.request, creation, Some(ref.order))]));
      }
    }

    method CancelOrder(ref: OrderRef, party: Party, user: nat) returns (ok: bool)
      modifies db
      ensures ok <==> Platform.CancelOrder(old(db.View()), ref, party, user).Some?
      ensures ok ==> Platform.CancelOrder(old(db.View()), ref, party, user) == Some(db.View())
      ensures !ok ==> db.View() == old(db.View())
    {
      ok := HasAuthority(ref.request, party, user);
      if ok {
        var q := db.repairs[ref.request].request.value;
        ok := ref.order < |q.orders| && (q.orders[ref.order].status == Ready || q.orders[ref.order].status == Failed);
        if ok {
          UpdateOrder(ref, q.orders[ref.order].(status := OrderCancelled, openOrderKey := None));
        }
      }
    }

    /** The atomic step that makes one caller responsible for the charge. */
    method Claim(ref: OrderRef, party: Party, user: nat, paymentKey: string, amount: int) returns (outcome: ClaimOutcome)
      modifies db
      ensures var s := old(db.View());
              var known := HasOrder(s, ref) && Pays(s, ref.request, party, user);
              && (!known ==> outcome == ClaimThrown)
              && (known ==>
                    var taken := paymentKey in s.keys.payments && s.keys.payments[paymentKey] != ref;
                    match ClaimConfirmation(s.repairs[ref.request].request.value, ref.request, ref.order, paymentKey, amount, taken)
                    case ClaimRefused => outcome == ClaimThrown
                    case Replayed => outcome == AlreadyClaimed
                    case Claimed(q) =>
                      && outcome == ClaimedNow
                      && db.View() == WithRequest(s, ref.request, q).(keys := s.keys.(payments := s.keys.payments[paymentKey := ref])))
              && (outcome != ClaimedNow ==> db.View() == s)
    {
      outcome := ClaimThrown;
      var known := HasAuthority(ref.request, party, user);
      if known && ref.order < |db.repairs[ref.request].request.value.orders| {
        var q := db.repairs[ref.request].request.value;
        var order := q.orders[ref.order];
        if order.amount == amount && q.amount == amount {
          if order.status == OrderApproved || InFlight(order.status) {
            if order.paymentKey == Some(paymentKey) {
              outcome := AlreadyClaimed;
            }
          } else if order.status == Ready && CanPrepareToss(q) && !(paymentKey in db.payments && db.payments[paymentKey] != ref) {
            UpdateOrder(ref, order.(status := Confirming, paymentKey := Some(paymentKey), openOrderKey := Some(ref.request)));
            db.payments := db.payments[paymentKey := ref];
            outcome := ClaimedNow;
          }
        }
      }
    }

    method MarkRejected(ref: OrderRef) returns (ok: bool)
      requires HasOrder(db.View(), ref)
      modifies db
      ensures var next := OrderRejected(old(db.repairs)[ref.request].request.value, ref.order);
              ok == next.Some? && db.View() == Rewritten(old(db.View()), ref.request, next)
    {
      var order := db.repairs[ref.request].request.value.orders[ref.order];
      ok := InFlight(order.status);
      if ok {
        UpdateOrder(ref, order.(status := Failed, openOrderKey := None));
      }
    }

    method MarkUncertain(ref: OrderRef) returns (ok: bool)
      requires HasOrder(db.View(), ref)
      modifies db
      ensures var next := OrderUncertain(old(db.repairs)[ref.request].request.value, ref.request, ref.order);
              ok == next.Some? && db.View() == Rewritten(old(db.View()), ref.request, next)
    {
      var order := db.repairs[ref.request].request.value.orders[ref.order];
      ok := InFlight(order.status);
      if ok {
        UpdateOrder(ref, order.(status := ReconciliationRequired, openOrderKey := Some(ref.request)));
      }
    }

    /** Books a payment that the provider reports as done. */
    method FinalizeOrder(ref: OrderRef, payment: Snapshot) returns (ok: bool)
      requires HasOrder(db.View(), ref)
      modifies db
      ensures var next := OrderFinalized(old(db.repairs)[ref.request].request.value, ref.request, ref.order, payment);
              ok == next.Some? && db.View() == Rewritten(old(db.View()), ref.request, next)
    {
      var i, k := ref.request, ref.order;
      var q := db.repairs[i].request.value;
      var order := q.orders[k];
      ok := payment.status == Done && payment.means.Some? && payment.approvedAt.Some?
            && (payment.repair, payment.order) == (i, k) && order.paymentKey == Some(payment.paymentKey) && payment.amount == order.amount;
      if ok {
        var approval := Approval(payment.means.value, payment.approvedAt.value);
        if order.status == OrderApproved {
          ok := order.approval == Some(approval);
          if ok {
            SameRequest(db.View(), i);
          }
        } else {
          ok := InFlight(order.status) && CanPrepareToss(q)
                && q.amount == order.amount && q.cost.None? && q.debit.None? && OfStatus(TossPaid) !in q.audits;
          if ok {
            ApproveRows(ref, approval);
          }
        }
      }
    }

    static lemma SameRequest(s: State, i: nat)
      requires HasRequest(s, i)
      ensures WithRequest(s, i, s.repairs[i].request.value) == s
    {
      assert s.repairs[i := s.repairs[i]] == s.repairs;
    }

    /** The cost, request, order and audit rows of a finalization. */
    method ApproveRows(ref: OrderRef, approval: Approval)
      requires HasOrder(db.View(), ref)
      modifies db
      ensures var q := old(db.repairs)[ref.request].request.value;
              var row := q.orders[ref.order].(status := OrderApproved, approval := Some(approval), openOrderKey := None);
              db.View() == WithRequest(old(db.View()), ref.request,
                Announce(WithOrder(q, ref.order, row).(
                  status := TossPaid,
                  cost := if q.payer == Manager then Some(Cost(Confirmed, q.amount, ByOrder(ref.request, ref.order))) else None,
                  debit := None, lastMode := Some(Toss)),
                OfStatus(TossPaid)))
    {
      hide Announce;
      var i := ref.request;
      ghost var s := db.View();
      var q := db.repairs[i].request.value;
      var cost := if q.payer == Manager then Some(Cost(Confirmed, q.amount, ByOrder(i, ref.order))) else None;
      var row := q.orders[ref.order].(status := OrderApproved, approval := Some(approval), openOrderKey := None);
      db.UpdateRequest(i, q.(status := TossPaid, cost := cost, debit := None, lastMode := Some(Toss)));
      UpdateOrder(ref, row);
      ghost var paid := db.repairs[i].request.value;
      WithRequestTwice(s, i, q.(status := TossPaid, cost := cost, debit := None, lastMode := Some(Toss)), paid);
      var appended := db.AppendPaymentState(i, OfStatus(TossPaid));
      WithRequestTwice(s, i, paid, Announce(paid, OfStatus(TossPaid)));
    }
  }

  /** confirmOrder and reconcileOrder around the provider. Between asking and concluding anything
      else may happen. */
  class Service {
    const db: Store
    const orders: Repository

    constructor (db: Store)
      ensures this.db == db && orders.db == db
    {
      this.db := db;
      orders := new Repository(db);
    }

    /** Claims the order and, if this caller got it, sends the confirmation. */
    method AskToConfirm(ref: OrderRef, party: Party, user: nat, paymentKey: string, amount: int) returns (outcome: ClaimOutcome)
      requires orders.db == db
      modifies db
      ensures outcome == ClaimThrown <==> BeginConfirm(old(db.View()), ref, party, user, paymentKey, amount).None?
      ensures outcome != ClaimThrown ==> BeginConfirm(old(db.View()), ref, party, user, paymentKey, amount) == Some(db.View())
      ensures outcome == ClaimThrown ==> db.View() == old(db.View())
    {
      hide ClaimConfirmation;
      outcome := orders.Claim(ref, party, user, paymentKey, amount);
      if outcome == ClaimedNow {
        db.charges := db.charges[ref := Authorized];
        db.calls := db.calls + [Call(ref, ConfirmCall, Some(paymentKey), amount, Asking)];
      }
    }

    /** Looks an order in flight up at the provider. */
    method AskToReconcile(ref: OrderRef, party: Party, user: nat) returns (ok: bool)
      requires orders.db == db
      modifies db
      ensures ok <==> BeginReconcile(old(db.View()), ref, party, user).Some?
      ensures ok ==> BeginReconcile(old(db.View()), ref, party, user) == Some(db.View())
      ensures !ok ==> db.View() == old(db.View())
    {
      ok := orders.HasAuthority(ref.request, party, user);
      if ok {
        ok := ref.order < |db.repairs[ref.request].request.value.orders|;
        if ok {
          var order := db.repairs[ref.request].request.value.orders[ref.order];
          if InFlight(order.status) {
            db.calls := db.calls + [Call(ref, LookupCall, order.paymentKey, order.amount, Asking)];
          }
        }
      }
    }

    /** Acts on the provider's answer; a finalization that throws is followed by a second
        transaction that marks the order uncertain. */
    method Conclude(c: nat, answer: Answer)
      requires orders.db == db && c < |db.calls| && HasOrder(db.View(), db.calls[c].ref) && db.calls[c].phase == Answered(answer)
      modifies db
      ensures db.View() == E.Concluded(old(db.View()), c)
    {
      hide OrderRejected, OrderUncertain, OrderFinalized, Judge;
      var call := db.calls[c];
      match Judge(call, answer)
      case MarkRejected =>
        db.calls := db.calls[c := call.(phase := Over)];
        var ok := orders.MarkRejected(call.ref);
      case MarkUncertain =>
        db.calls := db.calls[c := call.(phase := Over)];
        var ok := orders.MarkUncertain(call.ref);
      case Finalize(payment) =>
        FinalizeOrUncertain(c, payment);
    }

    method FinalizeOrUncertain(c: nat, payment: Snapshot)
      requires orders.db == db && c < |db.calls| && HasOrder(db.View(), db.calls[c].ref) && db.calls[c].phase.Answered?
      requires Judge(db.calls[c], db.calls[c].phase.answer) == Finalize(payment)
      modifies db
      ensures db.View() == E.Concluded(old(db.View()), c)
    {
      hide OrderUncertain, OrderFinalized, Judge;
      var call := db.calls[c];
      var ok := orders.FinalizeOrder(call.ref, payment);
      db.calls := db.calls[c := call.(phase := Over)];
      if !ok {
        ok := orders.MarkUncertain(call.ref);
      }
    }
  }
}

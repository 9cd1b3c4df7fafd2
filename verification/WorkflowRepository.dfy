/** The vendor workflow repository: each method locks one repair, changes its rows one after the
    other, and is proved to be the matching transaction of the machine. */
module WorkflowRepository {
  import opened Options
  import opened Types
  import opened Drafts
  import opened Workflow
  import opened Payments
  import opened Platform
  import opened Database
  import Outbox

  class Repository {
    const db: Store

    constructor (db: Store)
      ensures this.db == db
    {
      this.db := db;
    }

    /** Writes the locked rows of a repair back. */
    method Commit(i: nat, r: Repair)
      requires i < |db.repairs|
      modifies db
      ensures db.View() == WithRepair(old(db.View()), i, r)
    {
      db.repairs := db.repairs[i := r];
    }

    static lemma Unchanged(s: State, i: nat)
      requires i < |s.repairs|
      ensures WithRepair(s, i, s.repairs[i]) == s
    {
      assert s.repairs[i := s.repairs[i]] == s.repairs;
    }

    // ---- assigning a vendor

    method AssignVendor(manager: nat, ticket: nat, vendor: nat, eligible: bool, assignable: bool) returns (ok: bool)
      modifies db
      ensures ok <==> Platform.AssignVendor(old(db.View()), manager, ticket, vendor, eligible, assignable).Some?
      ensures ok ==> Platform.AssignVendor(old(db.View()), manager, ticket, vendor, eligible, assignable) == Some(db.View())
      ensures !ok ==> db.View() == old(db.View())
    {
      ok := ticket < |db.tickets| && db.tickets[ticket].manager == manager && eligible;
      if ok {
        var created := NewRepair(db.View(), ticket, vendor, false);
        var found := FindOpen(db.repairs, ticket);
        if found.None? {
          ok := assignable;
        } else if db.repairs[found.value].vendor != vendor {
          ok := db.repairs[found.value].status == Requested;
          if ok {
            db.repairs := db.repairs[found.value := db.repairs[found.value].(status := Cancelled)];
          }
        }
        if ok && (found.None? || db.repairs[found.value].vendor != vendor) {
          db.repairs := db.repairs + [created];
        }
      }
    }

    /** A tenant's own request for a vendor; its idempotency key names the repair it creates. */
    method RequestVendor(tenant: nat, ticket: nat, vendor: nat, key: Key, eligible: bool, requestable: bool) returns (ok: bool)
      modifies db
      ensures ok <==> Platform.RequestVendor(old(db.View()), tenant, ticket, vendor, key, eligible, requestable).Some?
      ensures ok ==> Platform.RequestVendor(old(db.View()), tenant, ticket, vendor, key, eligible, requestable) == Some(db.View())
      ensures !ok ==> db.View() == old(db.View())
    {
      ok := ticket < |db.tickets| && db.tickets[ticket].tenant == tenant && eligible;
      if ok {
        if key in db.connections {
          var i := db.connections[key];
          ok := i < |db.repairs| && db.repairs[i].ticket == ticket && db.repairs[i].vendor == vendor && db.repairs[i].tenantInitiated;
        } else {
          var found := FindOpen(db.repairs, ticket);
          ok := found.None? && requestable;
          if ok {
            var created := NewRepair(db.View(), ticket, vendor, true);
            db.connections := db.connections[key := |db.repairs|];
            db.repairs := db.repairs + [created];
          }
        }
      }
    }

    // ---- estimates

    /** Rewrites the open draft or adds the next version; None where that throws. */
    static method DraftRows(estimates: seq<Estimate>, estimate: Option<nat>, content: Content) returns (out: Option<seq<Estimate>>)
      ensures out == WithDraft(estimates, estimate, content)
    {
      hide Latest;
      if estimate.Some? {
        if estimate.value >= |estimates| || estimates[estimate.value].status != Draft {
          return None;
        }
        return Some(WriteDraft(estimates, estimate.value, content));
      }
      var latest := Latest(estimates);
      if latest.None? {
        return Some(estimates + [NewDraft(1, content)]);
      }
      var k := latest.value;
      var last := estimates[k];
      if last.status == Draft {
        return Some(WriteDraft(estimates, k, content));
      }
      if last.status == Submitted {
        return None;
      }
      var rows := estimates;
      if last.status == VisitScheduled || last.status == Rejected {
        rows := rows[k := last.(status := Superseded)];
      }
      return Some(rows + [NewDraft(last.version + 1, content)]);
    }

    method SaveEstimateDraft(i: nat, vendor: nat, estimate: Option<nat>, input: DraftInput) returns (ok: bool)
      modifies db
      ensures ok <==> Work(old(db.View()), i, TrySaveDraft(vendor, estimate, input)).Some?
      ensures ok ==> Work(old(db.View()), i, TrySaveDraft(vendor, estimate, input)) == Some(db.View())
      ensures !ok ==> db.View() == old(db.View())
    {
      hide Normalize, WithDraft;
      var draft := Normalize(input);
      ok := draft.Some? && i < |db.repairs|;
      if ok {
        var r := db.repairs[i];
        ok := vendor == r.vendor && !Closed(r.status) && r.request.None?;
        if ok {
          var rows := DraftRows(r.estimates, estimate, draft.value);
          ok := rows.Some?;
          if ok {
            Commit(i, r.(estimates := rows.value));
          }
        }
      }
    }

    method SubmitEstimate(i: nat, vendor: nat, e: nat) returns (ok: bool)
      modifies db
      ensures ok <==> Work(old(db.View()), i, TrySubmit(vendor, e)).Some?
      ensures ok ==> Work(old(db.View()), i, TrySubmit(vendor, e)) == Some(db.View())
      ensures !ok ==> db.View() == old(db.View())
    {
      ok := i < |db.repairs|;
      if ok {
        var r := db.repairs[i];
        Unchanged(db.View(), i);
        ok := vendor == r.vendor && !Closed(r.status) && e < |r.estimates|;
        if ok {
          var estimate := r.estimates[e];
          if estimate.status != Draft {
            ok := estimate.status != Withdrawn;
          } else {
            var declined := estimate.content.Decline?;
            ok := r.request.None? && !(declined && Preserved(r.status));
            if ok {
              r := r.(estimates := r.estimates[e := estimate.(status := if declined then VendorDeclined else Submitted)]);
              r := r.(estimates := SupersedeRevisions(r.estimates, estimate.version));
              if declined {
                r := r.(estimates := SupersedeApproved(r.estimates, |r.estimates|));
                r := r.(status := Cancelled, costBearer := None);
              } else if !Preserved(r.status) {
                r := r.(status := EstimateSubmitted);
              }
              Commit(i, r);
            }
          }
        }
      }
    }

    method WithdrawEstimate(i: nat, vendor: nat, e: nat) returns (ok: bool)
      modifies db
      ensures ok <==> Work(old(db.View()), i, TryWithdraw(vendor, e)).Some?
      ensures ok ==> Work(old(db.View()), i, TryWithdraw(vendor, e)) == Some(db.View())
      ensures !ok ==> db.View() == old(db.View())
    {
      ok := i < |db.repairs|;
      if ok {
        var r := db.repairs[i];
        Unchanged(db.View(), i);
        ok := vendor == r.vendor && e < |r.estimates|;
        if ok && r.estimates[e].status != Withdrawn {
          var estimate := r.estimates[e];
          ok := r.request.None? && (estimate.status == Draft || estimate.status == Submitted) && estimate.reviewedBy.None?;
          if ok {
            r := r.(estimates := r.estimates[e := estimate.(status := Withdrawn)]);
            if r.status == EstimateSubmitted {
              r := RestoreAfterExit(r, e);
            }
            Commit(i, r);
          }
        }
      }
    }

    method ReviewEstimate(i: nat, manager: nat, e: nat, review: Review, note: Option<string>) returns (ok: bool)
      modifies db
      ensures ok <==> Work(old(db.View()), i, TryReviewByManager(manager, e, review, note)).Some?
      ensures ok ==> Work(old(db.View()), i, TryReviewByManager(manager, e, review, note)) == Some(db.View())
      ensures !ok ==> db.View() == old(db.View())
    {
      hide SupersedeApproved;
      ok := i < |db.repairs|;
      if ok {
        var r := db.repairs[i];
        Unchanged(db.View(), i);
        ok := manager == r.manager && !TenantDriven(r) && !Closed(r.status) && e < |r.estimates|;
        if ok {
          var estimate := r.estimates[e];
          if estimate.status == Target(review) {
            ok := estimate.note == note && estimate.reviewedBy == Some(Manager) && (review.Approve? ==> r.costBearer == Some(review.bearer));
          } else {
            ok := estimate.status == Submitted && (review.Approve? || note.Some?) && (review.Approve? ==> estimate.content.Fixed?) && r.request.None?;
            if ok {
              if review.Approve? {
                r := r.(estimates := SupersedeApproved(r.estimates, e));
              }
              r := r.(estimates := r.estimates[e := r.estimates[e].(status := Target(review), reviewedBy := Some(Manager), note := note)]);
              if review.Approve? {
                r := r.(costBearer := Some(review.bearer), status := if Preserved(r.status) then r.status else EstimateApproved);
              } else if review.Reject? {
                r := RestoreAfterExit(r, e);
              }
              Commit(i, r);
            }
          }
        }
      }
    }

    method ReviewTenantEstimate(i: nat, tenant: nat, e: nat, approve: bool, note: Option<string>) returns (ok: bool)
      modifies db
      ensures ok <==> Work(old(db.View()), i, TryReviewByTenant(tenant, e, approve, note)).Some?
      ensures ok ==> Work(old(db.View()), i, TryReviewByTenant(tenant, e, approve, note)) == Some(db.View())
      ensures !ok ==> db.View() == old(db.View())
    {
      hide SupersedeApproved;
      ok := i < |db.repairs| && (approve || note.Some?);
      if ok {
        var r := db.repairs[i];
        Unchanged(db.View(), i);
        ok := TenantMayAct(r, tenant) && !Closed(r.status) && e < |r.estimates|;
        if ok {
          var estimate := r.estimates[e];
          var target := if approve then Approved else RevisionRequested;
          if estimate.status == target {
            ok := estimate.reviewedBy == Some(Tenant) && estimate.note == note;
          } else {
            ok := estimate.status == Submitted && (approve ==> estimate.content.Fixed?) && r.request.None?;
            if ok {
              if approve {
                r := r.(estimates := SupersedeApproved(r.estimates, e));
              }
              r := r.(estimates := r.estimates[e := r.estimates[e].(status := target, reviewedBy := Some(Tenant), note := note)]);
              if approve {
                r := r.(status := EstimateApproved, costBearer := Some(TenantPays));
              }
              Commit(i, r);
            }
          }
        }
      }
    }

    method ConfirmEstimateVisit(i: nat, party: Party, actor: nat, e: nat, at: int) returns (ok: bool)
      modifies db
      ensures ok <==> Work(old(db.View()), i, TryVisitConfirmed(party, actor, e, at)).Some?
      ensures ok ==> Work(old(db.View()), i, TryVisitConfirmed(party, actor, e, at)) == Some(db.View())
      ensures !ok ==> db.View() == old(db.View())
    {
      hide Latest;
      ok := i < |db.repairs|;
      if ok {
        var r := db.repairs[i];
        Unchanged(db.View(), i);
        ok := (if party == Manager then actor == r.manager && !TenantDriven(r) else TenantMayAct(r, actor))
              && Latest(r.estimates) == Some(e) && e < |r.estimates| && r.estimates[e].content == Visit(at);
        if ok {
          var estimate := r.estimates[e];
          if estimate.status == VisitScheduled {
            ok := r.scheduledAt == Some(at) && (party == Tenant ==> estimate.reviewedBy == Some(Tenant));
          } else {
            ok := estimate.status == Submitted;
            if ok {
              r := r.(estimates := r.estimates[e := estimate.(status := VisitScheduled, reviewedBy := Some(party))]);
              r := r.(status := Scheduled, scheduledAt := Some(at));
              Commit(i, r);
            }
          }
        }
      }
    }

    // ---- work

    method ScheduleApprovedJob(i: nat, vendor: nat, at: int) returns (ok: bool)
      modifies db
      ensures ok <==> Work(old(db.View()), i, TrySchedule(vendor, at)).Some?
      ensures ok ==> Work(old(db.View()), i, TrySchedule(vendor, at)) == Some(db.View())
      ensures !ok ==> db.View() == old(db.View())
    {
      ok := i < |db.repairs|;
      if ok {
        var r := db.repairs[i];
        Unchanged(db.View(), i);
        ok := vendor == r.vendor && BearerResolved(r);
        if ok {
          if r.status == Scheduled {
            ok := r.scheduledAt == Some(at);
          } else {
            var approved := FindApproved(r.estimates, None);
            var change := exists k :: 0 <= k < |r.estimates| && (r.estimates[k].status == Submitted || r.estimates[k].status == RevisionRequested);
            ok := r.status == EstimateApproved && approved.Some? && !change;
            if ok {
              Commit(i, r.(status := Scheduled, scheduledAt := Some(at)));
            }
          }
        }
      }
    }

    method StartJob(i: nat, vendor: nat, now: int) returns (ok: bool)
      modifies db
      ensures ok <==> Work(old(db.View()), i, TryStart(vendor, now)).Some?
      ensures ok ==> Work(old(db.View()), i, TryStart(vendor, now)) == Some(db.View())
      ensures !ok ==> db.View() == old(db.View())
    {
      hide HasPending;
      ok := i < |db.repairs|;
      if ok {
        var r := db.repairs[i];
        Unchanged(db.View(), i);
        ok := vendor == r.vendor && BearerResolved(r);
        if ok {
          var approved := FindApproved(r.estimates, None);
          ok := approved.Some? && !HasPending(r.estimates) && (r.status == InProgress || r.status == Scheduled);
          if ok && r.status == Scheduled {
            Commit(i, r.(status := InProgress, startedAt := Some(now)));
          } else if ok && r.startedAt.None? {
            Commit(i, r.(startedAt := Some(now)));
          }
        }
      }
    }

    // ---- completion

    method SubmitCompletion(i: nat, key: Key, payload: CompletionPayload, now: int) returns (ok: bool)
      modifies db
      ensures ok <==> ReportCompletion(old(db.View()), i, key, payload, now).Some?
      ensures ok ==> ReportCompletion(old(db.View()), i, key, payload, now) == Some(db.View())
      ensures !ok ==> db.View() == old(db.View())
    {
      hide HasPending, LastApproved, Workflow.SubmitCompletion, LinkRequest, BearerResolved;
      ok := i < |db.repairs| && payload.repair == i && payload.vendor == db.repairs[i].vendor && BearerResolved(db.repairs[i]);
      if ok {
        if key in db.submissions {
          ok := db.submissions[key] == payload;
        } else {
          var r := db.repairs[i];
          SubmitSteps(r, payload.vendor, payload.completedAt, now);
          ok := !(r.reports != [] && r.reports[|r.reports| - 1].decision.None?) && !LastApproved(r) && r.status == InProgress
                && r.startedAt.Some? && r.startedAt.value <= payload.completedAt <= now && !HasPending(r.estimates);
          if ok {
            var next := LinkRequest(r, |r.reports|);
            ok := next.Some?;
            if ok {
              r := r.(request := next.value);
              r := r.(reports := r.reports + [Report(payload.completedAt, None)]);
              r := r.(status := CompletionReported);
              Commit(i, r);
              db.submissions := db.submissions[key := payload];
            }
          }
        }
      }
    }

    /** A report goes through exactly when its checks pass and its payment request can be linked. */
    static lemma SubmitSteps(r: Repair, vendor: nat, completedAt: int, now: int)
      requires vendor == r.vendor && BearerResolved(r)
      ensures var checks := !(r.reports != [] && r.reports[|r.reports| - 1].decision.None?) && !LastApproved(r) && r.status == InProgress
                            && r.startedAt.Some? && r.startedAt.value <= completedAt <= now && !HasPending(r.estimates);
              var next := LinkRequest(r, |r.reports|);
              Workflow.SubmitCompletion(r, vendor, completedAt, now)
              == if checks && next.Some?
                 then Some(r.(request := next.value, reports := r.reports + [Report(completedAt, None)], status := CompletionReported)) else None
    {
      hide HasPending, FindApproved;
    }

    /** The payment request that a new report opens or is linked to; None where that throws. */
    static function LinkRequest(r: Repair, report: nat): Option<Option<Request>> {
      if r.costBearer == Some(LandlordPays) then
        match FindApproved(r.estimates, None)
        case None => None
        case Some(e) =>
          var amount := r.estimates[e].content.total;
          if amount <= 0 then None
          else if r.request.None? then Some(Some(NewRequest(Manager, amount, e, report, WaitingCompletion)))
          else
            var q := r.request.value;
            if q.status != WaitingCompletion || r.reports == [] || q.estimate != e || q.amount != amount then None
            else Some(Some(q.(report := report)))
      else if r.request.Some? then None
      else Some(None)
    }

    /** INSERT of the credit-evaluation delivery of an approval. */
    method EnqueueEvaluation(e: Evaluation, now: int)
      modifies db
      ensures db.View() == old(db.View()).(box := Outbox.Enqueued(old(db.View()).box, now), evaluations := old(db.evaluations) + [e])
    {
      db.deliveries := db.deliveries + [Outbox.Delivery(Outbox.Pending, now, 0, None, None)];
      db.evaluations := db.evaluations + [e];
    }

    method DecideCompletion(i: nat, manager: nat, approved: bool, note: Option<string>, now: int) returns (ok: bool)
      modifies db
      ensures ok <==> DecideReport(old(db.View()), i, manager, approved, note, now).Some?
      ensures ok ==> DecideReport(old(db.View()), i, manager, approved, note, now) == Some(db.View())
      ensures !ok ==> db.View() == old(db.View())
    {
      ok := i < |db.repairs| && (approved || note.Some?);
      if ok {
        var r := db.repairs[i];
        Unchanged(db.View(), i);
        ok := manager == r.manager && !TenantDriven(r) && (approved ==> BearerResolved(r)) && r.reports != [];
        if ok {
          var n := |r.reports| - 1;
          var made := r.reports[n].decision;
          if made.Some? {
            ok := SameDecision(made.value, Manager, approved, note);
          } else {
            ok := r.status == CompletionReported
                  && (r.request.Some? ==> r.request.value.report == n && r.request.value.status == WaitingCompletion);
            if ok {
              r := r.(reports := r.reports[n := r.reports[n].(decision := Some(Decision(Manager, approved, note, now)))]);
              r := r.(status := if approved then Completed else InProgress);
              if approved && r.request.Some? {
                r := r.(request := Some(r.request.value.(decision := Some(n))));
                Commit(i, r);
                EnqueueEvaluation(Evaluation(i, n), now);
              } else {
                Commit(i, r);
              }
            }
          }
        }
      }
    }

    method DecideTenantCompletion(i: nat, tenant: nat, approved: bool, note: Option<string>, now: int) returns (ok: bool)
      modifies db
      ensures ok <==> Work(old(db.View()), i, TryDecideByTenant(tenant, approved, note, now)).Some?
      ensures ok ==> Work(old(db.View()), i, TryDecideByTenant(tenant, approved, note, now)) == Some(db.View())
      ensures !ok ==> db.View() == old(db.View())
    {
      ok := i < |db.repairs| && (approved || note.Some?);
      if ok {
        var r := db.repairs[i];
        Unchanged(db.View(), i);
        ok := TenantMayAct(r, tenant) && r.reports != [];
        if ok {
          var n := |r.reports| - 1;
          var made := r.reports[n].decision;
          if made.Some? {
            ok := SameDecision(made.value, Tenant, approved, note);
          } else {
            var estimate := FindApproved(r.estimates, Some(Tenant));
            ok := r.status == CompletionReported && r.request.None?
                  && (approved ==> estimate.Some? && r.estimates[estimate.value].content.total > 0);
            if ok {
              r := r.(reports := r.reports[n := r.reports[n].(decision := Some(Decision(Tenant, approved, note, now)))]);
              if approved {
                r := r.(request := Some(NewRequest(Tenant, r.estimates[estimate.value].content.total, estimate.value, n, PendingApproval)));
              }
              r := r.(status := if approved then Completed else InProgress);
              Commit(i, r);
            }
          }
        }
      }
    }

    // ---- the tenant's direct payment

    method RequestTenantDirectPayment(i: nat, tenant: nat, key: Key) returns (ok: bool)
      modifies db
      ensures ok <==> RequestDirect(old(db.View()), i, tenant, key).Some?
      ensures ok ==> RequestDirect(old(db.View()), i, tenant, key) == Some(db.View())
      ensures !ok ==> db.View() == old(db.View())
    {
      hide HasOpenOrder;
      ok := i < |db.repairs| && db.repairs[i].request.Some?;
      if ok {
        var r := db.repairs[i];
        var q := r.request.value;
        var payload := TenantDirectPayload(i, tenant, q.amount);
        ok := q.payer == Tenant && r.tenant == tenant && TenantDriven(r) && !(key in db.attempts && db.attempts[key] != payload);
        if ok && !IsTenantDirectPending(q) && !IsTenantDirectPaid(q) {
          ok := q.status == PendingApproval && q.cost.None? && q.debit.None? && !HasOpenOrder(q) && key !in db.attempts;
          if ok {
            ghost var s := db.View();
            var inserted := db.InsertAttempt(i, Attempt(key, Direct, Started, payload));
            q := db.repairs[i].request.value;
            db.UpdateRequest(i, q.(lastMode := Some(Direct), audits := q.audits + {TenantDirectPending}));
            WithRequestTwice(s, i, q, q.(lastMode := Some(Direct), audits := q.audits + {TenantDirectPending}));
          }
        }
      }
    }

    method ConfirmVendorDirectPayment(i: nat, vendor: nat) returns (ok: bool)
      modifies db
      ensures ok <==> ConfirmDirect(old(db.View()), i, vendor).Some?
      ensures ok ==> ConfirmDirect(old(db.View()), i, vendor) == Some(db.View())
      ensures !ok ==> db.View() == old(db.View())
    {
      hide Announce, LastStarted;
      ok := i < |db.repairs| && db.repairs[i].request.Some? && db.repairs[i].vendor == vendor;
      if ok {
        var r := db.repairs[i];
        var q := r.request.value;
        ghost var s := db.View();
        if IsTenantDirectPaid(q) {
          Unchanged(s, i);
        } else {
          var started := LastStarted(q.attempts);
          ok := IsTenantDirectPending(q) && q.cost.None? && q.debit.None? && started.Some?;
          if ok {
            var k := started.value;
            ok := q.attempts[k].payload.TenantDirectPayload? && q.attempts[k].payload.tenant == r.tenant;
            if ok {
              q := q.(attempts := q.attempts[k := q.attempts[k].(status := Succeeded)]);
              q := q.(status := DirectPaid, directReference := Some(ByAttempt(k)));
              db.UpdateRequest(i, q);
              var appended := db.AppendPaymentState(i, TenantDirectPaid);
              WithRequestTwice(s, i, q, Announce(q, TenantDirectPaid));
            }
          }
        }
      }
    }
  }
}

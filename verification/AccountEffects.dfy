/** Policies, the demo balance and top-up cancellations, over single transactions and over runs. */
module AccountEffects {
  import opened Options
  import opened Types
  import opened Payments
  import opened Ledger
  import opened Platform
  import opened Invariant
  import opened Runs
  import opened PaymentEffects
  import L = LedgerProofs
  import TR = TopupRuns

  function PolicyOf(b: Books, manager: nat): Policy {
    if manager in b.policies then b.policies[manager] else AlwaysRequireApproval
  }

  /** Saving a policy stores exactly it, opens the account if there is none, and refuses a limit that is
      no amount of money. */
  lemma SavePolicyEffect(b: Books, manager: nat, policy: Policy)
    ensures SavePolicy(b, manager, policy)
            == if policy.AutoDebitUnderLimit? && !(1 <= policy.limit <= 0x1f_ffff_ffff_ffff) then None
               else Some(b.(policies := b.policies[manager := policy],
                            balances := if manager in b.balances then b.balances else b.balances[manager := 0]))
  {
    assert manager !in b.policies ==> b.policies[manager := AlwaysRequireApproval][manager := policy] == b.policies[manager := policy];
  }

  /** The demo seed opens a new account with its opening balance, and touches no account that is there. */
  lemma SeedDemoEffect(b: Books, manager: nat)
    requires L.BooksOk(b)
    ensures var next := SeedDemo(b, manager);
            if manager !in b.balances then
              next == Some(b.(balances := b.balances[manager := 100_000],
                              ledger := b.ledger + [Entry(manager, OpeningBalance, 100_000, 100_000, DemoOpening, None)],
                              ledgerKeys := b.ledgerKeys + {OpeningKey(manager)}))
            else
              next == if exists k :: 0 <= k < |b.ledger| && b.ledger[k].manager == manager && b.ledger[k].kind == OpeningBalance
                                     && b.ledger[k].amount == 100_000 && b.ledger[k].balanceAfter == 100_000
                      then Some(b) else None
  {
    if manager !in b.balances {
      assert b.balances[manager := 0][manager := 100_000] == b.balances[manager := 100_000];
    } else {
      L.SeedDemoSumAgrees(b, manager);
    }
  }

  // ---- what a saved policy means for every later debit

  predicate Saves(c: Command, manager: nat) {
    c.TryAccount? && c.account.TrySavePolicy? && c.account.manager == manager
  }

  /** An explicit settlement in automatic mode, which the service never issues and which asks no policy. */
  predicate ForcesAutomatic(c: Command) {
    c.TrySettle? && c.mode == AutoCredit
  }

  /** Every entry that b' has over b and that is an automatic debit is one that b's policy allows. */
  predicate Allowed(b: Books, b': Books) {
    && b.ledger <= b'.ledger
    && forall e :: |b.ledger| <= e < |b'.ledger| && b'.ledger[e].kind == AutoDebit ==>
         PolicyAllows(b, b'.ledger[e].manager, -b'.ledger[e].amount)
  }

  lemma AccountAllowed(b: Books, action: AccountAction)
    ensures OnBooks(b, action).Some? ==> Allowed(b, OnBooks(b, action).value)
  {
    hide CanDebit, CanCredit, Sum, HasOpening, TopupPaymentKeyTaken;
  }

  lemma AccountPolicies(b: Books, action: AccountAction)
    ensures OnBooks(b, action).Some? ==>
              forall m: nat ::
                PolicyOf(OnBooks(b, action).value, m) == if action.TrySavePolicy? && m == action.manager then action.policy else PolicyOf(b, m)
  {
    hide CanDebit, CanCredit, Sum, HasOpening, TopupPaymentKeyTaken, ShouldAutoDebit;
  }

  lemma SettlementAllowed(s: State, i: nat, mode: Mode, key: Key, payload: AttemptPayload, evidence: Option<Evidence>)
    requires HasRequest(s, i)
    ensures var next := SettleLocked(s, i, mode, key, payload, evidence);
            next.Some? ==>
              && next.value.books.policies == s.books.policies
              && s.books.ledger <= next.value.books.ledger
              && forall e :: |s.books.ledger| <= e < |next.value.books.ledger| ==>
                   var entry := next.value.books.ledger[e];
                   && (entry.manager, entry.amount) == (s.repairs[i].manager, -s.repairs[i].request.value.amount)
                   && (entry.kind == AutoDebit ==> mode == AutoCredit)
  {
    hide Settled, LackCredit;
  }

  lemma SettleAllowed(s: State, i: nat, manager: nat, mode: Mode, key: Key, actor: nat, decision: Option<nat>, evidence: Option<Evidence>, now: int)
    requires mode != AutoCredit
    ensures var next := Settle(s, i, manager, mode, key, actor, decision, evidence, now);
            next.Some? ==> Allowed(s.books, next.value.books) && forall m: nat :: PolicyOf(next.value.books, m) == PolicyOf(s.books, m)
  {
    hide SettlementValid, ActiveOrder, EvidenceOk, SettleLocked;
    forall d: nat | HasRequest(s, i) {
      SettlementAllowed(WithAccount(s, manager), i, mode, key, SettlePayload(i, mode, actor, d, evidence), evidence);
    }
  }

  lemma EvaluationAllowed(s: State, i: nat, manager: nat, decision: nat)
    ensures var next := Evaluate(s, i, manager, decision);
            next.Some? ==> Allowed(s.books, next.value.books) && forall m: nat :: PolicyOf(next.value.books, m) == PolicyOf(s.books, m)
  {
    hide SettlementValid, ActiveOrder, AwaitApproval, SettleLocked;
    if HasRequest(s, i) {
      SettlementAllowed(WithAccount(s, manager), i, AutoCredit, AutoSettlement(i, decision),
                        SettlePayload(i, AutoCredit, manager, decision, None), None);
    }
  }

  lemma CorrectionAllowed(s: State, key: Key, payload: CorrectionPayload)
    ensures var next := Correct(s, key, payload);
            next.Some? ==> Allowed(s.books, next.value.books) && next.value.books.policies == s.books.policies
  {
    hide ReversedRequest, VoidedDirect, CancelledRequest, DebitMatches, CanCredit;
  }

  lemma StepAllowed(s: State, c: Command)
    requires !ForcesAutomatic(c)
    ensures Allowed(s.books, Apply(s, c).books)
    ensures forall m: nat :: !Saves(c, m) ==> PolicyOf(Apply(s, c).books, m) == PolicyOf(s.books, m)
  {
    if c.TryAccount? {
      hide OnBooks, Allowed;
      AccountAllowed(s.books, c.account);
      AccountPolicies(s.books, c.account);
      NothingAllowed(s.books);
    } else if c.TrySettle? || c.TryCorrect? || c.TryRunEvaluation? {
      CreditAllowed(s, c);
    } else {
      hide Apply;
      TR.OthersLeaveTopups(s, c);
    }
  }

  lemma NothingAllowed(b: Books)
    ensures Allowed(b, b)
  {
  }

  lemma CreditAllowed(s: State, c: Command)
    requires !ForcesAutomatic(c) && (c.TrySettle? || c.TryCorrect? || c.TryRunEvaluation?)
    ensures Allowed(s.books, Apply(s, c).books)
    ensures forall m: nat :: PolicyOf(Apply(s, c).books, m) == PolicyOf(s.books, m)
  {
    hide Settle, Evaluate, Correct, Allowed;
    NothingAllowed(s.books);
    match c
    case TrySettle(i, manager, mode, key, actor, decision, evidence, now) => SettleAllowed(s, i, manager, mode, key, actor, decision, evidence, now);
    case TryCorrect(key, payload) => CorrectionAllowed(s, key, payload);
    case TryRunEvaluation(token) =>
      if IsClaimed(s, token) && EvaluationOf(s, token).request < |s.repairs| {
        var e := EvaluationOf(s, token);
        EvaluationAllowed(s, e.request, s.repairs[e.request].manager, e.decision);
      }
  }

  /** From entry n on, no automatic debit of the manager is one that this policy does not allow. */
  predicate Obeyed(ledger: seq<Entry>, n: nat, manager: nat, policy: Policy) {
    forall e :: n <= e < |ledger| && ledger[e].kind == AutoDebit && ledger[e].manager == manager ==>
      policy.AutoDebitUnderLimit? && -ledger[e].amount <= policy.limit
  }

  lemma ObeyedFurther(b: Books, n: nat, manager: nat, b': Books)
    requires Obeyed(b.ledger, n, manager, PolicyOf(b, manager)) && Allowed(b, b') && n <= |b.ledger|
    ensures Obeyed(b'.ledger, n, manager, PolicyOf(b, manager))
  {
  }

  lemma {:induction false} PolicyHolds(s: State, more: seq<Command>, manager: nat)
    requires forall k :: 0 <= k < |more| ==> !Saves(more[k], manager) && !ForcesAutomatic(more[k])
    ensures var s' := Run(s, more);
            && PolicyOf(s'.books, manager) == PolicyOf(s.books, manager)
            && s.books.ledger <= s'.books.ledger
            && Obeyed(s'.books.ledger, |s.books.ledger|, manager, PolicyOf(s.books, manager))
  {
    hide Apply, Saves, ForcesAutomatic;
    if more == [] {
    } else {
      hide Obeyed, PolicyOf;
      var n := |more| - 1;
      PolicyHolds(s, more[..n], manager);
      StepAllowed(Run(s, more[..n]), more[n]);
      ObeyedFurther(Run(s, more[..n]).books, |s.books.ledger|, manager, Run(s, more).books);
    }
  }

  /** From the moment a manager saves a limit until the manager saves another policy, nothing debits more
      than the limit automatically, neither an evaluation nor a vendor's payout request; and while the
      manager asks for approval of everything, nothing is debited automatically at all. */
  lemma SavedPolicyIsObeyed(s: State, policy: Policy, more: seq<Command>, manager: nat)
    requires Account(s, TrySavePolicy(manager, policy)).Some?
    requires forall k :: 0 <= k < |more| ==> !Saves(more[k], manager) && !ForcesAutomatic(more[k])
    ensures var saved := Apply(s, TryAccount(TrySavePolicy(manager, policy)));
            var later := Run(saved, more);
            && PolicyOf(later.books, manager) == policy
            && Obeyed(later.books.ledger, |saved.books.ledger|, manager, policy)
  {
    hide Run, Allowed, Saves, ForcesAutomatic, Obeyed;
    AccountPolicies(s.books, TrySavePolicy(manager, policy));
    PolicyHolds(Apply(s, TryAccount(TrySavePolicy(manager, policy))), more, manager);
  }

  // ---- cancelling a top-up

  /** A manager can cancel a top-up exactly while it is READY; from then on, whatever anybody does, it
      stays cancelled and no caller is ever told to ask the provider for it. */
  lemma CancelledTopupEffect(tickets: seq<Ticket>, commands: seq<Command>, more: seq<Command>, manager: nat, k: nat, claimer: nat, paymentKey: string, amount: int)
    requires k < |Run(Initial(tickets), commands).books.topups|
    ensures var s := Run(Initial(tickets), commands);
            var o := s.books.topups[k];
            var next := Account(s, TryCancelTopup(manager, k));
            && (next.Some? <==> o.manager == manager && o.status in {TopupReady, TopupCancelled})
            && (next.Some? ==>
                  var later := Run(next.value, more);
                  && next.value.books.ledger == s.books.ledger
                  && k < |later.books.topups| && later.books.topups[k] == o.(status := TopupCancelled)
                  && ClaimTopup(later.books, claimer, k, paymentKey, amount) == None)
  {
    hide StateOk, Run, RepairsContinue, KeysContinue;
    var s := Run(Initial(tickets), commands);
    Reachable(tickets, commands);
    StepKeeps(s, TryAccount(TryCancelTopup(manager, k)));
    if Account(s, TryCancelTopup(manager, k)).Some? {
      var next := Account(s, TryCancelTopup(manager, k)).value;
      RunKeeps(next, more);
      assert L.TopupContinues(next.books.topups[k], Run(next, more).books.topups[k]);
      TR.KeyedTopup(s, k);
    }
  }
}

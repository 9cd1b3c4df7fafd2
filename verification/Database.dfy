/** The tables that the repositories update in place, and the few statements they share. */
module Database {
  import opened Options
  import opened Types
  import opened Payments
  import opened Ledger
  import opened Platform
  import Outbox

  class Store {
    var tickets: seq<Ticket>
    var repairs: seq<Repair>
    // the credit account
    var balances: map<nat, int>
    var policies: map<nat, Policy>
    var ledger: seq<Entry>
    var ledgerKeys: set<LedgerKey>
    var topups: seq<TopupOrder>
    var topupKeys: map<Key, nat>
    var payouts: seq<Payout>
    var payoutKeys: map<Key, nat>
    // unique columns of other tables
    var attempts: map<Key, AttemptPayload>
    var receipts: map<Key, CorrectionPayload>
    var creations: map<Key, OrderRef>
    var payments: map<string, OrderRef>
    var submissions: map<Key, CompletionPayload>
    var connections: map<Key, nat>
    // the outbox
    var deliveries: seq<Outbox.Delivery>
    var claims: seq<nat>
    var evaluations: seq<Evaluation>
    // what is not in the database: the provider, calls in progress, workers
    var charges: map<OrderRef, Charge>
    var calls: seq<Call>
    var evaluated: set<nat>

    function Account(): Books
      reads this
    {
      Books(balances, policies, ledger, ledgerKeys, topups, topupKeys, payouts, payoutKeys)
    }

    /** The machine state that the tables hold. */
    function View(): State
      reads this
    {
      State(tickets, repairs, Account(), Indexes(), charges, calls, Outbox.Box(deliveries, claims), evaluations, evaluated)
    }

    constructor (tickets: seq<Ticket>)
      ensures View() == Initial(tickets)
    {
      this.tickets, repairs := tickets, [];
      balances, policies, ledger, ledgerKeys := map[], map[], [], {};
      topups, topupKeys, payouts, payoutKeys := [], map[], [], map[];
      attempts, receipts, creations, payments, submissions, connections := map[], map[], map[], map[], map[], map[];
      deliveries, claims, evaluations := [], [], [];
      charges, calls, evaluated := map[], [], {};
    }

    /** ROLLBACK to the state at the start of the transaction. */
    method Rollback(s: State)
      modifies this
      ensures View() == s
    {
      RollbackRows(s);
      RollbackAccount(s.books);
      RollbackKeys(s.keys);
      assert Account() == s.books && Indexes() == s.keys && Outbox.Box(deliveries, claims) == s.box;
    }

    method RollbackRows(s: State)
      modifies this`tickets, this`repairs, this`deliveries, this`claims, this`evaluations, this`charges, this`calls, this`evaluated
      ensures (tickets, repairs, charges, calls) == (s.tickets, s.repairs, s.charges, s.calls)
      ensures (deliveries, claims, evaluations, evaluated) == (s.box.rows, s.box.claims, s.evaluations, s.evaluated)
    {
      tickets, repairs := s.tickets, s.repairs;
      deliveries, claims, evaluations := s.box.rows, s.box.claims, s.evaluations;
      charges, calls, evaluated := s.charges, s.calls, s.evaluated;
    }

    method RollbackAccount(b: Books)
      modifies this`balances, this`policies, this`ledger, this`ledgerKeys, this`topups, this`topupKeys, this`payouts, this`payoutKeys
      ensures Account() == b
    {
      balances, policies, ledger, ledgerKeys := b.balances, b.policies, b.ledger, b.ledgerKeys;
      topups, topupKeys, payouts, payoutKeys := b.topups, b.topupKeys, b.payouts, b.payoutKeys;
    }

    function Indexes(): Keys
      reads this
    {
      Keys(attempts, receipts, creations, payments, submissions, connections)
    }

    method RollbackKeys(keys: Keys)
      modifies this`attempts, this`receipts, this`creations, this`payments, this`submissions, this`connections
      ensures Indexes() == keys
    {
      attempts, receipts, creations := keys.attempts, keys.receipts, keys.creations;
      payments, submissions, connections := keys.payments, keys.submissions, keys.connections;
    }

    /** UPDATE of the request row. */
    method UpdateRequest(i: nat, q: Request)
      requires i < |repairs|
      modifies this
      ensures View() == WithRequest(old(View()), i, q)
    {
      repairs := repairs[i := repairs[i].(request := Some(q))];
    }

    /** INSERT ... ON CONFLICT DO NOTHING of the account and its policy. */
    method EnsureAccountRows(manager: nat)
      modifies this
      ensures View() == WithAccount(old(View()), manager)
    {
      if manager !in balances {
        balances := balances[manager := 0];
      }
      if manager !in policies {
        policies := policies[manager := AlwaysRequireApproval];
      }
    }

    /** UPDATE of the balance, guarded against overdraft, RETURNING the new balance. */
    method DebitBalance(manager: nat, amount: int) returns (after: Option<int>)
      modifies this
      ensures after == if CanDebit(old(Account()), manager, amount) then Some(Balance(old(Account()), manager) - amount) else None
      ensures View() == if after.Some? then WithBalance(old(View()), manager, after.value) else old(View())
    {
      var balance := if manager in balances then balances[manager] else 0;
      after := None;
      if balance >= amount {
        balances := balances[manager := balance - amount];
        after := Some(balance - amount);
      }
    }

    /** The same in the other direction, guarded against leaving the safe range. */
    method CreditBalance(manager: nat, amount: int) returns (after: Option<int>)
      modifies this
      ensures after == if CanCredit(old(Account()), manager, amount) then Some(Balance(old(Account()), manager) + amount) else None
      ensures View() == if after.Some? then WithBalance(old(View()), manager, after.value) else old(View())
    {
      var balance := if manager in balances then balances[manager] else 0;
      after := None;
      if balance <= MAX_SAFE_CREDIT_BALANCE - amount {
        balances := balances[manager := balance + amount];
        after := Some(balance + amount);
      }
    }

    /** INSERT into the ledger; its idempotency key is unique. */
    method InsertEntry(entry: Entry, key: LedgerKey) returns (ok: bool)
      modifies this
      ensures ok <==> key !in old(ledgerKeys)
      ensures View() == if ok then WithEntry(old(View()), entry, key) else old(View())
    {
      ok := key !in ledgerKeys;
      if ok {
        ledger := ledger + [entry];
        ledgerKeys := ledgerKeys + {key};
      }
    }

    /** INSERT of a payment attempt; its idempotency key is unique. */
    method InsertAttempt(i: nat, attempt: Attempt) returns (ok: bool)
      requires HasRequest(View(), i)
      modifies this
      ensures ok <==> attempt.key !in old(attempts)
      ensures View() == if ok then WithAttempt(old(View()), i, attempt) else old(View())
    {
      ok := attempt.key !in attempts;
      if ok {
        attempts := attempts[attempt.key := attempt.payload];
        var q := repairs[i].request.value;
        UpdateRequest(i, q.(attempts := q.attempts + [attempt]));
      }
    }

    /** INSERT of an audit row, skipping a duplicate; only a new row writes the event. */
    method AppendPaymentState(i: nat, key: AuditKey) returns (appended: bool)
      requires HasRequest(View(), i)
      modifies this
      ensures appended <==> key !in old(repairs)[i].request.value.audits
      ensures View() == WithRequest(old(View()), i, Announce(old(repairs)[i].request.value, key))
    {
      var q := repairs[i].request.value;
      appended := key !in q.audits;
      if appended {
        UpdateRequest(i, q.(audits := q.audits + {key}));
        q := repairs[i].request.value;
        UpdateRequest(i, q.(events := q.events + [key]));
      }
    }
  }

  // ---- what one statement does to the state

  /** Writing a request row twice is writing it once. */
  lemma WithRequestTwice(s: State, i: nat, q: Request, q': Request)
    requires i < |s.repairs|
    ensures WithRequest(WithRequest(s, i, q), i, q') == WithRequest(s, i, q')
  {
    assert s.repairs[i := s.repairs[i].(request := Some(q))][i := s.repairs[i].(request := Some(q'))]
           == s.repairs[i := s.repairs[i].(request := Some(q'))];
  }

  function WithBalance(s: State, manager: nat, balance: int): State {
    s.(books := s.books.(balances := s.books.balances[manager := balance]))
  }

  function WithEntry(s: State, entry: Entry, key: LedgerKey): State {
    s.(books := s.books.(ledger := s.books.ledger + [entry], ledgerKeys := s.books.ledgerKeys + {key}))
  }

  function WithAttempt(s: State, i: nat, attempt: Attempt): State
    requires HasRequest(s, i)
  {
    var q := s.repairs[i].request.value;
    WithRequest(s, i, q.(attempts := q.attempts + [attempt])).(
      keys := s.keys.(attempts := s.keys.attempts[attempt.key := attempt.payload]))
  }
}

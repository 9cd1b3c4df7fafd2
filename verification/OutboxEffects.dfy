/** What a poll of the outbox leases, and for how long, in terms of states, leases and the clock. */
module OutboxEffects {
  import opened Options
  import opened Types
  import opened Outbox
  import opened Platform
  import opened Payments
  import opened Ledger
  import O = OutboxProofs

  /** A delivery that nobody works on: it waits and its time has come, or its lease has ended. */
  predicate Free(row: Delivery, now: int) {
    match row.state
    case Pending => row.availableAt <= now
    case Processing => row.leaseUntil.Some? && row.leaseUntil.value <= now
    case Delivered => false
  }

  predicate Earlier(rows: seq<Delivery>, j: nat, k: nat)
    requires j < |rows| && k < |rows|
  {
    if rows[j].availableAt == rows[k].availableAt then j < k else rows[j].availableAt < rows[k].availableAt
  }

  /** Which deliveries a poll takes: only free ones that no other transaction has locked, oldest
      first, each once, and all of them unless the batch is full of earlier ones. */
  lemma CandidatesEffect(b: Box, limit: nat, now: int, locked: set<nat>, d: nat)
    requires d < |b.rows|
    ensures var ids := Candidates(b, limit, now, locked);
            && (d in ids ==> Free(b.rows[d], now) && d !in locked)
            && (Free(b.rows[d], now) && d !in locked && d !in ids ==>
                  |ids| == (if limit < 100 then limit else 100) && forall j :: 0 <= j < |ids| ==> Earlier(b.rows, ids[j], d))
            && |ids| <= limit && |ids| <= 100
            && (forall j, k :: 0 <= j < k < |ids| ==> ids[j] != ids[k] && Earlier(b.rows, ids[j], ids[k]))
  {
    var ids := Candidates(b, limit, now, locked);
    assert Due(b.rows[d], now) <==> Free(b.rows[d], now);
    if d in ids {
      var p :| 0 <= p < |ids| && ids[p] == d;
    }
    if limit > 0 && Free(b.rows[d], now) && d !in locked && d !in ids {
      O.OldestAreClaimed(b, limit, now, locked, d);
    }
  }

  /** A poll that takes something leases each row it takes under a token of its own, until the given
      time, counts one more attempt, and leaves the others alone; it refuses a lease that is over. */
  lemma ClaimPendingEffect(b: Box, limit: int, now: int, leaseUntil: int, locked: set<nat>, d: nat)
    requires d < |b.rows|
    ensures var next := ClaimPending(b, limit, now, leaseUntil, locked);
            && (next.None? <==> limit > 0 && leaseUntil <= now)
            && (limit <= 0 ==> next == Some(b))
            && (next.Some? && limit > 0 ==>
                  var ids := Candidates(b, limit, now, locked);
                  && |next.value.rows| == |b.rows| && next.value.claims == b.claims + ids
                  && (d !in ids ==> next.value.rows[d] == b.rows[d])
                  && (forall j :: 0 <= j < |ids| && ids[j] == d ==>
                        next.value.rows[d] == Delivery(Processing, b.rows[d].availableAt, b.rows[d].attempts + 1, Some(|b.claims| + j), Some(leaseUntil))))
  {
    if limit > 0 && leaseUntil > now {
      O.ClaimEffect(b, Candidates(b, limit, now, locked), leaseUntil, d);
    }
  }

  /** Whoever holds the delivery finishes it or gives it back until a time of its choice; anybody else
      changes nothing. */
  lemma ReleaseEffect(b: Box, d: nat, token: nat, availableAt: int)
    ensures var held := d < |b.rows| && b.rows[d].state == Processing && b.rows[d].token == Some(token);
            if held then
              && MarkDelivered(b, d, token)
                 == (Box(b.rows[d := Delivery(Delivered, b.rows[d].availableAt, b.rows[d].attempts, None, None)], b.claims), true)
              && Reschedule(b, d, token, availableAt)
                 == (Box(b.rows[d := Delivery(Pending, availableAt, b.rows[d].attempts, None, None)], b.claims), true)
            else MarkDelivered(b, d, token) == (b, false) && Reschedule(b, d, token, availableAt) == (b, false)
  {
  }

  lemma EnqueuedEffect(b: Box, now: int)
    ensures Enqueued(b, now) == Box(b.rows + [Delivery(Pending, now, 0, None, None)], b.claims)
    ensures forall at :: Free(Enqueued(b, now).rows[|b.rows|], at) <==> now <= at
  {
  }

  /** The wait before another attempt: one second after the first, then twice as long each time, and
      256 seconds from the ninth attempt on. */
  lemma RetryEffect(now: int, attempts: nat)
    ensures attempts <= 1 ==> RetryAt(now, attempts) == now + 1_000
    ensures 1 <= attempts <= 8 ==> RetryAt(now, attempts + 1) - now == 2 * (RetryAt(now, attempts) - now)
    ensures attempts >= 9 ==> RetryAt(now, attempts) == now + 256_000
  {
    O.RetryBounds(now, attempts);
    assert Power(0) == 1 && Power(1) == 2 && Power(2) == 4 && Power(3) == 8;
    assert Power(4) == 16 && Power(5) == 32 && Power(6) == 64 && Power(7) == 128 && Power(8) == 256;
  }

  // ---- over runs

  /** The worker's own lease is one minute, at most 100 deliveries at a time. */
  lemma PollEffect(s: State, limit: int, now: int, locked: set<nat>)
    ensures var next := ClaimDeliveries(s, limit, now, locked);
            && next.Some?
            && next.value == s.(box := next.value.box)
            && Some(next.value.box) == ClaimPending(s.box, limit, now, now + 60_000, locked)
  {
  }

  predicate TouchesBox(c: Command) {
    c.TryDecideReport? || c.TryClaimDeliveries? || c.TryFinishDelivery? || c.TryGiveBackDelivery?
  }

  lemma BoxUntouched(s: State, c: Command)
    requires !TouchesBox(c)
    ensures Apply(s, c).box == s.box
  {
    hide SettlementValid, ActiveOrder, Settled, LackCredit, AwaitApproval, CanDebit, EvidenceOk, ShouldAutoDebit, ReversedRequest, VoidedDirect,
         CancelledRequest, DebitMatches, CanCredit, DirectConfirmed, Judge, OrderFinalized, OrderRejected, OrderUncertain, Act, Honest, OnBooks;
  }

  /** A worker holds delivery d under this token, until this time. */
  predicate Leased(b: Box, d: nat, token: nat, until: int) {
    d < |b.rows| && b.rows[d].state == Processing && b.rows[d].token == Some(token) && b.rows[d].leaseUntil == Some(until)
  }

  /** The worker itself finishes or gives back, or a poll comes after the lease has ended. */
  predicate Ends(c: Command, token: nat, until: int) {
    match c
    case TryFinishDelivery(t) => t == token
    case TryGiveBackDelivery(t, _, _) => t == token
    case TryClaimDeliveries(_, now, _) => until <= now
    case _ => false
  }

  lemma StepKeepsLease(s: State, c: Command, d: nat, token: nat, until: int)
    requires Leased(s.box, d, token, until) && !Ends(c, token, until)
    ensures d < |Apply(s, c).box.rows| && Apply(s, c).box.rows[d] == s.box.rows[d]
  {
    hide Apply;
    if !TouchesBox(c) {
      BoxUntouched(s, c);
    } else {
      match c
      case TryClaimDeliveries(limit, now, locked) => PollKeepsLease(s, limit, now, locked, d);
      case TryDecideReport(i, manager, approved, note, now) => DecisionKeepsRow(s, c, d);
      case TryFinishDelivery(t) => ReleaseKeepsRow(s, c, d);
      case TryGiveBackDelivery(t, at, attempts) => ReleaseKeepsRow(s, c, d);
    }
  }

  lemma PollKeepsLease(s: State, limit: int, now: int, locked: set<nat>, d: nat)
    requires d < |s.box.rows| && !Free(s.box.rows[d], now)
    ensures var s' := Apply(s, TryClaimDeliveries(limit, now, locked)); d < |s'.box.rows| && s'.box.rows[d] == s.box.rows[d]
  {
    PollEffect(s, limit, now, locked);
    ClaimPendingEffect(s.box, limit, now, now + 60_000, locked, d);
    if limit > 0 {
      CandidatesEffect(s.box, limit, now, locked, d);
    }
    hide ClaimDeliveries, ClaimPending;
  }

  lemma DecisionKeepsRow(s: State, c: Command, d: nat)
    requires c.TryDecideReport? && d < |s.box.rows|
    ensures d < |Apply(s, c).box.rows| && Apply(s, c).box.rows[d] == s.box.rows[d]
  {
  }

  lemma ReleaseKeepsRow(s: State, c: Command, d: nat)
    requires d < |s.box.rows| && s.box.rows[d].token.Some?
    requires (c.TryFinishDelivery? || c.TryGiveBackDelivery?) && c.token != s.box.rows[d].token.value
    ensures d < |Apply(s, c).box.rows| && Apply(s, c).box.rows[d] == s.box.rows[d]
  {
    hide RetryAt;
  }

  lemma {:induction false} RunKeepsLease(s: State, more: seq<Command>, d: nat, token: nat, until: int)
    requires Leased(s.box, d, token, until) && forall k :: 0 <= k < |more| ==> !Ends(more[k], token, until)
    ensures var s' := Run(s, more); d < |s'.box.rows| && s'.box.rows[d] == s.box.rows[d]
  {
    hide Apply, Ends;
    if more == [] {
    } else {
      var n := |more| - 1;
      RunKeepsLease(s, more[..n], d, token, until);
      StepKeepsLease(Run(s, more[..n]), more[n], d, token, until);
    }
  }

  /** A lease is exclusive: from when a worker claimed a delivery, whatever anybody else does, it is
      claimed by nobody until its lease has ended or the worker has finished it or given it back. */
  lemma LeaseIsExclusive(s: State, limit: int, now: int, locked: set<nat>, more: seq<Command>, d: nat, token: nat)
    requires var b, b' := s.box, Apply(s, TryClaimDeliveries(limit, now, locked)).box;
             |b.claims| <= token < |b'.claims| && b'.claims[token] == d < |b.rows|
    requires forall k :: 0 <= k < |more| ==> !Ends(more[k], token, now + 60_000)
    ensures var claimed := Apply(s, TryClaimDeliveries(limit, now, locked));
            var later := Run(claimed, more);
            && Leased(claimed.box, d, token, now + 60_000)
            && d < |later.box.rows| && later.box.rows[d] == claimed.box.rows[d]
            && claimed.box.rows[d].attempts == s.box.rows[d].attempts + 1
  {
    hide Apply, Run, ClaimPending, Ends, Leased;
    Polled(s, limit, now, locked);
    TokenIsLease(s.box, limit, now, locked, d, token);
    RunKeepsLease(Apply(s, TryClaimDeliveries(limit, now, locked)), more, d, token, now + 60_000);
  }

  lemma TokenIsLease(b: Box, limit: int, now: int, locked: set<nat>, d: nat, token: nat)
    requires var next := ClaimPending(b, limit, now, now + 60_000, locked);
             next.Some? && |b.claims| <= token < |next.value.claims| && next.value.claims[token] == d < |b.rows|
    ensures var b' := ClaimPending(b, limit, now, now + 60_000, locked).value;
            Leased(b', d, token, now + 60_000) && b'.rows[d].attempts == b.rows[d].attempts + 1
  {
    ClaimPendingEffect(b, limit, now, now + 60_000, locked, d);
    hide ClaimPending, Candidates;
    var ids := Candidates(b, limit, now, locked);
    assert limit > 0 ==> ids[token - |b.claims|] == d;
  }

  /** A crash loses nothing: a delivery whose worker never came back is leased again, under a new token,
      by any poll from the end of its lease on that does not find it locked, unless that poll is full of
      earlier ones. */
  lemma CrashedIsReclaimed(s: State, limit: int, now: int, locked: set<nat>, d: nat, token: nat, until: int)
    requires Leased(s.box, d, token, until) && until <= now && d !in locked && limit > 0
    ensures var b, b' := s.box, Apply(s, TryClaimDeliveries(limit, now, locked)).box;
            && b.claims <= b'.claims
            && var taken := b'.claims[|b.claims|..];
               if d in taken then
                 && d < |b'.rows| && b'.rows[d].token.Some? && |b.claims| <= b'.rows[d].token.value
                 && Leased(b', d, b'.rows[d].token.value, now + 60_000)
               else
                 && |taken| == (if limit < 100 then limit else 100)
                 && forall j :: 0 <= j < |taken| ==> taken[j] < |b.rows| && Earlier(b.rows, taken[j], d)
  {
    hide Apply, ClaimPending;
    Polled(s, limit, now, locked);
    EndedIsTaken(s.box, limit, now, locked, d, token, until);
  }

  lemma Polled(s: State, limit: int, now: int, locked: set<nat>)
    ensures Some(Apply(s, TryClaimDeliveries(limit, now, locked)).box) == ClaimPending(s.box, limit, now, now + 60_000, locked)
  {
    hide ClaimPending;
    PollEffect(s, limit, now, locked);
  }

  lemma EndedIsTaken(b: Box, limit: int, now: int, locked: set<nat>, d: nat, token: nat, until: int)
    requires Leased(b, d, token, until) && until <= now && d !in locked && limit > 0
    ensures var next := ClaimPending(b, limit, now, now + 60_000, locked);
            && next.Some?
            && b.claims <= next.value.claims
            && var taken := next.value.claims[|b.claims|..];
               if d in taken then
                 && d < |next.value.rows| && next.value.rows[d].token.Some? && |b.claims| <= next.value.rows[d].token.value
                 && Leased(next.value, d, next.value.rows[d].token.value, now + 60_000)
               else
                 && |taken| == (if limit < 100 then limit else 100)
                 && forall j :: 0 <= j < |taken| ==> taken[j] < |b.rows| && Earlier(b.rows, taken[j], d)
  {
    ClaimPendingEffect(b, limit, now, now + 60_000, locked, d);
    CandidatesEffect(b, limit, now, locked, d);
    hide ClaimPending, Due;
    var ids := Candidates(b, limit, now, locked);
    var taken := ClaimPending(b, limit, now, now + 60_000, locked).value.claims[|b.claims|..];
    assert taken == ids;
    if d in ids {
      var j :| 0 <= j < |ids| && ids[j] == d;
    }
  }
}

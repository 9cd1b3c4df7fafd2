/** The transactional outbox of one consumer: deliveries are leased to workers under a fresh
    lock token, and only the holder of the current token may finish or give back a delivery.

    A lock token is the position of its claim in the claim log, so tokens never repeat.
 */
module Outbox {
  import opened Options
  import opened Types

  datatype DeliveryState = Pending | Processing | Delivered

  datatype Delivery = Delivery(state: DeliveryState, availableAt: int, attempts: nat, token: Option<nat>, leaseUntil: Option<int>)

  /** claims[t] is the delivery that was leased under token t. */
  datatype Box = Box(rows: seq<Delivery>, claims: seq<nat>)

  const MAX_BATCH: nat := 100
  const LEASE_MS: int := 60_000

  function Enqueued(b: Box, now: int): Box {
    b.(rows := b.rows + [Delivery(Pending, now, 0, None, None)])
  }

  predicate Due(row: Delivery, now: int) {
    || (row.state == Pending && row.availableAt <= now)
    || (row.state == Processing && row.leaseUntil.Some? && row.leaseUntil.value <= now)
  }

  /** ORDER BY availableAt, id. */
  predicate Before(rows: seq<Delivery>, j: nat, k: nat)
    requires j < |rows| && k < |rows|
  {
    rows[j].availableAt < rows[k].availableAt || (rows[j].availableAt == rows[k].availableAt && j < k)
  }

  predicate Ids(rows: seq<Delivery>, ids: seq<nat>) {
    forall j :: 0 <= j < |ids| ==> ids[j] < |rows|
  }

  function Insert(rows: seq<Delivery>, ids: seq<nat>, k: nat): (out: seq<nat>)
    requires Ids(rows, ids) && k < |rows|
    ensures Ids(rows, out)
  {
    if ids == [] then [k]
    else
      var n := |ids| - 1;
      if Before(rows, ids[n], k) then ids + [k] else Insert(rows, ids[..n], k) + [ids[n]]
  }

  /** The due rows among the first n that no other transaction has locked, in claim order. */
  function DueRows(rows: seq<Delivery>, n: nat, now: int, locked: set<nat>): (out: seq<nat>)
    requires n <= |rows|
    ensures Ids(rows, out) && Sorted(rows, out)
    ensures forall k: nat :: k in out <==> k < n && Due(rows[k], now) && k !in locked
    ensures forall j, k :: 0 <= j < k < |out| ==> out[j] != out[k]
  {
    if n == 0 then []
    else
      var out := DueRows(rows, n - 1, now, locked);
      if !Due(rows[n - 1], now) || n - 1 in locked then out
      else
        InsertMembers(rows, out, n - 1);
        InsertSorted(rows, out, n - 1);
        Insert(rows, out, n - 1)
  }

  lemma {:induction false} InsertMembers(rows: seq<Delivery>, ids: seq<nat>, k: nat)
    requires Ids(rows, ids) && k < |rows| && k !in ids
    requires forall i, j :: 0 <= i < j < |ids| ==> ids[i] != ids[j]
    ensures var out := Insert(rows, ids, k);
            && (forall x :: x in out <==> x in ids || x == k)
            && (forall i, j :: 0 <= i < j < |out| ==> out[i] != out[j])
  {
    if ids == [] {
    } else {
      var n := |ids| - 1;
      InsertMembers(rows, ids[..n], k);
      assert forall x :: x in ids <==> x in ids[..n] || x == ids[n];
      assert ids[n] !in ids[..n];
    }
  }

  lemma {:induction false} InsertSorted(rows: seq<Delivery>, ids: seq<nat>, k: nat)
    requires Ids(rows, ids) && k < |rows| && k !in ids && Sorted(rows, ids)
    requires forall i, j :: 0 <= i < j < |ids| ==> ids[i] != ids[j]
    ensures Sorted(rows, Insert(rows, ids, k))
  {
    if ids == [] {
    } else {
      var n := |ids| - 1;
      var out := Insert(rows, ids, k);
      if Before(rows, ids[n], k) {
        assert forall i :: 0 <= i < n ==> Before(rows, ids[i], ids[n]);
      } else {
        InsertSorted(rows, ids[..n], k);
        InsertMembers(rows, ids[..n], k);
        var inner := Insert(rows, ids[..n], k);
        forall i | 0 <= i < |inner| ensures Before(rows, inner[i], ids[n]) {
          if inner[i] != k {
            assert inner[i] in ids[..n];
          }
        }
      }
    }
  }

  predicate Sorted(rows: seq<Delivery>, ids: seq<nat>)
    requires Ids(rows, ids)
  {
    forall i, j :: 0 <= i < j < |ids| ==> Before(rows, ids[i], ids[j])
  }

  function Candidates(b: Box, limit: nat, now: int, locked: set<nat>): (out: seq<nat>)
    ensures Ids(b.rows, out) && Sorted(b.rows, out) && |out| <= MAX_BATCH
    ensures forall k :: 0 <= k < |out| ==> Due(b.rows[out[k]], now) && out[k] !in locked
    ensures forall j, k :: 0 <= j < k < |out| ==> out[j] != out[k]
  {
    var due := DueRows(b.rows, |b.rows|, now, locked);
    var bound := if limit < MAX_BATCH then limit else MAX_BATCH;
    if |due| <= bound then due else due[..bound]
  }

  function ClaimRow(b: Box, k: nat, leaseUntil: int): (b': Box)
    requires k < |b.rows|
    ensures |b'.rows| == |b.rows|
  {
    var row := b.rows[k];
    Box(b.rows[k := row.(state := Processing, attempts := row.attempts + 1, token := Some(|b.claims|), leaseUntil := Some(leaseUntil))],
        b.claims + [k])
  }

  function ClaimRows(b: Box, ids: seq<nat>, leaseUntil: int): (b': Box)
    requires Ids(b.rows, ids)
    ensures |b'.rows| == |b.rows|
  {
    if ids == [] then b else ClaimRow(ClaimRows(b, ids[..|ids| - 1], leaseUntil), ids[|ids| - 1], leaseUntil)
  }

  function ClaimPending(b: Box, limit: int, now: int, leaseUntil: int, locked: set<nat>): Option<Box> {
    if limit <= 0 then Some(b)
    else if leaseUntil <= now then None
    else Some(ClaimRows(b, Candidates(b, limit, now, locked), leaseUntil))
  }

  predicate Holds(b: Box, d: nat, token: nat) {
    d < |b.rows| && b.rows[d].state == Processing && b.rows[d].token == Some(token)
  }

  function MarkDelivered(b: Box, d: nat, token: nat): (Box, bool) {
    if Holds(b, d, token)
    then (b.(rows := b.rows[d := b.rows[d].(state := Delivered, token := None, leaseUntil := None)]), true)
    else (b, false)
  }

  function Reschedule(b: Box, d: nat, token: nat, availableAt: int): (Box, bool) {
    if Holds(b, d, token)
    then (b.(rows := b.rows[d := b.rows[d].(state := Pending, availableAt := availableAt, token := None, leaseUntil := None)]), true)
    else (b, false)
  }

  /** Exponential back-off of the credit worker: one second doubling up to 256 seconds. */
  function RetryAt(now: int, attempts: nat): int {
    var exponent := if attempts <= 1 then 0 else if attempts - 1 < 8 then attempts - 1 else 8;
    var delay := 1_000 * Power(exponent);
    now + if delay < 300_000 then delay else 300_000
  }

  function Power(n: nat): nat {
    if n == 0 then 1 else 2 * Power(n - 1)
  }
}

/** Lease fencing, over every interleaving of claims, completions and give-backs. */
module OutboxProofs {
  import opened Options
  import opened Types
  import opened Outbox

  /** How often a delivery was claimed. */
  function Claims(claims: seq<nat>, d: nat): nat {
    if claims == [] then 0
    else Claims(claims[..|claims| - 1], d) + if claims[|claims| - 1] == d then 1 else 0
  }

  /** Token t is the newest claim of its delivery. */
  predicate Newest(claims: seq<nat>, t: nat) {
    t < |claims| && forall u :: t < u < |claims| ==> claims[u] != claims[t]
  }

  predicate RowOk(b: Box, d: nat)
    requires d < |b.rows|
  {
    var row := b.rows[d];
    && (row.state == Processing <==> row.token.Some?)
    && (row.token.Some? <==> row.leaseUntil.Some?)
    && (row.token.Some? ==> Newest(b.claims, row.token.value) && b.claims[row.token.value] == d)
    && row.attempts == Claims(b.claims, d)
  }

  predicate BoxOk(b: Box) {
    && (forall d :: 0 <= d < |b.rows| ==> RowOk(b, d))
    && (forall t :: 0 <= t < |b.claims| ==> b.claims[t] < |b.rows|)
  }

  /** The claim log only grows, and a delivered row never changes again. */
  predicate BoxContinues(b: Box, b': Box) {
    && |b.rows| <= |b'.rows|
    && b.claims <= b'.claims
    && forall d :: 0 <= d < |b.rows| && b.rows[d].state == Delivered ==> b'.rows[d] == b.rows[d]
  }

  lemma {:induction false} ClaimsAppended(claims: seq<nat>, k: nat, d: nat)
    ensures Claims(claims + [k], d) == Claims(claims, d) + if k == d then 1 else 0
  {
    assert (claims + [k])[..|claims|] == claims;
  }

  lemma {:induction false} NoClaims(claims: seq<nat>, d: nat)
    requires forall t :: 0 <= t < |claims| ==> claims[t] != d
    ensures Claims(claims, d) == 0
  {
    if claims == [] {
    } else {
      NoClaims(claims[..|claims| - 1], d);
    }
  }

  lemma EnqueuedKeeps(b: Box, now: int)
    requires BoxOk(b)
    ensures BoxOk(Enqueued(b, now)) && BoxContinues(b, Enqueued(b, now))
  {
    var b' := Enqueued(b, now);
    NoClaims(b.claims, |b.rows|);
    forall d | 0 <= d < |b'.rows| ensures RowOk(b', d) {
      if d < |b.rows| {
        assert RowOk(b, d);
      }
    }
  }

  lemma ClaimRowKeeps(b: Box, k: nat, leaseUntil: int)
    requires BoxOk(b) && k < |b.rows| && b.rows[k].state != Delivered
    ensures BoxOk(ClaimRow(b, k, leaseUntil)) && BoxContinues(b, ClaimRow(b, k, leaseUntil))
  {
    var b' := ClaimRow(b, k, leaseUntil);
    forall d | 0 <= d < |b'.rows| ensures RowOk(b', d) {
      assert RowOk(b, d);
      ClaimsAppended(b.claims, k, d);
    }
  }

  lemma {:induction false} ClaimRowsKeeps(b: Box, ids: seq<nat>, leaseUntil: int)
    requires BoxOk(b) && Ids(b.rows, ids)
    requires forall k :: 0 <= k < |ids| ==> b.rows[ids[k]].state != Delivered
    ensures var b' := ClaimRows(b, ids, leaseUntil);
            && BoxOk(b') && BoxContinues(b, b') && b'.claims == b.claims + ids
            && (forall d :: 0 <= d < |b.rows| ==> (b'.rows[d].state == Delivered <==> b.rows[d].state == Delivered))
  {
    if ids == [] {
    } else {
      var n := |ids| - 1;
      var mid := ClaimRows(b, ids[..n], leaseUntil);
      ClaimRowsKeeps(b, ids[..n], leaseUntil);
      ClaimRowKeeps(mid, ids[n], leaseUntil);
      assert ids[..n] + [ids[n]] == ids;
    }
  }

  lemma ClaimPendingKeeps(b: Box, limit: int, now: int, leaseUntil: int, locked: set<nat>)
    requires BoxOk(b)
    ensures var next := ClaimPending(b, limit, now, leaseUntil, locked);
            next.Some? ==> BoxOk(next.value) && BoxContinues(b, next.value)
                           && forall d :: 0 <= d < |b.rows| ==> (next.value.rows[d].state == Delivered <==> b.rows[d].state == Delivered)
  {
    if limit > 0 {
      ClaimRowsKeeps(b, Candidates(b, limit, now, locked), leaseUntil);
    }
  }

  lemma ReleaseKeeps(b: Box, d: nat, token: nat, row: Delivery)
    requires BoxOk(b) && Holds(b, d, token)
    requires row.token.None? && row.leaseUntil.None? && row.state != Processing && row.attempts == b.rows[d].attempts
    ensures BoxOk(b.(rows := b.rows[d := row])) && BoxContinues(b, b.(rows := b.rows[d := row]))
  {
    var b' := b.(rows := b.rows[d := row]);
    forall e | 0 <= e < |b'.rows| ensures RowOk(b', e) {
      assert RowOk(b, e);
    }
  }

  lemma MarkDeliveredKeeps(b: Box, d: nat, token: nat)
    requires BoxOk(b)
    ensures BoxOk(MarkDelivered(b, d, token).0) && BoxContinues(b, MarkDelivered(b, d, token).0)
  {
    if Holds(b, d, token) {
      ReleaseKeeps(b, d, token, b.rows[d].(state := Delivered, token := None, leaseUntil := None));
    }
  }

  lemma RescheduleKeeps(b: Box, d: nat, token: nat, availableAt: int)
    requires BoxOk(b)
    ensures BoxOk(Reschedule(b, d, token, availableAt).0) && BoxContinues(b, Reschedule(b, d, token, availableAt).0)
  {
    if Holds(b, d, token) {
      ReleaseKeeps(b, d, token, b.rows[d].(state := Pending, availableAt := availableAt, token := None, leaseUntil := None));
    }
  }

  /** A worker whose delivery was claimed again can neither complete it nor give it back. */
  lemma SupersededIsFenced(b: Box, d: nat, token: nat, newer: nat, availableAt: int)
    requires BoxOk(b) && token < newer < |b.claims| && b.claims[newer] == d
    ensures MarkDelivered(b, d, token) == (b, false)
    ensures Reschedule(b, d, token, availableAt) == (b, false)
  {
    assert d < |b.rows| ==> RowOk(b, d);
  }

  /** At most one token per delivery is good at any time, and a token is good for one delivery. */
  lemma HolderIsUnique(b: Box, d: nat, d': nat, t: nat, t': nat)
    requires BoxOk(b) && Holds(b, d, t) && Holds(b, d', t')
    ensures d == d' <==> t == t'
  {
    assert RowOk(b, d) && RowOk(b, d');
  }

  /** The delay grows with the attempts and stays between one second and 256 seconds. */
  lemma RetryBounds(now: int, attempts: nat)
    ensures now + 1_000 <= RetryAt(now, attempts) <= now + 256_000
    ensures RetryAt(now, attempts) <= RetryAt(now, attempts + 1)
    ensures attempts >= 9 ==> RetryAt(now, attempts) == now + 256_000
  {
    assert Power(0) == 1 && Power(1) == 2 && Power(2) == 4 && Power(3) == 8;
    assert Power(4) == 16 && Power(5) == 32 && Power(6) == 64 && Power(7) == 128 && Power(8) == 256;
  }

  /** A claim takes the oldest: a due delivery that nobody has locked is left only if the batch is
      full of deliveries that come before it. */
  lemma OldestAreClaimed(b: Box, limit: nat, now: int, locked: set<nat>, d: nat)
    requires limit > 0 && d < |b.rows| && Due(b.rows[d], now) && d !in locked && d !in Candidates(b, limit, now, locked)
    ensures var ids := Candidates(b, limit, now, locked);
            |ids| == (if limit < MAX_BATCH then limit else MAX_BATCH) && forall j :: 0 <= j < |ids| ==> Before(b.rows, ids[j], d)
  {
    var due := DueRows(b.rows, |b.rows|, now, locked);
    var ids := Candidates(b, limit, now, locked);
    var p :| 0 <= p < |due| && due[p] == d;
    assert forall j :: 0 <= j < |ids| ==> ids[j] == due[j] && ids[j] in ids;
  }

  /** Every claimed delivery is leased under its own new token and has one more attempt; the others
      are as they were. */
  lemma {:induction false} ClaimEffect(b: Box, ids: seq<nat>, leaseUntil: int, d: nat)
    requires Ids(b.rows, ids) && d < |b.rows| && forall j, k :: 0 <= j < k < |ids| ==> ids[j] != ids[k]
    ensures var b' := ClaimRows(b, ids, leaseUntil);
            && b'.claims == b.claims + ids
            && (d !in ids ==> b'.rows[d] == b.rows[d])
            && (forall j :: 0 <= j < |ids| && ids[j] == d ==>
                  b'.rows[d] == b.rows[d].(state := Processing, attempts := b.rows[d].attempts + 1,
                                           token := Some(|b.claims| + j), leaseUntil := Some(leaseUntil)))
  {
    if ids == [] {
    } else {
      var n := |ids| - 1;
      var first := ids[..n];
      ClaimEffect(b, first, leaseUntil, d);
      assert ids == first + [ids[n]];
      assert ids[n] !in first;
      hide Ids, ClaimRows;
      var mid := ClaimRows(b, first, leaseUntil);
      assert ClaimRows(b, ids, leaseUntil) == ClaimRow(mid, ids[n], leaseUntil) by { ClaimRowsLast(b, ids, leaseUntil); }
    }
  }

  lemma {:induction false} ClaimRowsLast(b: Box, ids: seq<nat>, leaseUntil: int)
    requires Ids(b.rows, ids) && ids != []
    ensures Ids(b.rows, ids[..|ids| - 1])
    ensures ClaimRows(b, ids, leaseUntil) == ClaimRow(ClaimRows(b, ids[..|ids| - 1], leaseUntil), ids[|ids| - 1], leaseUntil)
  {
  }

  /** The holder of the current token, and nobody else, finishes a delivery or gives it back. */
  lemma HolderDecides(b: Box, d: nat, token: nat, availableAt: int)
    ensures MarkDelivered(b, d, token).1 <==> Holds(b, d, token)
    ensures Reschedule(b, d, token, availableAt).1 <==> Holds(b, d, token)
    ensures Holds(b, d, token) ==>
              && MarkDelivered(b, d, token).0.rows[d].state == Delivered
              && Reschedule(b, d, token, availableAt).0.rows[d].state == Pending
              && Reschedule(b, d, token, availableAt).0.rows[d].availableAt == availableAt
              && !Due(MarkDelivered(b, d, token).0.rows[d], availableAt)
              && (forall now :: Due(Reschedule(b, d, token, availableAt).0.rows[d], now) <==> availableAt <= now)
  {
  }
}

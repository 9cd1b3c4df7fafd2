/** The outbox repository and the worker that turns an approved completion into a debit. */
module CreditWorker {
  import opened Options
  import opened Types
  import opened Platform
  import opened Database
  import CreditRepository
  import O = OutboxProofs
  import Outbox

  /** What a worker is handed for one claimed delivery. */
  datatype Job = Job(token: nat, attempts: nat)

  class Deliveries {
    const db: Store

    constructor (db: Store)
      ensures this.db == db
    {
      this.db := db;
    }

    /** UPDATE of one delivery to PROCESSING under a fresh lock token. */
    method LeaseRow(d: nat, leaseUntil: int) returns (job: Job)
      requires d < |db.deliveries|
      modifies db
      ensures db.View() == old(db.View()).(box := Outbox.ClaimRow(old(db.View()).box, d, leaseUntil))
      ensures job == Job(|old(db.claims)|, old(db.deliveries)[d].attempts + 1)
    {
      var row := db.deliveries[d];
      job := Job(|db.claims|, row.attempts + 1);
      db.deliveries := db.deliveries[d := row.(state := Outbox.Processing, attempts := row.attempts + 1,
                                               token := Some(job.token), leaseUntil := Some(leaseUntil))];
      db.claims := db.claims + [d];
    }

    /** Leases up to limit due deliveries, each under a fresh token. */
    method ClaimPending(limit: int, now: int, leaseUntil: int, locked: set<nat>) returns (ok: bool, jobs: seq<Job>)
      modifies db
      ensures var box := old(db.View()).box;
              var next := Outbox.ClaimPending(box, limit, now, leaseUntil, locked);
              && (ok <==> next.Some?)
              && db.View() == old(db.View()).(box := if ok then next.value else box)
      ensures jobs == Jobs(db.View().box, |old(db.claims)|) && |old(db.claims)| <= |db.claims|
    {
      hide Outbox.Candidates;
      ghost var before := db.View().box;
      jobs := [];
      ok := limit <= 0 || leaseUntil > now;
      if limit > 0 && ok {
        ghost var s := db.View();
        var ids := Outbox.Candidates(Outbox.Box(db.deliveries, db.claims), limit, now, locked);
        for j := 0 to |ids|
          invariant db.View() == s.(box := Outbox.ClaimRows(s.box, ids[..j], leaseUntil))
          invariant |jobs| == j && |db.claims| == |s.box.claims| + j
          invariant forall k :: 0 <= k < j ==>
                      jobs[k] == Job(|s.box.claims| + k, s.box.rows[ids[k]].attempts + 1)
        {
          assert ids[..j + 1][..j] == ids[..j];
          NotYetClaimed(s.box, ids, j, leaseUntil);
          var job := LeaseRow(ids[j], leaseUntil);
          jobs := jobs + [job];
        }
        assert ids[..|ids|] == ids;
        JobsAreClaimed(s.box, ids, leaseUntil, jobs);
      } else {
        NoJobs(before);
      }
    }

    method MarkDelivered(d: nat, token: nat) returns (marked: bool)
      modifies db
      ensures var result := Outbox.MarkDelivered(old(db.View()).box, d, token);
              marked == result.1 && db.View() == old(db.View()).(box := result.0)
    {
      marked := d < |db.deliveries| && db.deliveries[d].state == Outbox.Processing && db.deliveries[d].token == Some(token);
      if marked {
        db.deliveries := db.deliveries[d := db.deliveries[d].(state := Outbox.Delivered, token := None, leaseUntil := None)];
      }
    }

    method Reschedule(d: nat, token: nat, availableAt: int) returns (given: bool)
      modifies db
      ensures var result := Outbox.Reschedule(old(db.View()).box, d, token, availableAt);
              given == result.1 && db.View() == old(db.View()).(box := result.0)
    {
      given := d < |db.deliveries| && db.deliveries[d].state == Outbox.Processing && db.deliveries[d].token == Some(token);
      if given {
        db.deliveries := db.deliveries[d := db.deliveries[d].(state := Outbox.Pending, availableAt := availableAt, token := None, leaseUntil := None)];
      }
    }
  }

  class Worker {
    const db: Store
    const events: Deliveries
    const boundary: CreditRepository.Repository

    constructor (db: Store)
      ensures this.db == db && events.db == db && boundary.db == db
    {
      this.db := db;
      events := new Deliveries(db);
      boundary := new CreditRepository.Repository(db);
    }

    /** One delivery: evaluate its request, then mark it, or give it back if anything throws. */
    method Process(job: Job, failedAt: int)
      requires events.db == db && boundary.db == db
      requires IsClaimed(db.View(), job.token) && EvaluationOf(db.View(), job.token).request < |db.repairs|
      modifies db
      ensures db.View() == Processed(old(db.View()), job, failedAt)
    {
      hide Evaluate, Outbox.MarkDelivered, Outbox.Reschedule, Outbox.RetryAt;
      var d := db.claims[job.token];
      var e := db.evaluations[d];
      var ok := boundary.EvaluateAfterCompletion(e.request, db.repairs[e.request].manager, e.decision);
      if ok {
        EvaluateLeavesOutbox(old(db.View()), e.request, old(db.repairs)[e.request].manager, e.decision);
        db.evaluated := db.evaluated + {job.token};
        var marked := events.MarkDelivered(d, job.token);
      } else {
        var given := events.Reschedule(d, job.token, Outbox.RetryAt(failedAt, job.attempts));
      }
    }

    static lemma EvaluateLeavesOutbox(s: State, i: nat, manager: nat, decision: nat)
      ensures var next := Evaluate(s, i, manager, decision);
              next.Some? ==> (next.value.box, next.value.evaluations, next.value.evaluated) == (s.box, s.evaluations, s.evaluated)
    {
      hide SettlementValid;
    }

    /** The claimed deliveries in turn; each is handled by commands of the machine. */
    method ProcessJobs(jobs: seq<Job>, failedAt: int) returns (ghost trace: seq<Command>)
      requires events.db == db && boundary.db == db
      requires RequestsExist(db.View())
      requires forall j :: 0 <= j < |jobs| ==> jobs[j].token < |db.claims| && db.claims[jobs[j].token] < |db.deliveries|
      modifies db
      ensures db.View() == ProcessedAll(old(db.View()), jobs, failedAt)
      ensures db.View() == Run(old(db.View()), trace)
      ensures |db.claims| == |old(db.claims)|
    {
      hide Apply, Run, Processed;
      ghost var s := db.View();
      trace := [];
      RunNothing(s);
      for j := 0 to |jobs|
        invariant db.View() == Run(s, trace)
        invariant db.View() == ProcessedAll(s, jobs[..j], failedAt)
        invariant |db.repairs| == |s.repairs| && db.evaluations == s.evaluations && db.claims == s.box.claims
      {
        ghost var before := db.View();
        assert jobs[..j + 1][..j] == jobs[..j];
        Process(jobs[j], failedAt);
        ghost var more := Commands(before, jobs[j], failedAt);
        ProcessedIsRun(before, jobs[j], failedAt);
        ProcessedFrame(before, jobs[j], failedAt);
        RunsAppend(s, trace, more);
        trace := trace + more;
      }
      assert jobs[..|jobs|] == jobs;
    }

    /** One poll: the deliveries are claimed together and processed in turn. The whole drain is a run of
        the machine. */
    method Drain(limit: int, now: int, failedAt: int, locked: set<nat>) returns (claimed: nat, ghost trace: seq<Command>)
      requires events.db == db && boundary.db == db
      requires RequestsExist(db.View())
      modifies db
      ensures db.View() == Drained(old(db.View()), limit, now, failedAt, locked)
      ensures claimed == |db.claims| - |old(db.claims)|
      ensures db.View() == Run(old(db.View()), trace)
    {
      hide Apply, Run, ProcessedAll;
      ghost var s := db.View();
      var ok, jobs := events.ClaimPending(limit, now, now + Outbox.LEASE_MS, locked);
      claimed := |jobs|;
      ClaimIsRun(s, limit, now, locked);
      ClaimedRowsExist(s, limit, now, locked);
      hide Outbox.ClaimPending;
      ghost var rest := ProcessJobs(jobs, failedAt);
      trace := [TryClaimDeliveries(limit, now, locked)] + rest;
      RunsAppend(s, [TryClaimDeliveries(limit, now, locked)], rest);
    }
  }

  // ---- what a drain does

  /** The jobs of the claims from a token on. */
  function Jobs(box: Outbox.Box, from: nat): seq<Job> {
    if from > |box.claims| then []
    else
      seq(|box.claims| - from, j requires 0 <= j < |box.claims| - from =>
        Job(from + j, if box.claims[from + j] < |box.rows| then box.rows[box.claims[from + j]].attempts else 0))
  }

  /** The jobs one after the other; one whose delivery does not exist is passed over. */
  function ProcessedAll(s: State, jobs: seq<Job>, failedAt: int): State {
    if jobs == [] then s
    else
      var n := |jobs| - 1;
      var before := ProcessedAll(s, jobs[..n], failedAt);
      if IsClaimed(before, jobs[n].token) && EvaluationOf(before, jobs[n].token).request < |before.repairs|
      then Processed(before, jobs[n], failedAt) else before
  }

  function Drained(s: State, limit: int, now: int, failedAt: int, locked: set<nat>): State {
    var next := Outbox.ClaimPending(s.box, limit, now, now + Outbox.LEASE_MS, locked);
    if next.None? then s else ProcessedAll(s.(box := next.value), Jobs(next.value, |s.box.claims|), failedAt)
  }

  lemma RunNothing(s: State)
    ensures Run(s, []) == s
  {
    hide Apply;
  }

  lemma NoJobs(box: Outbox.Box)
    ensures Jobs(box, |box.claims|) == []
  {
  }

  lemma NotYetClaimed(b: Outbox.Box, ids: seq<nat>, j: nat, leaseUntil: int)
    requires Outbox.Ids(b.rows, ids) && j < |ids| && forall i, k :: 0 <= i < k < |ids| ==> ids[i] != ids[k]
    ensures Outbox.ClaimRows(b, ids[..j], leaseUntil).rows[ids[j]] == b.rows[ids[j]]
  {
    O.ClaimEffect(b, ids[..j], leaseUntil, ids[j]);
  }

  lemma JobsAreClaimed(b: Outbox.Box, ids: seq<nat>, leaseUntil: int, jobs: seq<Job>)
    requires Outbox.Ids(b.rows, ids) && |jobs| == |ids| && forall i, k :: 0 <= i < k < |ids| ==> ids[i] != ids[k]
    requires forall k :: 0 <= k < |ids| ==> jobs[k] == Job(|b.claims| + k, b.rows[ids[k]].attempts + 1)
    ensures jobs == Jobs(Outbox.ClaimRows(b, ids, leaseUntil), |b.claims|)
  {
    hide Outbox.ClaimRows;
    ClaimRowsClaims(b, ids, leaseUntil);
    forall k | 0 <= k < |ids| ensures Outbox.ClaimRows(b, ids, leaseUntil).rows[ids[k]].attempts == b.rows[ids[k]].attempts + 1 {
      O.ClaimEffect(b, ids, leaseUntil, ids[k]);
    }
  }

  /** Handling one delivery that the worker still holds: marked if its evaluation went through, given back
      until the retry time if it threw. Nothing else in the outbox changes. */
  lemma ProcessedEffect(s: State, job: Job, failedAt: int)
    requires IsClaimed(s, job.token) && EvaluationOf(s, job.token).request < |s.repairs|
    ensures var d := s.box.claims[job.token];
            var e := s.evaluations[d];
            var next := Evaluate(s, e.request, s.repairs[e.request].manager, e.decision);
            var s' := Processed(s, job, failedAt);
            && (s'.repairs, s'.books, s'.keys) == (if next.Some? then (next.value.repairs, next.value.books, next.value.keys) else (s.repairs, s.books, s.keys))
            && s'.box.claims == s.box.claims
            && s'.box.rows == if d < |s.box.rows| && s.box.rows[d].state == Outbox.Processing && s.box.rows[d].token == Some(job.token) then
                                var row := s.box.rows[d];
                                s.box.rows[d := if next.Some? then Outbox.Delivery(Outbox.Delivered, row.availableAt, row.attempts, None, None)
                                                else Outbox.Delivery(Outbox.Pending, Outbox.RetryAt(failedAt, job.attempts), row.attempts, None, None)]
                              else s.box.rows
  {
    hide Evaluate, Outbox.RetryAt;
    var e := EvaluationOf(s, job.token);
    Worker.EvaluateLeavesOutbox(s, e.request, s.repairs[e.request].manager, e.decision);
  }

  /** One job is settled: its delivery is done, or waits for its retry. */
  predicate Settled(box: Outbox.Box, job: Job, failedAt: int) {
    && job.token < |box.claims| && box.claims[job.token] < |box.rows|
    && var row := box.rows[box.claims[job.token]];
       && row.token.None? && row.attempts == job.attempts
       && (row.state == Outbox.Delivered || (row.state == Outbox.Pending && row.availableAt == Outbox.RetryAt(failedAt, job.attempts)))
  }

  predicate Leased(box: Outbox.Box, job: Job) {
    && job.token < |box.claims| && box.claims[job.token] < |box.rows|
    && var row := box.rows[box.claims[job.token]];
       row.state == Outbox.Processing && row.token == Some(job.token) && row.attempts == job.attempts
  }

  predicate Apart(box: Outbox.Box, job: Job, other: Job) {
    job.token < |box.claims| && other.token < |box.claims| && box.claims[job.token] != box.claims[other.token]
  }

  predicate Distinct(box: Outbox.Box, jobs: seq<Job>) {
    forall i, j :: 0 <= i < j < |jobs| ==> Apart(box, jobs[i], jobs[j])
  }

  /** After a drain, every delivery that it claimed is done or waits for its retry, and no other has
      changed: a drain that comes back leaves nothing leased. */
  lemma {:induction false} AllSettled(s: State, jobs: seq<Job>, failedAt: int)
    requires RequestsExist(s) && Distinct(s.box, jobs) && forall j :: 0 <= j < |jobs| ==> Leased(s.box, jobs[j])
    ensures SettledBy(s, ProcessedAll(s, jobs, failedAt), jobs, failedAt)
  {
    hide Processed, Settled, Leased, Distinct, RequestsExist;
    if jobs == [] {
      NothingSettled(s, failedAt);
    } else {
      var n := |jobs| - 1;
      var before := ProcessedAll(s, jobs[..n], failedAt);
      FirstJobs(s.box, jobs, jobs[..n]);
      AllSettled(s, jobs[..n], failedAt);
      OneSettled(s, before, jobs, failedAt);
    }
  }

  predicate SettledBy(s: State, s': State, jobs: seq<Job>, failedAt: int) {
    && s'.box.claims == s.box.claims && |s'.box.rows| == |s.box.rows| && s'.evaluations == s.evaluations && |s'.repairs| == |s.repairs|
    && (forall j :: 0 <= j < |jobs| ==> Settled(s'.box, jobs[j], failedAt))
    && forall d :: 0 <= d < |s.box.rows| && (forall j :: 0 <= j < |jobs| && jobs[j].token < |s.box.claims| ==> s.box.claims[jobs[j].token] != d) ==>
         s'.box.rows[d] == s.box.rows[d]
  }

  lemma NothingSettled(s: State, failedAt: int)
    ensures SettledBy(s, s, [], failedAt)
  {
  }

  lemma FirstJobs(box: Outbox.Box, jobs: seq<Job>, first: seq<Job>)
    requires jobs != [] && first == jobs[..|jobs| - 1] && Distinct(box, jobs) && forall j :: 0 <= j < |jobs| ==> Leased(box, jobs[j])
    ensures Distinct(box, first) && forall j :: 0 <= j < |first| ==> Leased(box, first[j])
  {
    hide Leased;
    assert forall j :: 0 <= j < |first| ==> first[j] == jobs[j];
    forall i, j | 0 <= i < j < |first| ensures Apart(box, first[i], first[j]) {
      assert Apart(box, jobs[i], jobs[j]);
    }
  }

  lemma OneSettled(s: State, before: State, jobs: seq<Job>, failedAt: int)
    requires jobs != [] && RequestsExist(s) && Distinct(s.box, jobs) && Leased(s.box, jobs[|jobs| - 1])
    requires SettledBy(s, before, jobs[..|jobs| - 1], failedAt)
    ensures var job := jobs[|jobs| - 1];
            && IsClaimed(before, job.token) && EvaluationOf(before, job.token).request < |before.repairs|
            && SettledBy(s, Processed(before, job, failedAt), jobs, failedAt)
  {
    hide Processed, Outbox.RetryAt;
    var n := |jobs| - 1;
    var job := jobs[n];
    assert forall j :: 0 <= j < n ==> jobs[..n][j] == jobs[j];
    assert before.box.rows[s.box.claims[job.token]] == s.box.rows[s.box.claims[job.token]];
    ProcessedEffect(before, job, failedAt);
    ProcessedFrame(before, job, failedAt);
  }

  /** What a whole drain leaves of one delivery: if it was taken it is done, or waits for its retry, with
      one more attempt; otherwise it is as it was. */
  lemma DrainEffect(s: State, limit: int, now: int, failedAt: int, locked: set<nat>, d: nat)
    requires RequestsExist(s) && d < |s.box.rows|
    ensures var ids := if limit > 0 then Outbox.Candidates(s.box, limit, now, locked) else [];
            var rows' := Drained(s, limit, now, failedAt, locked).box.rows;
            && d < |rows'|
            && if d in ids then
                 && rows'[d].attempts == s.box.rows[d].attempts + 1 && rows'[d].token.None?
                 && (rows'[d].state == Outbox.Delivered
                     || (rows'[d].state == Outbox.Pending && rows'[d].availableAt == Outbox.RetryAt(failedAt, rows'[d].attempts)))
               else rows'[d] == s.box.rows[d]
  {
    hide ProcessedAll, Outbox.RetryAt, Outbox.Candidates, Outbox.ClaimRows;
    if limit <= 0 {
      NoJobs(s.box);
      NothingProcessed(s, failedAt);
    } else {
      ClaimedDrain(s, Outbox.Candidates(s.box, limit, now, locked), now + Outbox.LEASE_MS, failedAt, d);
    }
  }

  lemma ClaimedDrain(s: State, ids: seq<nat>, leaseUntil: int, failedAt: int, d: nat)
    requires RequestsExist(s) && d < |s.box.rows|
    requires Outbox.Ids(s.box.rows, ids) && forall i, k :: 0 <= i < k < |ids| ==> ids[i] != ids[k]
    ensures var leased := s.(box := Outbox.ClaimRows(s.box, ids, leaseUntil));
            var rows' := ProcessedAll(leased, Jobs(leased.box, |s.box.claims|), failedAt).box.rows;
            && d < |rows'|
            && if d in ids then
                 && rows'[d].attempts == s.box.rows[d].attempts + 1 && rows'[d].token.None?
                 && (rows'[d].state == Outbox.Delivered
                     || (rows'[d].state == Outbox.Pending && rows'[d].availableAt == Outbox.RetryAt(failedAt, rows'[d].attempts)))
               else rows'[d] == s.box.rows[d]
  {
    hide ProcessedAll, Outbox.RetryAt, Outbox.ClaimRows, Settled, Leased, Distinct;
    var leased := s.(box := Outbox.ClaimRows(s.box, ids, leaseUntil));
    var jobs := Jobs(leased.box, |s.box.claims|);
    TakenAreLeased(s.box, ids, leaseUntil);
    AllSettled(leased, jobs, failedAt);
    O.ClaimEffect(s.box, ids, leaseUntil, d);
    assert leased.box.claims[|s.box.claims|..] == ids;
    hide Jobs;
    SettledMeans(leased, ProcessedAll(leased, jobs, failedAt), |s.box.claims|, ids, failedAt, d);
    if d in ids {
      var j :| 0 <= j < |ids| && ids[j] == d;
    }
  }

  lemma NothingProcessed(s: State, failedAt: int)
    ensures ProcessedAll(s, [], failedAt) == s
  {
  }

  lemma TakenAreLeased(b: Outbox.Box, ids: seq<nat>, leaseUntil: int)
    requires Outbox.Ids(b.rows, ids) && forall i, k :: 0 <= i < k < |ids| ==> ids[i] != ids[k]
    ensures var box := Outbox.ClaimRows(b, ids, leaseUntil);
            var jobs := Jobs(box, |b.claims|);
            && |jobs| == |ids| && Distinct(box, jobs)
            && forall j :: 0 <= j < |jobs| ==> Leased(box, jobs[j])
  {
    hide Outbox.ClaimRows, Leased, Jobs;
    var box := Outbox.ClaimRows(b, ids, leaseUntil);
    var jobs := Jobs(box, |b.claims|);
    ClaimRowsClaims(b, ids, leaseUntil);
    JobsAre(box, b.claims, ids);
    forall j | 0 <= j < |ids| ensures Leased(box, jobs[j]) {
      TakenIsLeased(b, ids, leaseUntil, j);
    }
  }

  lemma JobsAre(box: Outbox.Box, claims: seq<nat>, ids: seq<nat>)
    requires box.claims == claims + ids && forall j :: 0 <= j < |ids| ==> ids[j] < |box.rows|
    ensures var jobs := Jobs(box, |claims|);
            && |jobs| == |ids|
            && forall j :: 0 <= j < |ids| ==> jobs[j] == Job(|claims| + j, box.rows[ids[j]].attempts)
  {
    assert forall j :: 0 <= j < |ids| ==> box.claims[|claims| + j] == ids[j];
  }

  lemma TakenIsLeased(b: Outbox.Box, ids: seq<nat>, leaseUntil: int, j: nat)
    requires Outbox.Ids(b.rows, ids) && j < |ids| && forall i, k :: 0 <= i < k < |ids| ==> ids[i] != ids[k]
    ensures var box := Outbox.ClaimRows(b, ids, leaseUntil);
            && box.claims == b.claims + ids
            && Leased(box, Job(|b.claims| + j, box.rows[ids[j]].attempts))
  {
    hide Outbox.ClaimRows;
    O.ClaimEffect(b, ids, leaseUntil, ids[j]);
  }

  lemma SettledMeans(s: State, s': State, from: nat, ids: seq<nat>, failedAt: int, d: nat)
    requires from + |ids| == |s.box.claims| && s.box.claims[from..] == ids && d < |s.box.rows|
    requires forall j :: 0 <= j < |ids| ==> ids[j] < |s.box.rows|
    requires SettledBy(s, s', Jobs(s.box, from), failedAt)
    ensures d in ids ==>
              && s'.box.rows[d].attempts == s.box.rows[d].attempts && s'.box.rows[d].token.None?
              && (s'.box.rows[d].state == Outbox.Delivered
                  || (s'.box.rows[d].state == Outbox.Pending && s'.box.rows[d].availableAt == Outbox.RetryAt(failedAt, s.box.rows[d].attempts)))
    ensures d !in ids ==> s'.box.rows[d] == s.box.rows[d]
  {
    hide Outbox.RetryAt;
    var jobs := Jobs(s.box, from);
    assert forall j :: 0 <= j < |ids| ==> s.box.claims[from + j] == ids[j] && jobs[j] == Job(from + j, s.box.rows[ids[j]].attempts);
    if d in ids {
      var j :| 0 <= j < |ids| && ids[j] == d;
      assert Settled(s'.box, jobs[j], failedAt);
    }
  }

  // ---- a drain in terms of commands

  /** The foreign keys of the deliveries. */
  predicate RequestsExist(s: State) {
    && |s.box.rows| <= |s.evaluations|
    && forall d :: 0 <= d < |s.evaluations| ==> s.evaluations[d].request < |s.repairs|
  }

  function Processed(s: State, job: Job, failedAt: int): State
    requires IsClaimed(s, job.token) && EvaluationOf(s, job.token).request < |s.repairs|
  {
    var e := EvaluationOf(s, job.token);
    var d := s.box.claims[job.token];
    var next := Evaluate(s, e.request, s.repairs[e.request].manager, e.decision);
    if next.Some? then
      next.value.(evaluated := next.value.evaluated + {job.token}, box := Outbox.MarkDelivered(s.box, d, job.token).0)
    else s.(box := Outbox.Reschedule(s.box, d, job.token, Outbox.RetryAt(failedAt, job.attempts)).0)
  }

  function Commands(s: State, job: Job, failedAt: int): seq<Command> {
    if RunEvaluation(s, job.token).Some? then [TryRunEvaluation(job.token), TryFinishDelivery(job.token)]
    else [TryGiveBackDelivery(job.token, failedAt, job.attempts)]
  }

  /** What the three commands of the worker do. */
  lemma WorkerCommands(s: State, job: Job, failedAt: int)
    ensures Apply(s, TryRunEvaluation(job.token)) == if RunEvaluation(s, job.token).Some? then RunEvaluation(s, job.token).value else s
    ensures Apply(s, TryFinishDelivery(job.token)) == if FinishDelivery(s, job.token).Some? then FinishDelivery(s, job.token).value else s
    ensures Apply(s, TryGiveBackDelivery(job.token, failedAt, job.attempts))
            == if GiveBackDelivery(s, job.token, failedAt, job.attempts).Some? then GiveBackDelivery(s, job.token, failedAt, job.attempts).value else s
  {
    hide RunEvaluation, FinishDelivery, GiveBackDelivery;
  }

  lemma ProcessedIsRun(s: State, job: Job, failedAt: int)
    requires IsClaimed(s, job.token) && EvaluationOf(s, job.token).request < |s.repairs|
    ensures Processed(s, job, failedAt) == Run(s, Commands(s, job, failedAt))
  {
    hide Evaluate, Apply, Run, Outbox.MarkDelivered, Outbox.Reschedule, Outbox.RetryAt;
    var e := EvaluationOf(s, job.token);
    Worker.EvaluateLeavesOutbox(s, e.request, s.repairs[e.request].manager, e.decision);
    WorkerCommands(s, job, failedAt);
    if RunEvaluation(s, job.token).Some? {
      WorkerCommands(RunEvaluation(s, job.token).value, job, failedAt);
      RunTwo(s, TryRunEvaluation(job.token), TryFinishDelivery(job.token));
    } else {
      RunOne(s, TryGiveBackDelivery(job.token, failedAt, job.attempts));
    }
  }

  lemma ClaimIsRun(s: State, limit: int, now: int, locked: set<nat>)
    ensures var next := Outbox.ClaimPending(s.box, limit, now, now + Outbox.LEASE_MS, locked);
            Run(s, [TryClaimDeliveries(limit, now, locked)]) == s.(box := if next.Some? then next.value else s.box)
  {
    hide Outbox.ClaimPending;
    RunOne(s, TryClaimDeliveries(limit, now, locked));
  }

  lemma ClaimedRowsExist(s: State, limit: int, now: int, locked: set<nat>)
    ensures var next := Outbox.ClaimPending(s.box, limit, now, now + Outbox.LEASE_MS, locked);
            next.Some? ==> forall t :: |s.box.claims| <= t < |next.value.claims| ==> next.value.claims[t] < |s.box.rows|
  {
    if limit > 0 {
      ClaimRowsClaims(s.box, Outbox.Candidates(s.box, limit, now, locked), now + Outbox.LEASE_MS);
    }
  }

  lemma {:induction false} ClaimRowsClaims(b: Outbox.Box, ids: seq<nat>, leaseUntil: int)
    requires Outbox.Ids(b.rows, ids)
    ensures Outbox.ClaimRows(b, ids, leaseUntil).claims == b.claims + ids
  {
    if ids == [] {
    } else {
      ClaimRowsClaims(b, ids[..|ids| - 1], leaseUntil);
    }
  }

  lemma ProcessedFrame(s: State, job: Job, failedAt: int)
    requires IsClaimed(s, job.token) && EvaluationOf(s, job.token).request < |s.repairs|
    ensures var s' := Processed(s, job, failedAt);
            |s'.repairs| == |s.repairs| && s'.evaluations == s.evaluations && s'.box.claims == s.box.claims
  {
    hide SettlementValid;
  }
}

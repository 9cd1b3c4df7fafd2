/** The confirmation gate of agent tools: a prepared action runs only after its owner confirms it,
    at most once, and each principal has at most one prepared action at a time. */
module AgentGate {
  import opened Options

  datatype Role = TenantRole | LandlordRole | VendorRole

  datatype Principal = Principal(user: nat, role: Role)

  datatype Status = Pending | Executing | Executed | Failed | Cancelled | Expired

  /** activeKey is a unique column; an immediate action has neither key nor expiry. */
  datatype Action = Action(
    principal: Principal,
    callId: string,
    status: Status,
    activeKey: Option<Principal>,
    expiresAt: Option<int>,
    executable: bool)

  // ---- the repository, one function per statement or transaction

  predicate Due(a: Action, now: int) {
    a.status == Pending && a.expiresAt.Some? && a.expiresAt.value <= now
  }

  function Expire(a: Action): Action {
    a.(status := Expired, activeKey := None)
  }

  /** UPDATE ... WHERE PENDING AND expiresAt <= now, for the rows that concern somebody. */
  function ExpireDue(rows: seq<Action>, concerns: Action -> bool, now: int): (out: seq<Action>)
    ensures |out| == |rows|
    ensures forall k :: 0 <= k < |rows| ==> out[k] == if concerns(rows[k]) && Due(rows[k], now) then Expire(rows[k]) else rows[k]
  {
    seq(|rows|, k requires 0 <= k < |rows| => if concerns(rows[k]) && Due(rows[k], now) then Expire(rows[k]) else rows[k])
  }

  function FindCall(rows: seq<Action>, principal: Principal, callId: string): (k: Option<nat>)
    ensures k.Some? ==> k.value < |rows| && rows[k.value].principal == principal && rows[k.value].callId == callId
    ensures k.None? ==> forall j :: 0 <= j < |rows| ==> rows[j].principal != principal || rows[j].callId != callId
  {
    if rows == [] then None
    else
      var n := |rows| - 1;
      if rows[n].principal == principal && rows[n].callId == callId then Some(n) else FindCall(rows[..n], principal, callId)
  }

  function FindActive(rows: seq<Action>, principal: Principal): (k: Option<nat>)
    ensures k.Some? ==> k.value < |rows| && rows[k.value].activeKey == Some(principal)
    ensures k.None? ==> forall j :: 0 <= j < |rows| ==> rows[j].activeKey != Some(principal)
  {
    if rows == [] then None
    else
      var n := |rows| - 1;
      if rows[n].activeKey == Some(principal) then Some(n) else FindActive(rows[..n], principal)
  }

  /** What a caller gets: a row it has claimed, or an existing row to report. */
  datatype Reply = ToRun(row: nat) | Existing(row: nat) | Nothing

  function BeginImmediate(rows: seq<Action>, principal: Principal, callId: string): (seq<Action>, Reply) {
    var found := FindCall(rows, principal, callId);
    if found.Some? then (rows, Existing(found.value))
    else (rows + [Action(principal, callId, Executing, None, None, true)], ToRun(|rows|))
  }

  /** Expires what is due for this user in any role, then returns the action of the same call, the
      active one, or a new one. */
  function CreatePending(rows: seq<Action>, principal: Principal, callId: string, executable: bool, now: int, expiresAt: int): (seq<Action>, Reply) {
    var rows := ExpireDue(rows, (a: Action) => a.principal.user == principal.user, now);
    var duplicate := FindCall(rows, principal, callId);
    var current := FindActive(rows, principal);
    if duplicate.Some? then (rows, Existing(duplicate.value))
    else if current.Some? then (rows, Existing(current.value))
    else (rows + [Action(principal, callId, Pending, Some(principal), Some(expiresAt), executable)], Existing(|rows|))
  }

  function Current(rows: seq<Action>, principal: Principal, now: int): (seq<Action>, Reply) {
    var rows := ExpireDue(rows, (a: Action) => a.activeKey == Some(principal), now);
    var current := FindActive(rows, principal);
    (rows, if current.Some? then Existing(current.value) else Nothing)
  }

  predicate Owned(rows: seq<Action>, principal: Principal, k: nat) {
    k < |rows| && rows[k].principal == principal
  }

  /** The compare-and-set that lets one confirmation through. */
  function Claim(rows: seq<Action>, principal: Principal, k: nat, now: int): (seq<Action>, Reply) {
    if !Owned(rows, principal, k) then (rows, Nothing)
    else if rows[k].status == Pending && rows[k].expiresAt.Some? && rows[k].expiresAt.value > now then
      (rows[k := rows[k].(status := Executing)], ToRun(k))
    else if Due(rows[k], now) then (rows[k := Expire(rows[k])], Existing(k))
    else (rows, Existing(k))
  }

  /** complete and fail. */
  function Finish(rows: seq<Action>, principal: Principal, k: nat, success: bool): seq<Action> {
    if Owned(rows, principal, k) && rows[k].status == Executing
    then rows[k := rows[k].(status := if success then Executed else Failed, activeKey := None)]
    else rows
  }

  function Cancel(rows: seq<Action>, principal: Principal, k: nat): seq<Action> {
    if Owned(rows, principal, k) && rows[k].status == Pending
    then rows[k := rows[k].(status := Cancelled, activeKey := None)] else rows
  }

  // ---- the gate as interleaved steps

  /** runs is the log of executor calls, each with the action it ran for. An executor call that
      never returns is one that no Return names. */
  datatype Gate = Gate(rows: seq<Action>, runs: seq<nat>)

  datatype Command =
    | InvokeImmediate(principal: Principal, callId: string)
    | LookAtCurrent(principal: Principal, now: int)
    | Prepare(principal: Principal, callId: string, executable: bool, now: int, expiresAt: int)
    | Confirm(principal: Principal, row: nat, now: int)
    | Withdraw(principal: Principal, row: nat)
    | Return(run: nat, success: bool)

  function Started(g: Gate, next: (seq<Action>, Reply)): Gate {
    Gate(next.0, if next.1.ToRun? then g.runs + [next.1.row] else g.runs)
  }

  function Apply(g: Gate, c: Command): Gate {
    match c
    case InvokeImmediate(principal, callId) => Started(g, BeginImmediate(g.rows, principal, callId))
    case LookAtCurrent(principal, now) => g.(rows := Current(g.rows, principal, now).0)
    case Prepare(principal, callId, executable, now, expiresAt) =>
      g.(rows := CreatePending(g.rows, principal, callId, executable, now, expiresAt).0)
    case Confirm(principal, k, now) =>
      var claim := Claim(g.rows, principal, k, now);
      if claim.1.ToRun? && k < |claim.0| && !claim.0[k].executable then g.(rows := Finish(claim.0, principal, k, false))
      else Started(g, claim)
    case Withdraw(principal, k) => g.(rows := Cancel(g.rows, principal, k))
    case Return(run, success) =>
      if run < |g.runs| && g.runs[run] < |g.rows|
      then g.(rows := Finish(g.rows, g.rows[g.runs[run]].principal, g.runs[run], success)) else g
  }

  function Run(g: Gate, commands: seq<Command>): Gate {
    if commands == [] then g else Apply(Run(g, commands[..|commands| - 1]), commands[|commands| - 1])
  }

  const EMPTY := Gate([], [])

  // ---- the invariant

  predicate RowOk(a: Action) {
    && (a.activeKey.Some? ==> a.activeKey == Some(a.principal) && (a.status == Pending || a.status == Executing))
    && (a.status == Pending ==> a.activeKey.Some? && a.expiresAt.Some?)
    && (a.expiresAt.Some? && a.status == Executing ==> a.activeKey.Some?)
    && (a.expiresAt.None? ==> a.activeKey.None?)
  }

  predicate RowsOk(rows: seq<Action>) {
    && (forall k :: 0 <= k < |rows| ==> RowOk(rows[k]))
    && (forall j, k :: 0 <= j < k < |rows| && rows[j].activeKey.Some? ==> rows[k].activeKey != rows[j].activeKey)
    && (forall j, k :: 0 <= j < k < |rows| && rows[j].principal == rows[k].principal ==> rows[j].callId != rows[k].callId)
  }

  predicate Ran(status: Status) {
    status == Executing || status == Executed || status == Failed
  }

  predicate RunsOk(g: Gate) {
    && (forall r :: 0 <= r < |g.runs| ==> g.runs[r] < |g.rows| && Ran(g.rows[g.runs[r]].status))
    && (forall q, r :: 0 <= q < r < |g.runs| ==> g.runs[q] != g.runs[r])
  }

  predicate GateOk(g: Gate) {
    RowsOk(g.rows) && RunsOk(g)
  }

  /** An action that is over stays as it is, and none goes back to PENDING. */
  predicate ActionContinues(a: Action, a': Action) {
    && (a'.principal, a'.callId, a'.expiresAt) == (a.principal, a.callId, a.expiresAt)
    && (a.status == Executed || a.status == Failed || a.status == Cancelled || a.status == Expired ==> a'.status == a.status)
    && (a.status == Executing ==> Ran(a'.status))
  }

  predicate GateContinues(g: Gate, g': Gate) {
    && |g.rows| <= |g'.rows| && g.runs <= g'.runs
    && forall k :: 0 <= k < |g.rows| ==> ActionContinues(g.rows[k], g'.rows[k])
  }

  lemma ReplacedOk(rows: seq<Action>, k: nat, a: Action)
    requires RowsOk(rows) && k < |rows| && RowOk(a) && ActionContinues(rows[k], a)
    requires a.activeKey.Some? ==> rows[k].activeKey == a.activeKey
    ensures RowsOk(rows[k := a])
  {
  }

  lemma ExpiredOk(rows: seq<Action>, concerns: Action -> bool, now: int)
    requires RowsOk(rows)
    ensures RowsOk(ExpireDue(rows, concerns, now))
    ensures forall k :: 0 <= k < |rows| ==> ActionContinues(rows[k], ExpireDue(rows, concerns, now)[k])
  {
  }

  lemma AppendedOk(rows: seq<Action>, a: Action)
    requires RowsOk(rows) && RowOk(a)
    requires forall k :: 0 <= k < |rows| ==> rows[k].principal != a.principal || rows[k].callId != a.callId
    requires a.activeKey.Some? ==> forall k :: 0 <= k < |rows| ==> rows[k].activeKey != a.activeKey
    ensures RowsOk(rows + [a])
  {
  }

  lemma FinishOk(g: Gate, rows: seq<Action>, principal: Principal, k: nat, success: bool)
    requires RowsOk(rows) && GateContinues(g, Gate(rows, g.runs))
    ensures RowsOk(Finish(rows, principal, k, success)) && GateContinues(g, Gate(Finish(rows, principal, k, success), g.runs))
  {
    if Owned(rows, principal, k) && rows[k].status == Executing {
      ReplacedOk(rows, k, rows[k].(status := if success then Executed else Failed, activeKey := None));
    }
  }

  lemma RunsStay(g: Gate, rows: seq<Action>)
    requires RunsOk(g) && GateContinues(g, Gate(rows, g.runs))
    ensures RunsOk(Gate(rows, g.runs))
  {
    forall r | 0 <= r < |g.runs| ensures g.runs[r] < |rows| && Ran(rows[g.runs[r]].status) {
      assert ActionContinues(g.rows[g.runs[r]], rows[g.runs[r]]);
    }
  }

  lemma StepKeeps(g: Gate, c: Command)
    requires GateOk(g)
    ensures GateOk(Apply(g, c)) && GateContinues(g, Apply(g, c))
  {
    hide GateOk, GateContinues, CreatePending, Current, Cancel, Finish, Claim, BeginImmediate;
    match c
    case InvokeImmediate(principal, callId) => ImmediateKeeps(g, principal, callId);
    case LookAtCurrent(principal, now) => CurrentKeeps(g, principal, now);
    case Prepare(principal, callId, executable, now, expiresAt) => PrepareKeeps(g, principal, callId, executable, now, expiresAt);
    case Confirm(principal, k, now) => ConfirmKeeps(g, principal, k, now);
    case Withdraw(principal, k) => WithdrawKeeps(g, principal, k);
    case Return(run, success) => ReturnKeeps(g, run, success);
  }

  lemma ImmediateKeeps(g: Gate, principal: Principal, callId: string)
    requires GateOk(g)
    ensures var g' := Started(g, BeginImmediate(g.rows, principal, callId)); GateOk(g') && GateContinues(g, g')
  {
    hide RowsOk;
    if FindCall(g.rows, principal, callId).None? {
      AppendedOk(g.rows, Action(principal, callId, Executing, None, None, true));
    }
  }

  lemma CurrentKeeps(g: Gate, principal: Principal, now: int)
    requires GateOk(g)
    ensures var g' := g.(rows := Current(g.rows, principal, now).0); GateOk(g') && GateContinues(g, g')
  {
    hide RowsOk;
    ExpiredOk(g.rows, (a: Action) => a.activeKey == Some(principal), now);
    RunsStay(g, Current(g.rows, principal, now).0);
  }

  lemma PrepareKeeps(g: Gate, principal: Principal, callId: string, executable: bool, now: int, expiresAt: int)
    requires GateOk(g)
    ensures var g' := g.(rows := CreatePending(g.rows, principal, callId, executable, now, expiresAt).0); GateOk(g') && GateContinues(g, g')
  {
    hide RowsOk;
    var concerns := (a: Action) => a.principal.user == principal.user;
    ExpiredOk(g.rows, concerns, now);
    var expired := ExpireDue(g.rows, concerns, now);
    if FindCall(expired, principal, callId).None? && FindActive(expired, principal).None? {
      AppendedOk(expired, Action(principal, callId, Pending, Some(principal), Some(expiresAt), executable));
    }
    RunsStay(g, CreatePending(g.rows, principal, callId, executable, now, expiresAt).0);
  }

  lemma WithdrawKeeps(g: Gate, principal: Principal, k: nat)
    requires GateOk(g)
    ensures var g' := g.(rows := Cancel(g.rows, principal, k)); GateOk(g') && GateContinues(g, g')
  {
    hide RowsOk;
    RowOf(g.rows, k);
    if Owned(g.rows, principal, k) && g.rows[k].status == Pending {
      ReplacedOk(g.rows, k, g.rows[k].(status := Cancelled, activeKey := None));
    }
    RunsStay(g, Cancel(g.rows, principal, k));
  }

  lemma ReturnKeeps(g: Gate, run: nat, success: bool)
    requires GateOk(g)
    ensures GateOk(Apply(g, Return(run, success))) && GateContinues(g, Apply(g, Return(run, success)))
  {
    hide RowsOk, Finish;
    if run < |g.runs| {
      FinishOk(g, g.rows, g.rows[g.runs[run]].principal, g.runs[run], success);
      RunsStay(g, Apply(g, Return(run, success)).rows);
    }
  }

  lemma RowOf(rows: seq<Action>, k: nat)
    requires RowsOk(rows)
    ensures k < |rows| ==> RowOk(rows[k])
  {
  }

  lemma ConfirmKeeps(g: Gate, principal: Principal, k: nat, now: int)
    requires GateOk(g)
    ensures GateOk(Apply(g, Confirm(principal, k, now))) && GateContinues(g, Apply(g, Confirm(principal, k, now)))
  {
    hide RowsOk;
    assert k < |g.rows| ==> RowOk(g.rows[k]) by { RowOf(g.rows, k); }
    var claim := Claim(g.rows, principal, k, now);
    if Owned(g.rows, principal, k) {
      if claim.1.ToRun? {
        ReplacedOk(g.rows, k, g.rows[k].(status := Executing));
      } else if Due(g.rows[k], now) {
        ReplacedOk(g.rows, k, Expire(g.rows[k]));
      }
    }
    RunsStay(g, claim.0);
    if claim.1.ToRun? {
      FinishOk(g, claim.0, principal, k, false);
      RunsStay(g, Finish(claim.0, principal, k, false));
      assert forall r :: 0 <= r < |g.runs| ==> g.runs[r] != k;
    }
  }

  lemma ContinuesTransitive(a: Gate, b: Gate, c: Gate)
    requires GateContinues(a, b) && GateContinues(b, c)
    ensures GateContinues(a, c)
  {
    forall k | 0 <= k < |a.rows| ensures ActionContinues(a.rows[k], c.rows[k]) {
      assert ActionContinues(a.rows[k], b.rows[k]) && ActionContinues(b.rows[k], c.rows[k]);
    }
  }

  lemma {:induction false} RunKeeps(g: Gate, commands: seq<Command>)
    requires GateOk(g)
    ensures GateOk(Run(g, commands)) && GateContinues(g, Run(g, commands))
  {
    hide GateOk, Apply;
    if commands == [] {
    } else {
      hide GateContinues;
      var n := |commands| - 1;
      RunKeeps(g, commands[..n]);
      StepKeeps(Run(g, commands[..n]), commands[n]);
      ContinuesTransitive(g, Run(g, commands[..n]), Run(g, commands));
    }
  }

  lemma Reachable(commands: seq<Command>)
    ensures GateOk(Run(EMPTY, commands))
  {
    hide Run;
    assert GateOk(EMPTY);
    RunKeeps(EMPTY, commands);
  }

  // ---- the results

  /** However confirmations, cancellations, retries and expiry race, the executor runs at most once
      for an action. */
  lemma ExecutedAtMostOnce(commands: seq<Command>, q: nat, r: nat)
    ensures var g := Run(EMPTY, commands);
            q < |g.runs| && r < |g.runs| && g.runs[q] == g.runs[r] ==> q == r
  {
    hide Run, Apply, RowsOk;
    Reachable(commands);
  }

  /** An action that was cancelled or has expired was never run and never will be. */
  lemma NeverAfterCancellation(commands: seq<Command>, more: seq<Command>, k: nat, r: nat)
    ensures var g := Run(EMPTY, commands);
            var g' := Run(g, more);
            k < |g.rows| && (g.rows[k].status == Cancelled || g.rows[k].status == Expired) && r < |g'.runs| ==> g'.runs[r] != k
  {
    hide Run, Apply, RowsOk;
    Reachable(commands);
    RunKeeps(Run(EMPTY, commands), more);
    var g := Run(EMPTY, commands);
    if k < |g.rows| {
      assert ActionContinues(g.rows[k], Run(g, more).rows[k]);
    }
  }

  /** A run starts only from a PENDING action, before its expiry, at its owner's request, or for a
      new immediate action. */
  lemma RunsAreConfirmed(g: Gate, c: Command)
    requires GateOk(g) && |Apply(g, c).runs| > |g.runs|
    ensures Apply(g, c).runs == g.runs + [Apply(g, c).runs[|g.runs|]]
    ensures var k := Apply(g, c).runs[|g.runs|];
            || (c.InvokeImmediate? && k == |g.rows|)
            || (c.Confirm? && k == c.row < |g.rows| && g.rows[k].status == Pending && g.rows[k].principal == c.principal
                && g.rows[k].expiresAt.Some? && c.now < g.rows[k].expiresAt.value)
  {
  }

  /** A principal has at most one prepared action that is pending or executing, and it is the one
      that holds the principal's active key. */
  lemma OnePreparedAction(commands: seq<Command>, j: nat, k: nat)
    ensures var rows := Run(EMPTY, commands).rows;
            j < |rows| && k < |rows| && rows[j].principal == rows[k].principal && rows[j].expiresAt.Some? && rows[k].expiresAt.Some? ==>
              && (rows[j].activeKey == Some(rows[j].principal) <==> rows[j].status == Pending || rows[j].status == Executing)
              && (rows[j].activeKey.Some? && rows[k].activeKey.Some? ==> j == k)
  {
    hide Run, Apply, RunsOk;
    Reachable(commands);
    var rows := Run(EMPTY, commands).rows;
    if j < |rows| && k < |rows| {
      assert RowOk(rows[j]) && RowOk(rows[k]);
    }
  }

  // ---- what each call does

  /** An action that can still be confirmed at this time. */
  predicate Open(a: Action, now: int) {
    a.status == Pending && a.expiresAt.Some? && now < a.expiresAt.value
  }

  /** A PENDING action whose time is over. */
  predicate Lapsed(a: Action, now: int) {
    a.status == Pending && a.expiresAt.Some? && a.expiresAt.value <= now
  }

  function Closed(a: Action, status: Status): Action {
    a.(status := status, activeKey := None)
  }

  /** A confirmation by its owner starts an open action, or fails it where it cannot be executed; it
      expires one whose time is over; and it does nothing to any other, or for anybody else. */
  lemma ConfirmEffect(g: Gate, principal: Principal, k: nat, now: int)
    requires GateOk(g)
    ensures Apply(g, Confirm(principal, k, now))
            == if k >= |g.rows| || g.rows[k].principal != principal then g
               else
                 var a := g.rows[k];
                 if Open(a, now) then
                   if a.executable then Gate(g.rows[k := a.(status := Executing)], g.runs + [k])
                   else Gate(g.rows[k := Closed(a, Failed)], g.runs)
                 else if Lapsed(a, now) then Gate(g.rows[k := Closed(a, Expired)], g.runs)
                 else g
  {
    hide RunsOk;
    if k < |g.rows| {
      assert g.rows[k := g.rows[k].(status := Executing)][k := Closed(g.rows[k], Failed)] == g.rows[k := Closed(g.rows[k], Failed)];
    }
  }

  /** Preparing first expires this user's lapsed actions of every role. Then it adds a pending action that
      holds the active key, unless this call was made before or another action of the principal is
      active; it never touches anything else. */
  lemma PrepareEffect(g: Gate, principal: Principal, callId: string, executable: bool, now: int, expiresAt: int)
    requires GateOk(g)
    ensures var g' := Apply(g, Prepare(principal, callId, executable, now, expiresAt));
            var n := |g.rows|;
            var known := exists j :: 0 <= j < n && g.rows[j].principal == principal && g.rows[j].callId == callId;
            var busy := exists j :: 0 <= j < n && g.rows[j].activeKey == Some(principal) && !Lapsed(g.rows[j], now);
            && g'.runs == g.runs
            && |g'.rows| == (if known || busy then n else n + 1)
            && (forall j :: 0 <= j < n ==>
                  g'.rows[j] == if g.rows[j].principal.user == principal.user && Lapsed(g.rows[j], now) then Closed(g.rows[j], Expired) else g.rows[j])
            && (!known && !busy ==> g'.rows[n] == Action(principal, callId, Pending, Some(principal), Some(expiresAt), executable))
  {
    hide RunsOk;
    var expired := ExpireDue(g.rows, (a: Action) => a.principal.user == principal.user, now);
    forall j | 0 <= j < |g.rows| ensures expired[j].activeKey == Some(principal) <==> g.rows[j].activeKey == Some(principal) && !Lapsed(g.rows[j], now) {
      assert RowOk(g.rows[j]);
    }
    forall j | 0 <= j < |g.rows| ensures (expired[j].principal, expired[j].callId) == (g.rows[j].principal, g.rows[j].callId) {
    }
  }

  /** Looking expires the principal's active action if its time is over, and otherwise reports it. */
  lemma LookEffect(g: Gate, principal: Principal, now: int, k: nat)
    requires GateOk(g) && k < |g.rows|
    ensures var next := Current(g.rows, principal, now);
            && |next.0| == |g.rows|
            && next.0[k] == (if g.rows[k].activeKey == Some(principal) && Lapsed(g.rows[k], now) then Closed(g.rows[k], Expired) else g.rows[k])
            && (g.rows[k].activeKey == Some(principal) && !Lapsed(g.rows[k], now) ==> next.1 == Existing(k))
            && ((forall j :: 0 <= j < |g.rows| && g.rows[j].activeKey == Some(principal) ==> Lapsed(g.rows[j], now)) ==> next.1 == Nothing)
            && Apply(g, LookAtCurrent(principal, now)) == Gate(next.0, g.runs)
  {
    hide RunsOk;
    var expired := ExpireDue(g.rows, (a: Action) => a.activeKey == Some(principal), now);
    forall j | 0 <= j < |g.rows| ensures expired[j].activeKey == Some(principal) <==> g.rows[j].activeKey == Some(principal) && !Lapsed(g.rows[j], now) {
      assert RowOk(g.rows[j]);
    }
  }

  /** The owner withdraws a pending action, expired or not yet, and nothing else. */
  lemma WithdrawEffect(g: Gate, principal: Principal, k: nat)
    ensures Apply(g, Withdraw(principal, k))
            == if k < |g.rows| && g.rows[k].principal == principal && g.rows[k].status == Pending
               then Gate(g.rows[k := Closed(g.rows[k], Cancelled)], g.runs) else g
  {
  }

  /** What an executor returns is recorded once, on the action it ran for. */
  lemma ReturnEffect(g: Gate, run: nat, success: bool)
    requires GateOk(g)
    ensures Apply(g, Return(run, success))
            == if run < |g.runs| && g.rows[g.runs[run]].status == Executing
               then Gate(g.rows[g.runs[run] := Closed(g.rows[g.runs[run]], if success then Executed else Failed)], g.runs) else g
  {
    hide RowsOk;
  }

  /** An immediate call starts at once, and the same call again starts nothing. */
  lemma ImmediateEffect(g: Gate, principal: Principal, callId: string)
    ensures Apply(g, InvokeImmediate(principal, callId))
            == if exists j :: 0 <= j < |g.rows| && g.rows[j].principal == principal && g.rows[j].callId == callId then g
               else Gate(g.rows + [Action(principal, callId, Executing, None, None, true)], g.runs + [|g.rows|])
  {
  }
}

/** The repository of agent actions in place: its compare-and-set updates one row at a time. */
module AgentRepository {
  import opened AgentGate
  import opened Options

  class Repository {
    var rows: seq<Action>

    constructor ()
      ensures rows == []
    {
      rows := [];
    }

    method CreatePending(principal: Principal, callId: string, executable: bool, now: int, expiresAt: int) returns (reply: Reply)
      modifies this
      ensures (rows, reply) == AgentGate.CreatePending(old(rows), principal, callId, executable, now, expiresAt)
    {
      ghost var before := rows;
      for k := 0 to |rows|
        invariant |rows| == |before|
        invariant rows[k..] == before[k..]
        invariant forall j :: 0 <= j < k ==>
                    rows[j] == if before[j].principal.user == principal.user && Due(before[j], now) then Expire(before[j]) else before[j]
      {
        if rows[k].principal.user == principal.user && Due(rows[k], now) {
          rows := rows[k := Expire(rows[k])];
        }
      }
      assert rows == ExpireDue(before, (a: Action) => a.principal.user == principal.user, now);
      var duplicate := FindCall(rows, principal, callId);
      if duplicate.Some? {
        return Existing(duplicate.value);
      }
      var current := FindActive(rows, principal);
      if current.Some? {
        return Existing(current.value);
      }
      reply := Existing(|rows|);
      rows := rows + [Action(principal, callId, Pending, Some(principal), Some(expiresAt), executable)];
    }

    method BeginImmediate(principal: Principal, callId: string) returns (reply: Reply)
      modifies this
      ensures (rows, reply) == AgentGate.BeginImmediate(old(rows), principal, callId)
    {
      var found := FindCall(rows, principal, callId);
      if found.Some? {
        return Existing(found.value);
      }
      reply := ToRun(|rows|);
      rows := rows + [Action(principal, callId, Executing, None, None, true)];
    }

    method Claim(principal: Principal, k: nat, now: int) returns (reply: Reply)
      modifies this
      ensures (rows, reply) == AgentGate.Claim(old(rows), principal, k, now)
    {
      if !Owned(rows, principal, k) {
        return Nothing;
      }
      reply := Existing(k);
      if rows[k].status == Pending && rows[k].expiresAt.Some? && rows[k].expiresAt.value > now {
        rows := rows[k := rows[k].(status := Executing)];
        reply := ToRun(k);
      } else if Due(rows[k], now) {
        rows := rows[k := Expire(rows[k])];
      }
    }

    method Finish(principal: Principal, k: nat, success: bool)
      modifies this
      ensures rows == AgentGate.Finish(old(rows), principal, k, success)
    {
      if Owned(rows, principal, k) && rows[k].status == Executing {
        rows := rows[k := rows[k].(status := if success then Executed else Failed, activeKey := None)];
      }
    }

    method Cancel(principal: Principal, k: nat)
      modifies this
      ensures rows == AgentGate.Cancel(old(rows), principal, k)
    {
      if Owned(rows, principal, k) && rows[k].status == Pending {
        rows := rows[k := rows[k].(status := Cancelled, activeKey := None)];
      }
    }
  }
}

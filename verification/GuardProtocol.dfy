/** The guarded-write protocol: any number of concurrent `Broker::execute` calls
    (broker.rs) running `Guard::pre_flight` (lib.rs) against the kill switch, the
    policy and the approval inbox, interleaved with operators, the clock, settings
    writes and the kill-switch tasks.  Every await is a place where others may
    step; the steps of one call are its program-counter moves. */
module GuardProtocol {
  import opened Wrappers
  import opened Policy
  import opened Broker
  import opened Approvals
  import KillSwitch

  type CallId = nat

  const POLL_MS: nat := 2000

  datatype Refusal =
    | Killed | PolicyDenied | OperatorDenied(row: RowId) | TimedOut(row: RowId) | DatabaseError | Unresolved

  /** How an execute ended: the transport was called (and succeeded or not), or
      the call was turned away before that. */
  datatype Outcome = Transmitted(ok: bool) | Refused(why: Refusal)

  datatype Pc =
    | AtKillCheck
    | AtEnqueue
    | AtWaitStart(row: RowId)
    | AtPoll(row: RowId, deadline: nat)
    | AtDeadlineTest(row: RowId, deadline: nat)
    | Asleep(row: RowId, deadline: nat, until: nat)
    | AtExpire(row: RowId)
    | Cleared
    | AtAudit(outcome: Outcome)
    | Returned(outcome: Outcome)

  datatype Call = Call(req: ExecRequest, pc: Pc)

  datatype Dispatch = Dispatch(call: CallId, req: ExecRequest)

  datatype AuditEvent = AuditEvent(call: CallId, actor: string, target: string, success: bool)

  /** `owner` records which call inserted a row; rows without an owner were there
      before the first call. */
  datatype State = State(
    kill: KillSwitch.Kill,
    table: Table,
    owner: map<RowId, CallId>,
    now: nat,
    timeoutMs: nat,
    calls: map<CallId, Call>,
    log: seq<Dispatch>,
    audit: seq<AuditEvent>)

  datatype CallAction =
    | Begin(req: ExecRequest)
    | CheckKill
    | Enqueue(id: RowId)
    | EnqueueFails
    | StartWait
    | Poll
    | PollFails
    | TestDeadline
    | Wake
    | Expire(ok: bool)
    | ResolveFails
    | Transmit(ok: bool)
    | Audit(ok: bool)

  datatype Step =
    | KillStep(a: KillSwitch.Action)
    | CallStep(c: CallId, act: CallAction)
    | OperatorDecides(id: RowId, decider: UserId, approve: bool)
    | Advance(ms: nat)
    | SetTimeout(secs: nat)

  /** What pre-flight decides once the kill check has passed. */
  datatype Gate = Free | Forbidden | Gated

  function GateOf(rules: seq<Rule>, r: ExecRequest): Gate
  {
    if DeriveReadOnly(r) then Free
    else match Evaluate(rules, GuardName(r))
         case Allow => Free
         case Deny => Forbidden
         case RequireApproval => Gated
  }

  /** The protocol is stated over any gate function; the guard's is `Gates(rules)`. */
  type GateFn = ExecRequest -> Gate

  function Gates(rules: seq<Rule>): GateFn
  {
    r => GateOf(rules, r)
  }

  // ----- the steps ----------------------------------------------------------

  predicate CallEnabled(s: State, c: CallId, a: CallAction)
  {
    if a.Begin? then c !in s.calls
    else
      && c in s.calls
      && var pc := s.calls[c].pc;
         match a
         case CheckKill => pc == AtKillCheck
         case Enqueue(id) => pc == AtEnqueue && id !in s.table
         case EnqueueFails => pc == AtEnqueue
         case StartWait => pc.AtWaitStart?
         case Poll => pc.AtPoll?
         case PollFails => pc.AtPoll?
         case TestDeadline => pc.AtDeadlineTest?
         case Wake => pc.Asleep? && s.now >= pc.until
         case Expire(_) => pc.AtExpire?
         case ResolveFails => pc == Cleared
         case Transmit(_) => pc == Cleared
         case Audit(_) => pc.AtAudit?
  }

  function Goto(s: State, c: CallId, pc: Pc): State
    requires c in s.calls
  {
    s.(calls := s.calls[c := s.calls[c].(pc := pc)])
  }

  /** The kill check first, then the read-only bypass and the policy. */
  function AfterKillCheck(gate: GateFn, engaged: bool, r: ExecRequest): Pc
  {
    if engaged then AtAudit(Refused(Killed))
    else match gate(r)
         case Free => Cleared
         case Forbidden => AtAudit(Refused(PolicyDenied))
         case Gated => AtEnqueue
  }

  function AfterPoll(t: Table, row: RowId, deadline: nat): Pc
  {
    if row in t && t[row].status == Approved then Cleared
    else if row in t && t[row].status == Denied then AtAudit(Refused(OperatorDenied(row)))
    else AtDeadlineTest(row, deadline)
  }

  function ApplyCall(gate: GateFn, s: State, c: CallId, a: CallAction): State
    requires CallEnabled(s, c, a)
  {
    if a.Begin? then s.(calls := s.calls[c := Call(a.req, AtKillCheck)])
    else
      var Call(req, pc) := s.calls[c];
      match a
      case CheckKill => Goto(s, c, AfterKillCheck(gate, s.kill.engaged, req))
      case Enqueue(id) =>
        Goto(s, c, AtWaitStart(id)).(
          table := Insert(s.table, id, req.actor, GuardName(req), Some(req.target), req.op, s.now),
          owner := s.owner[id := c])
      case EnqueueFails => Goto(s, c, AtAudit(Refused(DatabaseError)))
      case StartWait => Goto(s, c, AtPoll(pc.row, s.now + s.timeoutMs))
      case Poll => Goto(s, c, AfterPoll(s.table, pc.row, pc.deadline))
      case PollFails => Goto(s, c, AtAudit(Refused(DatabaseError)))
      case TestDeadline =>
        Goto(s, c, if s.now >= pc.deadline then AtExpire(pc.row) else Asleep(pc.row, pc.deadline, s.now + POLL_MS))
      case Wake => Goto(s, c, AtPoll(pc.row, pc.deadline))
      case Expire(ok) =>
        Goto(s, c, AtAudit(Refused(TimedOut(pc.row)))).(
          table := if ok then ExpireRow(s.table, pc.row, s.now) else s.table)
      case ResolveFails => Goto(s, c, AtAudit(Refused(Unresolved)))
      case Transmit(ok) => Goto(s, c, AtAudit(Transmitted(ok))).(log := s.log + [Dispatch(c, req)])
      case Audit(ok) =>
        Goto(s, c, Returned(pc.outcome)).(
          audit := if ok then s.audit + [AuditEvent(c, req.actor, req.target, pc.outcome == Transmitted(true))]
                   else s.audit)
  }

  predicate Enabled(s: State, step: Step)
  {
    match step
    case KillStep(a) => KillSwitch.Enabled(s.kill, a)
    case CallStep(c, a) => CallEnabled(s, c, a)
    case _ => true
  }

  function Apply(gate: GateFn, s: State, step: Step): State
    requires Enabled(s, step)
  {
    match step
    case KillStep(a) => s.(kill := KillSwitch.Next(s.kill, a))
    case CallStep(c, a) => ApplyCall(gate, s, c, a)
    case OperatorDecides(id, decider, approve) => s.(table := DecideRow(s.table, id, decider, approve, s.now))
    case Advance(ms) => s.(now := s.now + ms)
    case SetTimeout(secs) => if secs > 0 then s.(timeoutMs := secs * 1000) else s
  }

  predicate Init(s: State)
  {
    && KillSwitch.Init(s.kill)
    && (forall id :: id in s.table ==> RowConsistent(s.table[id]))
    && s.owner == map[] && s.calls == map[] && s.log == [] && s.audit == []
    && s.timeoutMs > 0
  }

  ghost predicate IsRun(gate: GateFn, ss: seq<State>, steps: seq<Step>)
  {
    && |ss| == |steps| + 1
    && Init(ss[0])
    && forall i :: 0 <= i < |steps| ==> IsStep(gate, ss[i], steps[i], ss[i + 1])
  }

  predicate IsStep(gate: GateFn, s: State, step: Step, s': State)
  {
    Enabled(s, step) && s' == Apply(gate, s, step)
  }

  // ----- the invariant ------------------------------------------------------

  predicate Records(row: Row, r: ExecRequest)
  {
    row.actor == r.actor && row.capability == GuardName(r) && row.target == Some(r.target) && row.params == r.op
  }

  /** Row `id` is call `c`'s own, approved by a recorded decider, for what `c` asked. */
  predicate ApprovalOf(s: State, id: RowId, c: CallId)
  {
    && id in s.table && id in s.owner && s.owner[id] == c && c in s.calls
    && s.table[id].status == Approved && s.table[id].decidedBy.Some?
    && Records(s.table[id], s.calls[c].req)
  }

  ghost predicate Entitled(gate: GateFn, s: State, c: CallId)
    requires c in s.calls
  {
    gate(s.calls[c].req) == Free || exists id :: ApprovalOf(s, id, c)
  }

  predicate HasRow(pc: Pc)
  {
    pc.AtWaitStart? || pc.AtPoll? || pc.AtDeadlineTest? || pc.Asleep? || pc.AtExpire?
  }

  predicate Ended(pc: Pc)
  {
    pc.AtAudit? || pc.Returned?
  }

  predicate DidTransmit(pc: Pc)
  {
    Ended(pc) && pc.outcome.Transmitted?
  }

  ghost predicate RowsInv(gate: GateFn, s: State)
  {
    && (forall id :: id in s.table ==> RowConsistent(s.table[id]))
    && (forall id :: id in s.owner ==>
         && id in s.table && s.owner[id] in s.calls
         && gate(s.calls[s.owner[id]].req) == Gated
         && Records(s.table[id], s.calls[s.owner[id]].req))
    && (forall i, j :: i in s.owner && j in s.owner && s.owner[i] == s.owner[j] ==> i == j)
  }

  ghost predicate CallInv(gate: GateFn, s: State, c: CallId)
    requires c in s.calls
  {
    var pc := s.calls[c].pc;
    && (pc == AtKillCheck || pc == AtEnqueue ==> forall id :: id in s.owner ==> s.owner[id] != c)
    && (pc == AtEnqueue ==> gate(s.calls[c].req) == Gated)
    && (HasRow(pc) ==> pc.row in s.owner && s.owner[pc.row] == c)
    && (pc == Cleared || DidTransmit(pc) ==> Entitled(gate, s, c))
  }

  ghost predicate LogInv(s: State)
  {
    && (forall k :: 0 <= k < |s.log| ==>
         var e := s.log[k];
         e.call in s.calls && s.calls[e.call].req == e.req && DidTransmit(s.calls[e.call].pc))
    && (forall i, j :: 0 <= i < j < |s.log| ==> s.log[i].call != s.log[j].call)
  }

  ghost predicate AuditInv(s: State)
  {
    && (forall k :: 0 <= k < |s.audit| ==>
         var e := s.audit[k];
         && e.call in s.calls
         && s.calls[e.call].pc.Returned?
         && e.success == (s.calls[e.call].pc.outcome == Transmitted(true))
         && e.actor == s.calls[e.call].req.actor && e.target == s.calls[e.call].req.target)
    && (forall i, j :: 0 <= i < j < |s.audit| ==> s.audit[i].call != s.audit[j].call)
  }

  ghost predicate Inv(gate: GateFn, s: State)
  {
    && RowsInv(gate, s)
    && (forall c :: c in s.calls ==> CallInv(gate, s, c))
    && LogInv(s)
    && AuditInv(s)
  }

  /** What every step keeps about what is already there. */
  ghost predicate Grows(s: State, s': State)
  {
    && Evolves(s.table, s'.table)
    && (forall id :: id in s.owner ==> id in s'.owner && s'.owner[id] == s.owner[id])
    && (forall c :: c in s.calls ==> c in s'.calls && s'.calls[c].req == s.calls[c].req)
    && s.log <= s'.log
  }

  ghost predicate Keeps(gate: GateFn, s: State, s': State)
  {
    Inv(gate, s') && Grows(s, s')
  }

  lemma EntitledStays(gate: GateFn, s: State, s': State, c: CallId)
    requires Grows(s, s') && c in s.calls && Entitled(gate, s, c)
    ensures Entitled(gate, s', c)
  {
    if gate(s.calls[c].req) != Free {
      var id :| ApprovalOf(s, id, c);
      assert ApprovalOf(s', id, c);
    }
  }

  /** A step that leaves the calls alone: a decision, an expiry, time, settings. */
  lemma TableStep(gate: GateFn, s: State, s': State)
    requires Inv(gate, s) && Grows(s, s')
    requires s'.owner == s.owner && s'.calls == s.calls && s'.log == s.log && s'.audit == s.audit
    requires forall id :: id in s'.table ==> id in s.table && RowConsistent(s'.table[id])
    ensures Inv(gate, s')
  {
    forall c | c in s'.calls
      ensures CallInv(gate, s', c)
    {
      assert CallInv(gate, s, c);
      if Entitled(gate, s, c) {
        EntitledStays(gate, s, s', c);
      }
    }
  }

  /** A step of call `c` does not disturb what is known of the others. */
  lemma OthersStay(gate: GateFn, s: State, s': State, c: CallId)
    requires forall d :: d in s.calls ==> CallInv(gate, s, d)
    requires Grows(s, s') && c in s'.calls && s'.calls == s.calls[c := s'.calls[c]]
    requires forall id :: id in s'.owner ==> id in s.owner || s'.owner[id] == c
    requires CallInv(gate, s', c)
    ensures forall d :: d in s'.calls ==> CallInv(gate, s', d)
  {
    forall d | d in s'.calls && d != c
      ensures CallInv(gate, s', d)
    {
      assert CallInv(gate, s, d);
      if Entitled(gate, s, d) {
        EntitledStays(gate, s, s', d);
      }
    }
  }

  lemma RowsStay(gate: GateFn, s: State, s': State)
    requires RowsInv(gate, s) && s'.table == s.table && s'.owner == s.owner
    requires forall d :: d in s.calls ==> d in s'.calls && s'.calls[d].req == s.calls[d].req
    ensures RowsInv(gate, s')
  {
    forall id | id in s'.owner
      ensures && id in s'.table && s'.owner[id] in s'.calls
              && gate(s'.calls[s'.owner[id]].req) == Gated
              && Records(s'.table[id], s'.calls[s'.owner[id]].req)
    {
      assert id in s.owner;
    }
  }

  lemma LogsStay(s: State, s': State, c: CallId)
    requires LogInv(s) && AuditInv(s)
    requires s'.log == s.log && s'.audit == s.audit && c in s'.calls && s'.calls == s.calls[c := s'.calls[c]]
    requires c in s.calls ==> !Ended(s.calls[c].pc)
    ensures LogInv(s') && AuditInv(s')
  {
  }

  lemma GotoGrows(s: State, c: CallId, pc: Pc)
    requires c in s.calls
    ensures Grows(s, Goto(s, c, pc))
  {
  }

  /** A step that only moves one unfinished call to `pc`. */
  lemma MoveStep(gate: GateFn, s: State, c: CallId, pc: Pc)
    requires Inv(gate, s) && c in s.calls && !Ended(s.calls[c].pc)
    requires !DidTransmit(pc) && pc != AtKillCheck
    requires CallInv(gate, Goto(s, c, pc), c)
    ensures Keeps(gate, s, Goto(s, c, pc))
  {
    var s' := Goto(s, c, pc);
    GotoGrows(s, c, pc);
    RowsStay(gate, s, s');
    LogsStay(s, s', c);
    OthersStay(gate, s, s', c);
  }

  lemma BeginStep(gate: GateFn, s: State, c: CallId, req: ExecRequest)
    requires Inv(gate, s) && c !in s.calls
    ensures Keeps(gate, s, ApplyCall(gate, s, c, Begin(req)))
  {
    var s' := ApplyCall(gate, s, c, Begin(req));
    BeginCall(gate, s, c, req);
    RowsStay(gate, s, s');
    LogsStay(s, s', c);
    OthersStay(gate, s, s', c);
  }

  lemma BeginCall(gate: GateFn, s: State, c: CallId, req: ExecRequest)
    requires RowsInv(gate, s) && c !in s.calls
    ensures var s' := ApplyCall(gate, s, c, Begin(req)); CallInv(gate, s', c) && Grows(s, s')
  {
  }

  lemma EnqueueGrows(gate: GateFn, s: State, c: CallId, id: RowId)
    requires RowsInv(gate, s) && CallEnabled(s, c, Enqueue(id))
    ensures Grows(s, ApplyCall(gate, s, c, Enqueue(id)))
  {
    assert id !in s.owner;
  }

  lemma EnqueueRows(gate: GateFn, s: State, c: CallId, id: RowId)
    requires RowsInv(gate, s) && CallEnabled(s, c, Enqueue(id)) && CallInv(gate, s, c)
    ensures RowsInv(gate, ApplyCall(gate, s, c, Enqueue(id)))
  {
    var s' := ApplyCall(gate, s, c, Enqueue(id));
    assert id !in s.owner;
    forall i | i in s'.owner
      ensures && i in s'.table && s'.owner[i] in s'.calls
              && gate(s'.calls[s'.owner[i]].req) == Gated
              && Records(s'.table[i], s'.calls[s'.owner[i]].req)
    {
      assert i != id ==> i in s.owner;
    }
    forall i, j | i in s'.owner && j in s'.owner && s'.owner[i] == s'.owner[j]
      ensures i == j
    {
      assert i != id ==> i in s.owner && s.owner[i] != c;
      assert j != id ==> j in s.owner && s.owner[j] != c;
    }
  }

  lemma EnqueueCall(gate: GateFn, s: State, c: CallId, id: RowId)
    requires CallEnabled(s, c, Enqueue(id))
    ensures CallInv(gate, ApplyCall(gate, s, c, Enqueue(id)), c)
  {
  }

  lemma EnqueueStep(gate: GateFn, s: State, c: CallId, id: RowId)
    requires Inv(gate, s) && CallEnabled(s, c, Enqueue(id))
    ensures Keeps(gate, s, ApplyCall(gate, s, c, Enqueue(id)))
  {
    var s' := ApplyCall(gate, s, c, Enqueue(id));
    assert CallInv(gate, s, c);
    EnqueueRows(gate, s, c, id);
    EnqueueGrows(gate, s, c, id);
    EnqueueCall(gate, s, c, id);
    LogsStay(s, s', c);
    OthersStay(gate, s, s', c);
  }

  lemma LogAppend(s: State, s': State, c: CallId)
    requires LogInv(s) && AuditInv(s) && c in s.calls && !Ended(s.calls[c].pc)
    requires c in s'.calls && s'.calls == s.calls[c := s'.calls[c]] && s'.calls[c].req == s.calls[c].req
    requires DidTransmit(s'.calls[c].pc) && s'.audit == s.audit
    requires s'.log == s.log + [Dispatch(c, s.calls[c].req)]
    ensures LogInv(s') && AuditInv(s')
  {
  }

  lemma TransmitCall(gate: GateFn, s: State, c: CallId, ok: bool)
    requires CallEnabled(s, c, Transmit(ok)) && CallInv(gate, s, c)
    ensures var s' := ApplyCall(gate, s, c, Transmit(ok)); CallInv(gate, s', c) && Grows(s, s')
  {
    EntitledStays(gate, s, ApplyCall(gate, s, c, Transmit(ok)), c);
  }

  lemma TransmitStep(gate: GateFn, s: State, c: CallId, ok: bool)
    requires Inv(gate, s) && CallEnabled(s, c, Transmit(ok))
    ensures Keeps(gate, s, ApplyCall(gate, s, c, Transmit(ok)))
  {
    var s' := ApplyCall(gate, s, c, Transmit(ok));
    assert CallInv(gate, s, c);
    TransmitCall(gate, s, c, ok);
    OthersStay(gate, s, s', c);
    RowsStay(gate, s, s');
    LogAppend(s, s', c);
  }

  lemma AuditCall(gate: GateFn, s: State, c: CallId, ok: bool)
    requires CallEnabled(s, c, Audit(ok)) && CallInv(gate, s, c)
    ensures var s' := ApplyCall(gate, s, c, Audit(ok)); CallInv(gate, s', c) && Grows(s, s')
  {
    var s' := ApplyCall(gate, s, c, Audit(ok));
    if Entitled(gate, s, c) {
      EntitledStays(gate, s, s', c);
    }
  }

  lemma AuditStep(gate: GateFn, s: State, c: CallId, ok: bool)
    requires Inv(gate, s) && CallEnabled(s, c, Audit(ok))
    ensures Keeps(gate, s, ApplyCall(gate, s, c, Audit(ok)))
  {
    var s' := ApplyCall(gate, s, c, Audit(ok));
    assert CallInv(gate, s, c);
    AuditCall(gate, s, c, ok);
    OthersStay(gate, s, s', c);
    RowsStay(gate, s, s');
    AuditAppend(gate, s, c, ok);
  }

  lemma AuditAppend(gate: GateFn, s: State, c: CallId, ok: bool)
    requires LogInv(s) && AuditInv(s) && CallEnabled(s, c, Audit(ok))
    ensures var s' := ApplyCall(gate, s, c, Audit(ok)); LogInv(s') && AuditInv(s')
  {
  }

  lemma PollStep(gate: GateFn, s: State, c: CallId)
    requires Inv(gate, s) && CallEnabled(s, c, Poll)
    ensures Keeps(gate, s, ApplyCall(gate, s, c, Poll))
  {
    var s' := ApplyCall(gate, s, c, Poll);
    var pc := s.calls[c].pc;
    assert CallInv(gate, s, c);
    if s'.calls[c].pc == Cleared {
      assert RowConsistent(s.table[pc.row]);
      assert ApprovalOf(s', pc.row, c);
    }
    MoveStep(gate, s, c, AfterPoll(s.table, pc.row, pc.deadline));
  }

  function Expired(s: State, row: RowId, ok: bool): State
  {
    s.(table := if ok then ExpireRow(s.table, row, s.now) else s.table)
  }

  lemma ExpireIsGoto(gate: GateFn, s: State, c: CallId, ok: bool, row: RowId)
    requires CallEnabled(s, c, Expire(ok)) && row == s.calls[c].pc.row
    ensures ApplyCall(gate, s, c, Expire(ok)) == Goto(Expired(s, row, ok), c, AtAudit(Refused(TimedOut(row))))
  {
  }

  lemma KeepsTransitive(gate: GateFn, s: State, s1: State, s2: State)
    requires Keeps(gate, s, s1) && Keeps(gate, s1, s2)
    ensures Keeps(gate, s, s2)
  {
    GrowsTransitive(s, s1, s2);
  }

  lemma RefuseStep(gate: GateFn, s: State, c: CallId, why: Refusal)
    requires Inv(gate, s) && c in s.calls && !Ended(s.calls[c].pc)
    ensures Keeps(gate, s, Goto(s, c, AtAudit(Refused(why))))
  {
    assert CallInv(gate, s, c);
    PlainCallInv(gate, s, c, AtAudit(Refused(why)));
    MoveStep(gate, s, c, AtAudit(Refused(why)));
  }

  lemma ExpireStep(gate: GateFn, s: State, c: CallId, ok: bool)
    requires Inv(gate, s) && CallEnabled(s, c, Expire(ok))
    ensures Keeps(gate, s, ApplyCall(gate, s, c, Expire(ok)))
  {
    var row := s.calls[c].pc.row;
    var s1 := Expired(s, row, ok);
    ExpireTable(gate, s, row, ok);
    RefuseStep(gate, s1, c, TimedOut(row));
    KeepsTransitive(gate, s, s1, Goto(s1, c, AtAudit(Refused(TimedOut(row)))));
    ExpireIsGoto(gate, s, c, ok, row);
  }

  lemma ExpireTable(gate: GateFn, s: State, row: RowId, ok: bool)
    requires Inv(gate, s)
    ensures Keeps(gate, s, Expired(s, row, ok))
  {
    TableStep(gate, s, Expired(s, row, ok));
  }

  lemma CheckKillStep(gate: GateFn, s: State, c: CallId)
    requires Inv(gate, s) && CallEnabled(s, c, CheckKill)
    ensures Keeps(gate, s, ApplyCall(gate, s, c, CheckKill))
  {
    assert CallInv(gate, s, c);
    MoveStep(gate, s, c, AfterKillCheck(gate, s.kill.engaged, s.calls[c].req));
  }

  /** The moves that look at the clock and the settings at most. */
  function PlainTarget(s: State, pc: Pc, a: CallAction): Pc
  {
    match a
    case StartWait => if pc.AtWaitStart? then AtPoll(pc.row, s.now + s.timeoutMs) else pc
    case Wake => if pc.Asleep? then AtPoll(pc.row, pc.deadline) else pc
    case TestDeadline =>
      if pc.AtDeadlineTest? then
        if s.now >= pc.deadline then AtExpire(pc.row) else Asleep(pc.row, pc.deadline, s.now + POLL_MS)
      else pc
    case ResolveFails => AtAudit(Refused(Unresolved))
    case _ => AtAudit(Refused(DatabaseError))
  }

  predicate IsPlain(a: CallAction)
  {
    a.EnqueueFails? || a.StartWait? || a.PollFails? || a.TestDeadline? || a.Wake? || a.ResolveFails?
  }

  lemma PlainIsGoto(gate: GateFn, s: State, c: CallId, a: CallAction)
    requires CallEnabled(s, c, a) && IsPlain(a)
    ensures ApplyCall(gate, s, c, a) == Goto(s, c, PlainTarget(s, s.calls[c].pc, a))
  {
  }

  lemma PlainCallInv(gate: GateFn, s: State, c: CallId, pc: Pc)
    requires c in s.calls && CallInv(gate, s, c)
    requires
      || (HasRow(s.calls[c].pc) && HasRow(pc) && pc.row == s.calls[c].pc.row)
      || (pc.AtAudit? && pc.outcome.Refused?)
    ensures CallInv(gate, Goto(s, c, pc), c)
  {
  }

  lemma PlainStep(gate: GateFn, s: State, c: CallId, a: CallAction)
    requires Inv(gate, s) && CallEnabled(s, c, a) && IsPlain(a)
    ensures Keeps(gate, s, ApplyCall(gate, s, c, a))
  {
    var pc := PlainTarget(s, s.calls[c].pc, a);
    PlainIsGoto(gate, s, c, a);
    assert CallInv(gate, s, c);
    PlainCallInv(gate, s, c, pc);
    MoveStep(gate, s, c, pc);
  }

  lemma CallStepInv(gate: GateFn, s: State, c: CallId, a: CallAction)
    requires Inv(gate, s) && CallEnabled(s, c, a)
    ensures Keeps(gate, s, ApplyCall(gate, s, c, a))
  {
    match a
    case Begin(req) => BeginStep(gate, s, c, req);
    case CheckKill => CheckKillStep(gate, s, c);
    case Enqueue(id) => EnqueueStep(gate, s, c, id);
    case Poll => PollStep(gate, s, c);
    case Expire(ok) => ExpireStep(gate, s, c, ok);
    case Transmit(ok) => TransmitStep(gate, s, c, ok);
    case Audit(ok) => AuditStep(gate, s, c, ok);
    case _ => PlainStep(gate, s, c, a);
  }

  lemma DecideTable(t: Table, id: RowId, decider: UserId, approve: bool, now: nat)
    requires forall i :: i in t ==> RowConsistent(t[i])
    ensures var t' := DecideRow(t, id, decider, approve, now);
            t'.Keys == t.Keys && Evolves(t, t') && forall i :: i in t' ==> RowConsistent(t'[i])
  {
  }

  lemma DecideStep(gate: GateFn, s: State, id: RowId, decider: UserId, approve: bool)
    requires Inv(gate, s)
    ensures Keeps(gate, s, Apply(gate, s, OperatorDecides(id, decider, approve)))
  {
    DecideTable(s.table, id, decider, approve, s.now);
    TableStep(gate, s, s.(table := DecideRow(s.table, id, decider, approve, s.now)));
  }

  lemma TableIsSame(s: State, s': State)
    requires s'.table == s.table && s'.owner == s.owner && s'.calls == s.calls && s'.log == s.log
    ensures Grows(s, s')
  {
  }

  /** A step of the kill switch, the clock or the settings. */
  lemma QuietStep(gate: GateFn, s: State, s': State)
    requires Inv(gate, s)
    requires s'.table == s.table && s'.owner == s.owner && s'.calls == s.calls && s'.log == s.log && s'.audit == s.audit
    ensures Keeps(gate, s, s')
  {
    TableIsSame(s, s');
    TableStep(gate, s, s');
  }

  lemma KillStepInv(gate: GateFn, s: State, a: KillSwitch.Action)
    requires Inv(gate, s) && KillSwitch.Enabled(s.kill, a)
    ensures Keeps(gate, s, Apply(gate, s, KillStep(a)))
  {
    QuietStep(gate, s, Apply(gate, s, KillStep(a)));
  }

  lemma ClockStepInv(gate: GateFn, s: State, ms: nat)
    requires Inv(gate, s)
    ensures Keeps(gate, s, Apply(gate, s, Advance(ms)))
  {
    QuietStep(gate, s, Apply(gate, s, Advance(ms)));
  }

  lemma SettingsStepInv(gate: GateFn, s: State, secs: nat)
    requires Inv(gate, s)
    ensures Keeps(gate, s, Apply(gate, s, SetTimeout(secs)))
  {
    QuietStep(gate, s, Apply(gate, s, SetTimeout(secs)));
  }

  lemma StepInv(gate: GateFn, s: State, step: Step)
    requires Inv(gate, s) && Enabled(s, step)
    ensures Keeps(gate, s, Apply(gate, s, step))
  {
    match step
    case CallStep(c, a) => CallStepInv(gate, s, c, a);
    case OperatorDecides(id, decider, approve) => DecideStep(gate, s, id, decider, approve);
    case KillStep(a) => KillStepInv(gate, s, a);
    case Advance(ms) => ClockStepInv(gate, s, ms);
    case SetTimeout(secs) => SettingsStepInv(gate, s, secs);
  }

  /** The invariant holds in every state of every run, and the state only grows. */
  lemma {:induction false} RunInv(gate: GateFn, ss: seq<State>, steps: seq<Step>, i: nat)
    requires IsRun(gate, ss, steps) && i <= |steps|
    ensures Inv(gate, ss[i])
  {
    if i > 0 {
      RunInv(gate, ss, steps, i - 1);
      assert IsStep(gate, ss[i - 1], steps[i - 1], ss[i]);
      StepInv(gate, ss[i - 1], steps[i - 1]);
    }
  }

  lemma GrowsTransitive(a: State, b: State, c: State)
    requires Grows(a, b) && Grows(b, c)
    ensures Grows(a, c)
  {
    EvolvesTransitive(a.table, b.table, c.table);
  }

  lemma GrowsReflexive(s: State)
    ensures Grows(s, s)
  {
  }

  lemma RunStepGrows(gate: GateFn, ss: seq<State>, steps: seq<Step>, i: nat, s: State, s': State)
    requires IsRun(gate, ss, steps) && i < |steps| && s == ss[i] && s' == ss[i + 1]
    ensures Grows(s, s')
  {
    RunInv(gate, ss, steps, i);
    assert IsStep(gate, ss[i], steps[i], ss[i + 1]);
    StepInv(gate, s, steps[i]);
  }

  /** The states of a run as a chain in which each grows from the one before. */
  ghost predicate Chain(ss: seq<State>)
  {
    forall i, j :: 0 <= i && j == i + 1 && j < |ss| ==> Grows(ss[i], ss[j])
  }

  lemma RunIsChain(gate: GateFn, ss: seq<State>, steps: seq<Step>)
    requires IsRun(gate, ss, steps)
    ensures Chain(ss)
  {
    forall i, j | 0 <= i && j == i + 1 && j < |ss|
      ensures Grows(ss[i], ss[j])
    {
      RunStepGrows(gate, ss, steps, i, ss[i], ss[j]);
    }
  }

  lemma {:induction false} ChainGrows(ss: seq<State>, i: nat, j: nat)
    requires Chain(ss) && i <= j < |ss|
    ensures Grows(ss[i], ss[j])
  {
    if i < j {
      ChainGrows(ss, i, j - 1);
      GrowsTransitive(ss[i], ss[j - 1], ss[j]);
    } else {
      GrowsReflexive(ss[i]);
    }
  }

  lemma RunGrows(gate: GateFn, ss: seq<State>, steps: seq<Step>, i: nat, j: nat)
    requires IsRun(gate, ss, steps) && i <= j <= |steps|
    ensures Grows(ss[i], ss[j])
  {
    RunIsChain(gate, ss, steps);
    ChainGrows(ss, i, j);
  }
}

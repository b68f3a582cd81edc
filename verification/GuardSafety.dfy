/** Safety of the guarded-write protocol over every run, for any number of calls
    and any interleaving. */
module GuardSafety {
  import opened Wrappers
  import opened Capabilities
  import opened Policy
  import opened Broker
  import opened Approvals
  import opened GuardProtocol
  import KillSwitch

  // ----- dispatches and approvals -------------------------------------------

  /** Whatever reached a transport was free to pass, or has an approved row that
      this same call inserted, for its own actor, capability and target, with a
      recorded decider. */
  lemma DispatchIsEntitled(gate: GateFn, ss: seq<State>, steps: seq<Step>, i: nat, k: nat)
    requires IsRun(gate, ss, steps) && i <= |steps| && k < |ss[i].log|
    ensures var e := ss[i].log[k];
            gate(e.req) != Free ==> gate(e.req) == Gated && exists id :: ApprovalOf(ss[i], id, e.call)
  {
    RunInv(gate, ss, steps, i);
    var s, e := ss[i], ss[i].log[k];
    assert CallInv(gate, s, e.call);
    if gate(e.req) != Free {
      var id :| ApprovalOf(s, id, e.call);
    }
  }

  /** A map without repeated values has at least as many values to choose from. */
  lemma {:induction false} InjectionBound<X, Y>(m: map<X, Y>, ys: set<Y>)
    requires forall x :: x in m ==> m[x] in ys
    requires forall a, b :: a in m && b in m && m[a] == m[b] ==> a == b
    ensures |m| <= |ys|
    decreases |m|
  {
    if |m| > 0 {
      var x :| x in m;
      var rest := m - {x};
      assert rest.Keys == m.Keys - {x};
      assert |rest| == |m| - 1;
      InjectionBound(rest, ys - {m[x]});
    }
  }

  ghost function GatedEntries(gate: GateFn, s: State): set<nat>
  {
    set k: nat | k < |s.log| && gate(s.log[k].req) == Gated
  }

  ghost function ApprovedRows(s: State): set<RowId>
  {
    set id | id in s.table && s.table[id].status == Approved
  }

  /** One row serves one log entry. */
  lemma RowServesOneEntry(s: State, a: nat, b: nat, id: RowId)
    requires LogInv(s) && a < |s.log| && b < |s.log|
    requires ApprovalOf(s, id, s.log[a].call) && ApprovalOf(s, id, s.log[b].call)
    ensures a == b
  {
  }

  ghost function RowOf(s: State, c: CallId): (id: RowId)
    requires exists id :: ApprovalOf(s, id, c)
    ensures ApprovalOf(s, id, c) && id in ApprovedRows(s)
  {
    var id :| ApprovalOf(s, id, c);
    id
  }

  /** Gated dispatches never outnumber approvals, at any point of any run. */
  lemma GatedNeverOutnumberApprovals(gate: GateFn, ss: seq<State>, steps: seq<Step>, i: nat)
    requires IsRun(gate, ss, steps) && i <= |steps|
    ensures |GatedEntries(gate, ss[i])| <= |ApprovedRows(ss[i])|
  {
    RunInv(gate, ss, steps, i);
    var s := ss[i];
    var gated := GatedEntries(gate, s);
    forall k | k in gated
      ensures exists id :: ApprovalOf(s, id, s.log[k].call)
    {
      DispatchIsEntitled(gate, ss, steps, i, k);
    }
    EntriesFitRows(s, gated);
  }

  lemma EntriesFitRows(s: State, entries: set<nat>)
    requires LogInv(s)
    requires forall k :: k in entries ==> k < |s.log| && exists id :: ApprovalOf(s, id, s.log[k].call)
    ensures |entries| <= |ApprovedRows(s)|
  {
    var m := map k | k in entries :: RowOf(s, s.log[k].call);
    forall a, b | a in m && b in m && m[a] == m[b]
      ensures a == b
    {
      RowServesOneEntry(s, a, b, m[a]);
    }
    InjectionBound(m, ApprovedRows(s));
    assert m.Keys == entries;
  }

  /** When the boot lint accepts the registered set, a request carrying one of its
      capabilities is a read or is dispatched only with an approval, whatever the
      request's own read-only flag says. */
  lemma LintedWritesNeedApproval(rules: seq<Rule>, caps: seq<Capability>, ss: seq<State>, steps: seq<Step>,
                                 i: nat, k: nat)
    requires LintWriteCapabilities(Some(rules), caps).Ok?
    requires IsRun(Gates(rules), ss, steps) && i <= |steps| && k < |ss[i].log|
    requires var r := ss[i].log[k].req; r.meta.Some? && r.meta.value in caps && r.capability == Some(r.meta.value.name)
    ensures var e := ss[i].log[k];
            !IsRead(e.req.meta.value) ==> exists id :: ApprovalOf(ss[i], id, e.call)
  {
    DispatchIsEntitled(Gates(rules), ss, steps, i, k);
    var r := ss[i].log[k].req;
    assert !IsRead(r.meta.value) ==> Evaluate(rules, GuardName(r)) != Allow;
    assert Gates(rules)(r) == GateOf(rules, r);
  }

  // ----- rows and refusals --------------------------------------------------

  /** A row that has left pending keeps its status, decider and decision time. */
  lemma RowsAreWriteOnce(gate: GateFn, ss: seq<State>, steps: seq<Step>, i: nat, j: nat, id: RowId)
    requires IsRun(gate, ss, steps) && i <= j <= |steps| && id in ss[i].table
    ensures id in ss[j].table && SameRequest(ss[i].table[id], ss[j].table[id])
    ensures ss[i].table[id].status != Pending ==> ss[j].table[id] == ss[i].table[id]
  {
    RunGrows(gate, ss, steps, i, j);
  }

  lemma {:induction false} EndedStays(gate: GateFn, ss: seq<State>, steps: seq<Step>, i: nat, j: nat, c: CallId)
    requires IsRun(gate, ss, steps) && i <= j <= |steps| && c in ss[i].calls && Ended(ss[i].calls[c].pc)
    ensures c in ss[j].calls && Ended(ss[j].calls[c].pc) && ss[j].calls[c].pc.outcome == ss[i].calls[c].pc.outcome
  {
    if i < j {
      EndedStays(gate, ss, steps, i, j - 1, c);
      assert IsStep(gate, ss[j - 1], steps[j - 1], ss[j]);
    }
  }

  /** A call that was refused, for whatever reason, never has a dispatch in the
      log, not before and not after, even if a late approval beat the expiry. */
  lemma RefusedNeverDispatches(gate: GateFn, ss: seq<State>, steps: seq<Step>, i: nat, j: nat, c: CallId)
    requires IsRun(gate, ss, steps) && i <= |steps| && j <= |steps|
    requires c in ss[i].calls && Ended(ss[i].calls[c].pc) && ss[i].calls[c].pc.outcome.Refused?
    ensures forall k :: 0 <= k < |ss[j].log| ==> ss[j].log[k].call != c
  {
    var n := if i <= j then j else i;
    EndedStays(gate, ss, steps, i, n, c);
    RunInv(gate, ss, steps, n);
    RunGrows(gate, ss, steps, j, n);
    assert forall k :: 0 <= k < |ss[j].log| ==> ss[n].log[k] == ss[j].log[k];
  }

  /** The log holds a call at most once, and so does the audit log; an audited
      success was dispatched. */
  lemma AuditedOnceAndTruthfully(gate: GateFn, ss: seq<State>, steps: seq<Step>, i: nat)
    requires IsRun(gate, ss, steps) && i <= |steps|
    ensures var s := ss[i];
            && (forall a, b :: 0 <= a < b < |s.log| ==> s.log[a].call != s.log[b].call)
            && (forall a, b :: 0 <= a < b < |s.audit| ==> s.audit[a].call != s.audit[b].call)
            && (forall a :: 0 <= a < |s.audit| && s.audit[a].success ==>
                 exists k :: 0 <= k < |s.log| && s.log[k].call == s.audit[a].call
                             && s.log[k].req.actor == s.audit[a].actor && s.log[k].req.target == s.audit[a].target)
  {
    RunInv(gate, ss, steps, i);
    var s := ss[i];
    forall a | 0 <= a < |s.audit| && s.audit[a].success
      ensures exists k :: 0 <= k < |s.log| && s.log[k].call == s.audit[a].call
                          && s.log[k].req.actor == s.audit[a].actor && s.log[k].req.target == s.audit[a].target
    {
      TransmittedIsLogged(gate, ss, steps, i, s.audit[a].call);
    }
  }

  lemma {:induction false} TransmittedIsLogged(gate: GateFn, ss: seq<State>, steps: seq<Step>, i: nat, c: CallId)
    requires IsRun(gate, ss, steps) && i <= |steps| && c in ss[i].calls && DidTransmit(ss[i].calls[c].pc)
    ensures exists k :: 0 <= k < |ss[i].log| && ss[i].log[k] == Dispatch(c, ss[i].calls[c].req)
  {
    if i > 0 {
      assert IsStep(gate, ss[i - 1], steps[i - 1], ss[i]);
      var s, s' := ss[i - 1], ss[i];
      if c in s.calls && DidTransmit(s.calls[c].pc) {
        TransmittedIsLogged(gate, ss, steps, i - 1, c);
        RunGrows(gate, ss, steps, i - 1, i);
        var k :| 0 <= k < |s.log| && s.log[k] == Dispatch(c, s.calls[c].req);
        assert s'.log[k] == s.log[k];
      } else {
        assert steps[i - 1].CallStep? && steps[i - 1].c == c && steps[i - 1].act.Transmit?;
        assert s'.log[|s.log|] == Dispatch(c, s'.calls[c].req);
      }
    }
  }

  // ----- the kill switch ----------------------------------------------------

  ghost function Kills(ss: seq<State>): seq<KillSwitch.Kill>
  {
    seq(|ss|, i requires 0 <= i < |ss| => ss[i].kill)
  }

  ghost function KillActs(steps: seq<Step>): seq<Option<KillSwitch.Action>>
  {
    seq(|steps|, i requires 0 <= i < |steps| => if steps[i].KillStep? then Some(steps[i].a) else None)
  }

  /** Seen from the kill switch, a run of the protocol is a run of the switch. */
  lemma KillRun(gate: GateFn, ss: seq<State>, steps: seq<Step>)
    requires IsRun(gate, ss, steps)
    ensures KillSwitch.IsRun(Kills(ss), KillActs(steps))
  {
    forall i | 0 <= i < |steps|
      ensures KillSwitch.IsStep(Kills(ss)[i], KillActs(steps)[i], Kills(ss)[i + 1])
    {
      assert IsStep(gate, ss[i], steps[i], ss[i + 1]);
    }
  }

  /** From a finished watcher tick that saw the KILL file until the file is
      removed, a call whose kill check falls in that window, read or write, never
      dispatches. */
  lemma NoDispatchFromKillWindow(gate: GateFn, ss: seq<State>, steps: seq<Step>, i: nat, j: nat, k: nat, n: nat,
                                 c: CallId)
    requires IsRun(gate, ss, steps) && i <= k <= j && k < |steps| && j <= |steps| && n <= |steps|
    requires ss[i].kill.watcher == KillSwitch.AtTick && ss[i].kill.last
    requires forall m :: i <= m <= j ==> ss[m].kill.file
    requires steps[k] == CallStep(c, CheckKill)
    ensures forall x :: 0 <= x < |ss[n].log| ==> ss[n].log[x].call != c
  {
    KillRun(gate, ss, steps);
    KillSwitch.EngagedWhileFileStays(Kills(ss), KillActs(steps), i, k);
    assert IsStep(gate, ss[k], steps[k], ss[k + 1]);
    RefusedNeverDispatches(gate, ss, steps, k + 1, n, c);
  }

  lemma {:induction false} PassedKillCheck(gate: GateFn, ss: seq<State>, steps: seq<Step>, n: nat, c: CallId)
    requires IsRun(gate, ss, steps) && n <= |steps| && c in ss[n].calls
    requires ss[n].calls[c].pc != AtKillCheck
    requires !(Ended(ss[n].calls[c].pc) && ss[n].calls[c].pc.outcome == Refused(Killed))
    ensures exists k :: 0 <= k < n && steps[k] == CallStep(c, CheckKill) && !ss[k].kill.engaged
  {
    if n > 0 {
      assert IsStep(gate, ss[n - 1], steps[n - 1], ss[n]);
      if c in ss[n - 1].calls && ss[n - 1].calls[c].pc != AtKillCheck {
        PassedKillCheck(gate, ss, steps, n - 1, c);
      } else {
        assert steps[n - 1] == CallStep(c, CheckKill);
      }
    }
  }

  /** Every dispatch, read or write, has a kill check behind it that found the
      switch released. */
  lemma DispatchPassedKillCheck(gate: GateFn, ss: seq<State>, steps: seq<Step>, n: nat, x: nat)
    requires IsRun(gate, ss, steps) && n <= |steps| && x < |ss[n].log|
    ensures exists k :: 0 <= k < n && steps[k] == CallStep(ss[n].log[x].call, CheckKill) && !ss[k].kill.engaged
  {
    RunInv(gate, ss, steps, n);
    PassedKillCheck(gate, ss, steps, n, ss[n].log[x].call);
  }

  // ----- when an approval counts --------------------------------------------

  /** The guard has let the call through: it is about to resolve its target, failed
      to, or has been transmitted. */
  predicate LetThrough(pc: Pc)
  {
    pc == Cleared || DidTransmit(pc) || (Ended(pc) && pc.outcome == Refused(Unresolved))
  }

  lemma {:induction false} LetThroughIsEntitled(gate: GateFn, ss: seq<State>, steps: seq<Step>, n: nat, c: CallId)
    requires IsRun(gate, ss, steps) && n <= |steps| && c in ss[n].calls && LetThrough(ss[n].calls[c].pc)
    ensures Entitled(gate, ss[n], c)
  {
    RunInv(gate, ss, steps, n);
    assert CallInv(gate, ss[n], c);
    if n > 0 && Ended(ss[n].calls[c].pc) {
      assert IsStep(gate, ss[n - 1], steps[n - 1], ss[n]);
      LetThroughIsEntitled(gate, ss, steps, n - 1, c);
      RunGrows(gate, ss, steps, n - 1, n);
      EntitledStays(gate, ss[n - 1], ss[n], c);
    }
  }

  lemma OtherCallStays(gate: GateFn, s: State, d: CallId, a: CallAction, c: CallId)
    requires CallEnabled(s, d, a) && c in s.calls && c != d
    ensures c in ApplyCall(gate, s, d, a).calls && ApplyCall(gate, s, d, a).calls[c] == s.calls[c]
  {
  }

  /** Only its own steps move a call. */
  lemma OthersDoNotMove(gate: GateFn, s: State, step: Step, c: CallId)
    requires Enabled(s, step) && c in s.calls && !(step.CallStep? && step.c == c)
    ensures c in Apply(gate, s, step).calls && Apply(gate, s, step).calls[c] == s.calls[c]
  {
    match step
    case CallStep(d, a) => OtherCallStays(gate, s, d, a, c);
    case _ =>
  }

  lemma LetThroughOwnStep(gate: GateFn, s: State, c: CallId, a: CallAction)
    requires CallEnabled(s, c, a) && c in s.calls
    ensures var s' := ApplyCall(gate, s, c, a);
            && c in s'.calls
            && (LetThrough(s.calls[c].pc) ==> LetThrough(s'.calls[c].pc))
            && (gate(s.calls[c].req) == Gated && !LetThrough(s.calls[c].pc) && LetThrough(s'.calls[c].pc) ==> a == Poll)
  {
  }

  /** One step never takes a let-through back, and gives it to a gated call only as
      a read of its row. */
  lemma LetThroughStep(gate: GateFn, s: State, step: Step, c: CallId)
    requires Enabled(s, step) && c in s.calls
    ensures var s' := Apply(gate, s, step);
            && c in s'.calls
            && (LetThrough(s.calls[c].pc) ==> LetThrough(s'.calls[c].pc))
            && (gate(s.calls[c].req) == Gated && !LetThrough(s.calls[c].pc) && LetThrough(s'.calls[c].pc) ==>
                 step == CallStep(c, Poll))
  {
    if step.CallStep? && step.c == c {
      LetThroughOwnStep(gate, s, c, step.act);
    } else {
      OthersDoNotMove(gate, s, step, c);
    }
  }

  /** A call is let through once and stays so. */
  lemma {:induction false} LetThroughStays(gate: GateFn, ss: seq<State>, steps: seq<Step>, i: nat, n: nat, c: CallId)
    requires IsRun(gate, ss, steps) && i <= n <= |steps| && c in ss[i].calls && LetThrough(ss[i].calls[c].pc)
    ensures c in ss[n].calls && LetThrough(ss[n].calls[c].pc)
  {
    if i < n {
      LetThroughStays(gate, ss, steps, i, n - 1, c);
      assert IsStep(gate, ss[n - 1], steps[n - 1], ss[n]);
      LetThroughStep(gate, ss[n - 1], steps[n - 1], c);
    }
  }

  /** A call whose own row is still pending has not been let through. */
  lemma PendingIsNotLetThrough(gate: GateFn, ss: seq<State>, steps: seq<Step>, j: nat, id: RowId, c: CallId)
    requires IsRun(gate, ss, steps) && j <= |steps|
    requires IsPending(ss[j].table, id) && id in ss[j].owner && ss[j].owner[id] == c
    ensures c in ss[j].calls && gate(ss[j].calls[c].req) == Gated && !LetThrough(ss[j].calls[c].pc)
  {
    RunInv(gate, ss, steps, j);
    if LetThrough(ss[j].calls[c].pc) {
      LetThroughIsEntitled(gate, ss, steps, j, c);
      assert false;
    }
  }

  /** A gated call is let through by nothing but a read of its row. */
  lemma {:induction false} OnlyAReadLetsThrough(gate: GateFn, ss: seq<State>, steps: seq<Step>, j: nat, n: nat,
                                                c: CallId)
    requires IsRun(gate, ss, steps) && j <= n <= |steps|
    requires c in ss[j].calls && gate(ss[j].calls[c].req) == Gated && !LetThrough(ss[j].calls[c].pc)
    requires c in ss[n].calls && LetThrough(ss[n].calls[c].pc)
    ensures exists k :: j <= k < n && steps[k] == CallStep(c, Poll)
  {
    var m := n - 1;
    RunGrows(gate, ss, steps, j, m);
    assert IsStep(gate, ss[m], steps[m], ss[n]);
    LetThroughStep(gate, ss[m], steps[m], c);
    if LetThrough(ss[m].calls[c].pc) {
      OnlyAReadLetsThrough(gate, ss, steps, j, m, c);
    }
  }

  /** A read of an approved row lets its call through. */
  lemma ReadOfApprovedRow(gate: GateFn, ss: seq<State>, steps: seq<Step>, k: nat, id: RowId, c: CallId)
    requires IsRun(gate, ss, steps) && k < |steps| && steps[k] == CallStep(c, Poll)
    requires id in ss[k].table && ss[k].table[id].status == Approved && id in ss[k].owner && ss[k].owner[id] == c
    ensures c in ss[k + 1].calls && LetThrough(ss[k + 1].calls[c].pc)
  {
    RunInv(gate, ss, steps, k);
    assert IsStep(gate, ss[k], steps[k], ss[k + 1]);
    assert CallInv(gate, ss[k], c);
  }

  /** An approval counts exactly when the waiting call reads its row once more: for
      every approval of a pending row in every run, the call that owns the row has
      been let through by position `n` iff it read the row between the two. */
  lemma ApprovalCountsIffReadAgain(gate: GateFn, ss: seq<State>, steps: seq<Step>, j: nat, n: nat,
                                   id: RowId, decider: UserId, c: CallId)
    requires IsRun(gate, ss, steps) && j < n <= |steps|
    requires steps[j] == OperatorDecides(id, decider, true) && IsPending(ss[j].table, id)
    requires id in ss[j].owner && ss[j].owner[id] == c
    ensures c in ss[n].calls
    ensures LetThrough(ss[n].calls[c].pc) <==> exists k :: j < k < n && steps[k] == CallStep(c, Poll)
  {
    PendingIsNotLetThrough(gate, ss, steps, j, id, c);
    RunGrows(gate, ss, steps, j, n);
    assert IsStep(gate, ss[j], steps[j], ss[j + 1]);
    if LetThrough(ss[n].calls[c].pc) {
      OnlyAReadLetsThrough(gate, ss, steps, j + 1, n, c);
    }
    if k :| j < k < n && steps[k] == CallStep(c, Poll) {
      RunGrows(gate, ss, steps, j + 1, k);
      ReadOfApprovedRow(gate, ss, steps, k, id, c);
      LetThroughStays(gate, ss, steps, k + 1, n, c);
    }
  }

  // ----- what the approver can know -----------------------------------------

  /** Bound to read its row before it can give up. */
  predicate WillRead(pc: Pc)
  {
    pc.AtWaitStart? || pc.AtPoll? || pc.Asleep?
  }

  /** Done with reading: past its last deadline test, or refused. */
  predicate TooLate(s: State, pc: Pc)
  {
    || pc.AtExpire?
    || (pc.AtDeadlineTest? && s.now >= pc.deadline)
    || (Ended(pc) && !LetThrough(pc))
  }

  /** Still to read, through, or failed by the database. */
  predicate InTime(pc: Pc)
  {
    WillRead(pc) || LetThrough(pc) || (Ended(pc) && pc.outcome == Refused(DatabaseError))
  }

  lemma InTimeOwnStep(gate: GateFn, s: State, c: CallId, a: CallAction, id: RowId)
    requires CallEnabled(s, c, a) && c in s.calls && InTime(s.calls[c].pc)
    requires id in s.table && s.table[id].status == Approved && (HasRow(s.calls[c].pc) ==> s.calls[c].pc.row == id)
    ensures c in ApplyCall(gate, s, c, a).calls && InTime(ApplyCall(gate, s, c, a).calls[c].pc)
  {
  }

  lemma InTimeStep(gate: GateFn, s: State, step: Step, c: CallId, id: RowId)
    requires RowsInv(gate, s) && Enabled(s, step) && c in s.calls && CallInv(gate, s, c) && InTime(s.calls[c].pc)
    requires id in s.owner && s.owner[id] == c && id in s.table && s.table[id].status == Approved
    ensures c in Apply(gate, s, step).calls && InTime(Apply(gate, s, step).calls[c].pc)
  {
    if step.CallStep? && step.c == c {
      InTimeOwnStep(gate, s, c, step.act, id);
    } else {
      OthersDoNotMove(gate, s, step, c);
    }
  }

  lemma {:induction false} InTimeStays(gate: GateFn, ss: seq<State>, steps: seq<Step>, j: nat, n: nat,
                                       id: RowId, c: CallId)
    requires IsRun(gate, ss, steps) && j <= n <= |steps| && c in ss[j].calls && InTime(ss[j].calls[c].pc)
    requires id in ss[j].owner && ss[j].owner[id] == c && id in ss[j].table && ss[j].table[id].status == Approved
    ensures c in ss[n].calls && InTime(ss[n].calls[c].pc)
  {
    if j < n {
      var m := n - 1;
      InTimeStays(gate, ss, steps, j, m, id, c);
      RunGrows(gate, ss, steps, j, m);
      RunInv(gate, ss, steps, m);
      assert IsStep(gate, ss[m], steps[m], ss[n]);
      InTimeStep(gate, ss[m], steps[m], c, id);
    }
  }

  lemma TooLateOwnStep(gate: GateFn, s: State, c: CallId, a: CallAction)
    requires CallEnabled(s, c, a) && c in s.calls && TooLate(s, s.calls[c].pc)
    ensures var s' := ApplyCall(gate, s, c, a); c in s'.calls && TooLate(s', s'.calls[c].pc)
  {
  }

  lemma {:induction false} TooLateStays(gate: GateFn, ss: seq<State>, steps: seq<Step>, j: nat, n: nat, c: CallId)
    requires IsRun(gate, ss, steps) && j <= n <= |steps| && c in ss[j].calls && TooLate(ss[j], ss[j].calls[c].pc)
    ensures c in ss[n].calls && TooLate(ss[n], ss[n].calls[c].pc)
  {
    if j < n {
      var m := n - 1;
      TooLateStays(gate, ss, steps, j, m, c);
      assert IsStep(gate, ss[m], steps[m], ss[n]);
      if steps[m].CallStep? && steps[m].c == c {
        TooLateOwnStep(gate, ss[m], c, steps[m].act);
      } else {
        OthersDoNotMove(gate, ss[m], steps[m], c);
        ClockRuns(gate, ss[m], steps[m]);
      }
    }
  }

  /** Where the owner of a pending row can be. */
  lemma OwnerOfPending(gate: GateFn, ss: seq<State>, steps: seq<Step>, j: nat, id: RowId, c: CallId)
    requires IsRun(gate, ss, steps) && j <= |steps|
    requires IsPending(ss[j].table, id) && id in ss[j].owner && ss[j].owner[id] == c
    ensures c in ss[j].calls
    ensures var pc := ss[j].calls[c].pc;
            WillRead(pc) || TooLate(ss[j], pc) || (pc.AtDeadlineTest? && ss[j].now < pc.deadline)
  {
    PendingIsNotLetThrough(gate, ss, steps, j, id, c);
    RunInv(gate, ss, steps, j);
    assert CallInv(gate, ss[j], c);
  }

  /** What an approval is worth, from the state it is made in.  A call that is bound to
      read its row stays so until it is let through or the database fails it; one that
      is done with reading is never let through; and no third kind exists but a call
      between its read and a deadline test it may still pass. */
  lemma ApprovalFate(gate: GateFn, ss: seq<State>, steps: seq<Step>, j: nat, n: nat,
                     id: RowId, decider: UserId, c: CallId)
    requires IsRun(gate, ss, steps) && j < n <= |steps|
    requires steps[j] == OperatorDecides(id, decider, true) && IsPending(ss[j].table, id)
    requires id in ss[j].owner && ss[j].owner[id] == c
    ensures c in ss[j].calls && c in ss[n].calls
    ensures var pc := ss[j].calls[c].pc;
            && (WillRead(pc) ==> InTime(ss[n].calls[c].pc))
            && (TooLate(ss[j], pc) ==> !LetThrough(ss[n].calls[c].pc))
            && (WillRead(pc) || TooLate(ss[j], pc) || (pc.AtDeadlineTest? && ss[j].now < pc.deadline))
  {
    OwnerOfPending(gate, ss, steps, j, id, c);
    assert IsStep(gate, ss[j], steps[j], ss[j + 1]);
    RunGrows(gate, ss, steps, j, n);
    if WillRead(ss[j].calls[c].pc) {
      InTimeStays(gate, ss, steps, j + 1, n, id, c);
    } else if TooLate(ss[j], ss[j].calls[c].pc) {
      TooLateStays(gate, ss, steps, j, n, c);
    }
  }

  // ----- how often a wait reads its row -------------------------------------

  predicate ReadsRow(step: Step, c: CallId)
  {
    step == CallStep(c, Poll) || step == CallStep(c, PollFails)
  }

  /** The reads of its row that call `c` makes in the first `n` steps. */
  function Reads(steps: seq<Step>, c: CallId, n: nat): nat
    requires n <= |steps|
  {
    if n == 0 then 0 else Reads(steps, c, n - 1) + if ReadsRow(steps[n - 1], c) then 1 else 0
  }

  predicate BeforeWait(s: State, c: CallId)
  {
    c in s.calls ==> s.calls[c].pc == AtKillCheck || s.calls[c].pc == AtEnqueue || s.calls[c].pc.AtWaitStart?
  }

  lemma {:induction false} NoReadsBeforeWait(gate: GateFn, ss: seq<State>, steps: seq<Step>, n: nat, c: CallId)
    requires IsRun(gate, ss, steps) && n <= |steps| && BeforeWait(ss[n], c)
    ensures Reads(steps, c, n) == 0
  {
    if n > 0 {
      assert IsStep(gate, ss[n - 1], steps[n - 1], ss[n]);
      NoReadsBeforeWait(gate, ss, steps, n - 1, c);
    }
  }

  predicate GaveUp(outcome: Outcome)
  {
    outcome.Refused? && outcome.why.TimedOut?
  }

  /** Where a wait that began at `start` can be after so many reads. */
  predicate Waiting(s: State, c: CallId, start: nat, timeout: nat, reads_: nat)
  {
    && c in s.calls
    && var most := CeilDiv(timeout, POLL_MS);
       match s.calls[c].pc
       case AtPoll(_, deadline) =>
         deadline == start + timeout && start + reads_ * POLL_MS <= s.now && reads_ <= most
       case AtDeadlineTest(_, deadline) =>
         && deadline == start + timeout
         && 1 <= reads_ <= most + 1 && start + (reads_ - 1) * POLL_MS <= s.now
       case Asleep(_, deadline, until) =>
         deadline == start + timeout && start + reads_ * POLL_MS <= until && reads_ <= most
       case AtKillCheck => false
       case AtEnqueue => false
       case AtWaitStart(_) => false
       case AtExpire(_) => reads_ <= most + 1 && start + timeout <= s.now
       case Cleared => reads_ <= most + 1
       case AtAudit(outcome) => reads_ <= most + 1 && (GaveUp(outcome) ==> start + timeout <= s.now)
       case Returned(outcome) => reads_ <= most + 1 && (GaveUp(outcome) ==> start + timeout <= s.now)
  }

  lemma WaitingOwnStep(gate: GateFn, s: State, c: CallId, a: CallAction, start: nat, timeout: nat, n: nat)
    requires CallEnabled(s, c, a) && Waiting(s, c, start, timeout, n)
    ensures Waiting(ApplyCall(gate, s, c, a), c, start, timeout, n + if a.Poll? || a.PollFails? then 1 else 0)
  {
    if a.TestDeadline? && s.now < s.calls[c].pc.deadline {
      CeilDivBound(n - 1, POLL_MS, timeout);
    }
  }

  lemma WaitingStays(s: State, s': State, c: CallId, start: nat, timeout: nat, n: nat)
    requires Waiting(s, c, start, timeout, n) && c in s'.calls && s'.calls[c] == s.calls[c] && s.now <= s'.now
    ensures Waiting(s', c, start, timeout, n)
  {
  }

  lemma CallsDoNotTakeTime(gate: GateFn, s: State, c: CallId, a: CallAction)
    requires CallEnabled(s, c, a)
    ensures ApplyCall(gate, s, c, a).now == s.now && ApplyCall(gate, s, c, a).timeoutMs == s.timeoutMs
  {
  }

  lemma ClockRuns(gate: GateFn, s: State, step: Step)
    requires Enabled(s, step)
    ensures s.now <= Apply(gate, s, step).now
  {
    match step
    case CallStep(c, a) => CallsDoNotTakeTime(gate, s, c, a);
    case _ =>
  }

  lemma WaitingStep(gate: GateFn, s: State, step: Step, c: CallId, start: nat, timeout: nat, n: nat)
    requires Enabled(s, step) && Waiting(s, c, start, timeout, n)
    ensures Waiting(Apply(gate, s, step), c, start, timeout, n + if ReadsRow(step, c) then 1 else 0)
  {
    if step.CallStep? && step.c == c {
      WaitingOwnStep(gate, s, c, step.act, start, timeout, n);
    } else {
      OthersDoNotMove(gate, s, step, c);
      ClockRuns(gate, s, step);
      WaitingStays(s, Apply(gate, s, step), c, start, timeout, n);
    }
  }

  lemma {:induction false} WaitingRun(gate: GateFn, ss: seq<State>, steps: seq<Step>, w: nat, n: nat, c: CallId)
    requires IsRun(gate, ss, steps) && w < n <= |steps| && steps[w] == CallStep(c, StartWait)
    ensures Waiting(ss[n], c, ss[w].now, ss[w].timeoutMs, Reads(steps, c, n))
  {
    assert IsStep(gate, ss[n - 1], steps[n - 1], ss[n]);
    if n == w + 1 {
      NoReadsBeforeWait(gate, ss, steps, w, c);
    } else {
      WaitingRun(gate, ss, steps, w, n - 1, c);
      WaitingStep(gate, ss[n - 1], steps[n - 1], c, ss[w].now, ss[w].timeoutMs, Reads(steps, c, n - 1));
    }
  }

  lemma {:induction false} ReadsNeedAWait(gate: GateFn, ss: seq<State>, steps: seq<Step>, n: nat, c: CallId)
    requires IsRun(gate, ss, steps) && n <= |steps|
    requires Reads(steps, c, n) > 0 || (c in ss[n].calls && HasRow(ss[n].calls[c].pc) && !BeforeWait(ss[n], c))
    ensures exists w :: 0 <= w < n && steps[w] == CallStep(c, StartWait)
  {
    if n > 0 {
      assert IsStep(gate, ss[n - 1], steps[n - 1], ss[n]);
      if steps[n - 1] != CallStep(c, StartWait) {
        ReadsNeedAWait(gate, ss, steps, n - 1, c);
      }
    }
  }

  /** In every run a call that reads its row at all has started one wait, and reads
      the row at most once per poll interval of the timeout in force then, and once
      more; whatever the settings become later. */
  lemma ReadsAreBounded(gate: GateFn, ss: seq<State>, steps: seq<Step>, n: nat, c: CallId)
    requires IsRun(gate, ss, steps) && n <= |steps| && Reads(steps, c, n) > 0
    ensures exists w :: 0 <= w < n && steps[w] == CallStep(c, StartWait)
    ensures forall w :: 0 <= w < n && steps[w] == CallStep(c, StartWait) ==>
              Reads(steps, c, n) <= CeilDiv(ss[w].timeoutMs, POLL_MS) + 1
  {
    ReadsNeedAWait(gate, ss, steps, n, c);
    forall w | 0 <= w < n && steps[w] == CallStep(c, StartWait)
      ensures Reads(steps, c, n) <= CeilDiv(ss[w].timeoutMs, POLL_MS) + 1
    {
      WaitingRun(gate, ss, steps, w, n, c);
    }
  }

  /** A wait gives up only once its own deadline has passed: a call that is about to
      expire its row or has ended timed out started a wait that long ago. */
  lemma GivesUpPastDeadline(gate: GateFn, ss: seq<State>, steps: seq<Step>, n: nat, c: CallId)
    requires IsRun(gate, ss, steps) && n <= |steps| && c in ss[n].calls
    requires var pc := ss[n].calls[c].pc; pc.AtExpire? || (Ended(pc) && GaveUp(pc.outcome))
    ensures exists w :: 0 <= w < n && steps[w] == CallStep(c, StartWait)
    ensures forall w :: 0 <= w < n && steps[w] == CallStep(c, StartWait) ==>
              ss[n].now >= ss[w].now + ss[w].timeoutMs
  {
    TimedOutWaited(gate, ss, steps, n, c);
    forall w | 0 <= w < n && steps[w] == CallStep(c, StartWait)
      ensures ss[n].now >= ss[w].now + ss[w].timeoutMs
    {
      WaitingRun(gate, ss, steps, w, n, c);
    }
  }

  lemma {:induction false} TimedOutWaited(gate: GateFn, ss: seq<State>, steps: seq<Step>, n: nat, c: CallId)
    requires IsRun(gate, ss, steps) && n <= |steps| && c in ss[n].calls
    requires var pc := ss[n].calls[c].pc; pc.AtExpire? || (Ended(pc) && GaveUp(pc.outcome))
    ensures exists w :: 0 <= w < n && steps[w] == CallStep(c, StartWait)
  {
    if ss[n].calls[c].pc.AtExpire? {
      ReadsNeedAWait(gate, ss, steps, n, c);
    } else {
      assert n > 0;
      assert IsStep(gate, ss[n - 1], steps[n - 1], ss[n]);
      TimedOutWaited(gate, ss, steps, n - 1, c);
    }
  }

  /** A call sleeps for one poll interval from a deadline test. */
  lemma {:induction false} SleepsOneInterval(gate: GateFn, ss: seq<State>, steps: seq<Step>, n: nat, c: CallId)
    requires IsRun(gate, ss, steps) && n <= |steps| && c in ss[n].calls && ss[n].calls[c].pc.Asleep?
    ensures exists k :: 0 <= k < n && steps[k] == CallStep(c, TestDeadline)
                        && ss[n].calls[c].pc.until == ss[k].now + 2000 && ss[k].now < ss[n].calls[c].pc.deadline
  {
    assert IsStep(gate, ss[n - 1], steps[n - 1], ss[n]);
    if c in ss[n - 1].calls && ss[n - 1].calls[c].pc.Asleep? {
      SleepsOneInterval(gate, ss, steps, n - 1, c);
    }
  }

  // ----- why a call ended ---------------------------------------------------

  /** What must have happened for call `c` to end so with this step. */
  predicate Cause(gate: GateFn, s: State, c: CallId, a: CallAction, outcome: Outcome)
  {
    && c in s.calls
    && match outcome
       case Transmitted(ok) => a == Transmit(ok) && s.calls[c].pc == Cleared
       case Refused(Killed) => a == CheckKill && s.kill.engaged
       case Refused(PolicyDenied) => a == CheckKill && !s.kill.engaged && gate(s.calls[c].req) == Forbidden
       case Refused(OperatorDenied(row)) =>
         && a == Poll && s.calls[c].pc.AtPoll? && s.calls[c].pc.row == row
         && row in s.table && s.table[row].status == Denied
       case Refused(TimedOut(row)) => a.Expire? && s.calls[c].pc == AtExpire(row)
       case Refused(DatabaseError) => a == EnqueueFails || a == PollFails
       case Refused(Unresolved) => a == ResolveFails && s.calls[c].pc == Cleared
  }

  lemma EndingStep(gate: GateFn, s: State, c: CallId, a: CallAction)
    requires c in s.calls && CallEnabled(s, c, a) && !Ended(s.calls[c].pc)
    ensures var s' := ApplyCall(gate, s, c, a);
            c in s'.calls && (Ended(s'.calls[c].pc) ==> Cause(gate, s, c, a, s'.calls[c].pc.outcome))
  {
  }

  /** Every outcome has its cause in the run. */
  lemma {:induction false} OutcomeHasCause(gate: GateFn, ss: seq<State>, steps: seq<Step>, n: nat, c: CallId)
    requires IsRun(gate, ss, steps) && n <= |steps| && c in ss[n].calls && Ended(ss[n].calls[c].pc)
    ensures exists k :: 0 <= k < n && steps[k].CallStep? && steps[k].c == c
                        && Cause(gate, ss[k], c, steps[k].act, ss[n].calls[c].pc.outcome)
  {
    var m := n - 1;
    assert IsStep(gate, ss[m], steps[m], ss[n]);
    if c in ss[m].calls && Ended(ss[m].calls[c].pc) {
      EndedStays(gate, ss, steps, m, n, c);
      OutcomeHasCause(gate, ss, steps, m, c);
    } else if steps[m].CallStep? && steps[m].c == c {
      if c in ss[m].calls {
        EndingStep(gate, ss[m], c, steps[m].act);
      }
    } else {
      if c in ss[m].calls {
        OthersDoNotMove(gate, ss[m], steps[m], c);
      }
    }
  }

  /** A call that ended denied by an operator has its own row denied, by someone. */
  lemma DenialIsOnRecord(gate: GateFn, ss: seq<State>, steps: seq<Step>, n: nat, c: CallId, row: RowId)
    requires IsRun(gate, ss, steps) && n <= |steps| && c in ss[n].calls && Ended(ss[n].calls[c].pc)
    requires ss[n].calls[c].pc.outcome == Refused(OperatorDenied(row))
    ensures row in ss[n].table && row in ss[n].owner && ss[n].owner[row] == c
    ensures ss[n].table[row].status == Denied && ss[n].table[row].decidedBy.Some?
  {
    OutcomeHasCause(gate, ss, steps, n, c);
    var k :| 0 <= k < n && steps[k].CallStep? && steps[k].c == c
             && Cause(gate, ss[k], c, steps[k].act, ss[n].calls[c].pc.outcome);
    RunInv(gate, ss, steps, k);
    assert CallInv(gate, ss[k], c) && RowConsistent(ss[k].table[row]);
    RunGrows(gate, ss, steps, k, n);
  }

  /** A read of a denied row ends its call as denied. */
  lemma ReadOfDeniedRow(gate: GateFn, ss: seq<State>, steps: seq<Step>, k: nat, id: RowId, c: CallId)
    requires IsRun(gate, ss, steps) && k < |steps| && steps[k] == CallStep(c, Poll)
    requires id in ss[k].table && ss[k].table[id].status == Denied && id in ss[k].owner && ss[k].owner[id] == c
    ensures c in ss[k + 1].calls && ss[k + 1].calls[c].pc == AtAudit(Refused(OperatorDenied(id)))
  {
    RunInv(gate, ss, steps, k);
    assert IsStep(gate, ss[k], steps[k], ss[k + 1]);
    assert CallInv(gate, ss[k], c);
  }

  /** An expiry that reaches the database leaves no pending row behind. */
  lemma ExpiryClosesRow(gate: GateFn, ss: seq<State>, steps: seq<Step>, k: nat, n: nat, c: CallId, row: RowId)
    requires IsRun(gate, ss, steps) && k < n <= |steps| && steps[k] == CallStep(c, Expire(true))
    requires c in ss[k].calls && ss[k].calls[c].pc == AtExpire(row)
    ensures row in ss[n].table && ss[n].table[row].status != Pending
  {
    RunInv(gate, ss, steps, k);
    assert CallInv(gate, ss[k], c);
    assert IsStep(gate, ss[k], steps[k], ss[k + 1]);
    RunGrows(gate, ss, steps, k + 1, n);
  }

  // ----- what the policy decides --------------------------------------------

  /** Where a call can be once its kill check is behind it. */
  predicate OnPath(g: Gate, pc: Pc)
  {
    match g
    case Forbidden => Ended(pc) && (pc.outcome == Refused(Killed) || pc.outcome == Refused(PolicyDenied))
    case Free =>
      || pc == Cleared
      || (Ended(pc) && (pc.outcome.Transmitted? || pc.outcome == Refused(Killed) || pc.outcome == Refused(Unresolved)))
    case Gated => pc == AtEnqueue || HasRow(pc) || LetThrough(pc) || (Ended(pc) && pc.outcome != Refused(PolicyDenied))
  }

  lemma OnPathStep(gate: GateFn, s: State, c: CallId, a: CallAction)
    requires c in s.calls && CallEnabled(s, c, a)
    requires s.calls[c].pc == AtKillCheck || OnPath(gate(s.calls[c].req), s.calls[c].pc)
    ensures var s' := ApplyCall(gate, s, c, a);
            c in s'.calls && s'.calls[c].req == s.calls[c].req && OnPath(gate(s.calls[c].req), s'.calls[c].pc)
  {
  }

  lemma {:induction false} CallsStayOnPath(gate: GateFn, ss: seq<State>, steps: seq<Step>, n: nat, c: CallId)
    requires IsRun(gate, ss, steps) && n <= |steps| && c in ss[n].calls && ss[n].calls[c].pc != AtKillCheck
    ensures OnPath(gate(ss[n].calls[c].req), ss[n].calls[c].pc)
  {
    var m := n - 1;
    assert IsStep(gate, ss[m], steps[m], ss[n]);
    if c in ss[m].calls {
      if ss[m].calls[c].pc != AtKillCheck {
        CallsStayOnPath(gate, ss, steps, m, c);
      }
      if steps[m].CallStep? && steps[m].c == c {
        OnPathStep(gate, ss[m], c, steps[m].act);
      } else {
        OthersDoNotMove(gate, ss[m], steps[m], c);
      }
    }
  }

  /** A request counts as a read by the descriptor it carries, and by nothing else. */
  predicate CountsAsRead(r: ExecRequest)
  {
    && r.meta.Some?
    && r.meta.value.compensating.None? && !r.meta.value.irreversible && NameIsRead(r.meta.value.name)
  }

  /** The rule verdict on a request; one without a capability goes by a fixed name. */
  function VerdictOn(rules: seq<Rule>, r: ExecRequest): Decision
  {
    Evaluate(rules, if r.capability.Some? then r.capability.value else "broker.execute")
  }

  lemma GateIs(rules: seq<Rule>, r: ExecRequest)
    ensures Gates(rules)(r) == Free <==> CountsAsRead(r) || VerdictOn(rules, r) == Allow
    ensures Gates(rules)(r) == Forbidden <==> !CountsAsRead(r) && VerdictOn(rules, r) == Deny
  {
    assert Gates(rules)(r) == GateOf(rules, r);
  }

  /** A write the policy denies, be it by a rule or for want of one, is never dispatched
      and never gets a row; once its kill check is over it has ended denied or killed. */
  lemma DeniedGoesNowhere(rules: seq<Rule>, ss: seq<State>, steps: seq<Step>, n: nat, c: CallId)
    requires IsRun(Gates(rules), ss, steps) && n <= |steps| && c in ss[n].calls
    requires !CountsAsRead(ss[n].calls[c].req) && VerdictOn(rules, ss[n].calls[c].req) == Deny
    ensures forall k :: 0 <= k < |ss[n].log| ==> ss[n].log[k].call != c
    ensures forall id :: id in ss[n].owner ==> ss[n].owner[id] != c
    ensures var pc := ss[n].calls[c].pc;
            || pc == AtKillCheck
            || (Ended(pc) && (pc.outcome == Refused(Killed) || pc.outcome == Refused(PolicyDenied)))
  {
    GateIs(rules, ss[n].calls[c].req);
    RunInv(Gates(rules), ss, steps, n);
    if ss[n].calls[c].pc != AtKillCheck {
      CallsStayOnPath(Gates(rules), ss, steps, n, c);
    }
  }

  /** A read, or a request the policy allows, never gets a row: once its kill check is
      over it is cleared, or has ended killed, unresolved or transmitted. */
  lemma FreeNeedsNoRow(rules: seq<Rule>, ss: seq<State>, steps: seq<Step>, n: nat, c: CallId)
    requires IsRun(Gates(rules), ss, steps) && n <= |steps| && c in ss[n].calls
    requires CountsAsRead(ss[n].calls[c].req) || VerdictOn(rules, ss[n].calls[c].req) == Allow
    ensures forall id :: id in ss[n].owner ==> ss[n].owner[id] != c
    ensures var pc := ss[n].calls[c].pc;
            || pc == AtKillCheck || pc == Cleared
            || (Ended(pc) && pc.outcome.Transmitted?)
            || (Ended(pc) && (pc.outcome == Refused(Killed) || pc.outcome == Refused(Unresolved)))
  {
    GateIs(rules, ss[n].calls[c].req);
    RunInv(Gates(rules), ss, steps, n);
    if ss[n].calls[c].pc != AtKillCheck {
      CallsStayOnPath(Gates(rules), ss, steps, n, c);
    }
  }

  /** Any other request is dispatched only with an approval of its own. */
  lemma OtherwiseNeedsApproval(rules: seq<Rule>, ss: seq<State>, steps: seq<Step>, i: nat, k: nat)
    requires IsRun(Gates(rules), ss, steps) && i <= |steps| && k < |ss[i].log|
    ensures var e := ss[i].log[k];
            || CountsAsRead(e.req) || VerdictOn(rules, e.req) == Allow
            || (VerdictOn(rules, e.req) == RequireApproval && exists id :: ApprovalOf(ss[i], id, e.call))
  {
    DispatchIsEntitled(Gates(rules), ss, steps, i, k);
    GateIs(rules, ss[i].log[k].req);
  }

  // ----- the timeout in force -----------------------------------------------

  /** The latest positive setting, in milliseconds, or what there was at the start. */
  function TimeoutAfter(steps: seq<Step>, initial: nat): nat
  {
    if steps == [] then initial
    else
      var last := steps[|steps| - 1];
      if last.SetTimeout? && last.secs > 0 then last.secs * 1000 else TimeoutAfter(steps[..|steps| - 1], initial)
  }

  lemma TimeoutStep(gate: GateFn, s: State, step: Step)
    requires Enabled(s, step)
    ensures Apply(gate, s, step).timeoutMs ==
            if step.SetTimeout? && step.secs > 0 then step.secs * 1000 else s.timeoutMs
  {
    match step
    case CallStep(c, a) => CallsDoNotTakeTime(gate, s, c, a);
    case _ =>
  }

  /** A setting of zero is ignored, so the timeout in force is never zero. */
  lemma {:induction false} TimeoutIsLatestPositive(gate: GateFn, ss: seq<State>, steps: seq<Step>, n: nat)
    requires IsRun(gate, ss, steps) && n <= |steps|
    ensures ss[n].timeoutMs == TimeoutAfter(steps[..n], ss[0].timeoutMs) > 0
  {
    if n > 0 {
      TimeoutIsLatestPositive(gate, ss, steps, n - 1);
      assert steps[..n][..n - 1] == steps[..n - 1];
      assert IsStep(gate, ss[n - 1], steps[n - 1], ss[n]);
      TimeoutStep(gate, ss[n - 1], steps[n - 1]);
    }
  }

  // ----- what does not hold -------------------------------------------------

  /** One more step onto a run. */
  lemma Extend(gate: GateFn, ss: seq<State>, steps: seq<Step>, step: Step)
    returns (ss': seq<State>, steps': seq<Step>)
    requires IsRun(gate, ss, steps) && Enabled(ss[|steps|], step)
    ensures IsRun(gate, ss', steps') && ss'[|steps'|] == Apply(gate, ss[|steps|], step)
  {
    ss', steps' := ss + [Apply(gate, ss[|steps|], step)], steps + [step];
  }

  predicate ApprovedYetTimedOut(s: State, req: ExecRequest, decider: UserId)
  {
    && 0 in s.table && s.table[0].status == Approved && s.table[0].decidedBy == Some(decider)
    && 0 in s.owner && s.owner[0] == 0 && 0 in s.calls
    && s.calls[0] == Call(req, Returned(Refused(TimedOut(0))))
    && s.log == []
  }

  function Inbox(req: ExecRequest): Row
  {
    Row(req.actor, GuardName(req), Some(req.target), req.op, Pending, 0, None, None)
  }

  /** A call parked on its row, at its only deadline test after 300 seconds. */
  function Parked(req: ExecRequest, pc: Pc, row: Row, now: nat): State
  {
    State(IDLE, map[0 := row], map[0 := 0], now, 300000, map[0 := Call(req, pc)], [], [])
  }

  lemma ParkedIsReachable(gate: GateFn, req: ExecRequest) returns (ss: seq<State>, steps: seq<Step>)
    requires gate(req) == Gated
    ensures IsRun(gate, ss, steps)
    ensures ss[|steps|] == Parked(req, AtWaitStart(0), Inbox(req), 0)
  {
    ss, steps := [State(IDLE, map[], map[], 0, 300000, map[], [], [])], [];
    ss, steps := Extend(gate, ss, steps, CallStep(0, Begin(req)));
    ss, steps := Extend(gate, ss, steps, CallStep(0, CheckKill));
    ss, steps := Extend(gate, ss, steps, CallStep(0, Enqueue(0)));
  }

  lemma TestedIsReachable(gate: GateFn, req: ExecRequest) returns (ss: seq<State>, steps: seq<Step>)
    requires gate(req) == Gated
    ensures IsRun(gate, ss, steps)
    ensures ss[|steps|] == Parked(req, AtExpire(0), Inbox(req), 300000)
  {
    ss, steps := ParkedIsReachable(gate, req);
    ss, steps := Extend(gate, ss, steps, CallStep(0, StartWait));
    assert ss[|steps|] == Parked(req, AtPoll(0, 300000), Inbox(req), 0);
    ss, steps := Extend(gate, ss, steps, CallStep(0, Poll));
    ss, steps := Extend(gate, ss, steps, Advance(300000));
    assert ss[|steps|] == Parked(req, AtDeadlineTest(0, 300000), Inbox(req), 300000);
    ss, steps := Extend(gate, ss, steps, CallStep(0, TestDeadline));
  }

  /** Approved does not imply dispatched: for every gated request there is a run in
      which an approval lands between the last deadline test and the expiry, and
      leaves an approved row beside a timed-out call. */
  lemma LateApprovalIsNotDispatched(gate: GateFn, req: ExecRequest, decider: UserId)
    requires gate(req) == Gated
    ensures exists ss: seq<State>, steps: seq<Step> ::
              IsRun(gate, ss, steps) && ApprovedYetTimedOut(ss[|steps|], req, decider)
  {
    var ss, steps := TestedIsReachable(gate, req);
    ss, steps := Extend(gate, ss, steps, OperatorDecides(0, decider, true));
    ss, steps := Extend(gate, ss, steps, CallStep(0, Expire(true)));
    ss, steps := Extend(gate, ss, steps, CallStep(0, Audit(false)));
    assert ApprovedYetTimedOut(ss[|steps|], req, decider);
  }

  // ----- a later KILL -------------------------------------------------------

  lemma {:induction false} FlagRose(ss: seq<State>, k: nat, x: nat)
    requires k <= x < |ss| && !ss[k].kill.engaged && ss[x].kill.engaged
    ensures exists m :: k <= m < x && !ss[m].kill.engaged && ss[m + 1].kill.engaged
  {
    if ss[x - 1].kill.engaged {
      FlagRose(ss, k, x - 1);
    }
  }

  /** A call that is transmitted while the switch is engaged passed its kill check
      before the flag went up. */
  lemma EngagedDispatchWasCheckedBefore(gate: GateFn, ss: seq<State>, steps: seq<Step>, x: nat, c: CallId, ok: bool)
    requires IsRun(gate, ss, steps) && x < |steps| && steps[x] == CallStep(c, Transmit(ok)) && ss[x].kill.engaged
    ensures exists k, m :: 0 <= k < m < x && steps[k] == CallStep(c, CheckKill) && !ss[k].kill.engaged
                           && !ss[m].kill.engaged && ss[m + 1].kill.engaged
  {
    assert IsStep(gate, ss[x], steps[x], ss[x + 1]);
    PassedKillCheck(gate, ss, steps, x, c);
    var k :| 0 <= k < x && steps[k] == CallStep(c, CheckKill) && !ss[k].kill.engaged;
    assert IsStep(gate, ss[k], steps[k], ss[k + 1]);
    FlagRose(ss, k + 1, x);
  }

  const IDLE := KillSwitch.Kill(false, false, false, KillSwitch.AtTick, KillSwitch.Listening)

  const ENGAGED := KillSwitch.Kill(true, true, true, KillSwitch.AtTick, KillSwitch.Listening)

  /** The file appears and a whole tick sees it. */
  lemma EngageByFile(gate: GateFn, ss: seq<State>, steps: seq<Step>) returns (ss': seq<State>, steps': seq<Step>)
    requires IsRun(gate, ss, steps) && ss[|steps|].kill == IDLE
    ensures IsRun(gate, ss', steps') && ss'[|steps'|] == ss[|steps|].(kill := ENGAGED)
  {
    ss', steps' := Extend(gate, ss, steps, KillStep(KillSwitch.Touch));
    ss', steps' := Extend(gate, ss', steps', KillStep(KillSwitch.Observe));
    ss', steps' := Extend(gate, ss', steps', KillStep(KillSwitch.Apply));
    ss', steps' := Extend(gate, ss', steps', KillStep(KillSwitch.Settle));
  }

  lemma FreeIsCleared(gate: GateFn, req: ExecRequest) returns (ss: seq<State>, steps: seq<Step>)
    requires gate(req) == Free
    ensures IsRun(gate, ss, steps)
    ensures var s := ss[|steps|]; s.kill == IDLE && 0 in s.calls && s.calls[0] == Call(req, Cleared)
  {
    ss, steps := [State(IDLE, map[], map[], 0, 300000, map[], [], [])], [];
    ss, steps := Extend(gate, ss, steps, CallStep(0, Begin(req)));
    ss, steps := Extend(gate, ss, steps, CallStep(0, CheckKill));
  }

  /** Call 0 is about to be transmitted while a finished tick has the switch up. */
  predicate ClearedWhileEngaged(s: State, req: ExecRequest)
  {
    s.kill == ENGAGED && 0 in s.calls && s.calls[0] == Call(req, Cleared)
  }

  lemma ClearedWhileEngagedIsReachable(gate: GateFn, req: ExecRequest) returns (ss: seq<State>, steps: seq<Step>)
    requires gate(req) != Forbidden
    ensures IsRun(gate, ss, steps) && ClearedWhileEngaged(ss[|steps|], req)
  {
    if gate(req) == Free {
      ss, steps := FreeIsCleared(gate, req);
      ss, steps := EngageByFile(gate, ss, steps);
    } else {
      ss, steps := ParkedIsReachable(gate, req);
      ss, steps := EngageByFile(gate, ss, steps);
      ss, steps := Extend(gate, ss, steps, OperatorDecides(0, 0, true));
      ss, steps := Extend(gate, ss, steps, CallStep(0, StartWait));
      ss, steps := Extend(gate, ss, steps, CallStep(0, Poll));
    }
  }

  /** A run whose last step transmits the request with the switch engaged. */
  ghost predicate TransmitsWhileEngaged(gate: GateFn, ss: seq<State>, steps: seq<Step>, c: CallId, req: ExecRequest)
  {
    && IsRun(gate, ss, steps) && |steps| > 0
    && steps[|steps| - 1] == CallStep(c, Transmit(true))
    && ss[|steps| - 1].kill.engaged
    && c in ss[|steps| - 1].calls && ss[|steps| - 1].calls[c].req == req
  }

  /** The switch stops no call that has passed its kill check: some run transmits the
      request while engaged, for exactly the requests the policy does not forbid. */
  lemma KillDoesNotStopCheckedCalls(gate: GateFn, req: ExecRequest)
    ensures (exists ss: seq<State>, steps: seq<Step>, c: CallId :: TransmitsWhileEngaged(gate, ss, steps, c, req))
            <==> gate(req) != Forbidden
  {
    if gate(req) != Forbidden {
      var ss, steps := ClearedWhileEngagedIsReachable(gate, req);
      var ss', steps' := ExtendTransmit(gate, ss, steps, req);
      assert TransmitsWhileEngaged(gate, ss', steps', 0, req);
    } else {
      forall ss: seq<State>, steps: seq<Step>, c: CallId
        ensures !TransmitsWhileEngaged(gate, ss, steps, c, req)
      {
        if TransmitsWhileEngaged(gate, ss, steps, c, req) {
          ForbiddenIsNotTransmitted(gate, ss, steps, c, req);
        }
      }
    }
  }

  lemma ExtendTransmit(gate: GateFn, ss: seq<State>, steps: seq<Step>, req: ExecRequest)
    returns (ss': seq<State>, steps': seq<Step>)
    requires IsRun(gate, ss, steps) && ClearedWhileEngaged(ss[|steps|], req)
    ensures TransmitsWhileEngaged(gate, ss', steps', 0, req)
  {
    var step := CallStep(0, Transmit(true));
    ss', steps' := ss + [Apply(gate, ss[|steps|], step)], steps + [step];
  }

  lemma ForbiddenIsNotTransmitted(gate: GateFn, ss: seq<State>, steps: seq<Step>, c: CallId, req: ExecRequest)
    requires TransmitsWhileEngaged(gate, ss, steps, c, req)
    ensures gate(req) != Forbidden
  {
    var n := |steps|;
    assert IsStep(gate, ss[n - 1], steps[n - 1], ss[n]);
    var k := |ss[n - 1].log|;
    assert ss[n].log[k] == Dispatch(c, req);
    DispatchIsEntitled(gate, ss, steps, n, k);
  }
}

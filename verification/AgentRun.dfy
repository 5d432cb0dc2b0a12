/**
  One agent run: prepare, plan, tools, draft, verify, and then replan or deliver, with budgets,
  approval pauses, and checkpoints from which a later invocation of the graph carries on.

  Each event is one database statement, model completion or tool execution of the single worker that
  holds the run, or one statement of the people around it: a reviewer deciding a call, the resume
  after a review, the owner's cancel. The worker may throw or crash before any of its events.
*/
module AgentRun {
  import opened Wrappers

  const PLAN_LIMIT: nat := 8

  type Key = string

  /** A tool call row is identified by the iteration it was planned in and its position there. */
  type Slot = (nat, nat)

  datatype Limits = Limits(maxIterations: nat, maxToolCalls: nat, maxSearches: nat, maxCredit: nat)

  datatype Status = Queued | Running | WaitingApproval | Cancelled | Failed | Partial | Succeeded

  datatype Node = NPrepare | NPlan | NTools | NDraft | NVerify | NReplan | NDeliver | NDone

  datatype Approval = NotRequired | Undecided | Approved | Rejected

  datatype CallStatus = Pending | Started | Done | Broken | Skipped

  datatype Action = Action(key: Key, needsApproval: bool)

  /** `stamp` is the place in the history where this row's current input was written. */
  datatype Call = Call(key: Key, stamp: nat, needsApproval: bool, approval: Approval, status: CallStatus)

  datatype Kind = Builtin | External

  datatype Verdict = Complete | Incomplete

  /** The worker: idle, or inside a node with the graph state it carries. */
  datatype Worker =
    | Off
    | AtPrepare(i: nat)
    | AtPlan(i: nat)
    | AtReplanModel(i: nat)
    | AtPersist(i: nat)
    | AtTools(i: nat)
    | InCalls(i: nat, todo: seq<(nat, Call)>)
    | Reserved(i: nat, todo: seq<(nat, Call)>)
    | Marked(i: nat, todo: seq<(nat, Call)>)
    | Ran(i: nat, todo: seq<(nat, Call)>)
    | AtCheckpoint(i: nat)
    | AtDraft(i: nat)
    | AtDraftSave(i: nat)
    | AtVerify(i: nat)
    | AtVerdict(i: nat)
    | AtReplan(i: nat)
    | AtDeliver(i: nat, verdict: Verdict)

  /** The history of the run, read by no step. */
  datatype Entry =
    | Wrote(slot: Slot, needsApproval: bool)
    | Decided(slot: Slot, stamp: nat, approved: bool)
    | Executed(slot: Slot, stamp: nat, search: bool)
    | Began
    | Judged(approved: bool, exhausted: bool)
    | Finished(succeeded: bool, exported: bool)

  datatype State = State(
    status: Status,
    node: Node,
    iteration: nat,
    toolCalls: nat,
    searches: nat,
    credit: nat,
    calls: map<Slot, Call>,
    worker: Worker,
    lastCost: nat,
    log: seq<Entry>)

  datatype Event =
    | StartJob
    | Prepare
    | CompleteModel(cost: nat)
    | Persist(plan: seq<Action>)
    | EnterTools
    | NextCall(tool: Option<Kind>, late: bool)
    | MarkRunning
    | Execute
    | RecordResult(ok: bool)
    | Checkpoint
    | SaveDraft
    | Judge(approved: bool)
    | BumpIteration
    | Deliver(exported: bool)
    | Throw
    | Crash
    | Decide(slot: Slot, approve: bool)
    | Resume
    | CancelRun

  predicate IsActive(status: Status) {
    status == Queued || status == Running || status == WaitingApproval
  }

  predicate IsSearch(key: Key) {
    key == "web_search"
  }

  /** The catch block of `process`. */
  function Fail(s: State): State {
    s.(worker := Off, status := if s.status == Queued || s.status == Running then Failed else s.status)
  }

  /** `assertBudget`: past it the credit is below the limit. */
  predicate InBudget(l: Limits, s: State) {
    s.credit < l.maxCredit
  }

  /** `restore`: the checkpoint knows three places to carry on from. */
  function Restored(s: State): Worker {
    if s.node == NTools then AtTools(s.iteration)
    else if s.node == NDraft then AtDraft(s.iteration)
    else AtPrepare(s.iteration)
  }

  /** The rows of iteration `i` at positions below `n`, in order. */
  function RowsBelow(calls: map<Slot, Call>, i: nat, n: nat): (rows: seq<(nat, Call)>)
    ensures |rows| <= n
  {
    if n == 0 then []
    else RowsBelow(calls, i, n - 1) + if (i, n - 1) in calls then [(n - 1, calls[(i, n - 1)])] else []
  }

  function RowsOf(calls: map<Slot, Call>, i: nat): (rows: seq<(nat, Call)>)
    ensures |rows| <= PLAN_LIMIT
  {
    RowsBelow(calls, i, PLAN_LIMIT)
  }

  predicate AwaitsDecision(calls: map<Slot, Call>, i: nat) {
    exists k :: 0 <= k < PLAN_LIMIT && (i, k) in calls && calls[(i, k)].needsApproval && calls[(i, k)].approval == Undecided
  }

  predicate NoneUndecided(calls: map<Slot, Call>, i: nat) {
    forall s :: s in calls && s.0 == i ==> calls[s].approval != Undecided
  }

  function Fresh(a: Action, stamp: nat): Call {
    Call(a.key, stamp, a.needsApproval, if a.needsApproval then Undecided else NotRequired, Pending)
  }

  /** `persistPlan` in one transaction: pending rows of the iteration go, planned positions are written anew. */
  function Rewritten(calls: map<Slot, Call>, i: nat, plan: seq<Action>, stamp: nat): map<Slot, Call> {
    Kept(calls, i) + Planned(i, plan, stamp, |plan|)
  }

  function Kept(calls: map<Slot, Call>, i: nat): map<Slot, Call> {
    map s | s in calls && !(s.0 == i && calls[s].status == Pending) :: calls[s]
  }

  /** The rows of the first `n` actions. */
  function Planned(i: nat, plan: seq<Action>, stamp: nat, n: nat): map<Slot, Call>
    requires n <= |plan|
  {
    if n == 0 then map[]
    else Planned(i, plan, stamp, n - 1)[(i, n - 1) := Fresh(plan[n - 1], stamp + n - 1)]
  }

  lemma {:induction false} PlannedAt(i: nat, plan: seq<Action>, stamp: nat, n: nat, slot: Slot)
    requires n <= |plan|
    ensures slot in Planned(i, plan, stamp, n) <==> slot.0 == i && slot.1 < n
    ensures slot in Planned(i, plan, stamp, n) ==> Planned(i, plan, stamp, n)[slot] == Fresh(plan[slot.1], stamp + slot.1)
  {
    if n > 0 {
      PlannedAt(i, plan, stamp, n - 1, slot);
      if slot.0 == i && slot.1 == n - 1 { assert slot == (i, n - 1); }
    }
  }

  lemma MergeThenUpdate(m: map<Slot, Call>, n: map<Slot, Call>, slot: Slot, c: Call)
    ensures m + n[slot := c] == (m + n)[slot := c]
  {
  }

  function Writes(i: nat, plan: seq<Action>): seq<Entry> {
    seq(|plan|, k requires 0 <= k < |plan| => Wrote((i, k), plan[k].needsApproval))
  }

  function SetStatus(s: State, slot: Slot, status: CallStatus): State {
    if slot in s.calls then s.(calls := s.calls[slot := s.calls[slot].(status := status)]) else s
  }

  /** One turn of the loop over the calls, up to the reservation of the budget; `late` means the deadline has passed. */
  function NextCallOf(l: Limits, s: State, i: nat, todo: seq<(nat, Call)>, tool: Option<Kind>, late: bool): State
    requires todo != []
  {
    var slot := (i, todo[0].0);
    var call := todo[0].1;
    var rest := InCalls(i, todo[1..]);
    if call.approval == Rejected then SetStatus(s, slot, Skipped).(worker := rest)
    else if call.status == Done then s.(worker := rest)
    else if tool.None? then SetStatus(s, slot, Broken).(worker := rest)
    else if call.status == Started && tool.value.External? then SetStatus(s, slot, Broken).(worker := rest)
    else Reserve(l, s, i, todo, late)
  }

  /** `reserveToolBudget`, and what the loop makes of its failure. */
  function Reserve(l: Limits, s: State, i: nat, todo: seq<(nat, Call)>, late: bool): State
    requires todo != []
  {
    var search := IsSearch(todo[0].1.key);
    if late || s.toolCalls >= l.maxToolCalls || (search && s.searches >= l.maxSearches)
    then SetStatus(s, (i, todo[0].0), Skipped).(worker := AtCheckpoint(i))
    else s.(toolCalls := s.toolCalls + 1,
            searches := if search then s.searches + 1 else s.searches,
            worker := Reserved(i, todo))
  }

  /** What follows a model completion. */
  function AfterModel(w: Worker): Worker {
    match w
    case AtPlan(i) => AtPersist(i)
    case AtReplanModel(i) => AtPersist(i)
    case AtDraft(i) => AtDraftSave(i)
    case AtVerify(i) => AtVerdict(i)
    case _ => w
  }

  predicate AsksModel(w: Worker) {
    w.AtPlan? || w.AtReplanModel? || w.AtDraft? || w.AtVerify?
  }

  function Step(l: Limits, s: State, e: Event): State {
    match e
    case StartJob =>
      if s.worker != Off || !(s.status == Queued || s.status == Running) then s
      else s.(status := Running, worker := Restored(s), log := s.log + [Began])
    case Prepare => if s.worker.AtPrepare? then s.(node := NPlan, worker := AtPlan(s.worker.i)) else s
    case CompleteModel(cost) =>
      if !AsksModel(s.worker) then s
      else if !InBudget(l, s) then Fail(s)
      else s.(credit := s.credit + cost, lastCost := cost, worker := AfterModel(s.worker))
    case Persist(plan) =>
      if !s.worker.AtPersist? || |plan| > PLAN_LIMIT then s
      else s.(calls := Rewritten(s.calls, s.worker.i, plan, |s.log|), node := NTools,
              worker := AtTools(s.worker.i), log := s.log + Writes(s.worker.i, plan))
    case EnterTools =>
      if !s.worker.AtTools? then s
      else if !InBudget(l, s) then Fail(s)
      else if AwaitsDecision(s.calls, s.worker.i) then s.(status := WaitingApproval, node := NTools, worker := Off)
      else s.(worker := InCalls(s.worker.i, RowsOf(s.calls, s.worker.i)))
    case NextCall(tool, late) =>
      if s.worker.InCalls? && s.worker.todo != [] then NextCallOf(l, s, s.worker.i, s.worker.todo, tool, late) else s
    case MarkRunning =>
      if s.worker.Reserved? && s.worker.todo != []
      then SetStatus(s, (s.worker.i, s.worker.todo[0].0), Started).(worker := Marked(s.worker.i, s.worker.todo)) else s
    case Execute =>
      if s.worker.Marked? && s.worker.todo != []
      then s.(worker := Ran(s.worker.i, s.worker.todo),
              log := s.log + [Executed((s.worker.i, s.worker.todo[0].0), s.worker.todo[0].1.stamp, IsSearch(s.worker.todo[0].1.key))])
      else s
    case RecordResult(ok) =>
      if s.worker.Ran? && s.worker.todo != []
      then SetStatus(s, (s.worker.i, s.worker.todo[0].0), if ok then Done else Broken).(worker := InCalls(s.worker.i, s.worker.todo[1..]))
      else s
    case Checkpoint =>
      if s.worker.AtCheckpoint? || (s.worker.InCalls? && s.worker.todo == [])
      then s.(node := NDraft, worker := AtDraft(s.worker.i)) else s
    case SaveDraft => if s.worker.AtDraftSave? then s.(node := NVerify, worker := AtVerify(s.worker.i)) else s
    case Judge(approved) =>
      if !s.worker.AtVerdict? then s
      else
        var i := s.worker.i;
        var exhausted := !approved && i + 1 >= l.maxIterations;
        var t := s.(log := s.log + [Judged(approved, exhausted)]);
        if approved then t.(node := NDeliver, worker := AtDeliver(i, Complete))
        else if exhausted then t.(node := NDeliver, worker := AtDeliver(i, Incomplete))
        else t.(node := NReplan, worker := AtReplan(i))
    case BumpIteration =>
      if !s.worker.AtReplan? then s
      else if !InBudget(l, s) then Fail(s)
      else s.(iteration := s.worker.i + 1, node := NPlan, worker := AtReplanModel(s.worker.i + 1))
    case Deliver(exported) =>
      if !s.worker.AtDeliver? then s
      else
        var ok := s.worker.verdict == Complete && exported;
        s.(status := if ok then Succeeded else Partial, node := NDone, worker := Off, log := s.log + [Finished(ok, exported)])
    case Throw => if s.worker == Off then s else Fail(s)
    case Crash => s.(worker := Off)
    case Decide(slot, approve) =>
      if slot in s.calls && s.calls[slot].needsApproval && s.calls[slot].approval == Undecided
      then s.(calls := s.calls[slot := s.calls[slot].(approval := if approve then Approved else Rejected)],
              log := s.log + [Decided(slot, s.calls[slot].stamp, approve)])
      else s
    case Resume =>
      if s.status == WaitingApproval && NoneUndecided(s.calls, s.iteration) then s.(status := Queued, node := NTools) else s
    case CancelRun => if IsActive(s.status) then s.(status := Cancelled) else s
  }

  function Run(l: Limits, s: State, es: seq<Event>): State {
    if es == [] then s else Step(l, Run(l, s, es[..|es| - 1]), es[|es| - 1])
  }

  function Initial(): State {
    State(Queued, NPrepare, 0, 0, 0, 0, map[], Off, 0, [])
  }

  // ---------------------------------------------------------------- approvals

  ghost predicate DecidedAs(log: seq<Entry>, slot: Slot, stamp: nat, approved: bool) {
    exists j :: stamp < j < |log| && log[j] == Decided(slot, stamp, approved)
  }

  /** A row agrees with the history about who decided its current input. */
  ghost predicate CallOk(s: State, slot: Slot)
    requires slot in s.calls
  {
    var c := s.calls[slot];
    && slot.1 < PLAN_LIMIT
    && c.stamp < |s.log| && s.log[c.stamp] == Wrote(slot, c.needsApproval)
    && (c.needsApproval ==> c.approval != NotRequired)
    && (!c.needsApproval ==> c.approval == NotRequired)
    && (c.approval == Approved <==> DecidedAs(s.log, slot, c.stamp, true))
    && (c.approval == Rejected <==> DecidedAs(s.log, slot, c.stamp, false))
  }

  /** The executed input was approved if it had to be, and was never rejected. */
  ghost predicate ExecutionOk(log: seq<Entry>, k: nat)
    requires k < |log| && log[k].Executed?
  {
    var x := log[k];
    && x.stamp < k && log[x.stamp].Wrote? && log[x.stamp].slot == x.slot
    && (log[x.stamp].needsApproval ==> DecidedAs(log[..k], x.slot, x.stamp, true))
    && !DecidedAs(log, x.slot, x.stamp, false)
  }

  ghost predicate TodoOk(s: State) {
    var w := s.worker;
    w.InCalls? || w.Reserved? || w.Marked? || w.Ran? ==>
      && |w.todo| <= PLAN_LIMIT
      && (forall k :: 0 <= k < |w.todo| ==>
            && (w.i, w.todo[k].0) in s.calls
            && var c := s.calls[(w.i, w.todo[k].0)];
               && c.(status := Pending) == w.todo[k].1.(status := Pending)
               && c.approval != Undecided)
      && (!w.InCalls? ==> w.todo != [] && w.todo[0].1.approval != Rejected)
  }

  ghost predicate ApprovalInv(s: State) {
    && (forall slot :: slot in s.calls ==> CallOk(s, slot))
    && (forall k | 0 <= k < |s.log| && s.log[k].Executed? :: ExecutionOk(s.log, k))
    && TodoOk(s)
  }

  lemma DecidedInLonger(log: seq<Entry>, more: seq<Entry>, slot: Slot, stamp: nat, approved: bool)
    ensures DecidedAs(log, slot, stamp, approved) ==> DecidedAs(log + more, slot, stamp, approved)
    ensures DecidedAs(log + more, slot, stamp, approved) ==>
              DecidedAs(log, slot, stamp, approved) || exists j :: 0 <= j < |more| && more[j] == Decided(slot, stamp, approved)
  {
    if DecidedAs(log, slot, stamp, approved) {
      var j :| stamp < j < |log| && log[j] == Decided(slot, stamp, approved);
      assert (log + more)[j] == Decided(slot, stamp, approved);
    }
    if DecidedAs(log + more, slot, stamp, approved) {
      var j :| stamp < j < |log + more| && (log + more)[j] == Decided(slot, stamp, approved);
      assert j < |log| || more[j - |log|] == Decided(slot, stamp, approved);
    }
  }

  lemma ExecutionInLonger(log: seq<Entry>, more: seq<Entry>, k: nat)
    requires k < |log| && log[k].Executed? && ExecutionOk(log, k)
    requires forall j :: 0 <= j < |more| ==> more[j] != Decided(log[k].slot, log[k].stamp, false)
    ensures ExecutionOk(log + more, k)
  {
    assert (log + more)[..k] == log[..k];
    DecidedInLonger(log, more, log[k].slot, log[k].stamp, false);
  }

  /** What was approved before an execution is approved in the whole history. */
  lemma ApprovedSoFar(log: seq<Entry>, k: nat)
    requires k < |log| && log[k].Executed? && ExecutionOk(log, k) && log[log[k].stamp].needsApproval
    ensures DecidedAs(log, log[k].slot, log[k].stamp, true)
  {
    assert log == log[..k] + log[k..];
    DecidedInLonger(log[..k], log[k..], log[k].slot, log[k].stamp, true);
  }

  predicate Quiet(more: seq<Entry>) {
    forall j :: 0 <= j < |more| ==> !more[j].Decided? && !more[j].Executed?
  }

  lemma CallInLonger(s: State, s': State, more: seq<Entry>, slot: Slot)
    requires s'.log == s.log + more && (forall j :: 0 <= j < |more| ==> !more[j].Decided?)
    requires slot in s.calls && slot in s'.calls && CallOk(s, slot)
    requires s'.calls[slot].(status := Pending) == s.calls[slot].(status := Pending)
    ensures CallOk(s', slot)
  {
    var st := s.calls[slot].stamp;
    DecidedInLonger(s.log, more, slot, st, true);
    DecidedInLonger(s.log, more, slot, st, false);
  }

  lemma QuietExecutions(s: State, s': State, more: seq<Entry>)
    requires ApprovalInv(s) && s'.log == s.log + more && Quiet(more)
    ensures forall k :: 0 <= k < |s'.log| && s'.log[k].Executed? ==> ExecutionOk(s'.log, k)
  {
    assert forall k :: |s.log| <= k < |s'.log| ==> s'.log[k] == more[k - |s.log|];
    forall k | 0 <= k < |s'.log| && s'.log[k].Executed? ensures ExecutionOk(s'.log, k) {
      ExecutionInLonger(s.log, more, k);
    }
  }

  /** Steps that write no input, decide nothing and execute nothing. */
  lemma QuietKeepsApproval(s: State, s': State, more: seq<Entry>)
    requires ApprovalInv(s) && s'.log == s.log + more && Quiet(more) && TodoOk(s')
    requires s'.calls.Keys == s.calls.Keys
    requires forall slot :: slot in s.calls ==> s'.calls[slot].(status := Pending) == s.calls[slot].(status := Pending)
    ensures ApprovalInv(s')
  {
    QuietExecutions(s, s', more);
    forall slot | slot in s'.calls ensures CallOk(s', slot) {
      CallInLonger(s, s', more, slot);
    }
  }

  lemma {:induction false} RowsAre(calls: map<Slot, Call>, i: nat, n: nat, j: nat)
    requires j < |RowsBelow(calls, i, n)|
    ensures var row := RowsBelow(calls, i, n)[j];
            row.0 < n && (i, row.0) in calls && row.1 == calls[(i, row.0)]
    decreases n
  {
    if n > 0 && j < |RowsBelow(calls, i, n - 1)| {
      RowsAre(calls, i, n - 1, j);
    }
  }

  lemma RowIsDecided(s: State, i: nat, k: nat)
    requires (i, k) in s.calls && k < PLAN_LIMIT && CallOk(s, (i, k)) && !AwaitsDecision(s.calls, i)
    ensures s.calls[(i, k)].approval != Undecided
  {
  }

  lemma RowsAreReady(s: State, i: nat)
    requires forall slot :: slot in s.calls ==> CallOk(s, slot)
    requires !AwaitsDecision(s.calls, i)
    ensures TodoOk(s.(worker := InCalls(i, RowsOf(s.calls, i))))
  {
    var rows := RowsOf(s.calls, i);
    forall k | 0 <= k < |rows|
      ensures (i, rows[k].0) in s.calls && rows[k].1 == s.calls[(i, rows[k].0)] && rows[k].1.approval != Undecided
    {
      RowsAre(s.calls, i, PLAN_LIMIT, k);
      RowIsDecided(s, i, rows[k].0);
    }
  }

  lemma EnterToolsKeepsApproval(l: Limits, s: State)
    requires ApprovalInv(s)
    ensures ApprovalInv(Step(l, s, EnterTools))
  {
    if s.worker.AtTools? && !AwaitsDecision(s.calls, s.worker.i) {
      RowsAreReady(s, s.worker.i);
    }
    QuietKeepsApproval(s, Step(l, s, EnterTools), []);
  }

  /** After a plan is persisted, a row is either the action planned there or an untouched earlier row. */
  lemma RewrittenAt(calls: map<Slot, Call>, i: nat, plan: seq<Action>, stamp: nat, slot: Slot)
    requires slot in Rewritten(calls, i, plan, stamp)
    ensures var c := Rewritten(calls, i, plan, stamp)[slot];
            if slot.0 == i && slot.1 < |plan| then c == Fresh(plan[slot.1], stamp + slot.1)
            else slot in calls && c == calls[slot]
  {
    PlannedAt(i, plan, stamp, |plan|, slot);
  }

  lemma PersistKeepsCall(s: State, s': State, i: nat, plan: seq<Action>, slot: Slot)
    requires |plan| <= PLAN_LIMIT && (slot in s.calls ==> CallOk(s, slot))
    requires s'.calls == Rewritten(s.calls, i, plan, |s.log|) && s'.log == s.log + Writes(i, plan)
    requires slot in s'.calls
    ensures CallOk(s', slot)
  {
    RewrittenAt(s.calls, i, plan, |s.log|, slot);
    if slot.0 == i && slot.1 < |plan| {
      FreshIsOk(s.log, i, plan, slot.1);
    } else {
      CallInLonger(s, s', Writes(i, plan), slot);
    }
  }

  lemma FreshIsOk(log: seq<Entry>, i: nat, plan: seq<Action>, k: nat)
    requires k < |plan|
    ensures var longer, stamp := log + Writes(i, plan), |log| + k;
            && stamp < |longer| && longer[stamp] == Wrote((i, k), plan[k].needsApproval)
            && (forall approved :: !DecidedAs(longer, (i, k), stamp, approved))
  {
    var longer := log + Writes(i, plan);
    assert forall j :: |log| <= j < |longer| ==> longer[j] == Writes(i, plan)[j - |log|];
  }

  lemma PersistKeepsApproval(l: Limits, s: State, plan: seq<Action>)
    requires ApprovalInv(s)
    ensures ApprovalInv(Step(l, s, Persist(plan)))
  {
    var s' := Step(l, s, Persist(plan));
    if s' != s {
      QuietExecutions(s, s', Writes(s.worker.i, plan));
      forall slot | slot in s'.calls ensures CallOk(s', slot) {
        PersistKeepsCall(s, s', s.worker.i, plan, slot);
      }
    }
  }

  lemma ExecuteKeepsApproval(l: Limits, s: State)
    requires ApprovalInv(s)
    ensures ApprovalInv(Step(l, s, Execute))
  {
    var s' := Step(l, s, Execute);
    if s' != s {
      var slot := (s.worker.i, s.worker.todo[0].0);
      var c := s.calls[slot];
      var x := [s'.log[|s.log|]];
      assert CallOk(s, slot);
      forall t | t in s'.calls ensures CallOk(s', t) {
        CallInLonger(s, s', x, t);
      }
      forall k | 0 <= k < |s'.log| && s'.log[k].Executed? ensures ExecutionOk(s'.log, k) {
        if k < |s.log| {
          ExecutionInLonger(s.log, x, k);
        } else {
          assert s'.log[..k] == s.log;
          DecidedInLonger(s.log, x, slot, c.stamp, false);
        }
      }
    }
  }

  lemma DecidedCallOk(l: Limits, s: State, slot: Slot, approve: bool, t: Slot)
    requires ApprovalInv(s) && slot in s.calls && s.calls[slot].needsApproval && s.calls[slot].approval == Undecided
    requires t in s.calls
    ensures CallOk(Step(l, s, Decide(slot, approve)), t)
  {
    var s' := Step(l, s, Decide(slot, approve));
    var x := [Decided(slot, s.calls[slot].stamp, approve)];
    var st := s.calls[t].stamp;
    assert CallOk(s, t);
    DecidedInLonger(s.log, x, t, st, true);
    DecidedInLonger(s.log, x, t, st, false);
    if t == slot {
      assert s'.log[|s.log|] == Decided(slot, st, approve);
    }
  }

  lemma DecideKeepsApproval(l: Limits, s: State, slot: Slot, approve: bool)
    requires ApprovalInv(s)
    ensures ApprovalInv(Step(l, s, Decide(slot, approve)))
    ensures slot in s.calls && s.calls[slot].approval == Undecided ==>
              var z := Step(l, s, Decide(slot, approve));
              && z.calls == s.calls[slot := s.calls[slot].(approval := if approve then Approved else Rejected)]
              && z.log == s.log + [Decided(slot, s.calls[slot].stamp, approve)]
  {
    var s' := Step(l, s, Decide(slot, approve));
    if s' != s {
      var c := s.calls[slot];
      var x := [Decided(slot, c.stamp, approve)];
      assert CallOk(s, slot);
      forall t | t in s'.calls ensures CallOk(s', t) {
        DecidedCallOk(l, s, slot, approve, t);
      }
      forall k | 0 <= k < |s'.log| && s'.log[k].Executed? ensures ExecutionOk(s'.log, k) {
        if s.log[k].slot == slot && s.log[k].stamp == c.stamp { ApprovedSoFar(s.log, k); }
        ExecutionInLonger(s.log, x, k);
      }
    }
  }

  /** Marking one row keeps every remaining row as it was snapshotted, statuses apart. */
  lemma StatusKeepsApproval(s: State, slot: Slot, status: CallStatus, w: Worker)
    requires ApprovalInv(s) && (s.worker.InCalls? || s.worker.Reserved? || s.worker.Marked? || s.worker.Ran?)
    requires s.worker.todo != []
    requires w == InCalls(s.worker.i, s.worker.todo[1..]) || w == AtCheckpoint(s.worker.i)
          || (w == Marked(s.worker.i, s.worker.todo) && s.worker.Reserved?)
    ensures ApprovalInv(SetStatus(s, slot, status).(worker := w))
  {
    var s' := SetStatus(s, slot, status).(worker := w);
    StatusKeepsTodo(s, slot, status, w);
    OnlyStatusChanges(s, slot, status);
    assert s'.log == s.log + [];
    QuietKeepsApproval(s, s', []);
  }

  lemma OnlyStatusChanges(s: State, slot: Slot, status: CallStatus)
    ensures var calls := SetStatus(s, slot, status).calls;
            && calls.Keys == s.calls.Keys
            && forall t :: t in s.calls ==> calls[t].(status := Pending) == s.calls[t].(status := Pending)
  {
  }

  lemma StatusKeepsTodo(s: State, slot: Slot, status: CallStatus, w: Worker)
    requires TodoOk(s) && (s.worker.InCalls? || s.worker.Reserved? || s.worker.Marked? || s.worker.Ran?)
    requires s.worker.todo != []
    requires w == InCalls(s.worker.i, s.worker.todo[1..]) || w == AtCheckpoint(s.worker.i)
          || (w == Marked(s.worker.i, s.worker.todo) && s.worker.Reserved?)
    ensures TodoOk(SetStatus(s, slot, status).(worker := w))
  {
  }

  lemma NextCallKeepsApproval(l: Limits, s: State, tool: Option<Kind>, late: bool)
    requires ApprovalInv(s) && s.worker.InCalls? && s.worker.todo != []
    ensures ApprovalInv(NextCallOf(l, s, s.worker.i, s.worker.todo, tool, late))
    ensures var w, c := NextCallOf(l, s, s.worker.i, s.worker.todo, tool, late).worker, s.worker.todo[0].1;
            && (w.Reserved? <==> Wanted(c, tool) && BudgetLeft(l, s, c, late))
            && (w.AtCheckpoint? <==> Wanted(c, tool) && !BudgetLeft(l, s, c, late))
  {
    NextCallDecides(l, s, tool, late);
    var i, todo := s.worker.i, s.worker.todo;
    var s' := NextCallOf(l, s, i, todo, tool, late);
    if s'.worker.Reserved? {
      QuietKeepsApproval(s, s', []);
    } else if s' == s.(worker := InCalls(i, todo[1..])) {
      QuietKeepsApproval(s, s', []);
    } else {
      var status := if s'.worker.AtCheckpoint? || todo[0].1.approval == Rejected then Skipped else Broken;
      StatusKeepsApproval(s, (i, todo[0].0), status, s'.worker);
    }
  }

  predicate InLoop(w: Worker) {
    w.InCalls? || w.Reserved? || w.Marked? || w.Ran?
  }

  /** Steps away from the rows: the worker stays where it is or is outside the loop over the calls. */
  lemma AwayKeepsApproval(s: State, s': State, more: seq<Entry>)
    requires ApprovalInv(s) && s'.calls == s.calls && s'.log == s.log + more && Quiet(more)
    requires s'.worker == s.worker || !InLoop(s'.worker)
    ensures ApprovalInv(s')
  {
    QuietKeepsApproval(s, s', more);
  }

  /** What such a step adds to the history. */
  function Added(l: Limits, s: State, e: Event): seq<Entry> {
    Step(l, s, e).log[if |s.log| <= |Step(l, s, e).log| then |s.log| else 0..]
  }

  predicate TouchesCalls(e: Event) {
    e.EnterTools? || e.Persist? || e.Execute? || e.Decide? || e.NextCall? || e.MarkRunning? || e.RecordResult?
  }

  lemma AwayFromCalls(l: Limits, s: State, e: Event)
    requires !TouchesCalls(e)
    ensures Step(l, s, e).calls == s.calls
    ensures Step(l, s, e).worker == s.worker || !InLoop(Step(l, s, e).worker)
  {
  }

  lemma AwayIsQuiet(l: Limits, s: State, e: Event)
    requires !TouchesCalls(e)
    ensures Step(l, s, e).log == s.log + Added(l, s, e) && Quiet(Added(l, s, e))
  {
    var log := Step(l, s, e).log;
    if log != s.log {
      assert |log| == |s.log| + 1 && log == s.log + [log[|s.log|]];
    }
  }

  lemma AwayStepKeepsApproval(l: Limits, s: State, e: Event)
    requires ApprovalInv(s) && !TouchesCalls(e)
    ensures ApprovalInv(Step(l, s, e))
  {
    AwayFromCalls(l, s, e);
    AwayIsQuiet(l, s, e);
    AwayKeepsApproval(s, Step(l, s, e), Added(l, s, e));
  }

  lemma StepKeepsApproval(l: Limits, s: State, e: Event)
    requires ApprovalInv(s)
    ensures ApprovalInv(Step(l, s, e))
  {
    if e.EnterTools? {
      EnterToolsKeepsApproval(l, s);
    } else if e.Persist? {
      PersistKeepsApproval(l, s, e.plan);
    } else if e.Execute? {
      ExecuteKeepsApproval(l, s);
    } else if e.Decide? {
      DecideKeepsApproval(l, s, e.slot, e.approve);
    } else if e.NextCall? {
      if s.worker.InCalls? && s.worker.todo != [] { NextCallKeepsApproval(l, s, e.tool, e.late); }
    } else if e.MarkRunning? {
      if s.worker.Reserved? && s.worker.todo != [] {
        StatusKeepsApproval(s, (s.worker.i, s.worker.todo[0].0), Started, Marked(s.worker.i, s.worker.todo));
      }
    } else if e.RecordResult? {
      if s.worker.Ran? && s.worker.todo != [] {
        StatusKeepsApproval(s, (s.worker.i, s.worker.todo[0].0), if e.ok then Done else Broken, InCalls(s.worker.i, s.worker.todo[1..]));
      }
    } else {
      AwayStepKeepsApproval(l, s, e);
    }
  }

  // ---------------------------------------------------------------- budgets

  function Executions(log: seq<Entry>): nat {
    if log == [] then 0 else Executions(log[..|log| - 1]) + (if log[|log| - 1].Executed? then 1 else 0)
  }

  function SearchesRun(log: seq<Entry>): nat {
    if log == [] then 0
    else SearchesRun(log[..|log| - 1]) + (if log[|log| - 1].Executed? && log[|log| - 1].search then 1 else 0)
  }

  /** A reservation that has not led to an execution yet. */
  predicate Holding(w: Worker) {
    (w.Reserved? || w.Marked?) && w.todo != []
  }

  ghost predicate BudgetInv(l: Limits, s: State) {
    var held := if Holding(s.worker) then 1 else 0;
    var heldSearch := if Holding(s.worker) && IsSearch(s.worker.todo[0].1.key) then 1 else 0;
    && Executions(s.log) + held <= s.toolCalls <= l.maxToolCalls
    && SearchesRun(s.log) + heldSearch <= s.searches <= l.maxSearches
    && (s.credit == 0 || s.credit < l.maxCredit + s.lastCost)
  }

  lemma {:induction false} CountsInLonger(log: seq<Entry>, more: seq<Entry>)
    requires forall j :: 0 <= j < |more| ==> !more[j].Executed?
    ensures Executions(log + more) == Executions(log) && SearchesRun(log + more) == SearchesRun(log)
  {
    if more == [] {
      assert log + more == log;
    } else {
      assert (log + more)[..|log + more| - 1] == log + more[..|more| - 1];
      CountsInLonger(log, more[..|more| - 1]);
    }
  }

  /** Steps that execute nothing, reserve nothing and charge nothing. */
  lemma FrugalKeepsBudget(l: Limits, s: State, s': State, more: seq<Entry>)
    requires BudgetInv(l, s) && s'.log == s.log + more && (forall j :: 0 <= j < |more| ==> !more[j].Executed?)
    requires s'.toolCalls == s.toolCalls && s'.searches == s.searches && s'.credit == s.credit && s'.lastCost == s.lastCost
    requires Holding(s'.worker) ==> Holding(s.worker) && s'.worker.todo == s.worker.todo
    ensures BudgetInv(l, s')
  {
    CountsInLonger(s.log, more);
  }

  lemma NextCallKeepsBudget(l: Limits, s: State, tool: Option<Kind>, late: bool)
    requires BudgetInv(l, s) && s.worker.InCalls? && s.worker.todo != []
    ensures BudgetInv(l, NextCallOf(l, s, s.worker.i, s.worker.todo, tool, late))
  {
  }

  lemma CountsOneMore(log: seq<Entry>, x: Entry)
    requires x.Executed?
    ensures Executions(log + [x]) == Executions(log) + 1
    ensures SearchesRun(log + [x]) == SearchesRun(log) + (if x.search then 1 else 0)
  {
    assert (log + [x])[..|log|] == log;
  }

  lemma ExecuteKeepsBudget(l: Limits, s: State)
    requires BudgetInv(l, s)
    ensures BudgetInv(l, Step(l, s, Execute))
  {
    var w := s.worker;
    if w.Marked? && w.todo != [] {
      CountsOneMore(s.log, Executed((w.i, w.todo[0].0), w.todo[0].1.stamp, IsSearch(w.todo[0].1.key)));
    }
  }

  /** No other step executes, reserves or charges. */
  lemma OthersAreFrugal(l: Limits, s: State, e: Event)
    requires !e.NextCall? && !e.Execute? && !e.CompleteModel?
    ensures var s' := Step(l, s, e);
            && s'.toolCalls == s.toolCalls && s'.searches == s.searches && s'.credit == s.credit && s'.lastCost == s.lastCost
            && (Holding(s'.worker) ==> Holding(s.worker) && s'.worker.todo == s.worker.todo)
  {
  }

  lemma OthersExecuteNothing(l: Limits, s: State, e: Event) returns (more: seq<Entry>)
    requires !e.NextCall? && !e.Execute? && !e.CompleteModel?
    ensures Step(l, s, e).log == s.log + more && forall j :: 0 <= j < |more| ==> !more[j].Executed?
  {
    more := if Step(l, s, e).log == s.log then [] else Step(l, s, e).log[|s.log|..];
  }

  lemma OtherKeepsBudget(l: Limits, s: State, e: Event)
    requires BudgetInv(l, s) && !e.NextCall? && !e.Execute? && !e.CompleteModel?
    ensures BudgetInv(l, Step(l, s, e))
  {
    OthersAreFrugal(l, s, e);
    var more := OthersExecuteNothing(l, s, e);
    FrugalKeepsBudget(l, s, Step(l, s, e), more);
  }

  lemma StepKeepsBudget(l: Limits, s: State, e: Event)
    requires BudgetInv(l, s)
    ensures BudgetInv(l, Step(l, s, e))
  {
    if e.Execute? {
      ExecuteKeepsBudget(l, s);
    } else if e.NextCall? {
      if s.worker.InCalls? && s.worker.todo != [] { NextCallKeepsBudget(l, s, e.tool, e.late); }
    } else if !e.CompleteModel? {
      OtherKeepsBudget(l, s, e);
    }
  }

  // ---------------------------------------------------------------- the graph

  /** The last thing that began, judged or finished. */
  function LastTurn(log: seq<Entry>): Option<Entry> {
    if log == [] then None
    else
      var x := log[|log| - 1];
      if x.Began? || x.Judged? || x.Finished? then Some(x) else LastTurn(log[..|log| - 1])
  }

  ghost predicate FinishOk(log: seq<Entry>, k: nat)
    requires k < |log| && log[k].Finished?
  {
    && LastTurn(log[..k]).Some? && LastTurn(log[..k]).value.Judged?
    && var verdict := LastTurn(log[..k]).value;
       && (verdict.approved || verdict.exhausted)
       && (log[k].succeeded <==> verdict.approved && log[k].exported)
  }

  ghost predicate GraphInv(l: Limits, s: State) {
    && s.iteration < l.maxIterations
    && (s.worker != Off ==> s.worker.i == s.iteration)
    && (s.worker.AtReplan? ==> s.iteration + 1 < l.maxIterations)
    && (s.worker.AtDeliver? ==>
          && LastTurn(s.log).Some? && LastTurn(s.log).value.Judged?
          && (LastTurn(s.log).value.approved <==> s.worker.verdict == Complete)
          && (LastTurn(s.log).value.approved || LastTurn(s.log).value.exhausted))
    && (forall k :: 0 <= k < |s.log| && s.log[k].Finished? ==> FinishOk(s.log, k))
  }

  predicate Turnless(more: seq<Entry>) {
    forall j :: 0 <= j < |more| ==> !more[j].Began? && !more[j].Judged? && !more[j].Finished?
  }

  lemma {:induction false} TurnInLonger(log: seq<Entry>, more: seq<Entry>)
    requires Turnless(more)
    ensures LastTurn(log + more) == LastTurn(log)
  {
    if more == [] {
      assert log + more == log;
    } else {
      assert (log + more)[..|log + more| - 1] == log + more[..|more| - 1];
      TurnInLonger(log, more[..|more| - 1]);
    }
  }

  lemma FinishesInLonger(log: seq<Entry>, more: seq<Entry>)
    requires forall k :: 0 <= k < |log| && log[k].Finished? ==> FinishOk(log, k)
    requires forall j :: 0 <= j < |more| ==> !more[j].Finished?
    ensures forall k :: 0 <= k < |log + more| && (log + more)[k].Finished? ==> FinishOk(log + more, k)
  {
    assert forall k :: |log| <= k < |log + more| ==> (log + more)[k] == more[k - |log|];
    forall k | 0 <= k < |log + more| && (log + more)[k].Finished? ensures FinishOk(log + more, k) {
      assert (log + more)[..k] == log[..k];
    }
  }

  /** Steps that neither judge nor deliver, and stay in the iteration. */
  lemma TurnlessKeepsGraph(l: Limits, s: State, s': State, more: seq<Entry>)
    requires GraphInv(l, s) && s'.log == s.log + more && Turnless(more)
    requires s'.iteration == s.iteration
    requires s'.worker != Off ==> s'.worker.i == s.iteration
    requires !s'.worker.AtReplan? || s'.worker == s.worker
    requires !s'.worker.AtDeliver? || s'.worker == s.worker
    ensures GraphInv(l, s')
  {
    TurnInLonger(s.log, more);
    FinishesInLonger(s.log, more);
  }

  lemma DeliverKeepsGraph(l: Limits, s: State, exported: bool)
    requires GraphInv(l, s)
    ensures GraphInv(l, Step(l, s, Deliver(exported)))
  {
    var s' := Step(l, s, Deliver(exported));
    if s' != s {
      assert s'.log[..|s.log|] == s.log;
      forall k | 0 <= k < |s'.log| && s'.log[k].Finished? ensures FinishOk(s'.log, k) {
        assert s'.log[..k] == s.log[..k];
      }
    }
  }

  lemma TurnKeepsGraph(l: Limits, s: State, e: Event)
    requires GraphInv(l, s) && (e.Judge? || e.StartJob? || e.BumpIteration?)
    ensures GraphInv(l, Step(l, s, e))
  {
    var s' := Step(l, s, e);
    assert s'.log == s.log + s'.log[|s.log|..];
    FinishesInLonger(s.log, s'.log[|s.log|..]);
  }

  predicate TakesNoTurn(e: Event) {
    !e.Judge? && !e.StartJob? && !e.BumpIteration? && !e.Deliver?
  }

  lemma OthersLogNoTurn(l: Limits, s: State, e: Event) returns (more: seq<Entry>)
    requires TakesNoTurn(e)
    ensures Step(l, s, e).log == s.log + more && Turnless(more)
  {
    more := if Step(l, s, e).log == s.log then [] else Step(l, s, e).log[|s.log|..];
  }

  lemma OthersStayInTurn(l: Limits, s: State, e: Event)
    requires TakesNoTurn(e) && (s.worker != Off ==> s.worker.i == s.iteration)
    ensures var s' := Step(l, s, e);
            && s'.iteration == s.iteration && (s'.worker != Off ==> s'.worker.i == s.iteration)
            && (s'.worker.AtReplan? || s'.worker.AtDeliver? ==> s'.worker == s.worker)
  {
  }

  lemma OtherKeepsGraph(l: Limits, s: State, e: Event)
    requires GraphInv(l, s) && TakesNoTurn(e)
    ensures GraphInv(l, Step(l, s, e))
  {
    OthersStayInTurn(l, s, e);
    var more := OthersLogNoTurn(l, s, e);
    TurnlessKeepsGraph(l, s, Step(l, s, e), more);
  }

  lemma StepKeepsGraph(l: Limits, s: State, e: Event)
    requires GraphInv(l, s)
    ensures GraphInv(l, Step(l, s, e))
  {
    if e.Deliver? {
      DeliverKeepsGraph(l, s, e.exported);
    } else if e.Judge? || e.StartJob? || e.BumpIteration? {
      TurnKeepsGraph(l, s, e);
    } else {
      OtherKeepsGraph(l, s, e);
    }
  }

  // ---------------------------------------------------------------- the recorded status

  /** The last turn delivered, and whether as a success. */
  predicate LastFinished(log: seq<Entry>, succeeded: bool) {
    LastTurn(log).Some? && LastTurn(log).value.Finished? && LastTurn(log).value.succeeded == succeeded
  }

  /** The row of the run says that it was delivered exactly when it was, and as what. */
  ghost predicate StatusInv(s: State) {
    && (s.status == Succeeded <==> LastFinished(s.log, true))
    && (s.status == Partial <==> LastFinished(s.log, false))
    && (s.status == Succeeded || s.status == Partial ==> s.worker == Off)
  }

  lemma OthersKeepDelivery(l: Limits, s: State, e: Event)
    requires TakesNoTurn(e) && (s.status == Succeeded || s.status == Partial ==> s.worker == Off)
    ensures var s' := Step(l, s, e);
            && (s'.status == Succeeded <==> s.status == Succeeded) && (s'.status == Partial <==> s.status == Partial)
            && (s.worker == Off ==> s'.worker == Off)
  {
  }

  lemma StepKeepsStatus(l: Limits, s: State, e: Event)
    requires StatusInv(s)
    ensures StatusInv(Step(l, s, e))
  {
    if TakesNoTurn(e) {
      OthersKeepDelivery(l, s, e);
      var more := OthersLogNoTurn(l, s, e);
      TurnInLonger(s.log, more);
    }
  }

  // ---------------------------------------------------------------- one visit to the tools

  /** What one turn of the loop was given: the tool found for the row, and what came of running it. */
  datatype Turn = Turn(tool: Option<Kind>, ok: Option<bool>)

  /** A row of the snapshot is to be run: not rejected, not done, of a known tool, and no interrupted external call. */
  predicate Wanted(c: Call, tool: Option<Kind>) {
    c.approval != Rejected && c.status != Done && tool.Some? && !(c.status == Started && tool.value.External?)
  }

  predicate BudgetLeft(l: Limits, s: State, c: Call, late: bool) {
    !late && s.toolCalls < l.maxToolCalls && (c.key == "web_search" ==> s.searches < l.maxSearches)
  }

  /** How often a row was executed. */
  function ExecutionsOf(log: seq<Entry>, slot: Slot): nat {
    if log == [] then 0
    else ExecutionsOf(log[..|log| - 1], slot) + (if log[|log| - 1].Executed? && log[|log| - 1].slot == slot then 1 else 0)
  }

  /** The turns taken so far, by position, after one more event. */
  function TurnsAfter(s: State, e: Event, turns: map<nat, Turn>): map<nat, Turn> {
    if e.NextCall? && s.worker.InCalls? && s.worker.todo != [] then turns[s.worker.todo[0].0 := Turn(e.tool, None)]
    else if e.RecordResult? && s.worker.Ran? && s.worker.todo != [] && s.worker.todo[0].0 in turns
    then turns[s.worker.todo[0].0 := turns[s.worker.todo[0].0].(ok := Some(e.ok))]
    else turns
  }

  function Turns(l: Limits, s: State, es: seq<Event>): map<nat, Turn> {
    if es == [] then map[]
    else TurnsAfter(Run(l, s, es[..|es| - 1]), es[|es| - 1], Turns(l, s, es[..|es| - 1]))
  }

  /** A row `c` whose turn is over was executed `count` times and has this status. */
  predicate Settled(c: Call, t: Turn, count: int, status: CallStatus) {
    if Wanted(c, t.tool) then
      t.ok.Some? && count == 1 && status == (if t.ok.value then Done else Broken)
    else
      count == 0 && status == (if c.approval == Rejected then Skipped else if c.status == Done then Done else Broken)
  }

  predicate InHand(w: Worker) {
    w.Reserved? || w.Marked? || w.Ran?
  }

  /** Row `pos` of the snapshot, from the entry into the tools (when the history was `base`) until now. */
  ghost predicate RowOk(base: seq<Entry>, i: nat, pos: nat, c: Call, s: State, turns: map<nat, Turn>) {
    var slot, w := (i, pos), s.worker;
    var count := ExecutionsOf(s.log, slot) - ExecutionsOf(base, slot);
    && 0 <= count <= 1
    && (count == 1 ==> pos in turns && Wanted(c, turns[pos].tool))
    && (InLoop(w) || w.AtCheckpoint? ==>
          && slot in s.calls
          && var status := s.calls[slot].status;
             if pos !in turns then status == c.status
             else if InHand(w) && w.todo != [] && w.todo[0].0 == pos then
               && Wanted(c, turns[pos].tool)
               && count == (if w.Ran? then 1 else 0)
               && status == (if w.Reserved? then c.status else Started)
             else if w.AtCheckpoint? && turns[pos].ok == None && Wanted(c, turns[pos].tool) then
               count == 0 && status == Skipped
             else Settled(c, turns[pos], count, status))
  }

  predicate Ascending(rows: seq<(nat, Call)>) {
    forall j, k :: 0 <= j < k < |rows| ==> rows[j].0 < rows[k].0
  }

  /** The worker has the last rows of the snapshot before it, and those are the ones without a turn. */
  ghost predicate TodoIs(rows: seq<(nat, Call)>, i: nat, w: Worker, turns: map<nat, Turn>) {
    InLoop(w) ==>
      && w.i == i && |w.todo| <= |rows| && w.todo == rows[|rows| - |w.todo|..]
      && (InHand(w) ==> w.todo != [])
      && (forall k :: 0 <= k < |rows| ==>
            (rows[k].0 in turns <==> k < |rows| - |w.todo| || (k == |rows| - |w.todo| && InHand(w))))
  }

  /** Whatever was executed since is a row of the snapshot, on the input it had there. */
  ghost predicate StampsOk(base: seq<Entry>, rows: seq<(nat, Call)>, i: nat, log: seq<Entry>) {
    && base <= log
    && forall j :: |base| <= j < |log| && log[j].Executed? ==>
         exists k :: 0 <= k < |rows| && log[j].slot == (i, rows[k].0) && log[j].stamp == rows[k].1.stamp
  }

  ghost predicate VisitOk(base: seq<Entry>, rows: seq<(nat, Call)>, i: nat, s: State, turns: map<nat, Turn>) {
    && TodoIs(rows, i, s.worker, turns)
    && (forall k :: 0 <= k < |rows| ==> RowOk(base, i, rows[k].0, rows[k].1, s, turns))
    && StampsOk(base, rows, i, s.log)
  }

  lemma {:induction false} ExecutionsInLonger(log: seq<Entry>, more: seq<Entry>, slot: Slot)
    requires forall j :: 0 <= j < |more| ==> !more[j].Executed?
    ensures ExecutionsOf(log + more, slot) == ExecutionsOf(log, slot)
  {
    if more == [] {
      assert log + more == log;
    } else {
      assert (log + more)[..|log + more| - 1] == log + more[..|more| - 1];
      ExecutionsInLonger(log, more[..|more| - 1], slot);
    }
  }

  lemma OneMoreExecution(log: seq<Entry>, x: Entry, slot: Slot)
    requires x.Executed?
    ensures ExecutionsOf(log + [x], slot) == ExecutionsOf(log, slot) + (if x.slot == slot then 1 else 0)
  {
    assert (log + [x])[..|log|] == log;
  }

  lemma StampsInLonger(base: seq<Entry>, rows: seq<(nat, Call)>, i: nat, log: seq<Entry>, more: seq<Entry>)
    requires StampsOk(base, rows, i, log) && forall j :: 0 <= j < |more| ==> !more[j].Executed?
    ensures StampsOk(base, rows, i, log + more)
  {
    assert forall j :: |log| <= j < |log + more| ==> (log + more)[j] == more[j - |log|];
    forall j | |base| <= j < |log + more| && (log + more)[j].Executed?
      ensures exists k :: 0 <= k < |rows| && (log + more)[j].slot == (i, rows[k].0) && (log + more)[j].stamp == rows[k].1.stamp
    {
      assert (log + more)[j] == log[j];
    }
  }

  /** An event that leaves rows, statuses and executions as they are, or takes the worker out of the loop. */
  lemma ElsewhereKeepsVisit(base: seq<Entry>, rows: seq<(nat, Call)>, i: nat, s: State, s': State, more: seq<Entry>,
      turns: map<nat, Turn>)
    requires VisitOk(base, rows, i, s, turns)
    requires s'.log == s.log + more && forall j :: 0 <= j < |more| ==> !more[j].Executed?
    requires InLoop(s'.worker) || s'.worker.AtCheckpoint? ==>
               && s'.worker == s.worker
               && s'.calls.Keys == s.calls.Keys && forall t :: t in s.calls ==> s'.calls[t].status == s.calls[t].status
    ensures VisitOk(base, rows, i, s', turns)
  {
    StampsInLonger(base, rows, i, s.log, more);
    forall k | 0 <= k < |rows| ensures RowOk(base, i, rows[k].0, rows[k].1, s', turns) {
      assert RowOk(base, i, rows[k].0, rows[k].1, s, turns);
      ExecutionsInLonger(s.log, more, (i, rows[k].0));
    }
  }

  /** The next call, from any state: it goes on exactly when the row is wanted and the budget is left. */
  lemma NextCallDecides(l: Limits, s: State, tool: Option<Kind>, late: bool)
    requires s.worker.InCalls? && s.worker.todo != []
    ensures var i, todo := s.worker.i, s.worker.todo;
            var c, slot, z := todo[0].1, (i, todo[0].0), Step(l, s, NextCall(tool, late));
            && z.worker == (if !Wanted(c, tool) then InCalls(i, todo[1..])
                            else if BudgetLeft(l, s, c, late) then Reserved(i, todo) else AtCheckpoint(i))
            && z.toolCalls == s.toolCalls + (if z.worker.Reserved? then 1 else 0)
            && z.searches == s.searches + (if z.worker.Reserved? && c.key == "web_search" then 1 else 0)
            && (slot in s.calls ==> z.calls == s.calls[slot := s.calls[slot].(status :=
                  if z.worker.AtCheckpoint? || c.approval == Rejected then Skipped
                  else if z.worker.Reserved? || c.status == Done then s.calls[slot].status else Broken)])
            && (slot !in s.calls ==> z.calls == s.calls)
            && z.log == s.log
  {
    var slot := (s.worker.i, s.worker.todo[0].0);
    if slot in s.calls {
      assert s.calls[slot := s.calls[slot].(status := s.calls[slot].status)] == s.calls;
    }
  }

  /** The rows that are not at the head of the loop, over one of its events. */
  lemma OtherRow(base: seq<Entry>, i: nat, pos: nat, c: Call, s: State, s': State, turns: map<nat, Turn>,
      turns': map<nat, Turn>, head: nat)
    requires RowOk(base, i, pos, c, s, turns) && pos != head && InLoop(s.worker)
    requires InHand(s.worker) ==> s.worker.todo != [] && s.worker.todo[0].0 == head
    requires InHand(s'.worker) ==> s'.worker.todo != [] && s'.worker.todo[0].0 == head
    requires InLoop(s'.worker) || s'.worker.AtCheckpoint?
    requires (i, pos) in s'.calls && s'.calls[(i, pos)] == s.calls[(i, pos)]
    requires (pos in turns' <==> pos in turns) && (pos in turns ==> turns'[pos] == turns[pos])
    requires ExecutionsOf(s'.log, (i, pos)) == ExecutionsOf(s.log, (i, pos))
    ensures RowOk(base, i, pos, c, s', turns')
  {
  }

  /** All of them together with the row at the head. */
  lemma HeadAndOthers(base: seq<Entry>, rows: seq<(nat, Call)>, i: nat, s: State, s': State, turns: map<nat, Turn>,
      turns': map<nat, Turn>)
    requires VisitOk(base, rows, i, s, turns) && Ascending(rows) && InLoop(s.worker) && s.worker.todo != []
    requires InHand(s'.worker) ==> s'.worker.todo == s.worker.todo
    requires InLoop(s'.worker) || s'.worker.AtCheckpoint?
    requires var head := s.worker.todo[0].0;
             && (forall t :: t in s.calls && t != (i, head) ==> t in s'.calls && s'.calls[t] == s.calls[t])
             && (forall q :: q != head ==> (q in turns' <==> q in turns) && (q in turns ==> turns'[q] == turns[q]))
             && (forall q :: q != head ==> ExecutionsOf(s'.log, (i, q)) == ExecutionsOf(s.log, (i, q)))
             && RowOk(base, i, head, s.worker.todo[0].1, s', turns')
    requires TodoIs(rows, i, s'.worker, turns') && StampsOk(base, rows, i, s'.log)
    ensures VisitOk(base, rows, i, s', turns')
  {
    var a := |rows| - |s.worker.todo|;
    assert rows[a] == s.worker.todo[0];
    forall k | 0 <= k < |rows| ensures RowOk(base, i, rows[k].0, rows[k].1, s', turns') {
      if k != a {
        assert rows[k].0 != rows[a].0;
        assert RowOk(base, i, rows[k].0, rows[k].1, s, turns);
        OtherRow(base, i, rows[k].0, rows[k].1, s, s', turns, turns', rows[a].0);
      }
    }
  }

  lemma NextCallTodo(rows: seq<(nat, Call)>, i: nat, w: Worker, w': Worker, turns: map<nat, Turn>, t: Turn)
    requires TodoIs(rows, i, w, turns) && Ascending(rows) && w.InCalls? && w.todo != []
    requires w' == InCalls(i, w.todo[1..]) || w' == Reserved(i, w.todo) || w' == AtCheckpoint(i)
    ensures TodoIs(rows, i, w', turns[w.todo[0].0 := t])
  {
    var a := |rows| - |w.todo|;
    assert rows[a] == w.todo[0];
    assert w.todo[1..] == rows[a + 1..];
    forall k | 0 <= k < |rows| && k != a ensures rows[k].0 != rows[a].0 {
    }
  }

  lemma NextCallKeepsVisit(l: Limits, base: seq<Entry>, rows: seq<(nat, Call)>, i: nat, s: State, turns: map<nat,
      Turn>, tool: Option<Kind>, late: bool)
    requires VisitOk(base, rows, i, s, turns) && Ascending(rows) && s.worker.InCalls? && s.worker.todo != []
    ensures VisitOk(base, rows, i, Step(l, s, NextCall(tool, late)), TurnsAfter(s, NextCall(tool, late), turns))
  {
    var s' := Step(l, s, NextCall(tool, late));
    var todo, a := s.worker.todo, |rows| - |s.worker.todo|;
    assert rows[a] == todo[0] && RowOk(base, i, rows[a].0, rows[a].1, s, turns);
    NextCallDecides(l, s, tool, late);
    NextCallTodo(rows, i, s.worker, s'.worker, turns, Turn(tool, None));
    HeadAndOthers(base, rows, i, s, s', turns, TurnsAfter(s, NextCall(tool, late), turns));
  }

  lemma MarkKeepsVisit(l: Limits, base: seq<Entry>, rows: seq<(nat, Call)>, i: nat, s: State, turns: map<nat, Turn>)
    requires VisitOk(base, rows, i, s, turns) && Ascending(rows) && s.worker.Reserved?
    ensures VisitOk(base, rows, i, Step(l, s, MarkRunning), turns)
  {
    var a := |rows| - |s.worker.todo|;
    assert rows[a] == s.worker.todo[0] && RowOk(base, i, rows[a].0, rows[a].1, s, turns);
    HeadAndOthers(base, rows, i, s, Step(l, s, MarkRunning), turns, turns);
  }

  lemma ExecuteKeepsVisit(l: Limits, base: seq<Entry>, rows: seq<(nat, Call)>, i: nat, s: State, turns: map<nat, Turn>)
    requires VisitOk(base, rows, i, s, turns) && Ascending(rows) && s.worker.Marked?
    ensures VisitOk(base, rows, i, Step(l, s, Execute), turns)
  {
    var s' := Step(l, s, Execute);
    var a := |rows| - |s.worker.todo|;
    assert rows[a] == s.worker.todo[0] && RowOk(base, i, rows[a].0, rows[a].1, s, turns);
    var x := s'.log[|s.log|];
    forall q ensures ExecutionsOf(s'.log, (i, q)) == ExecutionsOf(s.log, (i, q)) + (if q == rows[a].0 then 1 else 0) {
      OneMoreExecution(s.log, x, (i, q));
    }
    forall j | |base| <= j < |s'.log| && s'.log[j].Executed?
      ensures exists k :: 0 <= k < |rows| && s'.log[j].slot == (i, rows[k].0) && s'.log[j].stamp == rows[k].1.stamp
    {
      if j < |s.log| {
        assert s'.log[j] == s.log[j];
      } else {
        assert s'.log[j].slot == (i, rows[a].0) && s'.log[j].stamp == rows[a].1.stamp;
      }
    }
    HeadAndOthers(base, rows, i, s, s', turns, turns);
  }

  lemma ResultTodo(rows: seq<(nat, Call)>, i: nat, w: Worker, turns: map<nat, Turn>, t: Turn)
    requires TodoIs(rows, i, w, turns) && w.Ran?
    ensures TodoIs(rows, i, InCalls(i, w.todo[1..]), turns[w.todo[0].0 := t])
  {
    var a := |rows| - |w.todo|;
    assert rows[a] == w.todo[0];
    assert w.todo[1..] == rows[a + 1..];
    assert rows[a].0 in turns;
  }

  lemma ResultKeepsVisit(l: Limits, base: seq<Entry>, rows: seq<(nat, Call)>, i: nat, s: State, turns: map<nat,
      Turn>, ok: bool)
    requires VisitOk(base, rows, i, s, turns) && Ascending(rows) && s.worker.Ran?
    ensures VisitOk(base, rows, i, Step(l, s, RecordResult(ok)), TurnsAfter(s, RecordResult(ok), turns))
  {
    var a := |rows| - |s.worker.todo|;
    assert rows[a] == s.worker.todo[0] && RowOk(base, i, rows[a].0, rows[a].1, s, turns);
    assert rows[a].0 in turns;
    ResultTodo(rows, i, s.worker, turns, turns[rows[a].0].(ok := Some(ok)));
    HeadAndOthers(base, rows, i, s, Step(l, s, RecordResult(ok)), turns, TurnsAfter(s, RecordResult(ok), turns));
  }

  predicate TurnsCalls(s: State, e: Event) {
    && InLoop(s.worker) && s.worker.todo != []
    && ((e.NextCall? && s.worker.InCalls?) || (e.MarkRunning? && s.worker.Reserved?)
        || (e.Execute? && s.worker.Marked?) || (e.RecordResult? && s.worker.Ran?))
  }

  /** The other events touch no row of the loop, or end it. */
  lemma ElsewhereIsQuiet(l: Limits, s: State, e: Event) returns (more: seq<Entry>)
    requires !e.EnterTools? && !TurnsCalls(s, e) && (InHand(s.worker) ==> s.worker.todo != [])
    ensures var z := Step(l, s, e);
            && z.log == s.log + more && (forall j :: 0 <= j < |more| ==> !more[j].Executed?)
            && (InLoop(z.worker) || z.worker.AtCheckpoint? ==>
                  && z.worker == s.worker
                  && z.calls.Keys == s.calls.Keys && forall t :: t in s.calls ==> z.calls[t].status == s.calls[t].status)
  {
    more := if Step(l, s, e).log == s.log then [] else Step(l, s, e).log[|s.log|..];
  }

  lemma StepKeepsVisit(l: Limits, base: seq<Entry>, rows: seq<(nat, Call)>, i: nat, s: State, turns: map<nat, Turn>,
      e: Event)
    requires VisitOk(base, rows, i, s, turns) && Ascending(rows) && (e.EnterTools? ==> !s.worker.AtTools?)
    ensures VisitOk(base, rows, i, Step(l, s, e), TurnsAfter(s, e, turns))
  {
    if e.EnterTools? {
    } else if !TurnsCalls(s, e) {
      var more := ElsewhereIsQuiet(l, s, e);
      ElsewhereKeepsVisit(base, rows, i, s, Step(l, s, e), more, turns);
    } else if e.NextCall? {
      NextCallKeepsVisit(l, base, rows, i, s, turns, e.tool, e.late);
    } else if e.MarkRunning? {
      MarkKeepsVisit(l, base, rows, i, s, turns);
    } else if e.Execute? {
      ExecuteKeepsVisit(l, base, rows, i, s, turns);
    } else {
      ResultKeepsVisit(l, base, rows, i, s, turns, e.ok);
    }
  }

  /** The snapshot holds every row of the iteration once, in order. */
  lemma {:induction false} RowsAscend(calls: map<Slot, Call>, i: nat, n: nat)
    ensures Ascending(RowsBelow(calls, i, n))
    ensures forall pos :: pos < n && (i, pos) in calls ==> (pos, calls[(i, pos)]) in RowsBelow(calls, i, n)
  {
    if n > 0 {
      RowsAscend(calls, i, n - 1);
      var shorter := RowsBelow(calls, i, n - 1);
      forall j | 0 <= j < |shorter| ensures shorter[j].0 < n - 1 {
        RowsAre(calls, i, n - 1, j);
      }
    }
  }

  lemma VisitBegins(s: State, i: nat)
    ensures VisitOk(s.log, RowsOf(s.calls, i), i, s.(worker := InCalls(i, RowsOf(s.calls, i))), map[])
    ensures Ascending(RowsOf(s.calls, i))
  {
    var rows := RowsOf(s.calls, i);
    RowsAscend(s.calls, i, PLAN_LIMIT);
    assert rows[0..] == rows;
    forall k | 0 <= k < |rows| ensures (i, rows[k].0) in s.calls && s.calls[(i, rows[k].0)] == rows[k].1 {
      RowsAre(s.calls, i, PLAN_LIMIT, k);
    }
  }

  /** The worker enters the tools after `before`, and during `es` does not enter them again. */
  ghost predicate Visits(l: Limits, before: seq<Event>, es: seq<Event>) {
    var s := Run(l, Initial(), before);
    && s.worker.AtTools? && Step(l, s, EnterTools).worker.InCalls?
    && forall m | 0 <= m < |es| :: !EntersAgain(l, Step(l, s, EnterTools), es, m)
  }

  ghost predicate EntersAgain(l: Limits, s: State, es: seq<Event>, m: nat)
    requires m < |es|
  {
    es[m] == EnterTools && Run(l, s, es[..m]).worker.AtTools?
  }

  lemma VisitsBefore(l: Limits, before: seq<Event>, es: seq<Event>)
    requires Visits(l, before, es) && es != []
    ensures Visits(l, before, es[..|es| - 1])
    ensures es[|es| - 1] == EnterTools ==> !Run(l, Step(l, Run(l, Initial(), before), EnterTools), es[..|es| - 1]).worker.AtTools?
  {
    var t, n := Step(l, Run(l, Initial(), before), EnterTools), |es| - 1;
    var shorter := es[..n];
    forall m | 0 <= m < n ensures !EntersAgain(l, t, shorter, m) {
      assert !EntersAgain(l, t, es, m);
      assert shorter[..m] == es[..m];
    }
    assert !EntersAgain(l, t, es, n);
  }

  lemma {:induction false} VisitGoesOn(l: Limits, before: seq<Event>, es: seq<Event>)
    requires Visits(l, before, es)
    ensures var s := Run(l, Initial(), before);
            var t := Step(l, s, EnterTools);
            && Ascending(RowsOf(s.calls, s.worker.i))
            && VisitOk(s.log, RowsOf(s.calls, s.worker.i), s.worker.i, Run(l, t, es), Turns(l, t, es))
  {
    var s := Run(l, Initial(), before);
    if es == [] {
      VisitBegins(s, s.worker.i);
    } else {
      var shorter, t := es[..|es| - 1], Step(l, s, EnterTools);
      VisitsBefore(l, before, es);
      VisitGoesOn(l, before, shorter);
      StepKeepsVisit(l, s.log, RowsOf(s.calls, s.worker.i), s.worker.i, Run(l, t, shorter), Turns(l, t, shorter), es[|es| - 1]);
    }
  }

  // ---------------------------------------------------------------- main results

  ghost predicate Inv(l: Limits, s: State) {
    ApprovalInv(s) && BudgetInv(l, s) && GraphInv(l, s) && StatusInv(s)
  }

  lemma {:induction false} RunKeepsInv(l: Limits, es: seq<Event>)
    requires l.maxIterations > 0
    ensures Inv(l, Run(l, Initial(), es))
  {
    if es != [] {
      var s := Run(l, Initial(), es[..|es| - 1]);
      RunKeepsInv(l, es[..|es| - 1]);
      StepKeepsApproval(l, s, es[|es| - 1]);
      StepKeepsBudget(l, s, es[|es| - 1]);
      StepKeepsGraph(l, s, es[|es| - 1]);
      StepKeepsStatus(l, s, es[|es| - 1]);
    }
  }

  /**
    Over any crashes, restores, replans and reviews: a tool call that requires approval is executed
    only on an input that was approved after it was written, and an input that was rejected, before
    or after, is never executed.
  */
  lemma OnlyApprovedCallsRun(l: Limits, es: seq<Event>, k: nat)
    requires l.maxIterations > 0
    requires var log := Run(l, Initial(), es).log; k < |log| && log[k].Executed?
    ensures var log := Run(l, Initial(), es).log;
            var x := log[k];
            && x.stamp < k && log[x.stamp].Wrote? && log[x.stamp].slot == x.slot
            && (log[x.stamp].needsApproval ==>
                  exists j :: x.stamp < j < k && log[j] == Decided(x.slot, x.stamp, true))
            && (forall j :: x.stamp < j < |log| ==> log[j] != Decided(x.slot, x.stamp, false))
  {
    RunKeepsInv(l, es);
    var log := Run(l, Initial(), es).log;
    var x := log[k];
    assert ExecutionOk(log, k);
    if log[x.stamp].needsApproval {
      var j :| x.stamp < j < k && log[..k][j] == Decided(x.slot, x.stamp, true);
      assert log[j] == Decided(x.slot, x.stamp, true);
    }
  }

  /**
    Executions stay within the recorded counts and these within their limits; credit overshoots by less than
    its last charge.
  */
  lemma BudgetsHold(l: Limits, es: seq<Event>)
    requires l.maxIterations > 0
    ensures var s := Run(l, Initial(), es);
            && Executions(s.log) <= s.toolCalls <= l.maxToolCalls
            && SearchesRun(s.log) <= s.searches <= l.maxSearches
            && (s.credit > 0 ==> s.credit < l.maxCredit + s.lastCost)
  {
    RunKeepsInv(l, es);
  }

  /**
    A run is delivered only by the invocation that judged it last, and it succeeds exactly when that
    verdict approved the answer and the files were exported.
  */
  lemma DeliveredOnlyAsJudged(l: Limits, es: seq<Event>, k: nat)
    requires l.maxIterations > 0
    requires var log := Run(l, Initial(), es).log; k < |log| && log[k].Finished?
    ensures FinishOk(Run(l, Initial(), es).log, k)
    ensures Run(l, Initial(), es).iteration < l.maxIterations
  {
    RunKeepsInv(l, es);
  }

  /** Where the last turn is a delivery. */
  lemma {:induction false} LastTurnIsAt(log: seq<Entry>) returns (k: nat)
    requires LastTurn(log).Some?
    ensures k < |log| && log[k] == LastTurn(log).value
  {
    var x := log[|log| - 1];
    if x.Began? || x.Judged? || x.Finished? {
      k := |log| - 1;
    } else {
      k := LastTurnIsAt(log[..|log| - 1]);
    }
  }

  /**
    The row of a run says SUCCEEDED exactly when its last turn was a delivery as a success, and then the
    verdict that delivery followed approved the answer and its files were exported.
  */
  lemma SucceededOnlyAsJudged(l: Limits, es: seq<Event>)
    requires l.maxIterations > 0
    ensures var s := Run(l, Initial(), es);
            && (s.status == Succeeded <==> LastFinished(s.log, true)) && (s.status == Partial <==> LastFinished(s.log, false))
            && (s.status == Succeeded ==>
                  exists k :: 0 <= k < |s.log| && s.log[k].Finished? && s.log[k].exported
                           && LastTurn(s.log[..k]).Some? && LastTurn(s.log[..k]).value.Judged? && LastTurn(s.log[..k]).value.approved)
  {
    RunKeepsInv(l, es);
    var s := Run(l, Initial(), es);
    if s.status == Succeeded {
      var k := LastTurnIsAt(s.log);
      assert FinishOk(s.log, k);
    }
  }

  /** At the moment of delivery: the last verdict decides, together with the export. */
  lemma DeliveryDecides(l: Limits, es: seq<Event>, exported: bool)
    requires l.maxIterations > 0 && Run(l, Initial(), es).worker.AtDeliver?
    ensures var s := Run(l, Initial(), es);
            && LastTurn(s.log).Some? && LastTurn(s.log).value.Judged?
            && Step(l, s, Deliver(exported)).status
               == if LastTurn(s.log).value.approved && exported then Succeeded else Partial
  {
    RunKeepsInv(l, es);
  }

  /** What has become of a row between the entry `s` and the end `z` of the loop. */
  ghost predicate DealtWith(s: State, z: State, turns: map<nat, Turn>, slot: Slot)
    requires slot in s.calls
  {
    var c, count := s.calls[slot], ExecutionsOf(z.log, slot) - ExecutionsOf(s.log, slot);
    && slot in z.calls
    && if slot.1 !in turns then z.worker.AtCheckpoint? && count == 0 && z.calls[slot].status == c.status
       else
         || Settled(c, turns[slot.1], count, z.calls[slot].status)
         || (z.worker.AtCheckpoint? && Wanted(c, turns[slot.1].tool) && turns[slot.1].ok == None
             && count == 0 && z.calls[slot].status == Skipped)
  }

  lemma RowIsDealtWith(s: State, z: State, rows: seq<(nat, Call)>, k: nat, turns: map<nat, Turn>)
    requires s.worker.AtTools? && VisitOk(s.log, rows, s.worker.i, z, turns)
    requires z.worker.AtCheckpoint? || (z.worker.InCalls? && z.worker.todo == [])
    requires k < |rows| && (s.worker.i, rows[k].0) in s.calls && s.calls[(s.worker.i, rows[k].0)] == rows[k].1
    ensures DealtWith(s, z, turns, (s.worker.i, rows[k].0))
  {
    assert RowOk(s.log, s.worker.i, rows[k].0, rows[k].1, z, turns);
  }

  /**
    Every row is dealt with before the draft. When the worker that entered the tools is about to start
    the draft without having been stopped, each row of the iteration has had its turn: it was executed
    exactly once since the entry if it was not rejected, not SUCCEEDED before, of a known tool and no
    interrupted external call, and not at all otherwise; and its status tells what came of it. When the
    budget stopped the loop, the same holds of the turns taken, but for the one skipped for the budget,
    and the rows without a turn are as they were.
  */
  lemma EachCallIsDealtWith(l: Limits, before: seq<Event>, es: seq<Event>, pos: nat)
    requires l.maxIterations > 0 && Visits(l, before, es)
    requires var s := Run(l, Initial(), before); (s.worker.i, pos) in s.calls
    requires var w := Run(l, Step(l, Run(l, Initial(), before), EnterTools), es).worker;
             w.AtCheckpoint? || (w.InCalls? && w.todo == [])
    ensures var s := Run(l, Initial(), before);
            var t := Step(l, s, EnterTools);
            DealtWith(s, Run(l, t, es), Turns(l, t, es), (s.worker.i, pos))
  {
    var s := Run(l, Initial(), before);
    var rows, t := RowsOf(s.calls, s.worker.i), Step(l, s, EnterTools);
    RunKeepsInv(l, before);
    assert CallOk(s, (s.worker.i, pos));
    VisitGoesOn(l, before, es);
    RowsAscend(s.calls, s.worker.i, PLAN_LIMIT);
    var k :| 0 <= k < |rows| && rows[k] == (pos, s.calls[(s.worker.i, pos)]);
    RowIsDealtWith(s, Run(l, t, es), rows, k, Turns(l, t, es));
  }

  /**
    At any moment of the visit, whatever happens to the worker: a row executed since the entry is one of
    the snapshot, on the input it had there; it was wanted when its turn came, so it had not SUCCEEDED;
    and it was executed once.
  */
  lemma OnlyWantedCallsRun(l: Limits, before: seq<Event>, es: seq<Event>, j: nat)
    requires Visits(l, before, es)
    requires var s := Run(l, Initial(), before);
             var z := Run(l, Step(l, s, EnterTools), es);
             |s.log| <= j < |z.log| && z.log[j].Executed?
    ensures var s := Run(l, Initial(), before);
            var z := Run(l, Step(l, s, EnterTools), es);
            var turns := Turns(l, Step(l, s, EnterTools), es);
            var x := z.log[j];
            && x.slot.0 == s.worker.i && x.slot in s.calls && x.slot.1 in turns
            && x.stamp == s.calls[x.slot].stamp
            && Wanted(s.calls[x.slot], turns[x.slot.1].tool)
            && s.calls[x.slot].status != Done
            && ExecutionsOf(z.log, x.slot) == ExecutionsOf(s.log, x.slot) + 1
  {
    var s := Run(l, Initial(), before);
    var i, rows, t := s.worker.i, RowsOf(s.calls, s.worker.i), Step(l, s, EnterTools);
    var z := Run(l, t, es);
    VisitGoesOn(l, before, es);
    assert StampsOk(s.log, rows, i, z.log);
    var k :| 0 <= k < |rows| && z.log[j].slot == (i, rows[k].0) && z.log[j].stamp == rows[k].1.stamp;
    RowsAre(s.calls, i, PLAN_LIMIT, k);
    assert RowOk(s.log, i, rows[k].0, rows[k].1, z, Turns(l, t, es));
    CountedIfThere(s.log, z.log, j);
  }

  /**
    So an external call is run by a visit that gets to its end exactly when the visit found it neither
    rejected, nor SUCCEEDED, nor interrupted; a call that was given up as FAILED is run again.
  */
  lemma ExternalCallRunsIff(l: Limits, before: seq<Event>, es: seq<Event>, pos: nat)
    requires l.maxIterations > 0 && Visits(l, before, es)
    requires var s := Run(l, Initial(), before); (s.worker.i, pos) in s.calls
    requires var t := Step(l, Run(l, Initial(), before), EnterTools);
             && Run(l, t, es).worker.InCalls? && Run(l, t, es).worker.todo == []
             && (pos in Turns(l, t, es) ==> Turns(l, t, es)[pos].tool == Some(External))
    ensures var s := Run(l, Initial(), before);
            var z, slot := Run(l, Step(l, s, EnterTools), es), (s.worker.i, pos);
            ExecutionsOf(z.log, slot) > ExecutionsOf(s.log, slot) <==>
              s.calls[slot].approval != Rejected && (s.calls[slot].status in {Pending, Broken, Skipped})
  {
    EachCallIsDealtWith(l, before, es, pos);
  }

  /** An entry of the longer history counts. */
  lemma {:induction false} CountedIfThere(base: seq<Entry>, log: seq<Entry>, j: nat)
    requires base <= log && |base| <= j < |log| && log[j].Executed?
    ensures ExecutionsOf(log, log[j].slot) > ExecutionsOf(base, log[j].slot)
    decreases |log|
  {
    var n := |log| - 1;
    if j < n {
      assert base <= log[..n];
      CountedIfThere(base, log[..n], j);
    } else {
      CountNeverFalls(base, log[..n], log[j].slot);
    }
  }

  lemma {:induction false} CountNeverFalls(base: seq<Entry>, log: seq<Entry>, slot: Slot)
    requires base <= log
    ensures ExecutionsOf(log, slot) >= ExecutionsOf(base, slot)
    decreases |log|
  {
    if |base| < |log| {
      assert base <= log[..|log| - 1];
      CountNeverFalls(base, log[..|log| - 1], slot);
    } else {
      assert base == log;
    }
  }

  /** The row of the running tool says so. */
  ghost predicate MarkedOk(s: State) {
    s.worker.Marked? || s.worker.Ran? ==>
      && s.worker.todo != []
      && (s.worker.i, s.worker.todo[0].0) in s.calls
      && s.calls[(s.worker.i, s.worker.todo[0].0)].status == Started
  }

  lemma StepKeepsMarked(l: Limits, s: State, e: Event)
    requires TodoOk(s) && MarkedOk(s)
    ensures MarkedOk(Step(l, s, e))
  {
    if e.EnterTools? {
    } else if !TurnsCalls(s, e) {
      var _ := ElsewhereIsQuiet(l, s, e);
    } else if e.NextCall? {
      NextCallDecides(l, s, e.tool, e.late);
    } else if e.MarkRunning? {
      assert (s.worker.i, s.worker.todo[0].0) in s.calls;
    }
  }

  /** While a tool is running its row says so, and a crash leaves it saying so. */
  lemma {:induction false} InterruptedIsMarked(l: Limits, es: seq<Event>)
    requires l.maxIterations > 0
    ensures MarkedOk(Run(l, Initial(), es))
    ensures Step(l, Run(l, Initial(), es), Crash).calls == Run(l, Initial(), es).calls
  {
    if es != [] {
      InterruptedIsMarked(l, es[..|es| - 1]);
      RunKeepsInv(l, es[..|es| - 1]);
      StepKeepsMarked(l, Run(l, Initial(), es[..|es| - 1]), es[|es| - 1]);
    }
  }

  lemma ReservedIsExecuted(l: Limits, s: State, c: Call)
    requires s.worker == Reserved(s.iteration, [(0, c)])
    ensures Step(l, Step(l, s, MarkRunning), Execute).log == s.log + [Executed((s.iteration, 0), c.stamp, IsSearch(c.key))]
  {
  }

  /** A restart that gets as far as the only row. */
  function Retried(l: Limits, s: State): State {
    Step(l, Step(l, Step(l, Step(l, s, Crash), StartJob), EnterTools), NextCall(Some(External), false))
  }

  lemma RetryEnters(l: Limits, s: State, c: Call)
    requires s.status == Running && s.node == NTools && s.credit < l.maxCredit
    requires s.calls == map[(s.iteration, 0) := c] && !c.needsApproval
    ensures Step(l, Step(l, Step(l, s, Crash), StartJob), EnterTools)
         == s.(worker := InCalls(s.iteration, [(0, c)]), log := s.log + [Began])
  {
    OneRow(s.calls, s.iteration);
  }

  lemma InterruptedIsGivenUp(l: Limits, s: State, c: Call)
    requires s.status == Running && s.node == NTools && s.credit < l.maxCredit
    requires s.calls == map[(s.iteration, 0) := c.(status := Started)] && c.approval == NotRequired && !c.needsApproval
    ensures Retried(l, s)
         == s.(calls := map[(s.iteration, 0) := c.(status := Broken)], worker := InCalls(s.iteration, []), log := s.log + [Began])
  {
    RetryEnters(l, s, c.(status := Started));
    assert s.calls[(s.iteration, 0) := c.(status := Broken)] == map[(s.iteration, 0) := c.(status := Broken)];
  }

  lemma GivenUpIsReserved(l: Limits, s: State, c: Call)
    requires s.status == Running && s.node == NTools && s.credit < l.maxCredit && s.toolCalls < l.maxToolCalls
    requires s.calls == map[(s.iteration, 0) := c.(status := Broken)] && c.approval == NotRequired && !c.needsApproval
    requires c.key != "web_search"
    ensures Retried(l, s)
         == s.(worker := Reserved(s.iteration, [(0, c.(status := Broken))]), log := s.log + [Began], toolCalls := s.toolCalls + 1)
  {
    RetryEnters(l, s, c.(status := Broken));
  }

  lemma FirstTwo(rows: seq<(nat, Call)>)
    requires Ascending(rows)
    ensures |rows| > 1 ==> rows[0].0 != rows[1].0
  {
  }

  lemma OneRow(calls: map<Slot, Call>, i: nat)
    requires calls.Keys == {(i, 0)}
    ensures RowsOf(calls, i) == [(0, calls[(i, 0)])]
  {
    RowsAscend(calls, i, PLAN_LIMIT);
    var rows := RowsOf(calls, i);
    FirstTwo(rows);
    assert (0, calls[(i, 0)]) in rows;
    forall k | 0 <= k < |rows| ensures rows[k] == (0, calls[(i, 0)]) {
      RowsAre(calls, i, PLAN_LIMIT, k);
      assert (i, rows[k].0) in calls.Keys;
    }
  }

  /**
    Not repeating an interrupted external call holds for one crash, not for two. The first restart gives
    the call up as FAILED; if the worker crashes again before the draft, the second restart finds a
    FAILED row, which is wanted, and executes the same input again.
  */
  lemma ReplayTakesTwoCrashes(l: Limits, s: State, c: Call)
    requires s.status == Running && s.node == NTools && s.worker == Ran(s.iteration, [(0, c)])
    requires s.calls == map[(s.iteration, 0) := c.(status := Started)]
    requires c.approval == NotRequired && !c.needsApproval && c.key != "web_search"
    requires s.credit < l.maxCredit && s.toolCalls < l.maxToolCalls
    ensures var once, twice := Retried(l, s), Retried(l, Retried(l, s));
            && (once.worker.InCalls? && once.worker.todo == [] && once.log == s.log + [Began])
            && Step(l, Step(l, twice, MarkRunning), Execute).log
                 == s.log + [Began, Began, Executed((s.iteration, 0), c.stamp, false)]
  {
    InterruptedIsGivenUp(l, s, c);
    var once := Retried(l, s);
    GivenUpIsReserved(l, once, c);
    ReservedIsExecuted(l, Retried(l, once), c.(status := Broken));
    assert once.log + [Began] == s.log + [Began, Began];
  }

  /**
    Entering the tools, from every reachable state: with credit left, the run pauses exactly when some
    call of the iteration is undecided, and otherwise works through all rows of the iteration.
  */
  lemma PausesIff(l: Limits, es: seq<Event>)
    requires l.maxIterations > 0 && Run(l, Initial(), es).worker.AtTools? && Run(l, Initial(), es).credit < l.maxCredit
    ensures var s := Run(l, Initial(), es);
            var z := Step(l, s, EnterTools);
            var undecided := exists slot :: slot in s.calls && slot.0 == s.iteration && s.calls[slot].approval == Undecided;
            && (undecided ==> z == s.(status := WaitingApproval, node := NTools, worker := Off))
            && (!undecided ==> z.worker.InCalls? && z.status == s.status)
            && (!undecided ==> forall pos | pos < PLAN_LIMIT && (s.iteration, pos) in s.calls ::
                  (pos, s.calls[(s.iteration, pos)]) in z.worker.todo)
  {
    RunKeepsInv(l, es);
    var s := Run(l, Initial(), es);
    var i := s.iteration;
    assert s.worker.i == i;
    RowsAscend(s.calls, i, PLAN_LIMIT);
    if slot :| slot in s.calls && slot.0 == i && s.calls[slot].approval == Undecided {
      assert CallOk(s, slot) && slot == (i, slot.1);
    }
    if AwaitsDecision(s.calls, i) {
      var k :| 0 <= k < PLAN_LIMIT && (i, k) in s.calls && s.calls[(i, k)].needsApproval && s.calls[(i, k)].approval == Undecided;
      assert (i, k).0 == i;
    }
  }

  /**
    What is left when a plan is persisted: its actions, fresh and in order, and the earlier rows of the
    iteration that were begun.
  */
  lemma PersistedRows(l: Limits, es: seq<Event>, plan: seq<Action>, slot: Slot)
    requires |plan| <= PLAN_LIMIT && Run(l, Initial(), es).worker.AtPersist?
    ensures var s, z := Run(l, Initial(), es), Step(l, Run(l, Initial(), es), Persist(plan));
            var planned := slot.0 == s.worker.i && slot.1 < |plan|;
            && (slot in z.calls <==> planned || (slot in s.calls && (slot.0 == s.worker.i ==> s.calls[slot].status != Pending)))
            && (planned ==>
                  var a := plan[slot.1];
                  z.calls[slot] == Call(a.key, |s.log| + slot.1, a.needsApproval,
                                        if a.needsApproval then Undecided else NotRequired, Pending))
            && (slot in z.calls && !planned ==> z.calls[slot] == s.calls[slot])
  {
    var s := Run(l, Initial(), es);
    PlannedAt(s.worker.i, plan, |s.log|, |plan|, slot);
  }

  /** A paused run goes on when, and only when, no call of its iteration is undecided. */
  lemma ResumesIff(l: Limits, es: seq<Event>)
    requires Run(l, Initial(), es).status == WaitingApproval
    ensures var s := Run(l, Initial(), es);
            Step(l, s, Resume) == if exists slot :: slot in s.calls && slot.0 == s.iteration && s.calls[slot].approval == Undecided
                                  then s else s.(status := Queued, node := NTools)
  {
  }

  /**
    An exhausted credit ends the invocation as any exception does: a run at work becomes failed, one that
    was cancelled or paused stays so.
  */
  lemma OverBudgetThrows(l: Limits, s: State, e: Event)
    requires s.worker != Off && s.credit >= l.maxCredit
    requires (e.CompleteModel? && AsksModel(s.worker)) || (e.EnterTools? && s.worker.AtTools?) || (e.BumpIteration? && s.worker.AtReplan?)
    ensures Step(l, s, e) == Step(l, s, Throw)
         == s.(worker := Off, status := if s.status == Queued || s.status == Running then Failed else s.status)
  {
  }

  lemma PlanIsResumed(l: Limits, s: State, plan: seq<Action>)
    requires s.status == Running && s.worker == AtPersist(s.iteration) && |plan| <= PLAN_LIMIT
    ensures var z := Step(l, Step(l, Step(l, s, Persist(plan)), Crash), StartJob);
            && z.worker == AtTools(s.iteration) && z.calls == Step(l, s, Persist(plan)).calls
  {
  }

  lemma DraftIsResumed(l: Limits, s: State)
    requires s.status == Running && s.worker != Off && s.worker.i == s.iteration
    requires s.worker.AtCheckpoint? || (s.worker.InCalls? && s.worker.todo == [])
    ensures Step(l, Step(l, Step(l, s, Checkpoint), Crash), StartJob).worker == AtDraft(s.iteration)
  {
  }

  /** What the worker goes on with after it saved a checkpoint, crashed and was started again. */
  lemma CheckpointsAreResumed(l: Limits, es: seq<Event>, plan: seq<Action>)
    requires l.maxIterations > 0 && |plan| <= PLAN_LIMIT && Run(l, Initial(), es).status == Running
    ensures var s := Run(l, Initial(), es);
            // a persisted plan is not made again, nor are its rows lost
            && (s.worker.AtPersist? ==>
                  var z := Step(l, Step(l, Step(l, s, Persist(plan)), Crash), StartJob);
                  && z.worker == AtTools(s.iteration) && z.calls == Step(l, s, Persist(plan)).calls)
            // and after the draft's checkpoint no tool is run again
            && (s.worker.AtCheckpoint? || (s.worker.InCalls? && s.worker.todo == []) ==>
                  Step(l, Step(l, Step(l, s, Checkpoint), Crash), StartJob).worker == AtDraft(s.iteration))
  {
    RunKeepsInv(l, es);
    var s := Run(l, Initial(), es);
    if s.worker.AtPersist? {
      PlanIsResumed(l, s, plan);
    } else if s.worker.AtCheckpoint? || (s.worker.InCalls? && s.worker.todo == []) {
      DraftIsResumed(l, s);
    }
  }

  /** One iteration without tools, from the plan to the verdict. */
  function OneIteration(l: Limits, s: State, plan: nat, draft: nat, verify: nat): State {
    var drafting := Step(l, Step(l, Step(l, Step(l, s, CompleteModel(plan)), Persist([])), EnterTools), Checkpoint);
    Step(l, Step(l, Step(l, drafting, CompleteModel(draft)), SaveDraft), CompleteModel(verify))
  }

  lemma NothingPlanned(l: Limits, s: State, i: nat)
    requires s.worker == AtPersist(i) && (forall slot :: slot in s.calls ==> slot.0 != i) && s.credit < l.maxCredit
    ensures Step(l, Step(l, Step(l, s, Persist([])), EnterTools), Checkpoint) == s.(node := NDraft, worker := AtDraft(i))
  {
    var t := Step(l, s, Persist([]));
    assert Kept(s.calls, i) + map[] == s.calls;
    assert t.calls == s.calls && t.log == s.log;
    var rows := RowsOf(t.calls, i);
    if rows != [] { RowsAre(t.calls, i, PLAN_LIMIT, 0); }
  }

  lemma DraftIsVerified(l: Limits, s: State, i: nat, draft: nat, verify: nat)
    requires s.worker == AtDraft(i) && s.credit + draft < l.maxCredit
    ensures Step(l, Step(l, Step(l, s, CompleteModel(draft)), SaveDraft), CompleteModel(verify))
         == s.(node := NVerify, worker := AtVerdict(i), credit := s.credit + draft + verify, lastCost := verify)
  {
  }

  lemma IterationGoesThrough(l: Limits, s: State, i: nat, plan: nat, draft: nat, verify: nat)
    requires s.worker == AtPlan(i) || s.worker == AtReplanModel(i)
    requires (forall slot :: slot in s.calls ==> slot.0 != i) && s.credit + plan + draft < l.maxCredit
    ensures OneIteration(l, s, plan, draft, verify)
         == s.(node := NVerify, worker := AtVerdict(i), credit := s.credit + plan + draft + verify, lastCost := verify)
  {
    var planned := Step(l, s, CompleteModel(plan));
    assert planned == s.(worker := AtPersist(i), credit := s.credit + plan, lastCost := plan);
    NothingPlanned(l, planned, i);
    DraftIsVerified(l, planned.(node := NDraft, worker := AtDraft(i)), i, draft, verify);
  }

  lemma TurnedDown(l: Limits, s: State)
    requires s.worker == AtVerdict(0) && l.maxIterations > 1 && s.credit < l.maxCredit
    ensures Step(l, Step(l, s, Judge(false)), BumpIteration)
         == s.(iteration := 1, node := NPlan, worker := AtReplanModel(1), log := s.log + [Judged(false, false)])
  {
  }

  lemma AcceptedAndDelivered(l: Limits, s: State)
    requires s.worker.AtVerdict?
    ensures Step(l, Step(l, s, Judge(true)), Deliver(true))
         == s.(status := Succeeded, node := NDone, worker := Off, log := s.log + [Judged(true, false), Finished(true, true)])
  {
  }

  /**
    A run nobody disturbs: a first answer turned down and a second one approved within the budget is
    delivered in two iterations, and every completion is charged.
  */
  lemma UndisturbedRun(l: Limits, plan: nat, draft: nat, verify: nat, again: nat, redraft: nat, reverify: nat)
    requires l.maxIterations > 1 && plan + draft + verify + again + redraft < l.maxCredit
    ensures var first := OneIteration(l, Step(l, Step(l, Initial(), StartJob), Prepare), plan, draft, verify);
            var second := OneIteration(l, Step(l, Step(l, first, Judge(false)), BumpIteration), again, redraft, reverify);
            var z := Step(l, Step(l, second, Judge(true)), Deliver(true));
            && z.status == Succeeded && z.node == NDone && z.worker == Off && z.iteration == 1
            && z.credit == plan + draft + verify + again + redraft + reverify
            && z.log == [Began, Judged(false, false), Judged(true, false), Finished(true, true)]
  {
    var prepared := Step(l, Step(l, Initial(), StartJob), Prepare);
    assert prepared == State(Running, NPlan, 0, 0, 0, 0, map[], AtPlan(0), 0, [Began]);
    IterationGoesThrough(l, prepared, 0, plan, draft, verify);
    var first := OneIteration(l, prepared, plan, draft, verify);
    TurnedDown(l, first);
    var bumped := Step(l, Step(l, first, Judge(false)), BumpIteration);
    IterationGoesThrough(l, bumped, 1, again, redraft, reverify);
    AcceptedAndDelivered(l, OneIteration(l, bumped, again, redraft, reverify));
  }

  /** How many more events an uninterrupted invocation can take. */
  function Rank(l: Limits, w: Worker): int {
    if w == Off then 0
    else
      64 * (l.maxIterations - w.i - 1) +
      match w
      case AtPrepare(_) => 60
      case AtPlan(_) => 59
      case AtReplanModel(_) => 59
      case AtPersist(_) => 58
      case AtTools(_) => 57
      case InCalls(_, todo) => 11 + 4 * |todo|
      case Reserved(_, todo) => 10 + 4 * |todo|
      case Marked(_, todo) => 9 + 4 * |todo|
      case Ran(_, todo) => 8 + 4 * |todo|
      case AtCheckpoint(_) => 10
      case AtDraft(_) => 9
      case AtDraftSave(_) => 8
      case AtVerify(_) => 7
      case AtVerdict(_) => 6
      case AtReplan(_) => 5
      case AtDeliver(_, _) => 5
  }

  /** The events of the people around the run. */
  predicate ByOthers(e: Event) {
    e.Decide? || e.Resume? || e.CancelRun?
  }

  lemma NextCallLowersRank(l: Limits, s: State, e: Event)
    requires GraphInv(l, s) && e.NextCall?
    ensures 0 <= Rank(l, Step(l, s, e).worker) <= Rank(l, s.worker)
    ensures Step(l, s, e) != s ==> Rank(l, Step(l, s, e).worker) < Rank(l, s.worker)
  {
    if s.worker.InCalls? && s.worker.todo != [] {
      var w := Step(l, s, e).worker;
      assert w == InCalls(s.worker.i, s.worker.todo[1..]) || w == AtCheckpoint(s.worker.i) || w == Reserved(s.worker.i, s.worker.todo);
    }
  }

  lemma CallLowersRank(l: Limits, s: State, e: Event)
    requires GraphInv(l, s) && (e.MarkRunning? || e.Execute? || e.RecordResult?)
    ensures 0 <= Rank(l, Step(l, s, e).worker) <= Rank(l, s.worker)
    ensures Step(l, s, e) != s ==> Rank(l, Step(l, s, e).worker) < Rank(l, s.worker)
  {
  }

  lemma NodeLowersRank(l: Limits, s: State, e: Event)
    requires GraphInv(l, s) && (e.Prepare? || e.CompleteModel? || e.Persist? || e.EnterTools? || e.Checkpoint? || e.SaveDraft?)
    ensures 0 <= Rank(l, Step(l, s, e).worker) <= Rank(l, s.worker)
    ensures Step(l, s, e) != s ==> Rank(l, Step(l, s, e).worker) < Rank(l, s.worker)
  {
  }

  lemma VerdictLowersRank(l: Limits, s: State, e: Event)
    requires GraphInv(l, s) && (e.Judge? || e.BumpIteration? || e.Deliver?)
    ensures 0 <= Rank(l, Step(l, s, e).worker) <= Rank(l, s.worker)
    ensures Step(l, s, e) != s ==> Rank(l, Step(l, s, e).worker) < Rank(l, s.worker)
  {
  }

  lemma OthersKeepRank(l: Limits, s: State, e: Event)
    requires GraphInv(l, s) && ByOthers(e)
    ensures 0 <= Rank(l, Step(l, s, e).worker) == Rank(l, s.worker)
  {
  }

  /** Every effective event of the worker brings its invocation nearer to the end. */
  lemma StepLowersRank(l: Limits, s: State, e: Event)
    requires Inv(l, s) && !e.StartJob?
    ensures 0 <= Rank(l, Step(l, s, e).worker) <= Rank(l, s.worker)
    ensures !ByOthers(e) && Step(l, s, e) != s ==> Rank(l, Step(l, s, e).worker) < Rank(l, s.worker)
  {
    if e.NextCall? {
      NextCallLowersRank(l, s, e);
    } else if e.MarkRunning? || e.Execute? || e.RecordResult? {
      CallLowersRank(l, s, e);
    } else if e.Prepare? || e.CompleteModel? || e.Persist? || e.EnterTools? || e.Checkpoint? || e.SaveDraft? {
      NodeLowersRank(l, s, e);
    } else if e.Judge? || e.BumpIteration? || e.Deliver? {
      VerdictLowersRank(l, s, e);
    } else if ByOthers(e) {
      OthersKeepRank(l, s, e);
    }
  }

  /** 1 for an event of the worker itself that has an effect. */
  function Effect(l: Limits, s: State, e: Event): nat {
    if !ByOthers(e) && Step(l, s, e) != s then 1 else 0
  }

  /** The worker's own events from the `k`-th on that had an effect. */
  function Work(l: Limits, es: seq<Event>, k: nat): nat {
    if |es| <= k then 0 else Work(l, es[..|es| - 1], k) + Effect(l, Run(l, Initial(), es[..|es| - 1]), es[|es| - 1])
  }

  lemma LastLowersRank(l: Limits, es: seq<Event>)
    requires l.maxIterations > 0 && es != [] && !es[|es| - 1].StartJob?
    ensures var s := Run(l, Initial(), es[..|es| - 1]);
            0 <= Rank(l, Run(l, Initial(), es).worker) <= Rank(l, s.worker) - Effect(l, s, es[|es| - 1])
  {
    RunKeepsInv(l, es[..|es| - 1]);
    StepLowersRank(l, Run(l, Initial(), es[..|es| - 1]), es[|es| - 1]);
  }

  /**
    Every invocation ends: whatever the model, the tools and the reviewers do, from any event to the
    next job start the worker takes at most 64 events per remaining iteration.
  */
  lemma {:induction false} InvocationEnds(l: Limits, es: seq<Event>, k: nat)
    requires l.maxIterations > 0 && k <= |es| && forall j | k <= j < |es| :: !es[j].StartJob?
    ensures var s, z := Run(l, Initial(), es[..k]), Run(l, Initial(), es);
            && Work(l, es, k) + Rank(l, z.worker) <= Rank(l, s.worker) <= 64 * (l.maxIterations - s.iteration)
            && 0 <= Rank(l, z.worker)
    decreases |es|
  {
    var n := |es| - 1;
    if |es| == k {
      assert es[..k] == es;
      RunKeepsInv(l, es);
      StepLowersRank(l, Run(l, Initial(), es), Throw);
    } else {
      assert es[..n][..k] == es[..k];
      InvocationEnds(l, es[..n], k);
      LastLowersRank(l, es);
    }
  }

  // ---------------------------------------------------------------- the program

  /** The model, the tools and the people, as one invocation meets them. */
  datatype Env = Env(
    others: nat -> seq<Event>,
    cost: nat -> nat,
    plan: nat -> seq<Action>,
    tool: nat -> Option<Kind>,
    ok: nat -> bool,
    late: nat -> bool,
    throws: nat -> bool)

  ghost predicate Fair(env: Env) {
    && (forall k, i :: 0 <= i < |env.others(k)| ==> ByOthers(env.others(k)[i]))
    && (forall k :: |env.plan(k)| <= PLAN_LIMIT)
  }

  lemma OthersLeaveWorker(l: Limits, s: State, e: Event)
    requires ByOthers(e)
    ensures Step(l, s, e).worker == s.worker
  {
  }

  /** After one turn of the loop over the calls, the worker is nearer to the end. */
  lemma CallRank(l: Limits, w: Worker, w': Worker)
    requires w.InCalls? && w.todo != [] && 0 <= Rank(l, w) && w.i < l.maxIterations
    requires w' == Off || w' == InCalls(w.i, w.todo[1..]) || w' == AtCheckpoint(w.i)
    ensures Rank(l, w') <= Rank(l, w)
  {
  }

  /** From one node to the next of the graph, or to the end. */
  lemma EdgeRank(l: Limits, w: Worker, w': Worker)
    requires w != Off && w.i < l.maxIterations
    requires w' == Off
          || (w.AtVerdict? && (w'.AtDeliver? || w'.AtReplan?) && w'.i == w.i)
          || (w.AtTools? && w'.InCalls? && w'.i == w.i && |w'.todo| <= PLAN_LIMIT)
          || ((w.AtCheckpoint? || w.InCalls?) && w'.AtDraft? && w'.i == w.i)
          || (w.AtDraftSave? && w'.AtVerify? && w'.i == w.i)
          || (w.AtReplan? && w'.AtReplanModel? && w'.i == w.i + 1)
    ensures Rank(l, w') < Rank(l, w)
  {
  }

  lemma ModelRank(l: Limits, w: Worker, w': Worker)
    requires AsksModel(w) && w.i < l.maxIterations && (w' == Off || w' == AfterModel(w))
    ensures Rank(l, w') < Rank(l, w)
  {
  }

  /** The single worker that holds the run. `trace` is everything that happened to the run. */
  class AgentTasksProcessor {
    const l: Limits
    var status: Status
    var node: Node
    var iteration: nat
    var toolCalls: nat
    var searches: nat
    var credit: nat
    var calls: map<Slot, Call>
    var worker: Worker
    var lastCost: nat
    var log: seq<Entry>
    var clock: nat
    ghost var trace: seq<Event>

    ghost function View(): State
      reads this
    {
      State(status, node, iteration, toolCalls, searches, credit, calls, worker, lastCost, log)
    }

    ghost predicate Valid()
      reads this
    {
      && l.maxIterations > 0
      && View() == Run(l, Initial(), trace)
      && (worker != Off ==> worker.i < l.maxIterations)
    }

    constructor (l: Limits)
      requires l.maxIterations > 0
      ensures Valid() && this.l == l && trace == []
    {
      this.l := l;
      status, node, iteration, toolCalls, searches, credit := Queued, NPrepare, 0, 0, 0, 0;
      calls, worker, lastCost, log, clock := map[], Off, 0, [], 0;
      trace := [];
    }

    ghost method Record(e: Event)
      requires l.maxIterations > 0 && View() == Step(l, Run(l, Initial(), trace), e)
      modifies this`trace
      ensures Valid() && trace == old(trace) + [e]
    {
      assert (trace + [e])[..|trace|] == trace;
      trace := trace + [e];
      RunKeepsInv(l, trace);
    }

    /** One statement of a reviewer or of the owner. */
    method Perform(e: Event)
      requires Valid()
      modifies this
      ensures Valid() && clock == old(clock) && trace == old(trace) + [e]
      ensures View() == Step(l, old(View()), e)
    {
      Load(Step(l, State(status, node, iteration, toolCalls, searches, credit, calls, worker, lastCost, log), e));
      Record(e);
    }

    method Load(s: State)
      modifies this
      ensures View() == s && trace == old(trace) && clock == old(clock)
    {
      status, node, iteration, toolCalls, searches, credit := s.status, s.node, s.iteration, s.toolCalls, s.searches, s.credit;
      calls, worker, lastCost, log := s.calls, s.worker, s.lastCost, s.log;
    }

    method Await(env: Env)
      requires Valid() && Fair(env)
      modifies this
      ensures Valid() && old(trace) <= trace && worker == old(worker)
    {
      var es := env.others(clock);
      clock := clock + 1;
      for i := 0 to |es|
        invariant Valid() && old(trace) <= trace && worker == old(worker)
      {
        OthersLeaveWorker(l, View(), es[i]);
        Perform(es[i]);
      }
    }

    /** The catch block: a run that is still queued or running becomes failed. */
    method ThrowOut()
      requires Valid() && worker != Off
      modifies this
      ensures Valid() && trace == old(trace) + [Throw] && worker == Off
      ensures status == (if old(status) == Queued || old(status) == Running then Failed else old(status))
    {
      if status == Queued || status == Running { status := Failed; }
      worker := Off;
      Record(Throw);
    }

    /** The next statement may throw instead of doing its work. */
    method AwaitOrThrow(env: Env) returns (thrown: bool)
      requires Valid() && worker != Off && Fair(env)
      modifies this
      ensures Valid() && old(trace) <= trace
      ensures worker == if thrown then Off else old(worker)
    {
      Await(env);
      thrown := env.throws(clock);
      if thrown {
        ThrowOut();
      }
    }

    /** Claiming the job and restoring the checkpoint. */
    method Claim() returns (claimed: bool)
      requires Valid() && worker == Off
      modifies this
      ensures Valid() && old(trace) <= trace
      ensures claimed <==> old(status == Queued || status == Running)
      ensures claimed ==> worker == Restored(old(View()))
      ensures !claimed ==> View() == old(View())
    {
      claimed := status == Queued || status == Running;
      if claimed {
        status := Running;
        worker := if node == NTools then AtTools(iteration) else if node == NDraft then AtDraft(iteration) else AtPrepare(iteration);
        log := log + [Began];
        Record(StartJob);
      }
    }

    /** `prepare`: its checkpoint lets the plan be made. */
    method PrepareTask()
      requires Valid() && worker.AtPrepare?
      modifies this
      ensures Valid() && trace == old(trace) + [Prepare]
      ensures Rank(l, worker) < old(Rank(l, worker))
    {
      node, worker := NPlan, AtPlan(worker.i);
      Record(Prepare);
    }

    /** `completeModel`: the budget is asserted before the completion is charged. */
    method AskModel(cost: nat) returns (ok: bool)
      requires Valid() && AsksModel(worker)
      modifies this
      ensures Valid() && trace == old(trace) + [CompleteModel(cost)]
      ensures ok <==> old(credit) < l.maxCredit
      ensures worker == if ok then AfterModel(old(worker)) else Off
      ensures credit == old(credit) + (if ok then cost else 0)
      ensures status == if ok then old(status) else (if old(status) == Queued || old(status) == Running then Failed else old(status))
      ensures Rank(l, worker) < old(Rank(l, worker))
    {
      ghost var before := worker;
      ok := credit < l.maxCredit;
      if ok {
        credit, lastCost, worker := credit + cost, cost, AfterModel(worker);
      } else {
        if status == Queued || status == Running { status := Failed; }
        worker := Off;
      }
      Record(CompleteModel(cost));
      ModelRank(l, before, worker);
    }

    /** `persistPlan`: inside one transaction the pending rows go and the planned ones are upserted in turn. */
    method PersistPlan(plan: seq<Action>)
      requires Valid() && worker.AtPersist? && |plan| <= PLAN_LIMIT
      modifies this
      ensures Valid() && trace == old(trace) + [Persist(plan)]
      ensures worker == AtTools(old(worker).i)
      ensures Rank(l, worker) < old(Rank(l, worker))
    {
      var i := worker.i;
      ghost var before := View();
      WriteRows(i, plan, |log|);
      node, worker, log := NTools, AtTools(i), log + Writes(i, plan);
      assert View() == Step(l, before, Persist(plan));
      Record(Persist(plan));
    }

    method WriteRows(i: nat, plan: seq<Action>, stamp: nat)
      modifies this`calls
      ensures calls == Rewritten(old(calls), i, plan, stamp)
    {
      var kept := Kept(calls, i);
      calls := kept;
      assert kept + map[] == kept;
      for position := 0 to |plan|
        invariant calls == kept + Planned(i, plan, stamp, position)
      {
        MergeThenUpdate(kept, Planned(i, plan, stamp, position), (i, position), Fresh(plan[position], stamp + position));
        calls := calls[(i, position) := Fresh(plan[position], stamp + position)];
      }
    }

    /** Pauses for pending approvals, or takes the snapshot of the rows to work through. */
    method BeginTools() returns (entered: bool)
      requires Valid() && worker.AtTools?
      modifies this
      ensures Valid() && trace == old(trace) + [EnterTools]
      ensures entered ==> worker == InCalls(old(worker).i, RowsOf(calls, old(worker).i))
      ensures !entered ==> worker == Off
      ensures entered <==> old(credit) < l.maxCredit && !AwaitsDecision(calls, old(worker).i)
      ensures status == (if entered then old(status)
                         else if old(credit) < l.maxCredit then WaitingApproval
                         else if old(status) == Queued || old(status) == Running then Failed else old(status))
    {
      var i := worker.i;
      entered := credit < l.maxCredit && !AwaitsDecision(calls, i);
      if entered {
        worker := InCalls(i, RowsOf(calls, i));
      } else if credit < l.maxCredit {
        status, node, worker := WaitingApproval, NTools, Off;
      } else {
        if status == Queued || status == Running { status := Failed; }
        worker := Off;
      }
      Record(EnterTools);
    }

    method Mark(slot: Slot, callStatus: CallStatus)
      modifies this`calls
      ensures View() == SetStatus(old(View()), slot, callStatus)
    {
      if slot in calls {
        calls := calls[slot := calls[slot].(status := callStatus)];
      }
    }

    /** The head of the loop body, up to `reserveToolBudget`; `go` means the tool is to be executed. */
    method ConsiderCall(tool: Option<Kind>, late: bool) returns (go: bool)
      requires Valid() && worker.InCalls? && worker.todo != []
      modifies this
      ensures Valid() && trace == old(trace) + [NextCall(tool, late)]
      ensures worker == if go then Reserved(old(worker).i, old(worker).todo) else worker
      ensures !go ==> worker == InCalls(old(worker).i, old(worker).todo[1..]) || worker == AtCheckpoint(old(worker).i)
      ensures var c := old(worker).todo[0].1;
              go <==> && c.approval != Rejected && c.status != Done && tool.Some? && !(c.status == Started && tool.value.External?)
                      && !late && old(toolCalls) < l.maxToolCalls && (c.key == "web_search" ==> old(searches) < l.maxSearches)
      ensures worker.AtCheckpoint? <==> !go && Wanted(old(worker).todo[0].1, tool)
      ensures toolCalls == old(toolCalls) + (if go then 1 else 0)
    {
      ghost var before := View();
      NextCallDecides(l, before, tool, late);
      go := HeadOfLoop(tool, late);
      assert View() == Step(l, before, NextCall(tool, late));
      Record(NextCall(tool, late));
    }

    method HeadOfLoop(tool: Option<Kind>, late: bool) returns (go: bool)
      requires worker.InCalls? && worker.todo != []
      modifies this`calls, this`toolCalls, this`searches, this`worker
      ensures View() == NextCallOf(l, old(View()), old(worker).i, old(worker).todo, tool, late)
      ensures go <==> worker.Reserved?
    {
      var i, todo := worker.i, worker.todo;
      var slot, call := (i, todo[0].0), todo[0].1;
      go := false;
      if call.approval == Rejected {
        Mark(slot, Skipped);
        worker := InCalls(i, todo[1..]);
      } else if call.status == Done {
        worker := InCalls(i, todo[1..]);
      } else if tool.None? {
        Mark(slot, Broken);
        worker := InCalls(i, todo[1..]);
      } else if call.status == Started && tool.value.External? {
        Mark(slot, Broken);
        worker := InCalls(i, todo[1..]);
      } else {
        go := ReserveBudget(i, todo, late);
      }
    }

    method ReserveBudget(i: nat, todo: seq<(nat, Call)>, late: bool) returns (go: bool)
      requires todo != []
      modifies this`calls, this`toolCalls, this`searches, this`worker
      ensures View() == Reserve(l, old(View()), i, todo, late)
      ensures worker == if go then Reserved(i, todo) else AtCheckpoint(i)
    {
      var search := IsSearch(todo[0].1.key);
      go := !late && toolCalls < l.maxToolCalls && (!search || searches < l.maxSearches);
      if go {
        toolCalls := toolCalls + 1;
        if search { searches := searches + 1; }
        worker := Reserved(i, todo);
      } else {
        Mark((i, todo[0].0), Skipped);
        worker := AtCheckpoint(i);
      }
    }

    method MarkStarted()
      requires Valid() && worker.Reserved? && worker.todo != []
      modifies this
      ensures Valid() && trace == old(trace) + [MarkRunning]
      ensures worker == Marked(old(worker).i, old(worker).todo)
      ensures var slot := (worker.i, worker.todo[0].0); slot in calls ==> calls[slot].status == Started
    {
      Mark((worker.i, worker.todo[0].0), Started);
      worker := Marked(worker.i, worker.todo);
      Record(MarkRunning);
    }

    method RunTool()
      requires Valid() && worker.Marked? && worker.todo != []
      modifies this
      ensures Valid() && trace == old(trace) + [Execute]
      ensures worker == Ran(old(worker).i, old(worker).todo)
      ensures var (pos, c) := old(worker).todo[0];
              log == old(log) + [Executed((worker.i, pos), c.stamp, c.key == "web_search")]
    {
      var call := worker.todo[0].1;
      log := log + [Executed((worker.i, worker.todo[0].0), call.stamp, IsSearch(call.key))];
      worker := Ran(worker.i, worker.todo);
      Record(Execute);
    }

    method StoreResult(ok: bool)
      requires Valid() && worker.Ran? && worker.todo != []
      modifies this
      ensures Valid() && trace == old(trace) + [RecordResult(ok)]
      ensures worker == InCalls(old(worker).i, old(worker).todo[1..])
      ensures var slot := (worker.i, old(worker).todo[0].0);
              slot in calls ==> calls[slot].status == (if ok then Done else Broken)
    {
      Mark((worker.i, worker.todo[0].0), if ok then Done else Broken);
      worker := InCalls(worker.i, worker.todo[1..]);
      Record(RecordResult(ok));
    }

    method SaveContext()
      requires Valid() && (worker.AtCheckpoint? || (worker.InCalls? && worker.todo == []))
      modifies this
      ensures Valid() && trace == old(trace) + [Checkpoint] && worker == AtDraft(old(worker).i)
    {
      node, worker := NDraft, AtDraft(worker.i);
      Record(Checkpoint);
    }

    /** `executeTools`: one call after the other, until they are done or the budget stops them. */
    method ExecuteTools(env: Env)
      requires Valid() && worker.AtTools? && Fair(env)
      modifies this
      ensures Valid() && old(trace) <= trace
      ensures worker == Off || worker == AtDraft(old(worker).i)
      ensures Rank(l, worker) < old(Rank(l, worker))
    {
      ghost var before := worker;
      var entered := BeginTools();
      EdgeRank(l, before, worker);
      if !entered { return; }
      WorkThrough(env);
      if worker == Off { return; }
      Await(env);
      ghost var last := worker;
      SaveContext();
      EdgeRank(l, last, worker);
    }

    method WorkThrough(env: Env)
      requires Valid() && worker.InCalls? && Fair(env)
      modifies this
      ensures Valid() && old(trace) <= trace
      ensures worker == Off || (worker.i == old(worker).i && (worker.AtCheckpoint? || (worker.InCalls? && worker.todo == [])))
      ensures Rank(l, worker) <= old(Rank(l, worker))
    {
      ghost var before := worker;
      while worker.InCalls? && worker.todo != []
        invariant Valid() && old(trace) <= trace
        invariant worker == Off || (worker.i == before.i && (worker.InCalls? || worker.AtCheckpoint?))
        invariant Rank(l, worker) <= Rank(l, before)
        decreases if worker.InCalls? then |worker.todo| + 1 else 0
      {
        ghost var now := worker;
        OneCall(env);
        CallRank(l, now, worker);
      }
    }

    method OneCall(env: Env)
      requires Valid() && worker.InCalls? && worker.todo != [] && Fair(env)
      modifies this
      ensures Valid() && old(trace) <= trace
      ensures worker == Off || worker == InCalls(old(worker).i, old(worker).todo[1..]) || worker == AtCheckpoint(old(worker).i)
    {
      var thrown := AwaitOrThrow(env);
      if thrown { return; }
      var go := ConsiderCall(env.tool(clock), env.late(clock));
      if go {
        CarryOut(env);
      }
    }

    /** The budget is reserved: mark the row, run the tool, store what came of it. */
    method CarryOut(env: Env)
      requires Valid() && worker.Reserved? && worker.todo != [] && Fair(env)
      modifies this
      ensures Valid() && old(trace) <= trace
      ensures worker == InCalls(old(worker).i, old(worker).todo[1..])
    {
      Await(env);
      MarkStarted();
      Await(env);
      RunTool();
      Await(env);
      StoreResult(env.ok(clock));
    }

    method SaveAnswer()
      requires Valid() && worker.AtDraftSave?
      modifies this
      ensures Valid() && trace == old(trace) + [SaveDraft] && worker == AtVerify(old(worker).i)
    {
      node, worker := NVerify, AtVerify(worker.i);
      Record(SaveDraft);
    }

    /** The end of `verify`: the verdict, written with the node that follows from it. */
    method Conclude(approved: bool)
      requires Valid() && worker.AtVerdict?
      modifies this
      ensures Valid() && trace == old(trace) + [Judge(approved)]
      ensures var i := old(worker).i;
              worker == if approved then AtDeliver(i, Complete)
                        else if i + 1 >= l.maxIterations then AtDeliver(i, Incomplete) else AtReplan(i)
    {
      var i := worker.i;
      var exhausted := !approved && i + 1 >= l.maxIterations;
      log := log + [Judged(approved, exhausted)];
      node := if approved || exhausted then NDeliver else NReplan;
      worker := if approved then AtDeliver(i, Complete) else if exhausted then AtDeliver(i, Incomplete) else AtReplan(i);
      Record(Judge(approved));
    }

    /** The start of `replan`. */
    method NextIteration() returns (ok: bool)
      requires Valid() && worker.AtReplan?
      modifies this
      ensures Valid() && trace == old(trace) + [BumpIteration]
      ensures ok <==> old(credit) < l.maxCredit
      ensures worker == if ok then AtReplanModel(old(worker).i + 1) else Off
      ensures status == if ok then old(status) else (if old(status) == Queued || old(status) == Running then Failed else old(status))
    {
      ok := credit < l.maxCredit;
      if ok {
        iteration, node, worker := worker.i + 1, NPlan, AtReplanModel(worker.i + 1);
      } else {
        if status == Queued || status == Running { status := Failed; }
        worker := Off;
      }
      Record(BumpIteration);
    }

    method DeliverAnswer(exported: bool)
      requires Valid() && worker.AtDeliver?
      modifies this
      ensures Valid() && trace == old(trace) + [Deliver(exported)]
      ensures worker == Off
      ensures status == if old(worker).verdict == Complete && exported then Succeeded else Partial
    {
      var ok := worker.verdict == Complete && exported;
      status, node, worker := if ok then Succeeded else Partial, NDone, Off;
      log := log + [Finished(ok, exported)];
      Record(Deliver(exported));
    }

    /** One node of the graph, or the rest of one. */
    method RunNode(env: Env)
      requires Valid() && worker != Off && Fair(env)
      requires !InLoop(worker) && !worker.AtCheckpoint?
      modifies this
      ensures Valid() && old(trace) <= trace
      ensures !InLoop(worker) && !worker.AtCheckpoint?
      ensures Rank(l, worker) < old(Rank(l, worker))
    {
      var thrown := AwaitOrThrow(env);
      if thrown { return; }
      if AsksModel(worker) {
        var _ := AskModel(env.cost(clock));
      } else {
        NodeBody(env);
      }
    }

    method NodeBody(env: Env)
      requires Valid() && worker != Off && Fair(env)
      requires !InLoop(worker) && !worker.AtCheckpoint? && !AsksModel(worker)
      modifies this
      ensures Valid() && old(trace) <= trace
      ensures !InLoop(worker) && !worker.AtCheckpoint?
      ensures Rank(l, worker) < old(Rank(l, worker))
    {
      ghost var before := worker;
      match worker
      case AtPrepare(_) => PrepareTask();
      case AtPersist(_) => PersistPlan(env.plan(clock));
      case AtTools(_) => ExecuteTools(env);
      case AtDraftSave(_) =>
        SaveAnswer();
        EdgeRank(l, before, worker);
      case AtVerdict(_) =>
        Conclude(env.ok(clock));
        EdgeRank(l, before, worker);
      case AtReplan(_) =>
        var _ := NextIteration();
        EdgeRank(l, before, worker);
      case AtDeliver(_, _) => DeliverAnswer(env.ok(clock));
    }

    /**
      `process`: one job. It runs the graph from the checkpoint to its end, and it does end: the loop
      descends through the iterations left and the nodes left in each.
    */
    method Process(env: Env)
      requires Valid() && worker == Off && Fair(env)
      modifies this
      ensures Valid() && old(trace) <= trace
      ensures worker == Off
    {
      var claimed := Claim();
      if !claimed { return; }
      while worker != Off
        invariant Valid() && old(trace) <= trace
        invariant !InLoop(worker) && !worker.AtCheckpoint?
        decreases Rank(l, worker)
      {
        RunNode(env);
      }
    }
  }
}

/**
  One approval round of an agent run: the run waits, reviewers decide its pending tool calls, the
  last one resumes it, and the owner may cancel at any moment. Every database statement and queue
  request of a reviewer or canceller is one `Event`; the server may crash between any two.
*/
module AgentApproval {
  import opened Wrappers

  type Pid = nat
  type CallId = nat

  /** The statuses a task or run can have while a round lasts. */
  datatype Status = WaitingApproval | Queued | Cancelled | Failed

  datatype Approval = Pending | Approved | Rejected | NotRequired

  datatype Reply = TurnedDown | Recorded | Resumed | NotResumed

  datatype Point =
    | TaskRead
    | CallRead
    | Decided
    | NoneLeft
    | Claimed
    | TaskMoved
    | AddFailed
    | Done(reply: Reply)
    | Crashed

  datatype Reviewer = Reviewer(call: CallId, decision: Approval, at: Point)

  datatype Canceller = Started | JobsRemoved | Finished

  /** `claimer` and `enqueued` are history: who moved the run out of waiting, how many jobs were added. */
  datatype State = State(
    task: Status,
    run: Status,
    calls: map<CallId, Approval>,
    jobs: nat,
    reviewers: map<Pid, Reviewer>,
    cancellers: map<Pid, Canceller>,
    claimer: Option<Pid>,
    enqueued: nat)

  /** The queue takes the job, refuses it, or takes it although `add` reports an error. */
  datatype Io = Ok | Refused | Lost

  datatype Event =
    | Review(p: Pid, call: CallId, approve: bool)
    | FindCall(p: Pid)
    | Decide(p: Pid)
    | CountPending(p: Pid)
    | Claim(p: Pid)
    | MoveTask(p: Pid)
    | AddJob(p: Pid, io: Io)
    | FailEnqueue(p: Pid)
    | Crash(p: Pid)
    | Cancel(p: Pid)
    | RemoveJobs(p: Pid)
    | CommitCancel(p: Pid)

  predicate ReviewerAt(s: State, p: Pid, at: Point) {
    p in s.reviewers && s.reviewers[p].at == at
  }

  predicate NonePending(s: State) {
    forall c :: c in s.calls ==> s.calls[c] != Pending
  }

  predicate IsActive(status: Status) {
    status == WaitingApproval || status == Queued
  }

  function Move(s: State, p: Pid, at: Point): State
    requires p in s.reviewers
  {
    s.(reviewers := s.reviewers[p := s.reviewers[p].(at := at)])
  }

  function Step(s: State, e: Event): State {
    match e
    case Review(p, call, approve) =>
      if p in s.reviewers then s
      else
        var at := if s.task == WaitingApproval then TaskRead else Done(TurnedDown);
        s.(reviewers := s.reviewers[p := Reviewer(call, if approve then Approved else Rejected, at)])
    case FindCall(p) =>
      if !ReviewerAt(s, p, TaskRead) then s
      else
        var call := s.reviewers[p].call;
        Move(s, p, if call in s.calls && s.calls[call] == Pending then CallRead else Done(TurnedDown))
    case Decide(p) =>
      if !ReviewerAt(s, p, CallRead) then s
      else
        var call := s.reviewers[p].call;
        if call in s.calls && s.calls[call] == Pending
        then Move(s, p, Decided).(calls := s.calls[call := s.reviewers[p].decision])
        else Move(s, p, Done(TurnedDown))
    case CountPending(p) =>
      if !ReviewerAt(s, p, Decided) then s
      else Move(s, p, if NonePending(s) then NoneLeft else Done(Recorded))
    case Claim(p) =>
      if !ReviewerAt(s, p, NoneLeft) then s
      else if s.run == WaitingApproval then Move(s, p, Claimed).(run := Queued, claimer := Some(p))
      else Move(s, p, Done(Recorded))
    case MoveTask(p) =>
      if !ReviewerAt(s, p, Claimed) then s
      else Move(s, p, TaskMoved).(task := if s.task == WaitingApproval then Queued else s.task)
    case AddJob(p, io) =>
      if !ReviewerAt(s, p, TaskMoved) then s
      else if io.Refused? then Move(s, p, AddFailed)
      else Move(s, p, if io.Ok? then Done(Resumed) else AddFailed).(jobs := s.jobs + 1, enqueued := s.enqueued + 1)
    case FailEnqueue(p) =>
      if !ReviewerAt(s, p, AddFailed) then s
      else Move(s, p, Done(NotResumed)).(
             task := if IsActive(s.task) then Failed else s.task,
             run := if IsActive(s.run) then Failed else s.run)
    case Crash(p) =>
      if p in s.reviewers && !s.reviewers[p].at.Done? then Move(s, p, Crashed) else s
    case Cancel(p) =>
      if p in s.cancellers then s
      else s.(cancellers := s.cancellers[p := if IsActive(s.task) then Started else Finished])
    case RemoveJobs(p) =>
      if p !in s.cancellers || s.cancellers[p] != Started then s
      else s.(cancellers := s.cancellers[p := JobsRemoved], jobs := 0)
    case CommitCancel(p) =>
      if p !in s.cancellers || s.cancellers[p] != JobsRemoved then s
      else s.(cancellers := s.cancellers[p := Finished],
              task := if IsActive(s.task) then Cancelled else s.task,
              run := if IsActive(s.run) then Cancelled else s.run)
  }

  function Run(s: State, es: seq<Event>): State {
    if es == [] then s else Step(Run(s, es[..|es| - 1]), es[|es| - 1])
  }

  /** A round begins with task and run waiting, some call pending, and nobody at work. */
  predicate Opening(s: State) {
    && s.task == WaitingApproval && s.run == WaitingApproval && !NonePending(s)
    && s.jobs == 0 && s.enqueued == 0 && s.reviewers == map[] && s.cancellers == map[] && s.claimer == None
  }

  // ---------------------------------------------------------------- the invariant

  /** Steps only the reviewer that claimed the run can reach. */
  predicate ClaimerOnly(at: Point) {
    at == Claimed || at == TaskMoved || at == AddFailed || at == Done(Resumed) || at == Done(NotResumed)
  }

  predicate HasDecided(at: Point) {
    at == Decided || at == NoneLeft || at == Done(Recorded) || ClaimerOnly(at)
  }

  /** The reviewer that will still see, or has seen, that nothing is left. */
  predicate MayClaim(at: Point) {
    at == Decided || at == NoneLeft || at == Crashed
  }

  ghost predicate NoCancel(s: State) {
    forall p :: p !in s.cancellers
  }

  ghost predicate ReviewerOk(s: State, p: Pid)
    requires p in s.reviewers
  {
    var r := s.reviewers[p];
    && (r.decision == Approved || r.decision == Rejected)
    && (HasDecided(r.at) ==> r.call in s.calls && s.calls[r.call] == r.decision)
    && (r.at == NoneLeft || ClaimerOnly(r.at) ==> NonePending(s))
    && (ClaimerOnly(r.at) ==> s.claimer == Some(p))
    && (r.at == TaskMoved || r.at == AddFailed ==> s.task != WaitingApproval)
  }

  ghost predicate ClaimOk(s: State) {
    match s.claimer
    case None => s.run != Queued && s.run != Failed && s.task == s.run && s.enqueued == 0 && s.jobs == 0
    case Some(p) =>
      && p in s.reviewers
      && var at := s.reviewers[p].at;
         && (ClaimerOnly(at) || at == Crashed)
         && s.run != WaitingApproval
         && NonePending(s)
         && s.enqueued <= (if at == Claimed || at == TaskMoved then 0 else 1)
         && (at == Done(Resumed) ==> s.enqueued == 1)
         && s.jobs <= s.enqueued
         && (NoCancel(s) ==>
               && s.jobs == s.enqueued
               && s.run == (if at == Done(NotResumed) then Failed else Queued)
               && (at == Claimed ==> s.task == WaitingApproval)
               && (at != Crashed && at != Claimed ==> s.task == s.run))
  }

  ghost predicate ReviewersOk(s: State) {
    forall p :: p in s.reviewers ==> ReviewerOk(s, p)
  }

  /** Two reviewers never both decide one call. */
  ghost predicate DecisionsApart(s: State) {
    forall p, q | p in s.reviewers && q in s.reviewers && p != q ::
      HasDecided(s.reviewers[p].at) && HasDecided(s.reviewers[q].at) ==> s.reviewers[p].call != s.reviewers[q].call
  }

  /** When nothing is pending and the run still waits, somebody is about to notice. */
  ghost predicate Watched(s: State) {
    NonePending(s) && s.run == WaitingApproval ==> exists p :: p in s.reviewers && MayClaim(s.reviewers[p].at)
  }

  ghost predicate Inv(s: State) {
    && ReviewersOk(s)
    && DecisionsApart(s)
    && ClaimOk(s)
    && Watched(s)
    && (NoCancel(s) ==> s.run != Cancelled && s.task != Cancelled)
  }

  /** What no step undoes: a decision, the claim, and leaving the waiting status. */
  ghost predicate Progress(s: State, s': State) {
    CallsProgress(s, s') && StatusProgress(s, s')
  }

  ghost predicate CallsProgress(s: State, s': State) {
    && s'.calls.Keys == s.calls.Keys
    && (forall c :: c in s.calls && s.calls[c] != Pending ==> s'.calls[c] == s.calls[c])
    && (forall p :: p in s.reviewers ==> p in s'.reviewers && s'.reviewers[p].call == s.reviewers[p].call)
  }

  ghost predicate StatusProgress(s: State, s': State) {
    && (s.claimer.Some? ==> s'.claimer == s.claimer)
    && (s.task != WaitingApproval ==> s'.task != WaitingApproval)
    && (s.run != WaitingApproval ==> s'.run != WaitingApproval)
    && (s.run == Cancelled ==> s'.run == Cancelled)
    && (s.task == Cancelled ==> s'.task == Cancelled)
  }

  lemma CallsStepProgress(s: State, e: Event)
    ensures CallsProgress(s, Step(s, e))
  {
  }

  lemma StepProgress(s: State, e: Event)
    requires ClaimOk(s)
    ensures Progress(s, Step(s, e))
  {
    CallsStepProgress(s, e);
    assert StatusProgress(s, Step(s, e));
  }

  lemma OtherReviewer(s: State, e: Event, p: Pid)
    requires Inv(s) && p in s.reviewers && Step(s, e).reviewers[p] == s.reviewers[p]
    requires Progress(s, Step(s, e))
    ensures ReviewerOk(Step(s, e), p)
  {
    assert ReviewerOk(s, p);
  }

  lemma OwnWayToClaim(s: State, e: Event)
    requires Inv(s) && (e.Review? || e.FindCall? || e.CountPending? || e.Crash?)
    requires e.p in Step(s, e).reviewers
    ensures ReviewerOk(Step(s, e), e.p)
  {
    assert e.p in s.reviewers ==> ReviewerOk(s, e.p);
  }

  lemma OwnResumption(s: State, e: Event)
    requires Inv(s) && (e.Claim? || e.MoveTask? || e.AddJob? || e.FailEnqueue?)
    requires e.p in Step(s, e).reviewers
    ensures ReviewerOk(Step(s, e), e.p)
  {
    assert e.p in s.reviewers ==> ReviewerOk(s, e.p);
  }

  lemma OwnDecision(s: State, p: Pid)
    requires Inv(s) && p in s.reviewers
    ensures ReviewerOk(Step(s, Decide(p)), p)
  {
    assert ReviewerOk(s, p);
  }

  lemma NoNewcomerDecides(s: State, e: Event, p: Pid)
    requires p !in s.reviewers && p in Step(s, e).reviewers
    ensures !HasDecided(Step(s, e).reviewers[p].at) && e.Review? && e.p == p
  {
  }

  lemma OthersStay(s: State, e: Event, p: Pid)
    requires p in s.reviewers && (e.Cancel? || e.RemoveJobs? || e.CommitCancel? || e.p != p)
    ensures p in Step(s, e).reviewers && Step(s, e).reviewers[p] == s.reviewers[p]
  {
  }

  lemma StepKeepsReviewers(s: State, e: Event)
    requires Inv(s)
    ensures ReviewersOk(Step(s, e))
  {
    var s' := Step(s, e);
    StepProgress(s, e);
    forall p | p in s'.reviewers ensures ReviewerOk(s', p) {
      if e.Cancel? || e.RemoveJobs? || e.CommitCancel? || p != e.p {
        if p !in s.reviewers { NoNewcomerDecides(s, e, p); }
        OthersStay(s, e, p);
        OtherReviewer(s, e, p);
      } else if e.Decide? {
        OwnDecision(s, p);
      } else if e.Claim? || e.MoveTask? || e.AddJob? || e.FailEnqueue? {
        OwnResumption(s, e);
      } else {
        OwnWayToClaim(s, e);
      }
    }
  }

  /** Only `Decide` on a pending call makes a decider. */
  lemma NewDecision(s: State, e: Event, p: Pid)
    requires p in s.reviewers && ReviewerOk(s, p) && !HasDecided(s.reviewers[p].at)
    requires p in Step(s, e).reviewers && HasDecided(Step(s, e).reviewers[p].at)
    ensures e == Decide(p) && s.reviewers[p].call in s.calls && s.calls[s.reviewers[p].call] == Pending
  {
  }

  /** `p` decides now, so its call was pending and `q` has decided another one. */
  lemma PairApart(s: State, e: Event, p: Pid, q: Pid)
    requires Inv(s) && p in s.reviewers && q in s.reviewers && p != q
    requires p in Step(s, e).reviewers && q in Step(s, e).reviewers
    requires Progress(s, Step(s, e))
    requires HasDecided(Step(s, e).reviewers[p].at) && HasDecided(Step(s, e).reviewers[q].at)
    requires !HasDecided(s.reviewers[p].at)
    ensures s.reviewers[p].call != s.reviewers[q].call
  {
    assert ReviewerOk(s, p) && ReviewerOk(s, q);
    NewDecision(s, e, p);
    OthersStay(s, e, q);
  }

  lemma StepKeepsApart(s: State, e: Event)
    requires Inv(s) && Progress(s, Step(s, e))
    ensures DecisionsApart(Step(s, e))
  {
    var s' := Step(s, e);
    forall p, q | p in s'.reviewers && q in s'.reviewers && p != q
      && HasDecided(s'.reviewers[p].at) && HasDecided(s'.reviewers[q].at)
      ensures s'.reviewers[p].call != s'.reviewers[q].call
    {
      if p !in s.reviewers {
        NoNewcomerDecides(s, e, p);
      } else if q !in s.reviewers {
        NoNewcomerDecides(s, e, q);
      } else if !HasDecided(s.reviewers[p].at) {
        PairApart(s, e, p, q);
      } else if !HasDecided(s.reviewers[q].at) {
        PairApart(s, e, q, p);
      }
    }
  }

  /** A reviewer that may claim still may, unless this very step settles the matter. */
  lemma WatcherStays(s: State, e: Event, p: Pid)
    requires p in s.reviewers && MayClaim(s.reviewers[p].at)
    ensures p in Step(s, e).reviewers
    ensures MayClaim(Step(s, e).reviewers[p].at) || !NonePending(s) || Step(s, e).run != WaitingApproval
  {
  }

  lemma LastDecision(s: State, e: Event)
    requires !NonePending(s) && NonePending(Step(s, e))
    ensures e.Decide? && ReviewerAt(Step(s, e), e.p, Decided)
  {
  }

  lemma StepKeepsWatched(s: State, e: Event)
    requires Inv(s) && Progress(s, Step(s, e))
    ensures Watched(Step(s, e))
  {
    var s' := Step(s, e);
    if NonePending(s') && s'.run == WaitingApproval {
      if NonePending(s) {
        var p :| p in s.reviewers && MayClaim(s.reviewers[p].at);
        WatcherStays(s, e, p);
      } else {
        LastDecision(s, e);
        assert MayClaim(s'.reviewers[e.p].at);
      }
    }
  }

  lemma DecidingKeepsClaim(s: State, e: Event)
    requires Inv(s) && (e.Review? || e.FindCall? || e.Decide? || e.CountPending? || e.Crash?)
    ensures ClaimOk(Step(s, e))
  {
    if e.p in s.reviewers {
      assert ReviewerOk(s, e.p);
    }
    CallsStepProgress(s, e);
  }

  lemma ClaimKeepsClaim(s: State, p: Pid)
    requires Inv(s)
    ensures ClaimOk(Step(s, Claim(p)))
  {
    if p in s.reviewers {
      assert ReviewerOk(s, p);
    }
  }

  lemma ResumingKeepsClaim(s: State, e: Event)
    requires Inv(s) && (e.MoveTask? || e.AddJob? || e.FailEnqueue?)
    ensures ClaimOk(Step(s, e))
  {
    if e.p in s.reviewers {
      assert ReviewerOk(s, e.p);
    }
  }

  lemma ReviewerStepKeepsClaim(s: State, e: Event)
    requires Inv(s) && !e.Cancel? && !e.RemoveJobs? && !e.CommitCancel?
    ensures ClaimOk(Step(s, e))
  {
    if e.Claim? {
      ClaimKeepsClaim(s, e.p);
    } else if e.MoveTask? || e.AddJob? || e.FailEnqueue? {
      ResumingKeepsClaim(s, e);
    } else {
      DecidingKeepsClaim(s, e);
    }
  }

  lemma CancelStepKeepsClaim(s: State, e: Event)
    requires Inv(s) && (e.Cancel? || e.RemoveJobs? || e.CommitCancel?)
    ensures ClaimOk(Step(s, e))
  {
    if Step(s, e) != s {
      assert e.p in Step(s, e).cancellers;
    }
  }

  lemma OnlyCancelsCancel(s: State, e: Event)
    requires NoCancel(s) ==> s.run != Cancelled && s.task != Cancelled
    ensures NoCancel(Step(s, e)) ==> Step(s, e).run != Cancelled && Step(s, e).task != Cancelled
  {
    if Step(s, e) != s && (e.Cancel? || e.RemoveJobs? || e.CommitCancel?) {
      assert e.p in Step(s, e).cancellers;
    } else {
      assert Step(s, e).cancellers == s.cancellers;
    }
  }

  lemma StepKeepsInv(s: State, e: Event)
    requires Inv(s)
    ensures Inv(Step(s, e))
  {
    StepProgress(s, e);
    StepKeepsReviewers(s, e);
    StepKeepsApart(s, e);
    StepKeepsWatched(s, e);
    OnlyCancelsCancel(s, e);
    if e.Cancel? || e.RemoveJobs? || e.CommitCancel? {
      CancelStepKeepsClaim(s, e);
    } else {
      ReviewerStepKeepsClaim(s, e);
    }
  }

  lemma {:induction false} RunKeepsInv(s: State, es: seq<Event>)
    requires Opening(s)
    ensures Inv(Run(s, es))
  {
    if es != [] {
      RunKeepsInv(s, es[..|es| - 1]);
      StepKeepsInv(Run(s, es[..|es| - 1]), es[|es| - 1]);
    }
  }

  // ---------------------------------------------------------------- main results

  /**
    Review moves the run out of waiting at most once, and only when no call is pending: a step that
    claims finds no earlier claim, and leaves nothing undecided behind it.
  */
  lemma ClaimedOnceAndLast(s: State, es: seq<Event>, e: Event)
    requires Opening(s)
    requires Run(s, es).run == WaitingApproval && Step(Run(s, es), e).run == Queued
    ensures Run(s, es).claimer == None && NonePending(Run(s, es))
    ensures Step(Run(s, es), e).claimer == Some(e.p)
  {
    RunKeepsInv(s, es);
    var z := Run(s, es);
    assert e.p in z.reviewers ==> ReviewerOk(z, e.p);
  }

  /** No later step overturns a decision, a claim or a cancellation, or makes the run wait again in this round. */
  lemma {:induction false} NothingIsUndone(s: State, before: seq<Event>, after: seq<Event>)
    requires Opening(s)
    ensures Progress(Run(s, before), Run(s, before + after))
  {
    if after == [] {
      assert before + after == before;
    } else {
      var shorter := after[..|after| - 1];
      NothingIsUndone(s, before, shorter);
      RunKeepsInv(s, before + shorter);
      assert (before + after)[..|before + after| - 1] == before + shorter;
      StepProgress(Run(s, before + shorter), after[|after| - 1]);
    }
  }

  predicate AllFinished(s: State) {
    forall p :: p in s.reviewers ==> s.reviewers[p].at.Done?
  }

  /**
    If every call is decided, every reviewer has finished and nobody cancels, exactly one reviewer
    resumed the run: it added exactly one job and both rows are queued, unless the queue reported an
    error, in which case both rows are failed, and the job is there or not as the queue left it.
  */
  lemma ExactlyOneResume(s: State, es: seq<Event>)
    requires Opening(s) && NonePending(Run(s, es)) && AllFinished(Run(s, es)) && NoCancel(Run(s, es))
    ensures var z := Run(s, es);
            && z.claimer.Some? && z.claimer.value in z.reviewers
            && (forall p :: p in z.reviewers && p != z.claimer.value ==>
                  z.reviewers[p].at == Done(TurnedDown) || z.reviewers[p].at == Done(Recorded))
            && match z.reviewers[z.claimer.value].at.reply
               case Resumed => z.jobs == 1 && z.enqueued == 1 && z.run == Queued && z.task == Queued
               case NotResumed => z.jobs == z.enqueued <= 1 && z.run == Failed && z.task == Failed
               case _ => false
  {
    RunKeepsInv(s, es);
    var z := Run(s, es);
    forall p | p in z.reviewers && Some(p) != z.claimer
      ensures z.reviewers[p].at == Done(TurnedDown) || z.reviewers[p].at == Done(Recorded)
    {
      assert ReviewerOk(z, p) && z.reviewers[p].at.Done?;
      assert !ClaimerOnly(z.reviewers[p].at);
      match z.reviewers[p].at.reply {
        case TurnedDown =>
        case Recorded =>
        case Resumed =>
        case NotResumed =>
      }
    }
  }

  lemma RunMore(s: State, es: seq<Event>, e: Event)
    ensures Run(s, es + [e]) == Step(Run(s, es), e)
  {
    assert (es + [e])[..|es|] == es;
  }

  /** One reviewer up to the moment it has moved the task. */
  function UpToTask(call: CallId): seq<Event> {
    [Review(0, call, true), FindCall(0), Decide(0), CountPending(0), Claim(0), MoveTask(0)]
  }

  lemma ThreeSteps(s: State, e: Event, f: Event, g: Event)
    ensures Run(s, [e, f, g]) == Step(Step(Step(s, e), f), g)
  {
    RunMore(s, [], e);
    RunMore(s, [e], f);
    RunMore(s, [e, f], g);
    assert [] + [e] == [e] && [e] + [f] == [e, f] && [e, f] + [g] == [e, f, g];
  }

  /** The only call is decided by reviewer 0. */
  function OnlyDecided(s: State, call: CallId): State {
    s.(calls := map[call := Approved], reviewers := map[0 := Reviewer(call, Approved, Decided)])
  }

  lemma OneDecides(s: State, call: CallId)
    requires Opening(s) && s.calls == map[call := Pending]
    ensures Step(Step(Step(s, Review(0, call, true)), FindCall(0)), Decide(0)) == OnlyDecided(s, call)
  {
  }

  lemma OneClaims(s: State, call: CallId)
    requires Opening(s)
    ensures Step(Step(Step(OnlyDecided(s, call), CountPending(0)), Claim(0)), MoveTask(0)) == OnlyClaimed(s, call)
  {
  }

  function OnlyClaimed(s: State, call: CallId): State {
    s.(task := Queued, run := Queued, calls := map[call := Approved], claimer := Some(0),
       reviewers := map[0 := Reviewer(call, Approved, TaskMoved)])
  }

  lemma OneReviewer(s: State, call: CallId)
    requires Opening(s) && s.calls == map[call := Pending]
    ensures Run(s, UpToTask(call)) == OnlyClaimed(s, call)
  {
    var es := UpToTask(call);
    OneDecides(s, call);
    OneClaims(s, call);
    ThreeSteps(s, es[0], es[1], es[2]);
    assert es[..3] == [es[0], es[1], es[2]];
    RunMore(s, es[..3], es[3]);
    RunMore(s, es[..4], es[4]);
    RunMore(s, es[..5], es[5]);
    assert es[..3] + [es[3]] == es[..4] && es[..4] + [es[4]] == es[..5] && es[..5] + [es[5]] == es;
  }

  /** The job of a lost `add` stays queued for a run that is failed. */
  lemma LostJobStaysQueued(s: State, call: CallId)
    requires Opening(s) && s.calls == map[call := Pending]
    ensures var z := Run(s, UpToTask(call) + [AddJob(0, Lost)] + [FailEnqueue(0)]);
            NonePending(z) && AllFinished(z) && NoCancel(z) && z.run == Failed && z.task == Failed && z.jobs == 1
  {
    OneReviewer(s, call);
    RunMore(s, UpToTask(call), AddJob(0, Lost));
    RunMore(s, UpToTask(call) + [AddJob(0, Lost)], FailEnqueue(0));
  }

  /** However many reviewers race and whoever cancels, at most one resume job is ever added. */
  lemma AtMostOneJob(s: State, es: seq<Event>)
    requires Opening(s)
    ensures Run(s, es).jobs <= Run(s, es).enqueued <= 1
  {
    RunKeepsInv(s, es);
  }

  /** Each call is decided by one reviewer at most, and stands as that reviewer decided it. */
  lemma EachCallDecidedOnce(s: State, es: seq<Event>, p: Pid, q: Pid)
    requires Opening(s) && p in Run(s, es).reviewers && q in Run(s, es).reviewers
    requires HasDecided(Run(s, es).reviewers[p].at)
    ensures var z := Run(s, es);
            && z.reviewers[p].call in z.calls && z.calls[z.reviewers[p].call] == z.reviewers[p].decision
            && (p != q && HasDecided(z.reviewers[q].at) ==> z.reviewers[q].call != z.reviewers[p].call)
  {
    RunKeepsInv(s, es);
    assert ReviewerOk(Run(s, es), p);
  }

  // ---------------------------------------------------------------- cancelling

  /** What `CommitCancel` leaves of a status. */
  predicate Ended(before: Status, after: Status) {
    after == if before == Failed then Failed else Cancelled
  }

  /** A canceller only goes on: it starts when it finds the task active, and commits after the removal. */
  predicate CancelGoesOn(s: State, s': State, e: Event, p: Pid) {
    p in s.cancellers ==>
      && p in s'.cancellers
      && (s.cancellers[p] == Started ==> s'.cancellers[p] == (if e == RemoveJobs(p) then JobsRemoved else Started))
      && (s.cancellers[p] == JobsRemoved ==> s'.cancellers[p] == (if e == CommitCancel(p) then Finished else JobsRemoved))
      && (s.cancellers[p] == Finished ==> s'.cancellers[p] == Finished)
  }

  lemma StepGoesOn(s: State, e: Event, p: Pid)
    ensures CancelGoesOn(s, Step(s, e), e, p)
    ensures p !in s.cancellers && e != Cancel(p) ==> p !in Step(s, e).cancellers
  {
  }

  lemma CommitEnds(s: State, p: Pid)
    requires p in s.cancellers && s.cancellers[p] == JobsRemoved
    ensures var z := Step(s, CommitCancel(p));
            && Ended(s.task, z.task) && Ended(s.run, z.run) && z.claimer == s.claimer
            && p in z.cancellers && z.cancellers[p] == Finished
  {
  }

  /** Once ended, a status stays what it is, and nobody claims the run any more. */
  lemma EndedStays(s: State, e: Event)
    requires Inv(s) && !IsActive(s.task) && !IsActive(s.run)
    ensures Step(s, e).task == s.task && Step(s, e).run == s.run && Step(s, e).claimer == s.claimer
  {
    if !e.Cancel? && !e.RemoveJobs? && !e.CommitCancel? && e.p in s.reviewers {
      assert ReviewerOk(s, e.p);
    }
  }

  lemma {:induction false} EndedForever(s: State, before: seq<Event>, after: seq<Event>)
    requires Opening(s) && !IsActive(Run(s, before).task) && !IsActive(Run(s, before).run)
    ensures var y, z := Run(s, before), Run(s, before + after);
            z.task == y.task && z.run == y.run && z.claimer == y.claimer
  {
    if after == [] {
      assert before + after == before;
    } else {
      var shorter := after[..|after| - 1];
      EndedForever(s, before, shorter);
      RunKeepsInv(s, before + shorter);
      assert (before + after)[..|before + after| - 1] == before + shorter;
      EndedStays(Run(s, before + shorter), after[|after| - 1]);
    }
  }

  /** `p` has not begun before event `i`, begins with it, and removes the jobs with event `j`. */
  ghost predicate Cancels(es: seq<Event>, p: Pid, i: nat, j: nat) {
    && i < j < |es|
    && es[i] == Cancel(p) && (forall m | 0 <= m < i :: es[m] != Cancel(p))
    && es[j] == RemoveJobs(p) && (forall m | i < m < j :: es[m] != RemoveJobs(p))
  }

  lemma RunTo(s: State, es: seq<Event>, n: nat)
    requires n < |es|
    ensures Run(s, es[..n + 1]) == Step(Run(s, es[..n]), es[n])
  {
    assert es[..n + 1][..n] == es[..n];
  }

  lemma {:induction false} NotBegun(s: State, es: seq<Event>, p: Pid)
    requires Opening(s) && forall m | 0 <= m < |es| :: es[m] != Cancel(p)
    ensures p !in Run(s, es).cancellers
  {
    if es != [] {
      NotBegun(s, es[..|es| - 1], p);
      StepGoesOn(Run(s, es[..|es| - 1]), es[|es| - 1], p);
    }
  }

  /** What takes a canceller from where it is. */
  predicate Leaves(at: Canceller, e: Event, p: Pid) {
    (at == Started && e == RemoveJobs(p)) || (at == JobsRemoved && e == CommitCancel(p))
  }

  predicate CancellerAt(s: State, p: Pid, at: Canceller) {
    p in s.cancellers && s.cancellers[p] == at
  }

  lemma {:induction false} CancellerStays(s: State, before: seq<Event>, after: seq<Event>, p: Pid, at: Canceller)
    requires CancellerAt(Run(s, before), p, at) && forall m | 0 <= m < |after| :: !Leaves(at, after[m], p)
    ensures CancellerAt(Run(s, before + after), p, at)
  {
    if after == [] {
      assert before + after == before;
    } else {
      var shorter := after[..|after| - 1];
      CancellerStays(s, before, shorter, p, at);
      assert (before + after)[..|before + after| - 1] == before + shorter;
      StepGoesOn(Run(s, before + shorter), after[|after| - 1], p);
    }
  }

  /** The canceller has begun with event `i`, and is about to remove the jobs. */
  lemma AboutToRemove(s: State, es: seq<Event>, p: Pid, i: nat, j: nat)
    requires Opening(s) && Cancels(es, p, i, j) && IsActive(Run(s, es[..i]).task)
    ensures CancellerAt(Run(s, es[..j]), p, Started)
  {
    NotBegun(s, es[..i], p);
    RunTo(s, es, i);
    assert es[..i + 1] + es[i + 1..j] == es[..j];
    var between := es[i + 1..j];
    forall m | 0 <= m < |between| ensures !Leaves(Started, between[m], p) {
      assert between[m] == es[i + 1 + m];
    }
    CancellerStays(s, es[..i + 1], between, p, Started);
  }

  /** After the removal the canceller is about to commit until it has. */
  lemma AboutToCommit(s: State, es: seq<Event>, p: Pid, j: nat, k: nat)
    requires j < k <= |es| && es[j] == RemoveJobs(p) && CancellerAt(Run(s, es[..j]), p, Started)
    requires forall m | j < m < k :: es[m] != CommitCancel(p)
    ensures Run(s, es[..j + 1]).jobs == 0
    ensures CancellerAt(Run(s, es[..k]), p, JobsRemoved)
  {
    RunTo(s, es, j);
    assert es[..j + 1] + es[j + 1..k] == es[..k];
    var between := es[j + 1..k];
    forall m | 0 <= m < |between| ensures !Leaves(JobsRemoved, between[m], p) {
      assert between[m] == es[j + 1 + m];
    }
    CancellerStays(s, es[..j + 1], between, p, JobsRemoved);
  }

  lemma FromCommitOn(s: State, es: seq<Event>, p: Pid, k: nat)
    requires Opening(s) && k < |es| && es[k] == CommitCancel(p) && CancellerAt(Run(s, es[..k]), p, JobsRemoved)
    ensures var b, z := Run(s, es[..k]), Run(s, es);
            && Ended(b.task, z.task) && Ended(b.run, z.run) && z.claimer == b.claimer
            && CancellerAt(z, p, Finished)
  {
    RunTo(s, es, k);
    CommitEnds(Run(s, es[..k]), p);
    assert es[..k + 1] + es[k + 1..] == es;
    EndedForever(s, es[..k + 1], es[k + 1..]);
    CancellerStays(s, es[..k + 1], es[k + 1..], p, Finished);
  }

  /**
    A cancellation that found the task active and went its way, whatever the reviewers did meanwhile.
    No job is queued right after the removal. From the commit on neither task nor run is active: each
    is cancelled, unless it had been failed before, and nobody claims the run any more.
  */
  lemma CancelIsFinal(s: State, es: seq<Event>, p: Pid, i: nat, j: nat, k: nat)
    requires Opening(s) && Cancels(es, p, i, j) && IsActive(Run(s, es[..i]).task)
    requires j < k < |es| && es[k] == CommitCancel(p) && (forall m | j < m < k :: es[m] != CommitCancel(p))
    ensures Run(s, es[..j + 1]).jobs == 0
    ensures var b, z := Run(s, es[..k]), Run(s, es);
            && !IsActive(z.task) && !IsActive(z.run)
            && Ended(b.task, z.task) && Ended(b.run, z.run)
            && z.claimer == b.claimer
            && CancellerAt(z, p, Finished)
  {
    AboutToRemove(s, es, p, i, j);
    AboutToCommit(s, es, p, j, k);
    FromCommitOn(s, es, p, k);
  }

  /** A cancel that finds the task already ended changes neither status, and is finished at once. */
  lemma LateCancelDoesNothing(s: State, es: seq<Event>, p: Pid)
    requires Opening(s) && !IsActive(Run(s, es).task) && p !in Run(s, es).cancellers
    ensures var y, z := Run(s, es), Run(s, es + [Cancel(p)]);
            z == y.(cancellers := y.cancellers[p := Finished])
  {
    RunMore(s, es, Cancel(p));
  }

  // ---------------------------------------------------------------- which reply a reviewer gets

  /** Reviewer `p`, not yet answered in `s`, is answered with `reply` by the event `e`. */
  ghost predicate Replies(s: State, e: Event, p: Pid, reply: Reply) {
    match reply
    case TurnedDown =>
      || (e.Review? && e.p == p && p !in s.reviewers && s.task != WaitingApproval)
      || (((e == FindCall(p) && ReviewerAt(s, p, TaskRead)) || (e == Decide(p) && ReviewerAt(s, p, CallRead)))
            && !(s.reviewers[p].call in s.calls && s.calls[s.reviewers[p].call] == Pending))
    case Recorded =>
      || (e == CountPending(p) && ReviewerAt(s, p, Decided) && exists c :: c in s.calls && s.calls[c] == Pending)
      || (e == Claim(p) && ReviewerAt(s, p, NoneLeft) && s.run != WaitingApproval)
    case Resumed => e == AddJob(p, Ok) && ReviewerAt(s, p, TaskMoved)
    case NotResumed => e == FailEnqueue(p) && ReviewerAt(s, p, AddFailed)
  }

  ghost predicate RepliesAt(s: State, es: seq<Event>, m: nat, p: Pid, reply: Reply)
    requires m < |es|
  {
    Replies(Run(s, es[..m]), es[m], p, reply)
  }

  ghost predicate Replied(s: State, es: seq<Event>, p: Pid, reply: Reply) {
    exists m | 0 <= m < |es| :: RepliesAt(s, es, m, p, reply)
  }

  lemma RepliedGrows(s: State, es: seq<Event>, p: Pid, reply: Reply)
    requires es != []
    ensures Replied(s, es, p, reply) <==> Replied(s, es[..|es| - 1], p, reply) || RepliesAt(s, es, |es| - 1, p, reply)
  {
    var n := |es| - 1;
    forall m | 0 <= m < n ensures RepliesAt(s, es[..n], m, p, reply) <==> RepliesAt(s, es, m, p, reply) {
      assert es[..n][..m] == es[..m];
    }
  }

  lemma StepReplies(s: State, e: Event, p: Pid, reply: Reply)
    ensures ReviewerAt(Step(s, e), p, Done(reply)) <==> ReviewerAt(s, p, Done(reply)) || Replies(s, e, p, reply)
  {
  }

  /**
    What a reviewer is told is decided by what it found: turned down exactly when the task did not
    wait or the call was decided already, recorded exactly when some call was left or the run had
    moved on, resumed or not exactly as the queue answered the one who claimed. A reply stays.
  */
  lemma {:induction false} EveryReplyIsRight(s: State, es: seq<Event>, p: Pid, reply: Reply)
    requires Opening(s)
    ensures ReviewerAt(Run(s, es), p, Done(reply)) <==> Replied(s, es, p, reply)
  {
    if es != [] {
      EveryReplyIsRight(s, es[..|es| - 1], p, reply);
      StepReplies(Run(s, es[..|es| - 1]), es[|es| - 1], p, reply);
      RepliedGrows(s, es, p, reply);
    }
  }

  /** How many statements a reviewer is still away from its reply, at most. */
  function Distance(at: Point): nat {
    match at
    case TaskRead => 7
    case CallRead => 6
    case Decided => 5
    case NoneLeft => 4
    case Claimed => 3
    case TaskMoved => 2
    case AddFailed => 1
    case _ => 0
  }

  /** The next statement of a reviewer. */
  function Next(p: Pid, at: Point): Event
    requires Distance(at) > 0
  {
    match at
    case TaskRead => FindCall(p)
    case CallRead => Decide(p)
    case Decided => CountPending(p)
    case NoneLeft => Claim(p)
    case Claimed => MoveTask(p)
    case TaskMoved => AddJob(p, Ok)
    case AddFailed => FailEnqueue(p)
  }

  /** No reviewer ever waits for another: its next statement always brings it nearer to its reply. */
  lemma NobodyWaits(s: State, p: Pid)
    requires p in s.reviewers && Distance(s.reviewers[p].at) > 0
    ensures var z := Step(s, Next(p, s.reviewers[p].at));
            && p in z.reviewers && Distance(z.reviewers[p].at) < Distance(s.reviewers[p].at)
            && z.reviewers == s.reviewers[p := z.reviewers[p]] && z.cancellers == s.cancellers
  {
  }

  // ---------------------------------------------------------------- the program

  /** Who else runs at each await, and what the queue does with a job. */
  datatype Env = Env(others: nat -> seq<Event>, queue: nat -> Io)

  ghost predicate Elsewhere(env: Env, p: Pid) {
    forall k, i :: 0 <= i < |env.others(k)| ==> env.others(k)[i].p != p
  }

  /** Since `from` the canceller has removed the jobs, and none was queued right afterwards. */
  ghost predicate JobsWereRemoved(s: State, es: seq<Event>, from: nat, p: Pid) {
    exists j | from <= j < |es| :: es[j] == RemoveJobs(p) && Run(s, es[..j + 1]).jobs == 0
  }

  lemma RemovalStays(s: State, es: seq<Event>, more: seq<Event>, from: nat, p: Pid)
    requires es <= more && JobsWereRemoved(s, es, from, p)
    ensures JobsWereRemoved(s, more, from, p)
  {
    var j :| from <= j < |es| && es[j] == RemoveJobs(p) && Run(s, es[..j + 1]).jobs == 0;
    assert more[j] == es[j] && more[..j + 1] == es[..j + 1];
  }

  /** The last statement is the commit of `p`, and the two rows are as it leaves them. */
  ghost predicate EndedByLast(s: State, es: seq<Event>, p: Pid, task: Status, run: Status) {
    && es != [] && es[|es| - 1] == CommitCancel(p)
    && Ended(Run(s, es[..|es| - 1]).task, task)
    && Ended(Run(s, es[..|es| - 1]).run, run)
  }

  lemma OthersLeaveFrame(s: State, e: Event, p: Pid)
    requires e.p != p
    ensures p in s.reviewers ==> p in Step(s, e).reviewers && Step(s, e).reviewers[p] == s.reviewers[p]
    ensures p in s.cancellers ==> p in Step(s, e).cancellers && Step(s, e).cancellers[p] == s.cancellers[p]
  {
  }

  /** The service's view of one task: its rows, its jobs, and the requests in flight. */
  class AgentTasksService {
    var task: Status
    var run: Status
    var calls: map<CallId, Approval>
    var jobs: nat
    var reviewers: map<Pid, Reviewer>
    var cancellers: map<Pid, Canceller>
    var claimer: Option<Pid>
    var enqueued: nat
    var clock: nat
    ghost var start: State
    ghost var log: seq<Event>

    ghost function View(): State
      reads this
    {
      State(task, run, calls, jobs, reviewers, cancellers, claimer, enqueued)
    }

    ghost predicate Valid()
      reads this
    {
      View() == Run(start, log)
    }

    constructor (s: State)
      ensures Valid() && start == s && log == []
    {
      task, run, calls, jobs := s.task, s.run, s.calls, s.jobs;
      reviewers, cancellers, claimer, enqueued := s.reviewers, s.cancellers, s.claimer, s.enqueued;
      clock, start, log := 0, s, [];
    }

    ghost method Record(e: Event)
      requires View() == Step(Run(start, log), e)
      modifies this`log
      ensures Valid() && log == old(log) + [e]
    {
      assert (log + [e])[..|log|] == log;
      log := log + [e];
    }

    method Await(p: Pid, env: Env)
      requires Valid() && Elsewhere(env, p)
      modifies this
      ensures Valid() && start == old(start) && old(log) <= log
      ensures p in old(reviewers) ==> p in reviewers && reviewers[p] == old(reviewers)[p]
      ensures p in old(cancellers) ==> p in cancellers && cancellers[p] == old(cancellers)[p]
    {
      var es := env.others(clock);
      clock := clock + 1;
      for i := 0 to |es|
        invariant Valid() && start == old(start) && old(log) <= log
        invariant p in old(reviewers) ==> p in reviewers && reviewers[p] == old(reviewers)[p]
        invariant p in old(cancellers) ==> p in cancellers && cancellers[p] == old(cancellers)[p]
      {
        OthersLeaveFrame(View(), es[i], p);
        Perform(es[i]);
      }
    }

    /** One statement of some other request. */
    method Perform(e: Event)
      requires Valid()
      modifies this
      ensures Valid() && start == old(start) && log == old(log) + [e] && View() == Step(old(View()), e)
    {
      var s := Step(State(task, run, calls, jobs, reviewers, cancellers, claimer, enqueued), e);
      task, run, calls, jobs := s.task, s.run, s.calls, s.jobs;
      reviewers, cancellers, claimer, enqueued := s.reviewers, s.cancellers, s.claimer, s.enqueued;
      Record(e);
    }

    method MoveTo(p: Pid, at: Point)
      requires p in reviewers
      modifies this`reviewers
      ensures reviewers == old(reviewers)[p := old(reviewers)[p].(at := at)]
    {
      reviewers := reviewers[p := reviewers[p].(at := at)];
    }

    /** `reviewToolCall`, with everybody else's statements between its own. */
    method ReviewToolCall(p: Pid, call: CallId, approve: bool, env: Env) returns (reply: Reply)
      requires Valid() && p !in reviewers && Elsewhere(env, p)
      modifies this
      ensures Valid() && start == old(start) && old(log) <= log
      ensures p in reviewers && reviewers[p] == Reviewer(call, if approve then Approved else Rejected, Done(reply))
    {
      var waiting := ReadTask(p, call, approve);
      if !waiting { return TurnedDown; }
      Await(p, env);
      var ok := ReadCall(p);
      if !ok { return TurnedDown; }
      Await(p, env);
      ok := DecideCall(p);
      if !ok { return TurnedDown; }
      reply := AfterDecision(p, env);
    }

    /** Whoever decides the last pending call takes the run out of waiting and resumes it. */
    method AfterDecision(p: Pid, env: Env) returns (reply: Reply)
      requires Valid() && ReviewerAt(View(), p, Decided) && Elsewhere(env, p)
      modifies this
      ensures Valid() && start == old(start) && old(log) <= log
      ensures p in reviewers && reviewers[p] == old(reviewers)[p].(at := Done(reply))
    {
      Await(p, env);
      var ok := CountRemaining(p);
      if !ok { return Recorded; }
      Await(p, env);
      ok := ClaimRun(p);
      if !ok { return Recorded; }
      reply := AfterClaim(p, env);
    }

    method AfterClaim(p: Pid, env: Env) returns (reply: Reply)
      requires Valid() && ReviewerAt(View(), p, Claimed) && Elsewhere(env, p)
      modifies this
      ensures Valid() && start == old(start) && old(log) <= log
      ensures p in reviewers && reviewers[p] == old(reviewers)[p].(at := Done(reply))
    {
      Await(p, env);
      QueueTask(p);
      Await(p, env);
      var ok := Enqueue(p, env.queue(clock));
      if ok { return Resumed; }
      Await(p, env);
      RecordFailure(p);
      return NotResumed;
    }

    method ReadTask(p: Pid, call: CallId, approve: bool) returns (waiting: bool)
      requires Valid() && p !in reviewers
      modifies this
      ensures Valid() && start == old(start) && log == old(log) + [Review(p, call, approve)]
      ensures p in reviewers && waiting == (old(task) == WaitingApproval)
      ensures reviewers[p] == Reviewer(call, if approve then Approved else Rejected, if waiting then TaskRead else Done(TurnedDown))
    {
      waiting := task == WaitingApproval;
      reviewers := reviewers[p := Reviewer(call, if approve then Approved else Rejected, if waiting then TaskRead else Done(TurnedDown))];
      Record(Review(p, call, approve));
    }

    method ReadCall(p: Pid) returns (pending: bool)
      requires Valid() && ReviewerAt(View(), p, TaskRead)
      modifies this
      ensures Valid() && start == old(start) && log == old(log) + [FindCall(p)]
      ensures p in reviewers && reviewers[p] == old(reviewers)[p].(at := if pending then CallRead else Done(TurnedDown))
      ensures pending <==> reviewers[p].call in calls && calls[reviewers[p].call] == Pending
    {
      var call := reviewers[p].call;
      pending := call in calls && calls[call] == Pending;
      MoveTo(p, if pending then CallRead else Done(TurnedDown));
      Record(FindCall(p));
    }

    /** The compare-and-set on the call's approval status. */
    method DecideCall(p: Pid) returns (ok: bool)
      requires Valid() && ReviewerAt(View(), p, CallRead)
      modifies this
      ensures Valid() && start == old(start) && log == old(log) + [Decide(p)]
      ensures p in reviewers && reviewers[p] == old(reviewers)[p].(at := if ok then Decided else Done(TurnedDown))
      ensures ok <==> reviewers[p].call in old(calls) && old(calls)[reviewers[p].call] == Pending
      ensures calls == if ok then old(calls)[reviewers[p].call := reviewers[p].decision] else old(calls)
    {
      var r := reviewers[p];
      ok := r.call in calls && calls[r.call] == Pending;
      if ok {
        calls := calls[r.call := r.decision];
      }
      MoveTo(p, if ok then Decided else Done(TurnedDown));
      Record(Decide(p));
    }

    method CountRemaining(p: Pid) returns (none: bool)
      requires Valid() && ReviewerAt(View(), p, Decided)
      modifies this
      ensures Valid() && start == old(start) && log == old(log) + [CountPending(p)]
      ensures p in reviewers && reviewers[p] == old(reviewers)[p].(at := if none then NoneLeft else Done(Recorded))
      ensures none <==> forall c :: c in calls ==> calls[c] != Pending
    {
      none := forall c :: c in calls ==> calls[c] != Pending;
      MoveTo(p, if none then NoneLeft else Done(Recorded));
      Record(CountPending(p));
    }

    /** The compare-and-set that moves the run from waiting to queued. */
    method ClaimRun(p: Pid) returns (ok: bool)
      requires Valid() && ReviewerAt(View(), p, NoneLeft)
      modifies this
      ensures Valid() && start == old(start) && log == old(log) + [Claim(p)]
      ensures p in reviewers && reviewers[p] == old(reviewers)[p].(at := if ok then Claimed else Done(Recorded))
      ensures ok <==> old(run) == WaitingApproval
      ensures run == (if ok then Queued else old(run)) && claimer == (if ok then Some(p) else old(claimer))
    {
      ok := run == WaitingApproval;
      if ok {
        run, claimer := Queued, Some(p);
      }
      MoveTo(p, if ok then Claimed else Done(Recorded));
      Record(Claim(p));
    }

    method QueueTask(p: Pid)
      requires Valid() && ReviewerAt(View(), p, Claimed)
      modifies this
      ensures Valid() && start == old(start) && log == old(log) + [MoveTask(p)]
      ensures p in reviewers && reviewers[p] == old(reviewers)[p].(at := TaskMoved)
      ensures task == (if old(task) == WaitingApproval then Queued else old(task)) && run == old(run)
    {
      if task == WaitingApproval { task := Queued; }
      MoveTo(p, TaskMoved);
      Record(MoveTask(p));
    }

    method Enqueue(p: Pid, io: Io) returns (ok: bool)
      requires Valid() && ReviewerAt(View(), p, TaskMoved)
      modifies this
      ensures Valid() && start == old(start) && log == old(log) + [AddJob(p, io)] && ok == (io == Ok)
      ensures jobs == old(jobs) + (if io == Refused then 0 else 1)
      ensures p in reviewers && reviewers[p] == old(reviewers)[p].(at := if ok then Done(Resumed) else AddFailed)
    {
      ok := io == Ok;
      if io != Refused {
        jobs, enqueued := jobs + 1, enqueued + 1;
      }
      MoveTo(p, if ok then Done(Resumed) else AddFailed);
      Record(AddJob(p, io));
    }

    /** `failEnqueue`: one transaction. */
    method RecordFailure(p: Pid)
      requires Valid() && ReviewerAt(View(), p, AddFailed)
      modifies this
      ensures Valid() && start == old(start) && log == old(log) + [FailEnqueue(p)]
      ensures p in reviewers && reviewers[p] == old(reviewers)[p].(at := Done(NotResumed))
      ensures task == (if old(task) == Cancelled then Cancelled else Failed)
      ensures run == (if old(run) == Cancelled then Cancelled else Failed)
    {
      if IsActive(task) { task := Failed; }
      if IsActive(run) { run := Failed; }
      MoveTo(p, Done(NotResumed));
      Record(FailEnqueue(p));
    }

    /** `cancel`: queued jobs go first, then one transaction ends task and run if they are still active. */
    method CancelTask(p: Pid, env: Env)
      requires Valid() && p !in cancellers && Elsewhere(env, p)
      modifies this
      ensures Valid() && start == old(start) && old(log) <= log
      ensures p in cancellers && cancellers[p] == Finished
      ensures !IsActive(old(task)) ==> task == old(task) && run == old(run) && jobs == old(jobs)
      ensures IsActive(old(task)) ==> !IsActive(task) && !IsActive(run)
      // the removal left no job, and the commit came last
      ensures IsActive(old(task)) ==> JobsWereRemoved(start, log, |old(log)|, p) && EndedByLast(start, log, p, task, run)
    {
      var active := StartCancel(p);
      if active {
        FinishCancel(p, env);
      }
    }

    method FinishCancel(p: Pid, env: Env)
      requires Valid() && p in cancellers && cancellers[p] == Started && Elsewhere(env, p)
      modifies this
      ensures Valid() && start == old(start) && old(log) <= log
      ensures p in cancellers && cancellers[p] == Finished
      ensures JobsWereRemoved(start, log, |old(log)|, p) && EndedByLast(start, log, p, task, run)
    {
      Await(p, env);
      ghost var before := log;
      DropJobs(p);
      assert (before + [RemoveJobs(p)])[..|before| + 1] == before + [RemoveJobs(p)];
      assert JobsWereRemoved(start, log, |old(log)|, p);
      ghost var removed := log;
      Await(p, env);
      ghost var awaited := log;
      EndTask(p);
      assert log[..|log| - 1] == awaited;
      RemovalStays(start, removed, log, |old(log)|, p);
    }

    method StartCancel(p: Pid) returns (active: bool)
      requires Valid() && p !in cancellers
      modifies this
      ensures Valid() && start == old(start) && log == old(log) + [Cancel(p)]
      ensures active <==> old(task) == WaitingApproval || old(task) == Queued
      ensures task == old(task) && run == old(run) && jobs == old(jobs)
      ensures p in cancellers && cancellers[p] == if active then Started else Finished
    {
      active := IsActive(task);
      cancellers := cancellers[p := if active then Started else Finished];
      Record(Cancel(p));
    }

    method DropJobs(p: Pid)
      requires Valid() && p in cancellers && cancellers[p] == Started
      modifies this
      ensures Valid() && start == old(start) && log == old(log) + [RemoveJobs(p)]
      ensures jobs == 0 && p in cancellers && cancellers[p] == JobsRemoved
    {
      jobs := 0;
      cancellers := cancellers[p := JobsRemoved];
      Record(RemoveJobs(p));
    }

    method EndTask(p: Pid)
      requires Valid() && p in cancellers && cancellers[p] == JobsRemoved
      modifies this
      ensures Valid() && start == old(start) && log == old(log) + [CommitCancel(p)]
      ensures Ended(old(task), task) && Ended(old(run), run)
      ensures p in cancellers && cancellers[p] == Finished
    {
      if IsActive(task) { task := Cancelled; }
      if IsActive(run) { run := Cancelled; }
      cancellers := cancellers[p := Finished];
      Record(CommitCancel(p));
    }
  }
}

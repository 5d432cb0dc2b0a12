/**
  The image workers (background removal, in-painting, up-scaling): one HTTP request is one
  coroutine, several requests may name the same task, and a cancel request may arrive at any time.

  Under asyncio a coroutine gives up control only where it really has to wait: for the task lock,
  for the uploaded file, for an inference slot and for the inference thread. `Step` is what the
  event loop executes between two such points. Every critical section under the registry lock is
  free of suspension points, which `Worker` proves: no acquisition ever finds the lock taken.
*/
module ImageWorker {
  import opened Wrappers

  type Task = string
  type Pid = nat
  type Image = seq<int>

  /** `slots` is MAX_CONCURRENCY. */
  datatype Config = Config(slots: nat)

  /** How a request ends: 200 from the cache, 200 freshly computed, 409 cancelled, 4xx, or 500. */
  datatype Outcome = Served(image: Image) | Published(image: Image) | Cancelled | Rejected | Failed

  datatype Pc = WaitLock | Reading(left: nat) | WaitSlot | Inferring | Done(outcome: Outcome)

  /** `files` is the number of uploads the request awaits under the lock: the image, and a mask if one is sent. */
  datatype Request = Request(task: Task, files: nat, pc: Pc)

  datatype State = State(
    locks: map<Task, Pid>,
    active: set<Task>,
    cancelled: set<Task>,
    free: nat,
    results: map<Task, Image>,
    requests: map<Pid, Request>)

  datatype CancelReply = AlreadyCompleted | NotRunning | Cancelling

  /**
    What the event loop may do next. `queued` lets asyncio park a coroutine behind earlier waiters
    although the lock or a slot is momentarily free; `output` is None when the inference raises and
    `written` is false when writing the temporary file fails.
  */
  datatype Event =
    | Arrive(p: Pid, t: Task, files: nat, queued: bool)
    | LockGranted(p: Pid)
    | InputRead(p: Pid, valid: bool, queued: bool)
    | SlotGranted(p: Pid)
    | InferenceEnded(p: Pid, output: Option<Image>, written: bool)
    | Cancel(t: Task)

  /** A worker that starts: nobody is at work, and `disk` holds the results of earlier lives. */
  function Initial(c: Config, disk: map<Task, Image>): State {
    State(map[], {}, {}, c.slots, disk, map[])
  }

  predicate At(s: State, p: Pid, pc: Pc) {
    p in s.requests && s.requests[p].pc == pc
  }

  predicate HoldsLock(pc: Pc) {
    pc.Reading? || pc.WaitSlot? || pc.Inferring?
  }

  /** Between activation and the finally block. */
  predicate InTry(pc: Pc) {
    pc.WaitSlot? || pc.Inferring?
  }

  /** The request was answered with an image. */
  predicate Answered(pc: Pc) {
    pc.Done? && (pc.outcome.Served? || pc.outcome.Published?)
  }

  function Move(s: State, p: Pid, r: Request, pc: Pc): State {
    s.(requests := s.requests[p := r.(pc := pc)])
  }

  /** The lock is taken and the cache looked at again; a hit leaves the `async with` at once. */
  function Locked(s: State, p: Pid, r: Request): State {
    if r.task in s.results then Move(s, p, r, Done(Served(s.results[r.task])))
    else Move(s, p, r, Reading(r.files)).(locks := s.locks[r.task := p])
  }

  /** The finally block and the release of the task lock. */
  function Finish(s: State, p: Pid, r: Request, o: Outcome): State {
    Move(s, p, r, Done(o)).(locks := s.locks - {r.task}, active := s.active - {r.task}, cancelled := s.cancelled - {r.task})
  }

  function Step(s: State, e: Event): State {
    match e
    case Arrive(p, t, files, queued) =>
      var r := Request(t, files, WaitLock);
      if p in s.requests then s
      else if t in s.results then Move(s, p, r, Done(Served(s.results[t])))
      else if t in s.locks || queued then Move(s, p, r, WaitLock)
      else Locked(s, p, r)
    case LockGranted(p) =>
      if !At(s, p, WaitLock) || s.requests[p].task in s.locks then s
      else Locked(s, p, s.requests[p])
    case InputRead(p, valid, queued) =>
      if p !in s.requests || !s.requests[p].pc.Reading? then s
      else
        var r := s.requests[p];
        if r.pc.left > 1 then Move(s, p, r, Reading(r.pc.left - 1))
        else if !valid then Move(s, p, r, Done(Rejected)).(locks := s.locks - {r.task})
        else
          var a := s.(active := s.active + {r.task}, cancelled := s.cancelled - {r.task});
          if s.free == 0 || queued then Move(a, p, r, WaitSlot)
          else Move(a, p, r, Inferring).(free := s.free - 1)
    case SlotGranted(p) =>
      if !At(s, p, WaitSlot) || s.free == 0 then s
      else
        var r := s.requests[p];
        if r.task in s.cancelled then Finish(s, p, r, Cancelled)
        else Move(s, p, r, Inferring).(free := s.free - 1)
    case InferenceEnded(p, output, written) =>
      if !At(s, p, Inferring) then s
      else
        var r := s.requests[p];
        var y := s.(free := s.free + 1);
        if output.None? then Finish(y, p, r, Failed)
        else if r.task in s.cancelled then Finish(y, p, r, Cancelled)
        else if !written then Finish(y, p, r, Failed)
        else Finish(y, p, r, Published(output.value)).(results := s.results[r.task := output.value])
    case Cancel(t) =>
      if ReplyTo(s, t) == Cancelling then s.(cancelled := s.cancelled + {t}) else s
  }

  function ReplyTo(s: State, t: Task): CancelReply {
    if t in s.results then AlreadyCompleted
    else if t !in s.active then NotRunning
    else Cancelling
  }

  function Run(s: State, es: seq<Event>): State {
    if es == [] then s else Step(Run(s, es[..|es| - 1]), es[|es| - 1])
  }

  function Busy(s: State): set<Pid> {
    set p | p in s.requests && s.requests[p].pc == Inferring
  }

  // ---------------------------------------------------------------- the invariant

  ghost predicate HolderOk(s: State, p: Pid)
    requires p in s.requests
  {
    var r := s.requests[p];
    && (HoldsLock(r.pc) ==> r.task in s.locks && s.locks[r.task] == p && r.task !in s.results)
    && (Answered(r.pc) ==>
          r.task in s.results && s.results[r.task] == r.pc.outcome.image)
  }

  ghost predicate LockOk(s: State, t: Task) {
    t in s.locks ==>
      && s.locks[t] in s.requests
      && s.requests[s.locks[t]].task == t
      && HoldsLock(s.requests[s.locks[t]].pc)
  }

  ghost predicate ActiveOk(s: State, t: Task)
    requires LockOk(s, t)
  {
    t in s.active <==> t in s.locks && InTry(s.requests[s.locks[t]].pc)
  }

  ghost predicate Inv(c: Config, s: State) {
    && (forall p :: p in s.requests ==> HolderOk(s, p))
    && (forall t :: LockOk(s, t))
    && (forall t :: ActiveOk(s, t))
    && s.cancelled <= s.active
    && s.free + |Busy(s)| == c.slots
  }

  /** `s'` differs from `s` only in request `p` and in what the registries say about its task `t`. */
  ghost predicate OnlyTask(s: State, s': State, p: Pid, t: Task) {
    && (forall q :: q != p ==> (q in s.requests <==> q in s'.requests))
    && (forall q :: q != p && q in s.requests ==> s'.requests[q] == s.requests[q])
    && (p in s.requests ==> s.requests[p].task == t)
    && p in s'.requests && s'.requests[p].task == t
    && (forall u :: u != t ==> (u in s.locks <==> u in s'.locks))
    && (forall u :: u != t && u in s.locks ==> s'.locks[u] == s.locks[u])
    && (forall u :: u != t ==> (u in s.active <==> u in s'.active))
    && (forall u :: u != t ==> (u in s.results <==> u in s'.results))
    && (forall u :: u in s.results ==> u in s'.results && s'.results[u] == s.results[u])
    && (t in s.locks && s.locks[t] != p ==>
          s'.locks == s.locks && s'.active == s.active && s'.results == s.results)
  }

  lemma OthersKeepInv(c: Config, s: State, s': State, p: Pid, t: Task)
    requires Inv(c, s) && OnlyTask(s, s', p, t)
    requires HolderOk(s', p) && LockOk(s', t) && ActiveOk(s', t)
    requires s'.cancelled <= s'.active
    requires s'.free + (if s'.requests[p].pc == Inferring then 1 else 0)
          == s.free + (if At(s, p, Inferring) then 1 else 0)
    ensures Inv(c, s')
  {
    forall q | q in s'.requests ensures HolderOk(s', q) {
      if q != p { OtherHolder(c, s, s', p, t, q); }
    }
    forall u ensures LockOk(s', u) && ActiveOk(s', u) {
      if u != t { OtherLock(c, s, s', p, t, u); }
    }
    BusyMoves(s, s', p);
  }

  lemma OtherHolder(c: Config, s: State, s': State, p: Pid, t: Task, q: Pid)
    requires Inv(c, s) && OnlyTask(s, s', p, t) && q != p && q in s.requests
    ensures HolderOk(s', q)
  {
    assert HolderOk(s, q);
  }

  lemma OtherLock(c: Config, s: State, s': State, p: Pid, t: Task, u: Task)
    requires Inv(c, s) && OnlyTask(s, s', p, t) && u != t
    ensures LockOk(s', u) && ActiveOk(s', u)
  {
    assert LockOk(s, u) && ActiveOk(s, u);
  }

  lemma BusyMoves(s: State, s': State, p: Pid)
    requires forall q :: q != p ==> (q in s.requests <==> q in s'.requests)
    requires forall q :: q != p && q in s.requests ==> s'.requests[q] == s.requests[q]
    requires p in s'.requests
    ensures |Busy(s')| - |Busy(s)|
         == (if s'.requests[p].pc == Inferring then 1 else 0) - (if At(s, p, Inferring) then 1 else 0)
  {
    var rest := Busy(s) - {p};
    assert Busy(s) == if At(s, p, Inferring) then rest + {p} else rest;
    assert Busy(s') == if s'.requests[p].pc == Inferring then rest + {p} else rest;
  }

  lemma LockedKeepsInv(c: Config, s: State, p: Pid, r: Request)
    requires Inv(c, s) && r.task !in s.locks
    requires p in s.requests ==> s.requests[p] == r && r.pc == WaitLock
    ensures Inv(c, Locked(s, p, r))
  {
    assert LockOk(s, r.task) && ActiveOk(s, r.task);
    OthersKeepInv(c, s, Locked(s, p, r), p, r.task);
  }

  lemma ArriveKeepsInv(c: Config, s: State, p: Pid, t: Task, files: nat, queued: bool)
    requires Inv(c, s)
    ensures Inv(c, Step(s, Arrive(p, t, files, queued)))
  {
    assert LockOk(s, t) && ActiveOk(s, t);
    if p in s.requests {
    } else if t in s.results || t in s.locks || queued {
      OthersKeepInv(c, s, Step(s, Arrive(p, t, files, queued)), p, t);
    } else {
      LockedKeepsInv(c, s, p, Request(t, files, WaitLock));
    }
  }

  lemma ReadKeepsInv(c: Config, s: State, p: Pid, valid: bool, queued: bool)
    requires Inv(c, s) && p in s.requests && s.requests[p].pc.Reading?
    ensures Inv(c, Step(s, InputRead(p, valid, queued)))
  {
    var t := s.requests[p].task;
    assert HolderOk(s, p) && LockOk(s, t) && ActiveOk(s, t);
    OthersKeepInv(c, s, Step(s, InputRead(p, valid, queued)), p, t);
  }

  lemma SlotKeepsInv(c: Config, s: State, p: Pid)
    requires Inv(c, s) && At(s, p, WaitSlot) && s.free > 0
    ensures Inv(c, Step(s, SlotGranted(p)))
  {
    var t := s.requests[p].task;
    assert HolderOk(s, p) && LockOk(s, t) && ActiveOk(s, t);
    OthersKeepInv(c, s, Step(s, SlotGranted(p)), p, t);
  }

  /** A run that ends without a result: the slot it held is free again, its task in no registry. */
  lemma StoppedKeepsInv(c: Config, s: State, p: Pid, o: Outcome)
    requires Inv(c, s) && At(s, p, Inferring) && !o.Served? && !o.Published?
    ensures Inv(c, Finish(s.(free := s.free + 1), p, s.requests[p], o))
  {
    var t := s.requests[p].task;
    assert HolderOk(s, p) && LockOk(s, t) && ActiveOk(s, t);
    OthersKeepInv(c, s, Finish(s.(free := s.free + 1), p, s.requests[p], o), p, t);
  }

  lemma PublishedKeepsInv(c: Config, s: State, p: Pid, image: Image)
    requires Inv(c, s) && At(s, p, Inferring)
    ensures var r := s.requests[p];
            Inv(c, Finish(s.(free := s.free + 1), p, r, Published(image)).(results := s.results[r.task := image]))
  {
    var r := s.requests[p];
    assert HolderOk(s, p) && LockOk(s, r.task) && ActiveOk(s, r.task);
    var s' := Finish(s.(free := s.free + 1), p, r, Published(image)).(results := s.results[r.task := image]);
    OthersKeepInv(c, s, s', p, r.task);
  }

  lemma EndKeepsInv(c: Config, s: State, p: Pid, output: Option<Image>, written: bool)
    requires Inv(c, s) && At(s, p, Inferring)
    ensures Inv(c, Step(s, InferenceEnded(p, output, written)))
  {
    StoppedKeepsInv(c, s, p, Failed);
    StoppedKeepsInv(c, s, p, Cancelled);
    if output.Some? {
      PublishedKeepsInv(c, s, p, output.value);
    }
  }

  lemma CancelKeepsInv(c: Config, s: State, t: Task)
    requires Inv(c, s)
    ensures Inv(c, Step(s, Cancel(t)))
  {
    var s' := Step(s, Cancel(t));
    assert Busy(s') == Busy(s);
    forall p | p in s'.requests ensures HolderOk(s', p) {
      assert HolderOk(s, p);
    }
    forall u ensures LockOk(s', u) && ActiveOk(s', u) {
      assert LockOk(s, u) && ActiveOk(s, u);
    }
  }

  lemma StepKeepsInv(c: Config, s: State, e: Event)
    requires Inv(c, s)
    ensures Inv(c, Step(s, e))
  {
    match e
    case Arrive(p, t, files, queued) => ArriveKeepsInv(c, s, p, t, files, queued);
    case LockGranted(p) =>
      if At(s, p, WaitLock) && s.requests[p].task !in s.locks {
        LockedKeepsInv(c, s, p, s.requests[p]);
      }
    case Cancel(t) => CancelKeepsInv(c, s, t);
    case InputRead(p, valid, queued) =>
      if p in s.requests && s.requests[p].pc.Reading? { ReadKeepsInv(c, s, p, valid, queued); }
    case SlotGranted(p) =>
      if At(s, p, WaitSlot) && s.free > 0 { SlotKeepsInv(c, s, p); }
    case InferenceEnded(p, output, written) =>
      if At(s, p, Inferring) { EndKeepsInv(c, s, p, output, written); }
  }

  lemma {:induction false} RunKeepsInv(c: Config, s: State, es: seq<Event>)
    requires Inv(c, s)
    ensures Inv(c, Run(s, es))
  {
    if es != [] {
      RunKeepsInv(c, s, es[..|es| - 1]);
      StepKeepsInv(c, Run(s, es[..|es| - 1]), es[|es| - 1]);
    }
  }

  lemma InitialInv(c: Config, disk: map<Task, Image>)
    ensures Inv(c, Initial(c, disk))
  {
    assert Busy(Initial(c, disk)) == {};
  }

  // ---------------------------------------------------------------- main results

  /** What holds whenever the event loop is between two segments. */
  ghost predicate Safe(c: Config, s: State) {
    // one request per task between activation and cleanup
    && (forall p, q | p in s.requests && q in s.requests && InTry(s.requests[p].pc) && InTry(s.requests[q].pc)
          :: s.requests[p].task == s.requests[q].task ==> p == q)
    // at most MAX_CONCURRENCY inferences, and no slot leaks
    && |Busy(s)| == c.slots - s.free
    // the registry sets mean what their names say
    && (forall t :: t in s.active <==> exists p :: p in s.requests && InTry(s.requests[p].pc) && s.requests[p].task == t)
    && s.cancelled <= s.active
    // a published task has nobody working on it
    && (forall p :: p in s.requests && HoldsLock(s.requests[p].pc) ==> s.requests[p].task !in s.results)
    // every 200 answer carries the task's one result
    && (forall p | p in s.requests && Answered(s.requests[p].pc) ::
          s.requests[p].task in s.results && s.results[s.requests[p].task] == s.requests[p].pc.outcome.image)
  }

  lemma InvIsSafe(c: Config, s: State)
    requires Inv(c, s)
    ensures Safe(c, s)
  {
    assert forall p :: p in s.requests ==> HolderOk(s, p);
    forall t
      ensures t in s.active <==> exists p :: p in s.requests && InTry(s.requests[p].pc) && s.requests[p].task == t
    {
      assert LockOk(s, t) && ActiveOk(s, t);
      if t in s.active {
        var p := s.locks[t];
        assert p in s.requests && InTry(s.requests[p].pc) && s.requests[p].task == t;
      }
    }
  }

  lemma EveryScheduleIsSafe(c: Config, disk: map<Task, Image>, es: seq<Event>)
    ensures Safe(c, Run(Initial(c, disk), es))
  {
    InitialInv(c, disk);
    RunKeepsInv(c, Initial(c, disk), es);
    InvIsSafe(c, Run(Initial(c, disk), es));
  }

  /** The inference thread is never started for a task whose result is already published. */
  lemma NoInferenceForPublishedTask(c: Config, disk: map<Task, Image>, es: seq<Event>, e: Event, p: Pid)
    requires !At(Run(Initial(c, disk), es), p, Inferring)
    requires At(Step(Run(Initial(c, disk), es), e), p, Inferring)
    ensures Step(Run(Initial(c, disk), es), e).requests[p].task !in Run(Initial(c, disk), es).results
  {
    InitialInv(c, disk);
    RunKeepsInv(c, Initial(c, disk), es);
    var s := Run(Initial(c, disk), es);
    assert p in s.requests ==> HolderOk(s, p);
  }

  /** `h` was told to stop: it can only wait for its slot or thread, or end without a result. */
  ghost predicate Doomed(s: State, h: Pid, t: Task) {
    && h in s.requests && s.requests[h].task == t
    && var pc := s.requests[h].pc;
       || (InTry(pc) && t in s.cancelled)
       || pc == Done(Cancelled)
       || pc == Done(Failed)
  }

  lemma StepKeepsDoomed(c: Config, s: State, e: Event, h: Pid, t: Task)
    requires Inv(c, s) && Doomed(s, h, t)
    ensures Doomed(Step(s, e), h, t)
  {
    assert HolderOk(s, h);
    if !e.Cancel? && e.p in s.requests {
      assert HolderOk(s, e.p);
    }
  }

  lemma {:induction false} DoomedForever(c: Config, s: State, es: seq<Event>, h: Pid, t: Task)
    requires Inv(c, s) && Doomed(s, h, t)
    ensures Doomed(Run(s, es), h, t)
  {
    if es != [] {
      DoomedForever(c, s, es[..|es| - 1], h, t);
      RunKeepsInv(c, s, es[..|es| - 1]);
      StepKeepsDoomed(c, Run(s, es[..|es| - 1]), es[|es| - 1], h, t);
    }
  }

  /**
    Cancellation wins. In whatever schedule `cancel` answers "cancelling", nothing is published for
    the task yet, exactly one run holds the task's lock, and in every continuation that run either is
    still on its way or ends without publishing.
  */
  lemma CancelWins(c: Config, disk: map<Task, Image>, before: seq<Event>, t: Task, after: seq<Event>)
    requires ReplyTo(Run(Initial(c, disk), before), t) == Cancelling
    ensures var s := Run(Initial(c, disk), before);
            && t !in s.results && t in s.locks
            && var h := s.locks[t];
               var z := Run(Step(s, Cancel(t)), after);
               && Doomed(z, h, t)
               && !Answered(z.requests[h].pc)
  {
    InitialInv(c, disk);
    RunKeepsInv(c, Initial(c, disk), before);
    var s := Run(Initial(c, disk), before);
    assert LockOk(s, t) && ActiveOk(s, t);
    StepKeepsInv(c, s, Cancel(t));
    DoomedForever(c, Step(s, Cancel(t)), after, s.locks[t], t);
  }

  /** A published result is final: no later request replaces or withdraws it. */
  lemma {:induction false} PublishedOnce(c: Config, disk: map<Task, Image>, before: seq<Event>, after: seq<Event>,
      t: Task)
    requires t in Run(Initial(c, disk), before).results
    ensures t in Run(Run(Initial(c, disk), before), after).results
    ensures Run(Run(Initial(c, disk), before), after).results[t] == Run(Initial(c, disk), before).results[t]
  {
    if after != [] {
      var s := Run(Initial(c, disk), before);
      PublishedOnce(c, disk, before, after[..|after| - 1], t);
      InitialInv(c, disk);
      RunKeepsInv(c, Initial(c, disk), before);
      RunKeepsInv(c, s, after[..|after| - 1]);
      var z := Run(s, after[..|after| - 1]);
      var e := after[|after| - 1];
      if !e.Cancel? && e.p in z.requests {
        assert HolderOk(z, e.p);
      }
    }
  }

  /** How far a request still is from its answer. */
  function Distance(r: Request): nat {
    match r.pc
    case WaitLock => r.files + 4
    case Reading(left) => left + 3
    case WaitSlot => 2
    case Inferring => 1
    case Done(_) => 0
  }

  /** A coroutine is resumed, gets nearer to its answer and moves no other. */
  ghost predicate Advances(s: State, e: Event) {
    && !e.Arrive? && !e.Cancel? && e.p in s.requests && e.p in Step(s, e).requests
    && Distance(Step(s, e).requests[e.p]) < Distance(s.requests[e.p])
    && Step(s, e).requests == s.requests[e.p := Step(s, e).requests[e.p]]
  }

  lemma WaiterAdvances(s: State, p: Pid)
    requires At(s, p, WaitLock) && s.requests[p].task !in s.locks
    ensures Advances(s, LockGranted(p))
  {
  }

  lemma ReaderAdvances(s: State, p: Pid)
    requires p in s.requests && s.requests[p].pc.Reading?
    ensures Advances(s, InputRead(p, true, false))
  {
  }

  lemma SlotAdvances(s: State, p: Pid)
    requires At(s, p, WaitSlot) && s.free > 0
    ensures Advances(s, SlotGranted(p))
  {
  }

  lemma ThreadAdvances(s: State, p: Pid)
    requires At(s, p, Inferring)
    ensures Advances(s, InferenceEnded(p, None, false))
  {
  }

  /** Whoever holds a task lock, or else somebody holding a slot, can go on. */
  lemma HolderAdvances(c: Config, s: State, h: Pid) returns (e: Event)
    requires Inv(c, s) && c.slots > 0 && h in s.requests && HoldsLock(s.requests[h].pc)
    ensures Advances(s, e)
  {
    match s.requests[h].pc
    case Reading(_) => ReaderAdvances(s, h); e := InputRead(h, true, false);
    case Inferring => ThreadAdvances(s, h); e := InferenceEnded(h, None, false);
    case WaitSlot =>
      if s.free > 0 {
        SlotAdvances(s, h);
        e := SlotGranted(h);
      } else {
        assert Busy(s) != {};
        var b :| b in Busy(s);
        ThreadAdvances(s, b);
        e := InferenceEnded(b, None, false);
      }
  }

  /**
    No deadlock: as long as some request is unanswered, the event loop can resume a coroutine, and
    resuming it brings that one nearer to its answer and moves no other.
  */
  lemma NeverStuck(c: Config, disk: map<Task, Image>, es: seq<Event>, p: Pid) returns (e: Event)
    requires c.slots > 0
    requires p in Run(Initial(c, disk), es).requests && !Run(Initial(c, disk), es).requests[p].pc.Done?
    ensures Advances(Run(Initial(c, disk), es), e)
  {
    InitialInv(c, disk);
    RunKeepsInv(c, Initial(c, disk), es);
    var s := Run(Initial(c, disk), es);
    var t := s.requests[p].task;
    assert LockOk(s, t) && HolderOk(s, p);
    if t in s.locks {
      e := HolderAdvances(c, s, s.locks[t]);
    } else {
      WaiterAdvances(s, p);
      e := LockGranted(p);
    }
  }

  // ---------------------------------------------------------------- which answer a request gets

  /** A cancel request for its task arrived while `p` was between activation and its finally block. */
  ghost predicate Told(s: State, es: seq<Event>, p: Pid) {
    exists k | 0 <= k < |es| :: ToldAt(s, es, k, p)
  }

  ghost predicate ToldAt(s: State, es: seq<Event>, k: nat, p: Pid)
    requires k < |es|
  {
    var y := Run(s, es[..k]);
    p in y.requests && InTry(y.requests[p].pc) && es[k] == Cancel(y.requests[p].task)
  }

  /** Request `p`, unanswered in `s`, is answered with `o` by the event `e`. */
  ghost predicate Gives(s: State, told: bool, e: Event, p: Pid, o: Outcome) {
    match o
    case Served(image) =>
      || (e.Arrive? && e.p == p && p !in s.requests && e.t in s.results && image == s.results[e.t])
      || (e == LockGranted(p) && At(s, p, WaitLock) && s.requests[p].task in s.results && image == s.results[s.requests[p].task])
    case Published(image) => e == InferenceEnded(p, Some(image), true) && At(s, p, Inferring) && !told
    case Cancelled =>
      || (e == SlotGranted(p) && At(s, p, WaitSlot) && s.free > 0 && told)
      || (e.InferenceEnded? && e.p == p && e.output.Some? && At(s, p, Inferring) && told)
    case Failed => e.InferenceEnded? && e.p == p && At(s, p, Inferring) && (e.output.None? || (!told && !e.written))
    case Rejected => e.InputRead? && e.p == p && !e.valid && p in s.requests && s.requests[p].pc.Reading? && s.requests[p].pc.left <= 1
  }

  ghost predicate GivesAt(s: State, es: seq<Event>, m: nat, p: Pid, o: Outcome)
    requires m < |es|
  {
    Gives(Run(s, es[..m]), Told(s, es[..m], p), es[m], p, o)
  }

  ghost predicate Early(s: State, p: Pid) {
    p in s.requests ==> s.requests[p].pc.WaitLock? || s.requests[p].pc.Reading?
  }

  /** What one event says about `p`: it becomes active uncancelled, and then only a cancel of its task tells it. */
  ghost predicate TellsRight(s: State, e: Event, p: Pid) {
    var z := Step(s, e);
    && (Early(z, p) ==> Early(s, p))
    && (p in z.requests && InTry(z.requests[p].pc) ==>
          var t := z.requests[p].task;
          if Early(s, p) then t !in z.cancelled
          else InTry(s.requests[p].pc) && s.requests[p].task == t && (t in z.cancelled <==> t in s.cancelled || e == Cancel(t)))
  }

  lemma OthersTell(c: Config, s: State, e: Event, p: Pid)
    requires Inv(c, s) && !e.Cancel? && e.p != p
    ensures TellsRight(s, e, p)
  {
    OthersAreAsTheyWere(s, e, p);
    if p in s.requests {
      assert HolderOk(s, p);
    }
    if e.p in s.requests {
      assert HolderOk(s, e.p);
    }
  }

  lemma CancelTells(c: Config, s: State, t: Task, p: Pid)
    requires Inv(c, s)
    ensures TellsRight(s, Cancel(t), p)
  {
    if p in s.requests && InTry(s.requests[p].pc) {
      assert HolderOk(s, p) && LockOk(s, s.requests[p].task) && ActiveOk(s, s.requests[p].task);
    }
  }

  lemma StepTells(c: Config, s: State, e: Event, p: Pid)
    requires Inv(c, s)
    ensures TellsRight(s, e, p)
  {
    if e.Cancel? {
      CancelTells(c, s, e.t, p);
    } else if e.p != p {
      OthersTell(c, s, e, p);
    }
  }

  lemma OthersAreAsTheyWere(s: State, e: Event, p: Pid)
    requires e.Cancel? || e.p != p
    ensures p in Step(s, e).requests <==> p in s.requests
    ensures p in s.requests ==> Step(s, e).requests[p] == s.requests[p]
  {
  }

  lemma ToldGrows(s: State, es: seq<Event>, p: Pid)
    requires es != []
    ensures Told(s, es, p) <==> Told(s, es[..|es| - 1], p) || ToldAt(s, es, |es| - 1, p)
  {
    var n := |es| - 1;
    forall k | 0 <= k < n ensures ToldAt(s, es, k, p) <==> ToldAt(s, es[..n], k, p) {
      assert es[..n][..k] == es[..k];
    }
  }

  /** The cancelled set says who was told to stop, and nobody is told before he is active. */
  lemma {:induction false} ToldIsRecorded(c: Config, disk: map<Task, Image>, es: seq<Event>, p: Pid)
    ensures var s := Run(Initial(c, disk), es);
            && (Early(s, p) ==> !Told(Initial(c, disk), es, p))
            && (p in s.requests && InTry(s.requests[p].pc) ==>
                  (s.requests[p].task in s.cancelled <==> Told(Initial(c, disk), es, p)))
  {
    if es != [] {
      var s := Run(Initial(c, disk), es[..|es| - 1]);
      ToldIsRecorded(c, disk, es[..|es| - 1], p);
      InitialInv(c, disk);
      RunKeepsInv(c, Initial(c, disk), es[..|es| - 1]);
      StepTells(c, s, es[|es| - 1], p);
      ToldGrows(Initial(c, disk), es, p);
    }
  }

  lemma ArrivalAnswers(c: Config, s: State, told: bool, p: Pid, o: Outcome, t: Task, files: nat, queued: bool)
    requires Inv(c, s)
    ensures At(Step(s, Arrive(p, t, files, queued)), p, Done(o)) <==>
              At(s, p, Done(o)) || Gives(s, told, Arrive(p, t, files, queued), p, o)
  {
    assert LockOk(s, t);
    if p !in s.requests && t in s.locks { assert HolderOk(s, s.locks[t]); }
  }

  lemma GrantAnswers(c: Config, s: State, told: bool, p: Pid, o: Outcome)
    requires Inv(c, s)
    ensures At(Step(s, LockGranted(p)), p, Done(o)) <==>
              At(s, p, Done(o)) || Gives(s, told, LockGranted(p), p, o)
  {
    if At(s, p, WaitLock) {
      var t := s.requests[p].task;
      assert LockOk(s, t);
      if t in s.locks { assert HolderOk(s, s.locks[t]); }
    }
  }

  lemma ReadingAnswers(c: Config, s: State, told: bool, p: Pid, o: Outcome, valid: bool, queued: bool)
    requires Inv(c, s)
    ensures At(Step(s, InputRead(p, valid, queued)), p, Done(o)) <==>
              At(s, p, Done(o)) || Gives(s, told, InputRead(p, valid, queued), p, o)
  {
    if p in s.requests && s.requests[p].pc.Reading? {
      assert !At(s, p, Done(o));
    }
  }

  lemma TurnAnswers(c: Config, s: State, told: bool, p: Pid, o: Outcome)
    requires Inv(c, s)
    requires At(s, p, WaitSlot) ==> (told <==> s.requests[p].task in s.cancelled)
    ensures At(Step(s, SlotGranted(p)), p, Done(o)) <==>
              At(s, p, Done(o)) || Gives(s, told, SlotGranted(p), p, o)
  {
  }

  lemma EndAnswers(c: Config, s: State, told: bool, p: Pid, o: Outcome, output: Option<Image>, written: bool)
    requires Inv(c, s)
    requires At(s, p, Inferring) ==> (told <==> s.requests[p].task in s.cancelled)
    ensures At(Step(s, InferenceEnded(p, output, written)), p, Done(o)) <==>
              At(s, p, Done(o)) || Gives(s, told, InferenceEnded(p, output, written), p, o)
  {
    if At(s, p, Inferring) {
      var z := Step(s, InferenceEnded(p, output, written));
      assert p in z.requests && z.requests[p].pc.Done?;
    }
  }

  lemma StepAnswers(c: Config, s: State, told: bool, e: Event, p: Pid, o: Outcome)
    requires Inv(c, s)
    requires p in s.requests && InTry(s.requests[p].pc) ==> (told <==> s.requests[p].task in s.cancelled)
    ensures At(Step(s, e), p, Done(o)) <==> At(s, p, Done(o)) || Gives(s, told, e, p, o)
  {
    if e.Cancel? || e.p != p {
      OthersAreAsTheyWere(s, e, p);
    } else {
      match e
      case Arrive(_, t, files, queued) => ArrivalAnswers(c, s, told, p, o, t, files, queued);
      case LockGranted(_) => GrantAnswers(c, s, told, p, o);
      case InputRead(_, valid, queued) => ReadingAnswers(c, s, told, p, o, valid, queued);
      case SlotGranted(_) => TurnAnswers(c, s, told, p, o);
      case InferenceEnded(_, output, written) => EndAnswers(c, s, told, p, o, output, written);
    }
  }

  /** Some event of the schedule answers `p` with `o`. */
  ghost predicate Given(s: State, es: seq<Event>, p: Pid, o: Outcome) {
    exists m | 0 <= m < |es| :: GivesAt(s, es, m, p, o)
  }

  lemma GivenGrows(s: State, es: seq<Event>, p: Pid, o: Outcome)
    requires es != []
    ensures Given(s, es, p, o) <==> Given(s, es[..|es| - 1], p, o) || GivesAt(s, es, |es| - 1, p, o)
  {
    var n := |es| - 1;
    forall m | 0 <= m < n ensures GivesAt(s, es[..n], m, p, o) <==> GivesAt(s, es, m, p, o) {
      assert es[..n][..m] == es[..m];
    }
  }

  /**
    Which answer a request ends with is decided by the schedule alone: a cached image when there was
    one, the fresh image exactly when the thread returned it, the file was written and nobody had
    cancelled the task meanwhile, and likewise for each refusal. An answer, once given, stays.
  */
  lemma {:induction false} EveryAnswerIsRight(c: Config, disk: map<Task, Image>, es: seq<Event>, p: Pid, o: Outcome)
    ensures At(Run(Initial(c, disk), es), p, Done(o)) <==> Given(Initial(c, disk), es, p, o)
  {
    if es != [] {
      var before := es[..|es| - 1];
      var s := Initial(c, disk);
      EveryAnswerIsRight(c, disk, before, p, o);
      InitialInv(c, disk);
      RunKeepsInv(c, s, before);
      ToldIsRecorded(c, disk, before, p);
      StepAnswers(c, Run(s, before), Told(s, before, p), es[|es| - 1], p, o);
      GivenGrows(s, es, p, o);
    }
  }

  /**
    The end of an inference of `p`, from `s` to `z`. The image is published, and becomes the result of
    its task, exactly when the thread returned it, the task is not cancelled and the file was written;
    the answer is 409 exactly when the thread returned and the task is cancelled, else 500.
  */
  ghost predicate EndsRight(s: State, z: State, p: Pid, output: Option<Image>, written: bool)
    requires p in s.requests
  {
    var t := s.requests[p].task;
    if output.Some? && t !in s.cancelled && written then
      At(z, p, Done(Published(output.value))) && z.results == s.results[t := output.value]
    else
      z.results == s.results && At(z, p, Done(if output.Some? && t in s.cancelled then Cancelled else Failed))
  }

  lemma EndIsRight(s: State, p: Pid, output: Option<Image>, written: bool)
    requires At(s, p, Inferring)
    ensures EndsRight(s, Step(s, InferenceEnded(p, output, written)), p, output, written)
  {
  }

  /** So it is from every reachable state, and `cancelled` holds the tasks whose run was told to stop. */
  lemma InferenceIsAnswered(c: Config, disk: map<Task, Image>, es: seq<Event>, p: Pid, output: Option<Image>,
      written: bool)
    requires At(Run(Initial(c, disk), es), p, Inferring)
    ensures var s := Run(Initial(c, disk), es);
            && EndsRight(s, Step(s, InferenceEnded(p, output, written)), p, output, written)
            && (s.requests[p].task in s.cancelled <==> Told(Initial(c, disk), es, p))
  {
    EndIsRight(Run(Initial(c, disk), es), p, output, written);
    ToldIsRecorded(c, disk, es, p);
  }

  lemma StepPublishes(c: Config, s: State, e: Event, t: Task, q: Pid)
    requires Inv(c, s)
    ensures var z := Step(s, e);
            && (t in s.results ==> t in z.results && z.results[t] == s.results[t])
            && (t in z.results && t !in s.results ==>
                  e.InferenceEnded? && e.p in z.requests && z.requests[e.p].task == t && PublishedBy(z, e.p))
            && (q in s.requests && s.requests[q].pc.Done? ==> q in z.requests && z.requests[q] == s.requests[q])
            && (PublishedBy(z, q) && !PublishedBy(s, q) ==> z.requests[q].task !in s.results)
  {
    if !e.Cancel? && e.p in s.requests {
      assert HolderOk(s, e.p);
    }
    if e.Cancel? || e.p != q {
      OthersAreAsTheyWere(s, e, q);
    }
  }

  ghost predicate PublishedBy(s: State, p: Pid) {
    p in s.requests && s.requests[p].pc.Done? && s.requests[p].pc.outcome.Published?
  }

  /** A task has the result it had on disk, or else the image one of its requests published. */
  lemma {:induction false} ResultsWerePublished(c: Config, disk: map<Task, Image>, es: seq<Event>, t: Task)
    ensures var s := Run(Initial(c, disk), es);
            && (t in disk ==> t in s.results && s.results[t] == disk[t])
            && (t in s.results && t !in disk ==> exists p :: p in s.requests && s.requests[p].task == t && PublishedBy(s, p))
            && (forall p :: p in s.requests && s.requests[p].task == t && PublishedBy(s, p) ==>
                  t !in disk && t in s.results && s.requests[p].pc.outcome.image == s.results[t])
  {
    InitialInv(c, disk);
    RunKeepsInv(c, Initial(c, disk), es);
    var z := Run(Initial(c, disk), es);
    forall p | p in z.requests && PublishedBy(z, p)
      ensures z.requests[p].task in z.results && z.requests[p].pc.outcome.image == z.results[z.requests[p].task]
    {
      assert HolderOk(z, p);
    }
    if es != [] {
      var s := Run(Initial(c, disk), es[..|es| - 1]);
      ResultsWerePublished(c, disk, es[..|es| - 1], t);
      RunKeepsInv(c, Initial(c, disk), es[..|es| - 1]);
      forall p ensures PublishedBy(s, p) ==> PublishedBy(z, p) && z.requests[p] == s.requests[p]
               ensures PublishedBy(z, p) && !PublishedBy(s, p) ==> z.requests[p].task !in s.results
      {
        StepPublishes(c, s, es[|es| - 1], t, p);
      }
      StepPublishes(c, s, es[|es| - 1], t, 0);
    }
  }

  /** What a cancel request is told: whether the task has a result, and if not, whether a run is under way. */
  lemma ReplyIsRight(c: Config, disk: map<Task, Image>, es: seq<Event>, t: Task)
    ensures var s := Run(Initial(c, disk), es);
            && (ReplyTo(s, t) == AlreadyCompleted <==> t in s.results)
            && (ReplyTo(s, t) == Cancelling <==> exists p :: p in s.requests && InTry(s.requests[p].pc) && s.requests[p].task == t)
  {
    EveryScheduleIsSafe(c, disk, es);
  }

  function Reads(p: Pid, n: nat): seq<Event> {
    if n == 0 then [] else Reads(p, n - 1) + [InputRead(p, true, false)]
  }

  lemma NextRead(s: State, p: Pid, r: Request, left: nat)
    requires left > 1
    ensures Step(Move(s, p, r, Reading(left)), InputRead(p, true, false)) == Move(s, p, r, Reading(left - 1))
  {
    assert s.requests[p := r.(pc := Reading(left))][p := r.(pc := Reading(left - 1))] == s.requests[p := r.(pc := Reading(left - 1))];
  }

  lemma {:induction false} ReadsLength(p: Pid, n: nat)
    ensures |Reads(p, n)| == n
  {
    if n > 0 { ReadsLength(p, n - 1); }
  }

  /** Each upload but the last only brings the request nearer to its activation. */
  lemma {:induction false} ReadingGoesOn(s: State, p: Pid, r: Request, left: nat, n: nat)
    requires n == 0 || n < left
    ensures Run(Move(s, p, r, Reading(left)), Reads(p, n)) == Move(s, p, r, Reading(left - n))
  {
    ReadsLength(p, n);
    if n > 0 {
      ReadingGoesOn(s, p, r, left, n - 1);
      ReadsLength(p, n - 1);
      assert Reads(p, n)[..n - 1] == Reads(p, n - 1);
      NextRead(s, p, r, left - (n - 1));
    }
  }

  /** `s` with a new request that has the lock of its task. */
  ghost function Entered(s: State, p: Pid, t: Task, files: nat, pc: Pc): State {
    s.(locks := s.locks[t := p], requests := s.requests[p := Request(t, files, pc)])
  }

  lemma LastReadActivates(s: State, p: Pid, t: Task, files: nat, left: nat)
    requires t !in s.cancelled && s.free > 0 && left <= 1
    ensures Step(Entered(s, p, t, files, Reading(left)), InputRead(p, true, false))
         == Entered(s, p, t, files, Inferring).(active := s.active + {t}, free := s.free - 1)
  {
    assert s.requests[p := Request(t, files, Reading(left))][p := Request(t, files, Inferring)]
        == s.requests[p := Request(t, files, Inferring)];
    assert s.cancelled - {t} == s.cancelled;
  }

  lemma UndisturbedEnd(s: State, p: Pid, t: Task, files: nat, image: Image)
    requires t !in s.cancelled && t !in s.active && t !in s.locks && s.free > 0
    ensures Step(Entered(s, p, t, files, Inferring).(active := s.active + {t}, free := s.free - 1), InferenceEnded(p, Some(image), true))
         == s.(requests := s.requests[p := Request(t, files, Done(Published(image)))], results := s.results[t := image])
  {
    var done := Request(t, files, Done(Published(image)));
    assert s.requests[p := Request(t, files, Inferring)][p := done] == s.requests[p := done];
    assert s.locks[t := p] - {t} == s.locks;
    assert (s.active + {t}) - {t} == s.active && s.cancelled - {t} == s.cancelled;
  }

  lemma UndisturbedFrom(s: State, p: Pid, t: Task, files: nat, image: Image)
    requires p !in s.requests && t !in s.results && t !in s.locks && t !in s.active && t !in s.cancelled && s.free > 0
    ensures GoesThrough(s, p, t, files, image)
  {
    var n := if files == 0 then 0 else files - 1;
    var a := Step(s, Arrive(p, t, files, false));
    var l := s.(locks := s.locks[t := p]);
    assert a == Move(l, p, Request(t, files, WaitLock), Reading(files));
    ReadingGoesOn(l, p, Request(t, files, WaitLock), files, n);
    assert Run(a, Reads(p, n)) == Entered(s, p, t, files, Reading(files - n));
    LastReadActivates(s, p, t, files, files - n);
    UndisturbedEnd(s, p, t, files, image);
  }

  /** The new request reads its uploads, runs once the last is read, and leaves only its answer and its result. */
  ghost predicate GoesThrough(s: State, p: Pid, t: Task, files: nat, image: Image) {
    var n := if files == 0 then 0 else files - 1;
    var y := Run(Step(s, Arrive(p, t, files, false)), Reads(p, n));
    var x := Step(y, InputRead(p, true, false));
    && At(y, p, Reading(files - n)) && At(x, p, Inferring)
    && Step(x, InferenceEnded(p, Some(image), true)) ==
         s.(requests := s.requests[p := Request(t, files, Done(Published(image)))], results := s.results[t := image])
  }

  /**
    A request nobody disturbs ends with its image. On any reachable worker with a free slot, a new
    request for a task without a result or a run awaits its uploads one after the other, runs once the
    last is read, publishes, and leaves locks, registries and slots as it found them.
  */
  lemma UndisturbedRequest(c: Config, disk: map<Task, Image>, before: seq<Event>, p: Pid, t: Task, files: nat,
      image: Image)
    requires var s := Run(Initial(c, disk), before);
             p !in s.requests && t !in s.results && t !in s.locks && s.free > 0
    ensures GoesThrough(Run(Initial(c, disk), before), p, t, files, image)
  {
    var s := Run(Initial(c, disk), before);
    InitialInv(c, disk);
    RunKeepsInv(c, Initial(c, disk), before);
    assert LockOk(s, t) && ActiveOk(s, t);
    UndisturbedFrom(s, p, t, files, image);
  }

  // ---------------------------------------------------------------- the program

  /**
    The worker process. Its fields are the module's globals; each method is the code one coroutine
    runs from one suspension point to the next.
  */
  class Worker {
    const c: Config
    var taskLocks: map<Task, Pid>
    var activeTasks: set<Task>
    var cancelledTasks: set<Task>
    var registryLocked: bool
    /** Whether anybody ever found the registry lock taken. */
    ghost var waited: bool
    var freeSlots: nat
    var published: map<Task, Image>
    var requests: map<Pid, Request>

    ghost function View(): State
      reads this
    {
      State(taskLocks, activeTasks, cancelledTasks, freeSlots, published, requests)
    }

    /** The registry lock is free between segments, and nobody has ever had to wait for it. */
    ghost predicate Valid()
      reads this
    {
      !registryLocked && !waited && Inv(c, View())
    }

    constructor (c: Config, disk: map<Task, Image>)
      ensures Valid() && this.c == c && View() == Initial(c, disk)
    {
      this.c := c;
      taskLocks, activeTasks, cancelledTasks, registryLocked := map[], {}, {}, false;
      freeSlots, published, requests, waited := c.slots, disk, map[], false;
      new;
      InitialInv(c, disk);
    }

    /** `async with registry_lock`, which would suspend its coroutine only if the lock were taken. */
    method AcquireRegistry()
      modifies this`registryLocked, this`waited
      ensures registryLocked && waited == (old(waited) || old(registryLocked))
    {
      waited := waited || registryLocked;
      registryLocked := true;
    }

    method ReleaseRegistry()
      modifies this`registryLocked
      ensures !registryLocked
    {
      registryLocked := false;
    }

    method Arrive(p: Pid, t: Task, files: nat, queued: bool)
      requires Valid() && p !in requests
      modifies this
      ensures Valid() && View() == Step(old(View()), Event.Arrive(p, t, files, queued))
    {
      StepKeepsInv(c, View(), Event.Arrive(p, t, files, queued));
      if t in published {
        requests := requests[p := Request(t, files, Done(Served(published[t])))];
        return;
      }
      if t in taskLocks || queued {
        requests := requests[p := Request(t, files, WaitLock)];
        return;
      }
      EnterLock(p, Request(t, files, WaitLock));
    }

    /** The head of the `async with lock` block, up to the first read of the upload. */
    method EnterLock(p: Pid, r: Request)
      requires r.task !in taskLocks
      modifies this`taskLocks, this`requests
      ensures View() == Locked(old(View()), p, r)
    {
      if r.task in published {
        requests := requests[p := r.(pc := Done(Served(published[r.task])))];
      } else {
        taskLocks := taskLocks[r.task := p];
        requests := requests[p := r.(pc := Reading(r.files))];
      }
    }

    method LockGranted(p: Pid)
      requires Valid() && At(View(), p, WaitLock) && requests[p].task !in taskLocks
      modifies this
      ensures Valid() && View() == Step(old(View()), Event.LockGranted(p))
    {
      StepKeepsInv(c, View(), Event.LockGranted(p));
      EnterLock(p, requests[p]);
    }

    method InputRead(p: Pid, valid: bool, queued: bool)
      requires Valid() && p in requests && requests[p].pc.Reading?
      modifies this
      ensures Valid() && View() == Step(old(View()), Event.InputRead(p, valid, queued))
    {
      StepKeepsInv(c, View(), Event.InputRead(p, valid, queued));
      var r := requests[p];
      if r.pc.left > 1 {
        requests := requests[p := r.(pc := Reading(r.pc.left - 1))];
        return;
      }
      if !valid {
        taskLocks := taskLocks - {r.task};
        requests := requests[p := r.(pc := Done(Rejected))];
        return;
      }
      AcquireRegistry();
      activeTasks := activeTasks + {r.task};
      cancelledTasks := cancelledTasks - {r.task};
      ReleaseRegistry();
      if freeSlots == 0 || queued {
        requests := requests[p := r.(pc := WaitSlot)];
      } else {
        StartInference(p, r);
      }
    }

    /** Inside `async with inference_slots`: the cancelled check, then the inference thread. */
    method StartInference(p: Pid, r: Request)
      requires !registryLocked && !waited && freeSlots > 0
      modifies this
      ensures !registryLocked && !waited
      ensures View() == if r.task in old(cancelledTasks) then Finish(old(View()), p, r, Cancelled)
                        else Move(old(View()), p, r, Inferring).(free := old(freeSlots) - 1)
    {
      freeSlots := freeSlots - 1;
      AcquireRegistry();
      var stop := r.task in cancelledTasks;
      ReleaseRegistry();
      if stop {
        freeSlots := freeSlots + 1;
        Cleanup(p, r, Cancelled);
      } else {
        requests := requests[p := r.(pc := Inferring)];
      }
    }

    method SlotGranted(p: Pid)
      requires Valid() && At(View(), p, WaitSlot) && freeSlots > 0
      modifies this
      ensures Valid() && View() == Step(old(View()), Event.SlotGranted(p))
    {
      StepKeepsInv(c, View(), Event.SlotGranted(p));
      StartInference(p, requests[p]);
    }

    /** From the end of the thread to the response, without a suspension point. */
    method InferenceEnded(p: Pid, output: Option<Image>, written: bool)
      requires Valid() && At(View(), p, Inferring)
      modifies this
      ensures Valid() && View() == Step(old(View()), Event.InferenceEnded(p, output, written))
      ensures EndsRight(old(View()), View(), p, output, written)
    {
      StepKeepsInv(c, View(), Event.InferenceEnded(p, output, written));
      EndIsRight(View(), p, output, written);
      var r := requests[p];
      freeSlots := freeSlots + 1;
      var o := Conclude(r.task, output, written);
      Cleanup(p, r, o);
    }

    /** The tail of the try block: the last look at the cancelled set, then the file. */
    method Conclude(t: Task, output: Option<Image>, written: bool) returns (o: Outcome)
      requires !registryLocked && !waited
      modifies this`registryLocked, this`waited, this`published
      ensures !registryLocked && !waited
      ensures o.Published? <==> output.Some? && t !in cancelledTasks && written
      ensures o.Published? ==> o.image == output.value
      ensures published == if o.Published? then old(published)[t := o.image] else old(published)
      ensures !o.Published? ==> o == if output.Some? && t in cancelledTasks then Cancelled else Failed
    {
      if output.None? {
        return Failed;
      }
      AcquireRegistry();
      var stop := t in cancelledTasks;
      ReleaseRegistry();
      if stop {
        return Cancelled;
      }
      if !written {
        return Failed;
      }
      published := published[t := output.value];
      return Published(output.value);
    }

    /** The finally block, then leaving `async with lock`. */
    method Cleanup(p: Pid, r: Request, o: Outcome)
      requires !registryLocked && !waited
      modifies this
      ensures !registryLocked && !waited && View() == Finish(old(View()), p, r, o)
    {
      AcquireRegistry();
      activeTasks := activeTasks - {r.task};
      cancelledTasks := cancelledTasks - {r.task};
      ReleaseRegistry();
      taskLocks := taskLocks - {r.task};
      requests := requests[p := r.(pc := Done(o))];
    }

    method Cancel(t: Task) returns (reply: CancelReply)
      requires Valid()
      modifies this
      ensures Valid() && View() == Step(old(View()), Event.Cancel(t))
      ensures reply == ReplyTo(old(View()), t)
      ensures reply == AlreadyCompleted <==> t in old(published)
      ensures reply == Cancelling <==> t !in old(published) && t in old(activeTasks)
      ensures cancelledTasks == if reply == Cancelling then old(cancelledTasks) + {t} else old(cancelledTasks)
    {
      StepKeepsInv(c, View(), Event.Cancel(t));
      if t in published {
        return AlreadyCompleted;
      }
      AcquireRegistry();
      if t !in activeTasks {
        ReleaseRegistry();
        return NotRunning;
      }
      cancelledTasks := cancelledTasks + {t};
      ReleaseRegistry();
      return Cancelling;
    }

    /** The event loop: it resumes whichever coroutine the schedule names, if that one is ready. */
    method Serve(schedule: seq<Event>)
      requires Valid()
      modifies this
      ensures Valid() && View() == Run(old(View()), schedule)
      ensures Safe(c, View()) && !waited
    {
      for i := 0 to |schedule|
        invariant Valid() && View() == Run(old(View()), schedule[..i])
      {
        Dispatch(schedule[i]);
        assert schedule[..i + 1][..i] == schedule[..i];
      }
      assert schedule[..|schedule|] == schedule;
      InvIsSafe(c, View());
    }

    method Dispatch(e: Event)
      requires Valid()
      modifies this
      ensures Valid() && View() == Step(old(View()), e)
    {
      match e
      case Arrive(p, t, files, queued) =>
        if p !in requests { Arrive(p, t, files, queued); }
      case LockGranted(p) =>
        if p in requests && requests[p].pc == WaitLock && requests[p].task !in taskLocks { LockGranted(p); }
      case InputRead(p, valid, queued) =>
        if p in requests && requests[p].pc.Reading? { InputRead(p, valid, queued); }
      case SlotGranted(p) =>
        if p in requests && requests[p].pc == WaitSlot && freeSlots > 0 { SlotGranted(p); }
      case InferenceEnded(p, output, written) =>
        if p in requests && requests[p].pc == Inferring { InferenceEnded(p, output, written); }
      case Cancel(t) =>
        var _ := Cancel(t);
    }
  }
}

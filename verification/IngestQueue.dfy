/** The ingest queue, its workers and the two locks, as a state machine over every interleaving. */
module IngestQueue {
  /** Where a thread is, and what it holds. Workers and clients share one array of threads. */
  datatype Pc<T> =
    | Free
    | Reading(item: T)                    // enqueue, under the shared engine lock
    | Prepared(item: T)                   // enqueue, between the two locks
    | Pushing(item: T)                    // enqueue, under the queue lock
    | DrainLooking(max: nat)              // drain, under the queue lock
    | DrainCarrying(batch: seq<T>)        // drain, a batch in hand and no lock
    | DrainApplying(batch: seq<T>)        // drain, under the engine lock
    | ClosedFlag                          // close, the open flag is down, no lock
    | Stopping                            // close, stop is set, waiting for the workers
    | CloseEngine                         // close, under the engine lock
    | CloseBoth                           // close, under the engine lock and then the queue lock
    | HaltFlag                            // stop_workers, having seen the workers running, no lock
    | Halting                             // stop_workers, stop is set, waiting for the workers
    | Idle                                // worker, no lock
    | Looking                             // worker, under the queue lock
    | Carrying(batch: seq<T>)             // worker, a batch in hand and no lock
    | Applying(batch: seq<T>)             // worker, under the engine lock
    | Exited                              // worker

  datatype State<T> = State(
    workers: nat, bound: nat, maxBatch: nat,
    pcs: seq<Pc<T>>, queue: seq<T>,
    open: bool, frozen: bool, stop: bool, running: bool,
    queueHolder: int, engineHolder: int, readers: set<int>,
    // history: what enqueue accepted, what left the queue, what was applied, what was thrown away
    accepted: seq<T>, removed: seq<T>, applied: seq<T>, lost: seq<T>)

  const NOBODY: int := -1

  datatype Action<T> =
    | Enqueue(t: nat, item: T) | CheckOpen(t: nat) | LockToPush(t: nat) | Push(t: nat)
    | LockToDrain(t: nat, max: nat) | DrainTake(t: nat) | DrainLock(t: nat) | DrainApply(t: nat) | DrainDone(t: nat)
    | Close(t: nat) | Stop(t: nat) | Joined(t: nat) | CloseLockQueue(t: nat) | Clear(t: nat)
    | Freeze
    | Halt(t: nat) | HaltStop(t: nat) | HaltJoined(t: nat) | StartWorkers(t: nat)
    | LockToLook(t: nat) | Look(t: nat) | LockToApply(t: nat) | Apply(t: nat) | Done(t: nat)

  predicate EngineFree<T>(s: State<T>) {
    s.engineHolder == NOBODY && s.readers == {}
  }

  predicate AllExited<T>(s: State<T>) {
    forall w :: 0 <= w < s.workers && w < |s.pcs| ==> s.pcs[w].Exited?
  }

  /** Can this thread take this step now? Locks are granted only when free. */
  predicate Enabled<T>(s: State<T>, a: Action<T>) {
    if a.Freeze? then true
    else if a.t >= |s.pcs| then false
    else
      var pc := s.pcs[a.t];
      match a
      case Enqueue(_, _) => pc.Free? && s.engineHolder == NOBODY
      case CheckOpen(_) => pc.Reading?
      case LockToPush(_) => pc.Prepared? && s.queueHolder == NOBODY
      case Push(_) => pc.Pushing?
      case LockToDrain(_, _) => pc.Free? && s.queueHolder == NOBODY
      case DrainTake(_) => pc.DrainLooking?
      case DrainLock(_) => pc.DrainCarrying? && EngineFree(s)
      case DrainApply(_) => pc.DrainApplying? && pc.batch != []
      case DrainDone(_) => pc.DrainApplying? && pc.batch == []
      case Close(_) => pc.Free? && EngineFree(s)
      case Stop(_) => pc.ClosedFlag?
      case Joined(_) => pc.Stopping? && AllExited(s) && EngineFree(s)
      case CloseLockQueue(_) => pc.CloseEngine? && s.queueHolder == NOBODY
      case Clear(_) => pc.CloseBoth?
      case Halt(_) => pc.Free? && EngineFree(s)
      case HaltStop(_) => pc.HaltFlag?
      case HaltJoined(_) => pc.Halting? && AllExited(s)
      case StartWorkers(_) => pc.Free? && EngineFree(s)
      case LockToLook(_) => pc.Idle? && s.queueHolder == NOBODY
      case Look(_) => pc.Looking?
      case LockToApply(_) => pc.Carrying? && EngineFree(s)
      case Apply(_) => pc.Applying? && pc.batch != []
      case Done(_) => pc.Applying? && pc.batch == []
  }

  function Min(a: nat, b: nat): nat {
    if a < b then a else b
  }

  function At<T>(s: State<T>, t: nat, pc: Pc<T>): State<T>
    requires t < |s.pcs|
  {
    s.(pcs := s.pcs[t := pc])
  }

  function Take<T>(s: State<T>, n: nat): State<T>
    requires n <= |s.queue|
  {
    s.(queue := s.queue[n..], removed := s.removed + s.queue[..n], queueHolder := NOBODY)
  }

  /** Workers that have left the pool come back to it. */
  function Revived<T>(pcs: seq<Pc<T>>): seq<Pc<T>> {
    seq(|pcs|, i requires 0 <= i < |pcs| => if pcs[i].Exited? then Idle else pcs[i])
  }

  predicate ByProducer<T>(a: Action<T>) {
    a.Enqueue? || a.CheckOpen? || a.LockToPush? || a.Push?
  }

  predicate ByDrainer<T>(a: Action<T>) {
    a.LockToDrain? || a.DrainTake? || a.DrainLock? || a.DrainApply? || a.DrainDone?
  }

  predicate ByCloser<T>(a: Action<T>) {
    || a.Close? || a.Stop? || a.Joined? || a.CloseLockQueue? || a.Clear?
    || a.Halt? || a.HaltStop? || a.HaltJoined?
  }

  predicate ByWorker<T>(a: Action<T>) {
    a.LockToLook? || a.Look? || a.LockToApply? || a.Apply? || a.Done?
  }

  predicate ByCaller<T>(a: Action<T>) {
    ByProducer(a) || ByDrainer(a)
  }

  /** A step that is not one thread's own. */
  predicate MovesPool<T>(a: Action<T>) {
    a.Freeze? || a.StartWorkers?
  }

  function ProducerStep<T>(s: State<T>, a: Action<T>): (n: State<T>)
    requires Enabled(s, a) && ByProducer(a)
    ensures n.bound == s.bound && n.workers == s.workers && n.maxBatch == s.maxBatch && |n.pcs| == |s.pcs|
    ensures n.running == s.running
  {
    match a
    case Enqueue(t, item) => At(s, t, Reading(item)).(readers := s.readers + {t})
    case CheckOpen(t) =>
      At(s, t, if s.open && !s.frozen then Prepared(s.pcs[t].item) else Free).(readers := s.readers - {t})
    case LockToPush(t) => At(s, t, Pushing(s.pcs[t].item)).(queueHolder := t)
    case Push(t) =>
      var freed := At(s, t, Free).(queueHolder := NOBODY);
      if |s.queue| >= s.bound then freed
      else freed.(queue := s.queue + [s.pcs[t].item], accepted := s.accepted + [s.pcs[t].item])
  }

  function DrainerStep<T>(s: State<T>, a: Action<T>): (n: State<T>)
    requires Enabled(s, a) && ByDrainer(a)
    ensures n.bound == s.bound && n.workers == s.workers && n.maxBatch == s.maxBatch && |n.pcs| == |s.pcs|
    ensures n.running == s.running
  {
    match a
    case LockToDrain(t, max) => At(s, t, DrainLooking(max)).(queueHolder := t)
    case DrainTake(t) =>
      var n := Min(s.pcs[t].max, |s.queue|);
      At(Take(s, n), t, if n == 0 then Free else DrainCarrying(s.queue[..n]))
    case DrainLock(t) =>
      if s.open then At(s, t, DrainApplying(s.pcs[t].batch)).(engineHolder := t)
      else At(s, t, Free).(lost := s.lost + s.pcs[t].batch)
    case DrainApply(t) =>
      At(s, t, DrainApplying(s.pcs[t].batch[1..])).(applied := s.applied + [s.pcs[t].batch[0]])
    case DrainDone(t) => At(s, t, Free).(engineHolder := NOBODY)
  }

  function CloserStep<T>(s: State<T>, a: Action<T>): (n: State<T>)
    requires Enabled(s, a) && ByCloser(a)
    ensures n.bound == s.bound && n.workers == s.workers && n.maxBatch == s.maxBatch && |n.pcs| == |s.pcs|
  {
    match a
    case Close(t) => At(s, t, ClosedFlag).(open := false)
    case Stop(t) => At(s, t, Stopping).(stop := true)
    case Joined(t) => At(s, t, CloseEngine).(engineHolder := t, running := false)
    case CloseLockQueue(t) => At(s, t, CloseBoth).(queueHolder := t)
    case Clear(t) =>
      At(s, t, Free).(queue := [], removed := s.removed + s.queue, lost := s.lost + s.queue,
                      queueHolder := NOBODY, engineHolder := NOBODY)
    case Halt(t) => At(s, t, if s.running then HaltFlag else Free)
    case HaltStop(t) => At(s, t, Halting).(stop := true)
    case HaltJoined(t) => At(s, t, Free).(running := false)
  }

  function WorkerStep<T>(s: State<T>, a: Action<T>): (n: State<T>)
    requires Enabled(s, a) && ByWorker(a)
    ensures n.bound == s.bound && n.workers == s.workers && n.maxBatch == s.maxBatch && |n.pcs| == |s.pcs|
    ensures n.running == s.running
  {
    match a
    case LockToLook(t) => At(s, t, Looking).(queueHolder := t)
    case Look(t) =>
      if s.queue == [] then At(s, t, if s.stop then Exited else Idle).(queueHolder := NOBODY)
      else
        var n := Min(s.maxBatch, |s.queue|);
        At(Take(s, n), t, if n == 0 then Idle else Carrying(s.queue[..n]))
    case LockToApply(t) => At(s, t, Applying(s.pcs[t].batch)).(engineHolder := t)
    case Apply(t) => At(s, t, Applying(s.pcs[t].batch[1..])).(applied := s.applied + [s.pcs[t].batch[0]])
    case Done(t) => At(s, t, Idle).(engineHolder := NOBODY)
  }

  function PoolStep<T>(s: State<T>, a: Action<T>): (n: State<T>)
    requires Enabled(s, a) && MovesPool(a)
    ensures n.bound == s.bound && n.workers == s.workers && n.maxBatch == s.maxBatch && |n.pcs| == |s.pcs|
  {
    match a
    case Freeze => s.(frozen := true)
    case StartWorkers(t) =>
      if s.open && !s.running && s.workers > 0 then s.(pcs := Revived(s.pcs), stop := false, running := true) else s
  }

  function Step<T>(s: State<T>, a: Action<T>): (n: State<T>)
    requires Enabled(s, a)
    ensures n.bound == s.bound && n.workers == s.workers && n.maxBatch == s.maxBatch && |n.pcs| == |s.pcs|
  {
    if ByProducer(a) then ProducerStep(s, a)
    else if ByDrainer(a) then DrainerStep(s, a)
    else if ByCloser(a) then CloserStep(s, a)
    else if ByWorker(a) then WorkerStep(s, a)
    else PoolStep(s, a)
  }

  // ---- what every interleaving keeps -----------------------------------------------------------------

  predicate HoldsQueue<T>(pc: Pc<T>) {
    pc.Pushing? || pc.DrainLooking? || pc.Looking? || pc.CloseBoth?
  }

  predicate HoldsEngine<T>(pc: Pc<T>) {
    pc.DrainApplying? || pc.Applying? || pc.CloseEngine? || pc.CloseBoth?
  }

  predicate IsWorkerPc<T>(pc: Pc<T>) {
    pc.Idle? || pc.Looking? || pc.Carrying? || pc.Applying? || pc.Exited?
  }

  /** The batch a thread has taken and not yet applied. */
  function InHand<T>(pc: Pc<T>): seq<T> {
    match pc
    case DrainCarrying(b) => b
    case DrainApplying(b) => b
    case Carrying(b) => b
    case Applying(b) => b
    case _ => []
  }

  function InFlight<T>(pcs: seq<Pc<T>>): multiset<T> {
    if pcs == [] then multiset{} else InFlight(pcs[..|pcs| - 1]) + multiset(InHand(pcs[|pcs| - 1]))
  }

  /** Each lock is held exactly by the thread whose position says so. */
  ghost predicate LocksAgree<T>(s: State<T>) {
    && -1 <= s.queueHolder < |s.pcs| && -1 <= s.engineHolder < |s.pcs|
    && (forall t :: 0 <= t < |s.pcs| ==> (HoldsQueue(s.pcs[t]) <==> s.queueHolder == t))
    && (forall t :: 0 <= t < |s.pcs| ==> (HoldsEngine(s.pcs[t]) <==> s.engineHolder == t))
    && (forall t :: 0 <= t < |s.pcs| ==> (s.pcs[t].Reading? <==> t in s.readers))
    && (forall t :: t in s.readers ==> 0 <= t < |s.pcs|)
    && (s.engineHolder != NOBODY ==> s.readers == {})
  }

  ghost predicate Inv<T>(s: State<T>) {
    && s.workers <= |s.pcs| && 0 < s.maxBatch && |s.queue| <= s.bound
    && (forall t :: 0 <= t < |s.pcs| ==> (IsWorkerPc(s.pcs[t]) <==> t < s.workers))
    && LocksAgree(s)
    && s.accepted == s.removed + s.queue
    && multiset(s.removed) == InFlight(s.pcs) + multiset(s.applied) + multiset(s.lost)
    && (s.running || AllExited(s))
  }

  function Start<T>(workers: nat, clients: nat, bound: nat, maxBatch: nat): State<T> {
    State(workers, bound, maxBatch, seq(workers + clients, i => if i < workers then Idle else Free), [],
          true, false, false, workers > 0, NOBODY, NOBODY, {}, [], [], [], [])
  }

  lemma InFlightOnce<T>(pcs: seq<Pc<T>>)
    requires pcs != []
    ensures InFlight(pcs) == InFlight(pcs[..|pcs| - 1]) + multiset(InHand(pcs[|pcs| - 1]))
  {
  }

  lemma {:induction false} InFlightUpdate<T>(pcs: seq<Pc<T>>, t: nat, pc: Pc<T>)
    requires t < |pcs|
    ensures InFlight(pcs[t := pc]) + multiset(InHand(pcs[t])) == InFlight(pcs) + multiset(InHand(pc))
    decreases |pcs|
  {
    hide InHand, InFlight;
    var next, front := pcs[t := pc], pcs[..|pcs| - 1];
    var last := multiset(InHand(pcs[|pcs| - 1]));
    InFlightOnce(pcs);
    InFlightOnce(next);
    if t == |pcs| - 1 {
      assert next[..|next| - 1] == front;
    } else {
      assert next[..|next| - 1] == front[t := pc] && front[t] == pcs[t];
      InFlightUpdate(front, t, pc);
      AddLast(InFlight(front[t := pc]), multiset(InHand(pcs[t])), InFlight(front), multiset(InHand(pc)), last);
    }
  }

  lemma AddLast<T>(a: multiset<T>, b: multiset<T>, c: multiset<T>, d: multiset<T>, last: multiset<T>)
    requires a + b == c + d
    ensures (a + last) + b == (c + last) + d
  {
    assert (a + last) + b == (a + b) + last;
  }

  lemma {:induction false} InFlightNone<T>(pcs: seq<Pc<T>>)
    requires forall t :: 0 <= t < |pcs| ==> InHand(pcs[t]) == []
    ensures InFlight(pcs) == multiset{}
  {
    if pcs != [] {
      InFlightNone(pcs[..|pcs| - 1]);
    }
  }

  lemma StartLocks<T>(workers: nat, clients: nat, bound: nat, maxBatch: nat)
    ensures var s: State<T> := Start(workers, clients, bound, maxBatch);
            && LocksAgree(s)
            && (forall t :: 0 <= t < |s.pcs| ==> (IsWorkerPc(s.pcs[t]) <==> t < s.workers) && InHand(s.pcs[t]) == [])
  {
    var s: State<T> := Start(workers, clients, bound, maxBatch);
    forall t | 0 <= t < |s.pcs| ensures s.pcs[t] == if t < workers then Idle else Free {
    }
    hide Start;
  }

  lemma StartInv<T>(workers: nat, clients: nat, bound: nat, maxBatch: nat)
    requires 0 < maxBatch
    ensures Inv(Start<T>(workers, clients, bound, maxBatch))
  {
    StartLocks<T>(workers, clients, bound, maxBatch);
    hide LocksAgree, InHand, IsWorkerPc, InFlight;
    InFlightNone(Start<T>(workers, clients, bound, maxBatch).pcs);
  }

  /** A step moves one thread, and each lock follows that thread's position. */
  ghost predicate LockMove<T>(s: State<T>, n: State<T>, t: nat) {
    && t < |s.pcs| == |n.pcs| && n.pcs == s.pcs[t := n.pcs[t]]
    && n.queueHolder == (if HoldsQueue(n.pcs[t]) then t else if s.queueHolder == t then NOBODY else s.queueHolder)
    && n.engineHolder == (if HoldsEngine(n.pcs[t]) then t else if s.engineHolder == t then NOBODY else s.engineHolder)
    && n.readers == (if n.pcs[t].Reading? then s.readers + {t} else s.readers - {t})
    && (HoldsQueue(n.pcs[t]) ==> s.queueHolder == t || s.queueHolder == NOBODY)
    && (HoldsEngine(n.pcs[t]) ==> s.engineHolder == t || EngineFree(s))
    && (n.pcs[t].Reading? ==> s.engineHolder == NOBODY)
  }

  /** The locks a thread's position says it holds are the ones it holds. */
  predicate HoldsWhatItSays<T>(s: State<T>, t: nat) {
    && t < |s.pcs|
    && (HoldsQueue(s.pcs[t]) <==> s.queueHolder == t) && (HoldsEngine(s.pcs[t]) <==> s.engineHolder == t)
    && (s.pcs[t].Reading? <==> t in s.readers)
  }

  lemma ProducerMovesOne<T>(s: State<T>, a: Action<T>)
    requires Enabled(s, a) && ByProducer(a) && HoldsWhatItSays(s, a.t)
    ensures LockMove(s, Step(s, a), a.t) && (IsWorkerPc(Step(s, a).pcs[a.t]) <==> IsWorkerPc(s.pcs[a.t]))
  {
    hide AllExited, DrainerStep, CloserStep, WorkerStep, PoolStep;
  }

  lemma DrainerMovesOne<T>(s: State<T>, a: Action<T>)
    requires Enabled(s, a) && ByDrainer(a) && HoldsWhatItSays(s, a.t)
    ensures LockMove(s, Step(s, a), a.t) && (IsWorkerPc(Step(s, a).pcs[a.t]) <==> IsWorkerPc(s.pcs[a.t]))
  {
    hide AllExited, ProducerStep, CloserStep, WorkerStep, PoolStep;
  }

  lemma CloserMovesOne<T>(s: State<T>, a: Action<T>)
    requires Enabled(s, a) && ByCloser(a) && HoldsWhatItSays(s, a.t)
    ensures LockMove(s, Step(s, a), a.t) && (IsWorkerPc(Step(s, a).pcs[a.t]) <==> IsWorkerPc(s.pcs[a.t]))
  {
    hide AllExited, ProducerStep, DrainerStep, WorkerStep, PoolStep;
  }

  lemma LookMovesOne<T>(s: State<T>, t: nat)
    requires Enabled(s, Look(t)) && HoldsWhatItSays(s, t)
    ensures LockMove(s, Step(s, Look(t)), t) && (IsWorkerPc(Step(s, Look(t)).pcs[t]) <==> IsWorkerPc(s.pcs[t]))
  {
    hide AllExited, Min, EngineFree, ProducerStep, DrainerStep, CloserStep, PoolStep;
  }

  lemma WorkerMovesOne<T>(s: State<T>, a: Action<T>)
    requires Enabled(s, a) && ByWorker(a) && HoldsWhatItSays(s, a.t)
    ensures LockMove(s, Step(s, a), a.t) && (IsWorkerPc(Step(s, a).pcs[a.t]) <==> IsWorkerPc(s.pcs[a.t]))
  {
    hide AllExited, ProducerStep, DrainerStep, CloserStep, PoolStep, Min, Take;
    if a.Look? {
      hide Step, LockMove, Enabled;
      LookMovesOne(s, a.t);
    }
  }

  lemma StepMovesOne<T>(s: State<T>, a: Action<T>)
    requires Enabled(s, a) && !MovesPool(a) && HoldsWhatItSays(s, a.t)
    ensures LockMove(s, Step(s, a), a.t)
    ensures IsWorkerPc(Step(s, a).pcs[a.t]) <==> IsWorkerPc(s.pcs[a.t])
  {
    hide Step, LockMove, IsWorkerPc;
    if ByProducer(a) {
      ProducerMovesOne(s, a);
    } else if ByDrainer(a) {
      DrainerMovesOne(s, a);
    } else if ByCloser(a) {
      CloserMovesOne(s, a);
    } else {
      WorkerMovesOne(s, a);
    }
  }

  lemma MoveKeepsLocks<T>(s: State<T>, n: State<T>, t: nat)
    requires LocksAgree(s) && LockMove(s, n, t)
    ensures LocksAgree(n)
  {
    assert n.pcs[t].Reading? ==> !HoldsEngine(n.pcs[t]);
    hide HoldsQueue, HoldsEngine;
  }

  lemma TakeSplits<T>(queue: seq<T>, n: nat)
    requires n <= |queue|
    ensures queue == queue[..n] + queue[n..]
    ensures multiset(queue) == multiset(queue[..n]) + multiset(queue[n..])
  {
    assert queue == queue[..n] + queue[n..];
  }

  /** What left the queue against what was applied, lost or is in this thread's hands. */
  function Owed<T>(s: State<T>, t: nat): multiset<T>
    requires t < |s.pcs|
  {
    multiset(InHand(s.pcs[t])) + (multiset(s.applied) + multiset(s.lost))
  }

  /** A step that takes nothing out of the queue and finishes nothing. */
  predicate Quiet<T>(a: Action<T>) {
    !a.Look? && !a.DrainTake? && !a.Apply? && !a.DrainApply? && !a.Clear? && !a.DrainLock? && !MovesPool(a)
  }

  /** A quiet step appends what enqueue accepted, at most, and leaves the books alone. */
  ghost predicate StaysQuiet<T>(s: State<T>, n: State<T>, t: nat) {
    && t < |s.pcs| && t < |n.pcs|
    && n.removed == s.removed && n.applied == s.applied && n.lost == s.lost && InHand(n.pcs[t]) == InHand(s.pcs[t])
    && ((n.queue == s.queue && n.accepted == s.accepted)
        || (|s.queue| < s.bound && |n.queue| == |s.queue| + 1
            && n.queue == s.queue + [n.queue[|s.queue|]] && n.accepted == s.accepted + [n.queue[|s.queue|]]))
  }

  lemma QuietCaller<T>(s: State<T>, a: Action<T>)
    requires Enabled(s, a) && Quiet(a) && ByCaller(a)
    ensures StaysQuiet(s, Step(s, a), a.t)
  {
    hide AllExited, EngineFree;
  }

  lemma QuietOther<T>(s: State<T>, a: Action<T>)
    requires Enabled(s, a) && Quiet(a) && !ByCaller(a)
    ensures StaysQuiet(s, Step(s, a), a.t)
  {
    hide AllExited, EngineFree;
  }

  lemma QuietStep<T>(s: State<T>, a: Action<T>)
    requires Enabled(s, a) && Quiet(a)
    ensures StaysQuiet(s, Step(s, a), a.t)
  {
    hide Step, StaysQuiet;
    if ByCaller(a) {
      QuietCaller(s, a);
    } else {
      QuietOther(s, a);
    }
  }

  ghost predicate BooksMove<T>(s: State<T>, n: State<T>, t: nat)
    requires t < |s.pcs| && t < |n.pcs|
  {
    && |n.queue| <= |s.queue| && n.accepted == s.accepted
    && n.removed + n.queue == s.removed + s.queue
    && multiset(n.removed) + Owed(s, t) == multiset(s.removed) + Owed(n, t)
  }

  lemma TakeBalance<T>(removed: seq<T>, batch: seq<T>, d: multiset<T>)
    ensures multiset(removed + batch) + (multiset([]) + d) == multiset(removed) + (multiset(batch) + d)
  {
  }

  lemma ApplyBalance<T>(batch: seq<T>, applied: seq<T>, lost: seq<T>)
    requires batch != []
    ensures multiset(batch) + (multiset(applied) + multiset(lost))
         == multiset(batch[1..]) + (multiset(applied + [batch[0]]) + multiset(lost))
  {
    assert batch == [batch[0]] + batch[1..];
  }

  lemma LookFields<T>(s: State<T>, t: nat) returns (k: nat)
    requires Enabled(s, Look(t))
    ensures t < |s.pcs| && k <= |s.queue|
    ensures var n := Step(s, Look(t));
            && |n.pcs| == |s.pcs| && n.removed == s.removed + s.queue[..k] && n.queue == s.queue[k..]
            && InHand(n.pcs[t]) == s.queue[..k] && InHand(s.pcs[t]) == []
            && n.applied == s.applied && n.lost == s.lost && n.accepted == s.accepted
  {
    k := if s.queue == [] then 0 else Min(s.maxBatch, |s.queue|);
    assert s.queue == [] ==> s.queue[..0] == [] && s.removed + s.queue[..0] == s.removed && s.queue[0..] == s.queue;
  }

  lemma LookStep<T>(s: State<T>, t: nat)
    requires Enabled(s, Look(t))
    ensures t < |s.pcs| == |Step(s, Look(t)).pcs| && BooksMove(s, Step(s, Look(t)), t)
  {
    var k := LookFields(s, t);
    hide Step, Enabled, InHand;
    TakeSplits(s.queue, k);
    var n := Step(s, Look(t));
    assert s.removed + s.queue == n.removed + n.queue;
    TakeBalance(s.removed, s.queue[..k], multiset(s.applied) + multiset(s.lost));
  }

  lemma DrainTakeStep<T>(s: State<T>, t: nat)
    requires Enabled(s, DrainTake(t))
    ensures BooksMove(s, Step(s, DrainTake(t)), t)
  {
    var k := Min(s.pcs[t].max, |s.queue|);
    var n := Step(s, DrainTake(t));
    TakeSplits(s.queue, k);
    assert n.removed == s.removed + s.queue[..k] && n.queue == s.queue[k..];
    assert InHand(n.pcs[t]) == s.queue[..k] && InHand(s.pcs[t]) == [];
    assert s.removed + s.queue == n.removed + n.queue;
    assert n.applied == s.applied && n.lost == s.lost && n.accepted == s.accepted;
    hide Step, Enabled, InHand;
    TakeBalance(s.removed, s.queue[..k], multiset(s.applied) + multiset(s.lost));
  }

  lemma ApplyStep<T>(s: State<T>, t: nat)
    requires Enabled(s, Apply(t))
    ensures BooksMove(s, Step(s, Apply(t)), t)
  {
    var n := Step(s, Apply(t));
    var batch := s.pcs[t].batch;
    assert InHand(s.pcs[t]) == batch && InHand(n.pcs[t]) == batch[1..];
    assert n.applied == s.applied + [batch[0]] && n.lost == s.lost && n.removed == s.removed && n.queue == s.queue;
    hide Step, Enabled, InHand;
    ApplyBalance(batch, s.applied, s.lost);
  }

  lemma DrainApplyStep<T>(s: State<T>, t: nat)
    requires Enabled(s, DrainApply(t))
    ensures BooksMove(s, Step(s, DrainApply(t)), t)
  {
    var n := Step(s, DrainApply(t));
    var batch := s.pcs[t].batch;
    assert InHand(s.pcs[t]) == batch && InHand(n.pcs[t]) == batch[1..];
    assert n.applied == s.applied + [batch[0]] && n.lost == s.lost && n.removed == s.removed && n.queue == s.queue;
    hide Step, Enabled, InHand;
    ApplyBalance(batch, s.applied, s.lost);
  }

  lemma DrainLockStep<T>(s: State<T>, t: nat)
    requires Enabled(s, DrainLock(t))
    ensures BooksMove(s, Step(s, DrainLock(t)), t)
  {
  }

  lemma ClearStep<T>(s: State<T>, t: nat)
    requires Enabled(s, Clear(t))
    ensures BooksMove(s, Step(s, Clear(t)), t)
  {
  }

  lemma BusyStep<T>(s: State<T>, a: Action<T>)
    requires Enabled(s, a) && !Quiet(a) && !MovesPool(a)
    ensures a.t < |s.pcs| == |Step(s, a).pcs| && BooksMove(s, Step(s, a), a.t)
  {
    assert a.t < |s.pcs|;
    hide Enabled, Step, BooksMove;
    match a {
      case Look(t) => LookStep(s, t);
      case DrainTake(t) => DrainTakeStep(s, t);
      case Apply(t) => ApplyStep(s, t);
      case DrainApply(t) => DrainApplyStep(s, t);
      case DrainLock(t) => DrainLockStep(s, t);
      case Clear(t) => ClearStep(s, t);
    }
  }

  lemma Cancel<T>(x: multiset<T>, y: multiset<T>, z: multiset<T>)
    requires x + z == y + z
    ensures x == y
  {
    forall e ensures x[e] == y[e] {
      assert (x + z)[e] == (y + z)[e];
    }
  }

  lemma StepKeepsBooks<T>(s: State<T>, a: Action<T>)
    requires Inv(s) && Enabled(s, a) && !MovesPool(a) && LockMove(s, Step(s, a), a.t)
    ensures var n := Step(s, a);
            && |n.queue| <= n.bound
            && n.accepted == n.removed + n.queue
            && multiset(n.removed) == InFlight(n.pcs) + multiset(n.applied) + multiset(n.lost)
  {
    hide LocksAgree, InFlight, Enabled, Step, InHand, HoldsQueue, HoldsEngine, IsWorkerPc;
    var n := Step(s, a);
    InFlightUpdate(s.pcs, a.t, n.pcs[a.t]);
    if Quiet(a) {
      QuietStep(s, a);
      Cancel(InFlight(n.pcs), InFlight(s.pcs), multiset(InHand(s.pcs[a.t])));
    } else {
      BusyStep(s, a);
      BooksBalance(multiset(s.removed), multiset(n.removed), InFlight(s.pcs), InFlight(n.pcs),
                   multiset(InHand(s.pcs[a.t])), multiset(InHand(n.pcs[a.t])),
                   multiset(s.applied) + multiset(s.lost), multiset(n.applied) + multiset(n.lost));
    }
  }

  lemma BooksBalance<T>(r: multiset<T>, r': multiset<T>, f: multiset<T>, f': multiset<T>,
                        h: multiset<T>, h': multiset<T>, d: multiset<T>, d': multiset<T>)
    requires r == f + d && f' + h == f + h' && r' + (h + d) == r + (h' + d')
    ensures r' == f' + d'
  {
    forall e ensures r'[e] == (f' + d')[e] {
      assert (f' + h)[e] == (f + h')[e];
      assert (r' + (h + d))[e] == (r + (h' + d'))[e];
    }
  }

  /**
   * Safety in every interleaving: the queue is within its bound, both locks are held by whoever is inside
   * them, each accepted observation is in exactly one place — the queue, one batch, applied, or lost — and
   * whenever the pool counts as stopped all its workers have left, through any stops and restarts of it.
   */
  lemma StepKeepsInv<T>(s: State<T>, a: Action<T>)
    requires Inv(s) && Enabled(s, a)
    ensures Inv(Step(s, a))
  {
    assert !a.Freeze? ==> a.t < |s.pcs|;
    if MovesPool(a) {
      PoolMoves(s, a);
    } else {
      hide LocksAgree, InFlight, Step, Enabled, IsWorkerPc, HoldsQueue, HoldsEngine, EngineFree, HoldsWhatItSays, InHand, AllExited;
      HolderAt(s, a.t);
      StepMovesOne(s, a);
      MoveKeepsLocks(s, Step(s, a), a.t);
      WorkersStay(s, Step(s, a), a.t);
      PoolStays(s, a);
      hide LockMove;
      StepKeepsBooks(s, a);
    }
  }

  /** Freezing, and starting the workers again, move no evidence and no lock. */
  lemma PoolMoves<T>(s: State<T>, a: Action<T>)
    requires Inv(s) && Enabled(s, a) && MovesPool(a)
    ensures Inv(Step(s, a))
  {
    hide AllExited, EngineFree, LocksAgree, InFlight, IsWorkerPc, InHand;
    var n := Step(s, a);
    if a.StartWorkers? && s.open && !s.running && s.workers > 0 {
      assert n == s.(pcs := Revived(s.pcs), stop := false, running := true);
      RevivedAlike(s.pcs);
      RevivedLocks(s, n);
      hide Step, Enabled;
    } else {
      assert n == s.(frozen := n.frozen);
      hide Step, Enabled;
      FreezeKeepsLocks(s, n.frozen);
      SamePool(s, n);
    }
  }

  lemma SamePool<T>(s: State<T>, n: State<T>)
    requires n.pcs == s.pcs && n.workers == s.workers
    ensures AllExited(n) == AllExited(s)
  {
  }

  /** A worker back in the pool carries nothing, as when it left. */
  lemma {:induction false} RevivedAlike<T>(pcs: seq<Pc<T>>)
    ensures InFlight(Revived(pcs)) == InFlight(pcs)
    ensures forall t :: 0 <= t < |pcs| ==> IsWorkerPc(Revived(pcs)[t]) == IsWorkerPc(pcs[t])
  {
    if pcs != [] {
      var front, next := pcs[..|pcs| - 1], Revived(pcs);
      RevivedAlike(front);
      assert next[..|next| - 1] == Revived(front);
      assert InHand(next[|next| - 1]) == InHand(pcs[|pcs| - 1]);
      hide Revived, IsWorkerPc, InHand;
    }
    RevivedWorkers(pcs);
  }

  lemma RevivedWorkers<T>(pcs: seq<Pc<T>>)
    ensures forall t :: 0 <= t < |pcs| ==> IsWorkerPc(Revived(pcs)[t]) == IsWorkerPc(pcs[t])
  {
  }

  lemma RevivedLocks<T>(s: State<T>, n: State<T>)
    requires LocksAgree(s) && n == s.(pcs := Revived(s.pcs), stop := false, running := true)
    ensures LocksAgree(n)
  {
    forall t | 0 <= t < |s.pcs|
      ensures HoldsQueue(n.pcs[t]) == HoldsQueue(s.pcs[t]) && HoldsEngine(n.pcs[t]) == HoldsEngine(s.pcs[t])
      ensures n.pcs[t].Reading? == s.pcs[t].Reading?
    {
    }
    hide HoldsQueue, HoldsEngine, Revived;
  }

  /** The pool counts as stopped only once every worker has left it, and none comes back by itself. */
  lemma PoolStays<T>(s: State<T>, a: Action<T>)
    requires Enabled(s, a) && !MovesPool(a) && a.t < |s.pcs| && (s.running || AllExited(s))
    requires LockMove(s, Step(s, a), a.t) && Step(s, a).workers == s.workers
    requires forall t :: 0 <= t < |s.pcs| ==> (IsWorkerPc(s.pcs[t]) <==> t < s.workers)
    ensures Step(s, a).running || AllExited(Step(s, a))
  {
    var n := Step(s, a);
    ExitedStay(s, a);
    if !n.running {
      StoppedWhenExited(s, a);
      hide Step, Enabled, LockMove;
      forall w | 0 <= w < n.workers && w < |n.pcs| ensures n.pcs[w].Exited? {
        assert s.pcs[w].Exited? && IsWorkerPc(s.pcs[w]);
      }
    }
  }

  lemma StoppedWhenExited<T>(s: State<T>, a: Action<T>)
    requires Enabled(s, a) && !MovesPool(a) && (s.running || AllExited(s)) && !Step(s, a).running
    ensures AllExited(s)
  {
    hide ProducerStep, DrainerStep, WorkerStep, PoolStep, EngineFree;
    if s.running {
      assert a.Joined? || a.HaltJoined?;
    }
  }

  lemma ExitedStay<T>(s: State<T>, a: Action<T>)
    requires Enabled(s, a) && !MovesPool(a) && LockMove(s, Step(s, a), a.t)
    ensures forall t :: 0 <= t < |s.pcs| && s.pcs[t].Exited? ==> Step(s, a).pcs[t].Exited?
  {
    assert !s.pcs[a.t].Exited?;
    hide Step, AllExited, EngineFree;
  }

  lemma WorkersStay<T>(s: State<T>, n: State<T>, t: nat)
    requires LockMove(s, n, t) && (IsWorkerPc(n.pcs[t]) <==> IsWorkerPc(s.pcs[t]))
    requires forall u :: 0 <= u < |s.pcs| ==> (IsWorkerPc(s.pcs[u]) <==> u < s.workers)
    ensures |n.pcs| == |s.pcs| && forall u :: 0 <= u < |n.pcs| ==> (IsWorkerPc(n.pcs[u]) <==> u < s.workers)
  {
    hide IsWorkerPc;
  }

  lemma FreezeKeepsLocks<T>(s: State<T>, frozen: bool)
    requires LocksAgree(s)
    ensures LocksAgree(s.(frozen := frozen))
  {
  }

  lemma HolderAt<T>(s: State<T>, t: nat)
    requires LocksAgree(s) && t < |s.pcs|
    ensures HoldsWhatItSays(s, t)
  {
  }

  ghost predicate IsRun<T>(s: State<T>, actions: seq<Action<T>>, end: State<T>)
    decreases |actions|
  {
    if actions == [] then s == end
    else Enabled(s, actions[0]) && IsRun(Step(s, actions[0]), actions[1..], end)
  }

  lemma {:induction false} RunKeepsInv<T>(s: State<T>, actions: seq<Action<T>>, end: State<T>)
    requires Inv(s) && IsRun(s, actions, end)
    ensures Inv(end)
    decreases |actions|
  {
    if actions != [] {
      StepKeepsInv(s, actions[0]);
      hide Inv, Enabled, Step;
      RunKeepsInv(Step(s, actions[0]), actions[1..], end);
    }
  }

  /** Nobody ever asks for the engine lock while inside the queue lock. */
  lemma NoQueueThenEngine<T>(s: State<T>, a: Action<T>, t: nat)
    requires Inv(s) && Enabled(s, a) && t < |s.pcs| && s.queueHolder == t
    ensures var n := Step(s, a);
            && (n.engineHolder == t ==> s.engineHolder == t)
            && (t in n.readers ==> t in s.readers)
  {
    HolderAt(s, t);
    hide Inv, LocksAgree, InFlight, Step, Enabled, HoldsEngine;
    if MovesPool(a) {
      PoolMovesNoLock(s, a);
    } else if a.t == t {
      assert HoldsQueue(s.pcs[t]);
      hide HoldsQueue, MovesPool;
      InsideQueue(s, a);
    } else {
      HolderElsewhere(s, a);
      StepMovesOne(s, a);
      hide HoldsQueue, MovesPool;
    }
  }

  lemma PoolMovesNoLock<T>(s: State<T>, a: Action<T>)
    requires Enabled(s, a) && MovesPool(a)
    ensures Step(s, a).engineHolder == s.engineHolder && Step(s, a).readers == s.readers
  {
    hide AllExited, EngineFree, Revived;
  }

  lemma HolderElsewhere<T>(s: State<T>, a: Action<T>)
    requires Inv(s) && Enabled(s, a) && !MovesPool(a)
    ensures HoldsWhatItSays(s, a.t)
  {
    hide LocksAgree, InFlight, Step, InHand;
    assert a.t < |s.pcs|;
    HolderAt(s, a.t);
  }

  /** A thread inside the queue lock leaves it by its next step and takes nothing else. */
  lemma InsideQueue<T>(s: State<T>, a: Action<T>)
    requires Enabled(s, a) && !MovesPool(a) && a.t < |s.pcs| && HoldsQueue(s.pcs[a.t])
    ensures Step(s, a).queueHolder == NOBODY && Step(s, a).readers == s.readers
    ensures Step(s, a).engineHolder == s.engineHolder || Step(s, a).engineHolder == NOBODY
  {
    hide AllExited, EngineFree;
    assert a.Push? || a.DrainTake? || a.Look? || a.Clear?;
  }

  /** A thread inside the queue lock never waits: its next step is enabled whatever the others hold. */
  lemma QueueHolderNeverWaits<T>(s: State<T>)
    requires Inv(s) && s.queueHolder != NOBODY
    ensures exists a :: Enabled(s, a) && !a.Freeze? && a.t == s.queueHolder
  {
    var t := s.queueHolder;
    assert HoldsQueue(s.pcs[t]);
    match s.pcs[t] {
      case Pushing(_) => assert Enabled(s, Push(t));
      case DrainLooking(_) => assert Enabled(s, DrainTake(t));
      case Looking => assert Enabled(s, Look(t));
      case CloseBoth => assert Enabled(s, Clear(t));
    }
  }

  // ---- when the last worker leaves --------------------------------------------------------------------

  /** No client is between taking a batch out of the queue and finishing with it. */
  ghost predicate NoDrain<T>(s: State<T>) {
    forall t :: 0 <= t < |s.pcs| ==> !s.pcs[t].DrainCarrying? && !s.pcs[t].DrainApplying?
  }

  /**
   * When the last worker exits with no drain under way, everything accepted before that moment has been
   * applied or was already reported lost: nothing is queued and nothing is in flight.
   */
  lemma LastExitLeavesNothing<T>(s: State<T>, t: nat)
    requires Inv(s) && Enabled(s, Look(t)) && NoDrain(s) && s.workers > 0
    requires AllExited(Step(s, Look(t)))
    ensures var n := Step(s, Look(t));
            && n.queue == [] && s.stop
            && multiset(n.accepted) == multiset(n.applied) + multiset(n.lost)
  {
    var n := Step(s, Look(t));
    hide Step, Enabled, InFlight, LocksAgree, Inv;
    StepKeepsInv(s, Look(t));
    LookLeaves(s, t);
    EmptyHanded(s, n, t);
    BooksOf(n);
    assert n.removed + [] == n.removed;
  }

  lemma BooksOf<T>(s: State<T>)
    requires Inv(s) && forall u :: 0 <= u < |s.pcs| ==> InHand(s.pcs[u]) == []
    ensures s.accepted == s.removed + s.queue && multiset(s.removed) == multiset(s.applied) + multiset(s.lost)
  {
    InFlightNone(s.pcs);
    hide LocksAgree, InFlight, IsWorkerPc, InHand;
  }

  /** With every worker gone and no drain under way, nobody has anything in hand. */
  lemma EmptyHanded<T>(s: State<T>, n: State<T>, t: nat)
    requires Inv(s) && NoDrain(s) && AllExited(n) && t < n.workers == s.workers && t < |s.pcs| == |n.pcs|
    requires n.pcs == s.pcs[t := n.pcs[t]]
    ensures forall u :: 0 <= u < |n.pcs| ==> InHand(n.pcs[u]) == []
  {
    hide InFlight, LocksAgree;
    forall u | 0 <= u < |n.pcs| ensures InHand(n.pcs[u]) == [] {
      assert u < n.workers ==> n.pcs[u].Exited?;
      assert u >= n.workers ==> n.pcs[u] == s.pcs[u] && !IsWorkerPc(s.pcs[u]);
    }
  }

  lemma LookLeaves<T>(s: State<T>, t: nat)
    requires Inv(s) && Enabled(s, Look(t))
    ensures var n := Step(s, Look(t));
            && t < n.workers == s.workers && t < |s.pcs| == |n.pcs| && n.pcs == s.pcs[t := n.pcs[t]]
            && (n.pcs[t].Exited? ==> n.queue == [] && s.stop)
  {
    assert IsWorkerPc(s.pcs[t]);
  }

  // ---- exactly what can be lost -----------------------------------------------------------------------

  /** Close clears a queue that is not empty, or a batch drained earlier reaches the engine after close. */
  predicate Loses<T>(s: State<T>, a: Action<T>)
    requires Enabled(s, a)
  {
    || (a.Clear? && s.queue != [])
    || (a.DrainLock? && !s.open && s.pcs[a.t].batch != [])
  }

  lemma LostIff<T>(s: State<T>, a: Action<T>)
    requires Enabled(s, a)
    ensures Step(s, a).lost != s.lost <==> Loses(s, a)
    ensures |Step(s, a).lost| >= |s.lost| && (Step(s, a).lost != s.lost ==> |Step(s, a).lost| > |s.lost|)
  {
    hide AllExited, EngineFree;
    if a.Clear? {
      assert Step(s, a).lost == s.lost + s.queue;
    } else if a.DrainLock? {
      assert Step(s, a).lost == if s.open then s.lost else s.lost + s.pcs[a.t].batch;
    }
  }

  /** Somewhere along the run a step loses something. */
  ghost predicate LosesAlong<T>(s: State<T>, actions: seq<Action<T>>)
    decreases |actions|
  {
    && actions != [] && Enabled(s, actions[0])
    && (Loses(s, actions[0]) || LosesAlong(Step(s, actions[0]), actions[1..]))
  }

  /**
   * A run throws nothing away exactly when no close clears a queue that is not empty and no batch drained
   * earlier meets a closed engine.
   */
  lemma {:induction false} LostAlongIff<T>(s: State<T>, actions: seq<Action<T>>, end: State<T>)
    requires IsRun(s, actions, end)
    ensures |s.lost| <= |end.lost| && (|end.lost| == |s.lost| ==> end.lost == s.lost)
    ensures end.lost == s.lost <==> !LosesAlong(s, actions)
    decreases |actions|
  {
    if actions != [] {
      LostIff(s, actions[0]);
      hide Enabled, Step, Loses;
      LostAlongIff(Step(s, actions[0]), actions[1..], end);
    }
  }

  /** Nothing is queued and nobody has anything in hand. */
  ghost predicate Settled<T>(s: State<T>) {
    s.queue == [] && forall t :: 0 <= t < |s.pcs| ==> InHand(s.pcs[t]) == []
  }

  /**
   * Once everything has settled, whatever the interleaving and however often the workers were stopped and
   * started, each accepted observation has been applied exactly once if and only if no step lost any.
   */
  lemma AppliedIffNothingLost<T>(workers: nat, clients: nat, bound: nat, maxBatch: nat,
                                 actions: seq<Action<T>>, end: State<T>)
    requires 0 < maxBatch && IsRun(Start(workers, clients, bound, maxBatch), actions, end) && Settled(end)
    ensures multiset(end.accepted) == multiset(end.applied)
       <==> !LosesAlong(Start(workers, clients, bound, maxBatch), actions)
  {
    var s: State<T> := Start(workers, clients, bound, maxBatch);
    StartInv<T>(workers, clients, bound, maxBatch);
    RunKeepsInv(s, actions, end);
    LostAlongIff(s, actions, end);
    InFlightNone(end.pcs);
    assert end.removed + [] == end.removed;
    assert multiset(end.accepted) == multiset(end.applied) + multiset(end.lost);
    assert end.lost != [] ==> end.lost[0] in multiset(end.lost);
    assert |multiset(end.accepted)| == |multiset(end.applied)| + |multiset(end.lost)|;
    hide IsRun, LosesAlong, Inv, InFlight;
  }

  lemma RunOne<T>(s: State<T>, a: Action<T>, rest: seq<Action<T>>, end: State<T>)
    requires Enabled(s, a) && IsRun(Step(s, a), rest, end)
    ensures IsRun(s, [a] + rest, end)
  {
    hide Enabled, Step;
    assert ([a] + rest)[1..] == rest;
  }

  /**
   * An accepted observation can be lost: the producer passes the open check, close raises the stop flag and
   * joins the workers, the push is accepted, and the queue is cleared.
   */
  lemma AcceptedCanBeLost<T>(item: T) returns (run: seq<Action<T>>, end: State<T>)
    ensures IsRun(Start(0, 2, 1, 1), run, end)
    ensures end.accepted == [item] && end.applied == [] && end.lost == [item]
  {
    var middle: State<T> := Start(0, 2, 1, 1).(pcs := [Prepared(item), Stopping], open := false, stop := true);
    var first := LostFirstHalf(item, middle);
    var second;
    second, end := LostSecondHalf(item, middle);
    RunsJoin(Start(0, 2, 1, 1), first, middle, second, end);
    run := first + second;
  }

  lemma {:induction false} RunsJoin<T>(s: State<T>, a: seq<Action<T>>, m: State<T>, b: seq<Action<T>>, end: State<T>)
    requires IsRun(s, a, m) && IsRun(m, b, end)
    ensures IsRun(s, a + b, end)
    decreases |a|
  {
    hide Enabled, Step;
    if a == [] {
      assert a + b == b;
    } else {
      RunsJoin(Step(s, a[0]), a[1..], m, b, end);
      assert (a + b)[1..] == a[1..] + b;
    }
  }

  lemma LostFirstHalf<T>(item: T, middle: State<T>) returns (run: seq<Action<T>>)
    requires middle == Start(0, 2, 1, 1).(pcs := [Prepared(item), Stopping], open := false, stop := true)
    ensures IsRun(Start(0, 2, 1, 1), run, middle)
  {
    var s0: State<T> := Start(0, 2, 1, 1);
    assert s0.pcs == [Free, Free];
    var s1 := Step(s0, Enqueue(0, item));
    var s2 := Step(s1, CheckOpen(0));
    assert s2 == s0.(pcs := [Prepared(item), Free]);
    var s3 := Step(s2, Close(1));
    assert Step(s3, Stop(1)) == middle;
    hide IsRun, Step, Enabled;
    assert IsRun(middle, [], middle) by { NoRun(middle); }
    RunOne(s3, Stop(1), [], middle);
    run := [Stop(1)] + [];
    RunOne(s2, Close(1), run, middle);
    run := [Close(1)] + run;
    RunOne(s1, CheckOpen(0), run, middle);
    run := [CheckOpen(0)] + run;
    RunOne(s0, Enqueue(0, item), run, middle);
    run := [Enqueue(0, item)] + run;
  }

  lemma LostSecondHalf<T>(item: T, middle: State<T>) returns (run: seq<Action<T>>, end: State<T>)
    requires middle == Start(0, 2, 1, 1).(pcs := [Prepared(item), Stopping], open := false, stop := true)
    ensures IsRun(middle, run, end)
    ensures end.accepted == [item] && end.applied == [] && end.lost == [item]
  {
    var s5 := Step(middle, LockToPush(0));
    var s6 := Step(s5, Push(0));
    assert s6.pcs == [Free, Stopping] && s6.queue == [item];
    var s7 := Step(s6, Joined(1));
    var s8 := Step(s7, CloseLockQueue(1));
    end := Step(s8, Clear(1));
    hide IsRun, Step, Enabled;
    assert IsRun(end, [], end) by { NoRun(end); }
    RunOne(s8, Clear(1), [], end);
    run := [Clear(1)] + [];
    RunOne(s7, CloseLockQueue(1), run, end);
    run := [CloseLockQueue(1)] + run;
    RunOne(s6, Joined(1), run, end);
    run := [Joined(1)] + run;
    RunOne(s5, Push(0), run, end);
    run := [Push(0)] + run;
    RunOne(middle, LockToPush(0), run, end);
    run := [LockToPush(0)] + run;
  }

  lemma NoRun<T>(s: State<T>)
    ensures IsRun(s, [], s)
  {
  }
}

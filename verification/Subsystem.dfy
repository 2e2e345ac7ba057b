/** The subsystem task as a protocol: an event loop that takes calls from a
    channel, runs the mutating ones itself under the write lock and spawns a
    worker for each reading one, until it is told to shut down
    (subsystem/src/task.rs). No worker panics. */
module Subsystem {
  import opened Wrappers

  datatype Action = Mut(call: nat) | Ref(call: nat)

  /** A worker waits for the read lock, reads (having seen so many changes of
      the subsystem), lets the lock go, drops its reference to the subsystem
      and finishes, and is joined. */
  datatype Phase = Waiting | Reading(seen: nat) | Released | Finished | Joined

  /** `after` is the number of mutating calls ahead of this one in the channel. */
  datatype Worker = Worker(call: nat, after: nat, phase: Phase)

  /** Where the main loop is. It polls its four sources in order: the
      shutdown signal, the calls, the workers, the background work. */
  datatype Pc =
    | PollShutdown | PollCalls | PollWorkers | PollWork
    | MutWait(call: nat) | MutRun(call: nat)
    | WorkWait | WorkRun
    | Draining | Done | UnwrapFailed

  datatype State = State(
    submitted: seq<Action>,
    taken: nat,
    signalled: bool,
    takenAtSignal: nat,
    pc: Pc,
    workers: seq<Worker>,
    refs: int,
    readers: int,
    writer: bool,
    started: seq<nat>,
    completed: nat,
    changes: nat)

  /** The subsystem is set up and the main loop alone refers to it. */
  predicate Initial(s: State) {
    && s.submitted == [] && s.taken == 0 && !s.signalled && s.pc.PollShutdown?
    && s.workers == [] && s.refs == 1 && s.readers == 0 && !s.writer
    && s.started == [] && s.completed == 0 && s.changes == 0
  }

  datatype Event =
    | Submit(action: Action)
    | Signal
    | CheckShutdown
    | TakeCall
    | JoinWorker(w: nat)
    | NoneToJoin
    | CheckWork(has: bool)
    | LockWrite
    | EndWrite
    | ReadLock(w: nat)
    | ReadUnlock(w: nat)
    | Finish(w: nat)
    | Unwrap

  /** Steps of the callers, as opposed to the main loop and its workers. */
  predicate FromOutside(e: Event) {
    e.Submit? || e.Signal?
  }

  predicate Is(s: State, w: nat, phase: Phase) {
    w < |s.workers| && s.workers[w].phase == phase
  }

  predicate AllJoined(s: State) {
    forall w :: 0 <= w < |s.workers| ==> s.workers[w].phase == Joined
  }

  predicate NoneFinished(s: State) {
    forall w :: 0 <= w < |s.workers| ==> s.workers[w].phase != Finished
  }

  predicate Enabled(s: State, e: Event) {
    match e
    case Submit(_) => true
    case Signal => !s.signalled
    case CheckShutdown => s.pc.PollShutdown?
    case TakeCall => s.pc.PollCalls?
    case JoinWorker(w) => (s.pc.PollWorkers? || s.pc.Draining?) && Is(s, w, Finished)
    case NoneToJoin => s.pc.PollWorkers? && NoneFinished(s)
    case CheckWork(_) => s.pc.PollWork?
    case LockWrite => (s.pc.MutWait? || s.pc.WorkWait?) && s.readers == 0 && !s.writer
    case EndWrite => s.pc.MutRun? || s.pc.WorkRun?
    case ReadLock(w) => Is(s, w, Waiting) && !s.writer
    case ReadUnlock(w) => w < |s.workers| && s.workers[w].phase.Reading?
    case Finish(w) => Is(s, w, Released)
    case Unwrap => s.pc.Draining? && AllJoined(s)
  }

  function SetPhase(s: State, w: nat, phase: Phase): State
    requires w < |s.workers|
  {
    s.(workers := s.workers[w := s.workers[w].(phase := phase)])
  }

  /** Takes the next call, if there is one. */
  function Dispatch(s: State): State {
    if s.taken >= |s.submitted| then s.(pc := PollWorkers)
    else
      match s.submitted[s.taken]
      case Mut(call) => s.(taken := s.taken + 1, pc := MutWait(call))
      case Ref(call) =>
        s.(taken := s.taken + 1, pc := PollShutdown, refs := s.refs + 1,
           workers := s.workers + [Worker(call, |MutCalls(s.submitted[..s.taken])|, Waiting)])
  }

  function Step(s: State, e: Event): State
    requires Enabled(s, e)
  {
    match e
    case Submit(action) => s.(submitted := s.submitted + [action])
    case Signal => s.(signalled := true, takenAtSignal := s.taken)
    case CheckShutdown => s.(pc := if s.signalled then Draining else PollCalls)
    case TakeCall => Dispatch(s)
    case JoinWorker(w) => SetPhase(s, w, Joined).(pc := if s.pc.Draining? then Draining else PollShutdown)
    case NoneToJoin => s.(pc := PollWork)
    case CheckWork(has) => s.(pc := if has then WorkWait else PollShutdown)
    case LockWrite =>
      if s.pc.MutWait? then s.(pc := MutRun(s.pc.call), writer := true, started := s.started + [s.pc.call])
      else s.(pc := WorkRun, writer := true)
    case EndWrite =>
      s.(pc := PollShutdown, writer := false, changes := s.changes + 1,
         completed := if s.pc.MutRun? then s.completed + 1 else s.completed)
    case ReadLock(w) => SetPhase(s, w, Reading(s.changes)).(readers := s.readers + 1)
    case ReadUnlock(w) => SetPhase(s, w, Released).(readers := s.readers - 1)
    case Finish(w) => SetPhase(s, w, Finished).(refs := s.refs - 1)
    case Unwrap => s.(pc := if s.refs == 1 then Done else UnwrapFailed)
  }

  /** A run of events, each enabled in turn. */
  function Run(s: State, events: seq<Event>): Option<State>
    decreases |events|
  {
    if events == [] then Some(s)
    else if !Enabled(s, events[0]) then None
    else Run(Step(s, events[0]), events[1..])
  }

  // ---------- channel order ----------

  /** The mutating calls of a stretch of the channel, in order. */
  function MutCalls(actions: seq<Action>): seq<nat> {
    if actions == [] then []
    else
      var n := |actions| - 1;
      MutCalls(actions[..n]) + if actions[n].Mut? then [actions[n].call] else []
  }

  function RefCalls(actions: seq<Action>): seq<nat> {
    if actions == [] then []
    else
      var n := |actions| - 1;
      RefCalls(actions[..n]) + if actions[n].Ref? then [actions[n].call] else []
  }

  // ---------- the invariant ----------

  predicate IsLive(w: Worker) {
    !w.phase.Finished? && !w.phase.Joined?
  }

  function Live(workers: seq<Worker>): nat {
    if workers == [] then 0
    else Live(workers[..|workers| - 1]) + if IsLive(workers[|workers| - 1]) then 1 else 0
  }

  function ReadingNow(workers: seq<Worker>): nat {
    if workers == [] then 0
    else ReadingNow(workers[..|workers| - 1]) + if workers[|workers| - 1].phase.Reading? then 1 else 0
  }

  function CallsOf(workers: seq<Worker>): seq<nat> {
    if workers == [] then []
    else CallsOf(workers[..|workers| - 1]) + [workers[|workers| - 1].call]
  }

  /** One reference for the main loop and one for each live worker. */
  predicate RefsInv(s: State) {
    s.refs == 1 + Live(s.workers)
  }

  /** The lock is held by the main loop while it changes the subsystem, or by the
      workers that read. */
  predicate LockInv(s: State) {
    && s.readers == ReadingNow(s.workers)
    && (s.writer <==> s.pc.MutRun? || s.pc.WorkRun?)
    && (s.writer ==> s.readers == 0)
  }

  /** Calls taken and not begun. */
  function Pending(s: State): seq<nat> {
    if s.pc.MutWait? then [s.pc.call] else []
  }

  /** Calls begun and not completed. */
  function Begun(s: State): nat {
    if s.pc.MutRun? then 1 else 0
  }

  /** Mutating calls have begun in channel order, and reading ones have been
      given to workers in channel order. */
  predicate OrderInv(s: State) {
    && s.taken <= |s.submitted|
    && s.started + Pending(s) == MutCalls(s.submitted[..s.taken])
    && s.completed + Begun(s) == |s.started|
    && CallsOf(s.workers) == RefCalls(s.submitted[..s.taken])
  }

  /** A worker runs after the mutating calls ahead of it have completed, and
      nothing changes while it reads. */
  predicate ReadInv(s: State) {
    forall w :: 0 <= w < |s.workers| ==>
      && s.workers[w].after <= s.completed
      && (s.workers[w].phase.Reading? ==> s.workers[w].phase.seen == s.changes)
  }

  /** After the signal at most one more call is taken, and after the loop has
      taken the signal none is. */
  predicate ShutdownInv(s: State) {
    && (Stopped(s) ==> s.signalled)
    && (s.signalled ==> s.takenAtSignal <= s.taken <= s.takenAtSignal + 1)
    && (s.signalled && s.pc.PollCalls? ==> s.taken == s.takenAtSignal)
    && (s.pc.Done? ==> AllJoined(s))
  }

  predicate Stopped(s: State) {
    s.pc.Draining? || s.pc.Done? || s.pc.UnwrapFailed?
  }

  predicate Inv(s: State) {
    && RefsInv(s) && LockInv(s) && OrderInv(s) && ReadInv(s) && ShutdownInv(s)
    && !s.pc.UnwrapFailed?
  }

  // ---------- counting workers ----------

  function One(b: bool): nat {
    if b then 1 else 0
  }

  lemma {:induction false} PhaseCounted(ws: seq<Worker>, w: nat, x: Worker)
    requires w < |ws| && x.call == ws[w].call
    ensures Live(ws[w := x]) == Live(ws) - One(IsLive(ws[w])) + One(IsLive(x))
    ensures ReadingNow(ws[w := x]) == ReadingNow(ws) - One(ws[w].phase.Reading?) + One(x.phase.Reading?)
    ensures CallsOf(ws[w := x]) == CallsOf(ws)
    decreases |ws|
  {
    var n := |ws| - 1;
    if w < n {
      PhaseCounted(ws[..n], w, x);
      assert ws[w := x][..n] == ws[..n][w := x];
    } else {
      assert ws[w := x][..n] == ws[..n];
    }
  }

  lemma Appended(ws: seq<Worker>, x: Worker)
    ensures Live(ws + [x]) == Live(ws) + One(IsLive(x))
    ensures ReadingNow(ws + [x]) == ReadingNow(ws) + One(x.phase.Reading?)
    ensures CallsOf(ws + [x]) == CallsOf(ws) + [x.call]
  {
    assert (ws + [x])[..|ws|] == ws;
  }

  lemma {:induction false} SomeoneReads(ws: seq<Worker>) returns (w: nat)
    requires ReadingNow(ws) > 0
    ensures w < |ws| && ws[w].phase.Reading?
    decreases |ws|
  {
    var n := |ws| - 1;
    if ws[n].phase.Reading? { w := n; } else { w := SomeoneReads(ws[..n]); }
  }

  lemma {:induction false} ReaderCounted(ws: seq<Worker>, w: nat)
    requires w < |ws| && ws[w].phase.Reading?
    ensures ReadingNow(ws) > 0
    decreases |ws|
  {
    var n := |ws| - 1;
    if w < n { ReaderCounted(ws[..n], w); }
  }

  lemma {:induction false} JoinedNotLive(ws: seq<Worker>)
    requires forall w :: 0 <= w < |ws| ==> ws[w].phase == Joined
    ensures Live(ws) == 0
    decreases |ws|
  {
    if ws == [] {
    } else {
      JoinedNotLive(ws[..|ws| - 1]);
    }
  }

  lemma TakenOne(actions: seq<Action>, n: nat)
    requires n < |actions|
    ensures MutCalls(actions[..n + 1]) == MutCalls(actions[..n]) + if actions[n].Mut? then [actions[n].call] else []
    ensures RefCalls(actions[..n + 1]) == RefCalls(actions[..n]) + if actions[n].Ref? then [actions[n].call] else []
  {
    assert actions[..n + 1][..n] == actions[..n];
  }

  // ---------- every step keeps the invariant ----------

  lemma InitialHolds(s: State)
    requires Initial(s)
    ensures Inv(s)
  {
  }

  predicate WorkerEvent(e: Event) {
    e.JoinWorker? || e.ReadLock? || e.ReadUnlock? || e.Finish?
  }

  lemma WorkerStepCounts(s: State, e: Event)
    requires WorkerEvent(e) && Enabled(s, e)
    ensures RefsInv(s) ==> RefsInv(Step(s, e))
    ensures LockInv(s) ==> LockInv(Step(s, e))
    ensures OrderInv(s) ==> OrderInv(Step(s, e))
  {
    hide Live, ReadingNow, MutCalls, CallsOf, RefCalls;
    PhaseCounted(s.workers, e.w, Step(s, e).workers[e.w]);
  }

  lemma DispatchCounts(s: State)
    requires s.pc.PollCalls?
    ensures RefsInv(s) ==> RefsInv(Dispatch(s))
    ensures LockInv(s) ==> LockInv(Dispatch(s))
    ensures OrderInv(s) ==> OrderInv(Dispatch(s))
  {
    hide Live, ReadingNow, MutCalls, CallsOf, RefCalls;
    if s.taken < |s.submitted| {
      TakenOne(s.submitted, s.taken);
      if s.submitted[s.taken].Ref? { Appended(s.workers, Dispatch(s).workers[|s.workers|]); }
    }
  }

  lemma StepCounts(s: State, e: Event)
    requires RefsInv(s) && LockInv(s) && OrderInv(s) && Enabled(s, e)
    ensures RefsInv(Step(s, e)) && LockInv(Step(s, e)) && OrderInv(Step(s, e))
  {
    hide Live, ReadingNow, MutCalls, CallsOf, RefCalls, Dispatch, SetPhase;
    if WorkerEvent(e) {
      WorkerStepCounts(s, e);
    } else if e.TakeCall? {
      DispatchCounts(s);
    } else if e.Submit? {
      assert Step(s, e).submitted[..s.taken] == s.submitted[..s.taken];
    }
  }

  lemma StepKeepsReads(s: State, e: Event)
    requires LockInv(s) && OrderInv(s) && ReadInv(s) && Enabled(s, e)
    ensures ReadInv(Step(s, e))
  {
    hide ReadingNow, MutCalls, CallsOf, RefCalls;
    if e.EndWrite? {
      forall w | 0 <= w < |s.workers| ensures !s.workers[w].phase.Reading? {
        if s.workers[w].phase.Reading? { ReaderCounted(s.workers, w); }
      }
    }
  }

  lemma StepKeepsShutdown(s: State, e: Event)
    requires ShutdownInv(s) && OrderInv(s) && Enabled(s, e)
    ensures ShutdownInv(Step(s, e))
  {
    hide MutCalls, CallsOf, RefCalls;
  }

  lemma StepKeepsInv(s: State, e: Event)
    requires Inv(s) && Enabled(s, e)
    ensures Inv(Step(s, e))
  {
    hide MutCalls, CallsOf, RefCalls, RefsInv, LockInv, OrderInv, ReadInv, ShutdownInv;
    StepCounts(s, e);
    StepKeepsReads(s, e);
    StepKeepsShutdown(s, e);
    if e.Unwrap? { UnwrapsAlone(s); }
  }

  /** With every worker joined, the main loop holds the only reference. */
  lemma UnwrapsAlone(s: State)
    requires RefsInv(s) && AllJoined(s)
    ensures s.refs == 1
  {
    JoinedNotLive(s.workers);
  }

  lemma {:induction false} RunKeepsInv(s: State, events: seq<Event>)
    requires Inv(s) && Run(s, events).Some?
    ensures Inv(Run(s, events).value)
    decreases |events|
  {
    hide Inv, Enabled, Step;
    if events == [] {
    } else {
      StepKeepsInv(s, events[0]);
      RunKeepsInv(Step(s, events[0]), events[1..]);
    }
  }

  // ---------- what holds in every run ----------

  lemma ReachedHolds(s0: State, events: seq<Event>, s: State)
    requires Initial(s0) && Run(s0, events) == Some(s)
    ensures Inv(s)
  {
    hide Run, Inv;
    InitialHolds(s0);
    RunKeepsInv(s0, events);
  }

  /** In every interleaving, the references are the main loop's and the live
      workers', so that unwrapping never fails. */
  lemma UnwrapNeverFails(s0: State, events: seq<Event>, s: State)
    requires Initial(s0) && Run(s0, events) == Some(s)
    ensures s.refs == 1 + Live(s.workers)
    ensures !s.pc.UnwrapFailed?
    ensures Enabled(s, Unwrap) ==> s.refs == 1 && Step(s, Unwrap).pc == Done
  {
    hide Run, Live, LockInv, OrderInv, ReadInv, ShutdownInv;
    ReachedHolds(s0, events, s);
    if AllJoined(s) { UnwrapsAlone(s); }
  }

  /** In every interleaving, mutating calls begin in channel order, one at a
      time, and none runs while a worker reads; a worker reads one unchanging
      state, in which every mutating call ahead of it has completed. */
  lemma CallsAreOrderedAndApart(s0: State, events: seq<Event>, s: State)
    requires Initial(s0) && Run(s0, events) == Some(s)
    ensures s.started <= MutCalls(s.submitted)
    ensures CallsOf(s.workers) <= RefCalls(s.submitted)
    ensures s.completed <= |s.started| <= s.completed + 1
    ensures s.completed < |s.started| <==> s.pc.MutRun?
    ensures s.pc.MutRun? || s.pc.WorkRun? ==>
              forall w :: 0 <= w < |s.workers| ==> !s.workers[w].phase.Reading?
    ensures forall w :: 0 <= w < |s.workers| ==> s.workers[w].after <= s.completed
    ensures forall w :: 0 <= w < |s.workers| && s.workers[w].phase.Reading? ==>
                          s.workers[w].phase.seen == s.changes
  {
    hide Run, Live, ReadingNow, MutCalls, CallsOf, RefCalls, Initial;
    ReachedHolds(s0, events, s);
    CallsPrefix(s.submitted, s.taken);
    assert s.started <= MutCalls(s.submitted[..s.taken]);
    if s.writer {
      forall w | 0 <= w < |s.workers| ensures !s.workers[w].phase.Reading? {
        if s.workers[w].phase.Reading? { ReaderCounted(s.workers, w); }
      }
    }
  }

  lemma {:induction false} CallsPrefix(actions: seq<Action>, n: nat)
    requires n <= |actions|
    ensures MutCalls(actions[..n]) <= MutCalls(actions)
    ensures RefCalls(actions[..n]) <= RefCalls(actions)
    decreases |actions|
  {
    if n < |actions| {
      var m := |actions| - 1;
      CallsPrefix(actions[..m], n);
      assert actions[..m][..n] == actions[..n];
    } else {
      assert actions[..n] == actions;
    }
  }

  // ---------- what a reader has seen ----------

  /** The call at place `i` of the channel was given to the worker whose number
      is the number of reading calls ahead of it. */
  predicate SpawnedAt(s: State, i: nat)
    requires i < |s.submitted| && s.submitted[i].Ref?
  {
    var w := |RefCalls(s.submitted[..i])|;
    && w < |s.workers| && s.workers[w].call == s.submitted[i].call
    && s.workers[w].after == |MutCalls(s.submitted[..i])|
  }

  predicate SpawnInv(s: State) {
    forall i :: 0 <= i < s.taken && i < |s.submitted| && s.submitted[i].Ref? ==> SpawnedAt(s, i)
  }

  lemma {:induction false} CallsCounted(workers: seq<Worker>)
    ensures |CallsOf(workers)| == |workers|
  {
    if workers == [] {
    } else {
      CallsCounted(workers[..|workers| - 1]);
    }
  }

  lemma StepKeepsSpawned(s: State, e: Event, i: nat)
    requires OrderInv(s) && Enabled(s, e) && i < s.taken && s.submitted[i].Ref? && SpawnedAt(s, i)
    ensures i < |Step(s, e).submitted| && Step(s, e).submitted[i] == s.submitted[i] && SpawnedAt(Step(s, e), i)
  {
    hide MutCalls, RefCalls, CallsOf;
    assert Step(s, e).submitted[..i] == s.submitted[..i];
  }

  lemma StepKeepsSpawnInv(s: State, e: Event)
    requires OrderInv(s) && SpawnInv(s) && Enabled(s, e)
    ensures SpawnInv(Step(s, e))
  {
    hide MutCalls, RefCalls, CallsOf, SpawnedAt;
    var s' := Step(s, e);
    forall i | 0 <= i < s'.taken && i < |s'.submitted| && s'.submitted[i].Ref? ensures SpawnedAt(s', i) {
      if i < s.taken { StepKeepsSpawned(s, e, i); } else { SpawnsNext(s); }
    }
  }

  lemma SpawnsNext(s: State)
    requires OrderInv(s) && s.pc.PollCalls? && s.taken < |s.submitted| && s.submitted[s.taken].Ref?
    ensures SpawnedAt(Dispatch(s), s.taken)
  {
    hide MutCalls, RefCalls, CallsOf;
    CallsCounted(s.workers);
  }

  lemma {:induction false} RunKeepsSpawned(s: State, events: seq<Event>)
    requires Inv(s) && SpawnInv(s) && Run(s, events).Some?
    ensures SpawnInv(Run(s, events).value)
    decreases |events|
  {
    hide Enabled, Step, SpawnInv, RefsInv, LockInv, OrderInv, ReadInv, ShutdownInv;
    if events == [] {
    } else {
      StepKeepsInv(s, events[0]);
      StepKeepsSpawnInv(s, events[0]);
      RunKeepsSpawned(Step(s, events[0]), events[1..]);
    }
  }

  /** In every interleaving, a reading call that has been taken is with its own
      worker, and every mutating call ahead of it in the channel has begun, in
      order, and completed before the worker reads. */
  lemma ReadersComeAfterWrites(s0: State, events: seq<Event>, s: State, i: nat)
    requires Initial(s0) && Run(s0, events) == Some(s)
    requires i < s.taken && i < |s.submitted| && s.submitted[i].Ref?
    ensures var w := |RefCalls(s.submitted[..i])|;
            w < |s.workers| && s.workers[w].call == s.submitted[i].call
    ensures MutCalls(s.submitted[..i]) <= s.started
    ensures |MutCalls(s.submitted[..i])| <= s.completed
  {
    hide Run, MutCalls, RefCalls, CallsOf, Live, ReadingNow;
    InitialHolds(s0);
    RunKeepsSpawned(s0, events);
    ReachedHolds(s0, events, s);
    assert SpawnedAt(s, i);
    CallsPrefix(s.submitted[..s.taken], i);
    assert s.submitted[..s.taken][..i] == s.submitted[..i];
  }

  /** The loop polls its sources in order: it comes to the calls only without a
      signal, to the workers only without a call, and to the background work
      only without a finished worker. */
  lemma SourcesArePolledInOrder(s: State, e: Event)
    requires Enabled(s, e) && Step(s, e).pc != s.pc
    ensures Step(s, e).pc.PollCalls? ==> s.pc.PollShutdown? && !s.signalled
    ensures Step(s, e).pc.PollWorkers? ==> s.pc.PollCalls? && s.taken >= |s.submitted|
    ensures Step(s, e).pc.PollWork? ==> s.pc.PollWorkers? && NoneFinished(s)
    ensures Step(s, e).pc.WorkWait? ==> s.pc.PollWork? && e == CheckWork(true)
    ensures Step(s, e).pc.MutWait? ==>
              && s.pc.PollCalls? && s.taken < |s.submitted| && s.submitted[s.taken] == Mut(Step(s, e).pc.call)
  {
  }

  /** After the signal at most one call is taken. */
  lemma SignalStopsCalls(s0: State, events: seq<Event>, s: State)
    requires Initial(s0) && Run(s0, events) == Some(s)
    ensures s.signalled ==> s.takenAtSignal <= s.taken <= s.takenAtSignal + 1
    ensures Stopped(s) ==> s.signalled
  {
    hide Run, RefsInv, LockInv, OrderInv, ReadInv, Initial;
    ReachedHolds(s0, events, s);
  }

  /** Once the loop has taken the signal, no run from there on takes a call,
      begins one or spawns a worker. */
  lemma {:induction false} NoCallAfterShutdown(s: State, events: seq<Event>)
    requires Stopped(s) && Run(s, events).Some?
    ensures var s' := Run(s, events).value;
            && Stopped(s') && s'.taken == s.taken && s'.started == s.started
            && s'.changes == s.changes && |s'.workers| == |s.workers|
    decreases |events|
  {
    if events == [] {
    } else {
      NoCallAfterShutdown(Step(s, events[0]), events[1..]);
    }
  }

  // ---------- progress ----------

  /** The main loop and its workers are never stuck before the end. */
  lemma NeverStuck(s: State) returns (e: Event)
    requires Inv(s) && !s.pc.Done?
    ensures Enabled(s, e) && !FromOutside(e)
  {
    hide MutCalls, CallsOf, RefCalls, Live, ReadingNow;
    match s.pc
    case PollShutdown => e := CheckShutdown;
    case PollCalls => e := TakeCall;
    case PollWorkers =>
      if w :| 0 <= w < |s.workers| && s.workers[w].phase == Finished { e := JoinWorker(w); } else { e := NoneToJoin; }
    case PollWork => e := CheckWork(false);
    case MutWait(_) => e := WriteOrRead(s);
    case WorkWait => e := WriteOrRead(s);
    case MutRun(_) => e := EndWrite;
    case WorkRun => e := EndWrite;
    case Draining =>
      if w :| 0 <= w < |s.workers| && s.workers[w].phase != Joined { e := WorkerStep(s, w); } else { e := Unwrap; }
  }

  lemma WriteOrRead(s: State) returns (e: Event)
    requires LockInv(s) && (s.pc.MutWait? || s.pc.WorkWait?)
    ensures Enabled(s, e) && !FromOutside(e)
  {
    if s.readers == 0 {
      e := LockWrite;
    } else {
      var w := SomeoneReads(s.workers);
      e := ReadUnlock(w);
    }
  }

  lemma WorkerStep(s: State, w: nat) returns (e: Event)
    requires LockInv(s) && s.pc.Draining? && w < |s.workers| && s.workers[w].phase != Joined
    ensures Enabled(s, e) && !FromOutside(e)
  {
    e := match s.workers[w].phase
      case Waiting => ReadLock(w)
      case Reading(_) => ReadUnlock(w)
      case Released => Finish(w)
      case Finished => JoinWorker(w);
  }

  /** Steps a worker has left. */
  function StepsLeft(w: Worker): nat {
    match w.phase
    case Waiting => 4
    case Reading(_) => 3
    case Released => 2
    case Finished => 1
    case Joined => 0
  }

  function TotalLeft(ws: seq<Worker>): nat {
    if ws == [] then 0 else TotalLeft(ws[..|ws| - 1]) + StepsLeft(ws[|ws| - 1])
  }

  lemma {:induction false} LeftUpdated(ws: seq<Worker>, w: nat, x: Worker)
    requires w < |ws|
    ensures TotalLeft(ws[w := x]) == TotalLeft(ws) - StepsLeft(ws[w]) + StepsLeft(x)
    decreases |ws|
  {
    var n := |ws| - 1;
    if w < n {
      LeftUpdated(ws[..n], w, x);
      assert ws[w := x][..n] == ws[..n][w := x];
    } else {
      assert ws[w := x][..n] == ws[..n];
    }
  }

  /** Steps the main loop has left once the signal is sent. At worst it is
      about to look at the calls: it may find none, then no worker to join, then
      background work, for which it waits and which it does; or a mutating call;
      or a reading one, whose worker has its own steps ahead. */
  function LoopLeft(pc: Pc): nat {
    match pc
    case PollCalls => 7
    case PollWorkers => 6
    case PollWork => 5
    case MutWait(_) => 4
    case WorkWait => 4
    case MutRun(_) => 3
    case WorkRun => 3
    case PollShutdown => 2
    case Draining => 1
    case Done => 0
    case UnwrapFailed => 0
  }

  function StepsToEnd(s: State): nat {
    TotalLeft(s.workers) + LoopLeft(s.pc)
  }

  lemma {:induction false} TotalBounded(ws: seq<Worker>)
    ensures TotalLeft(ws) <= 4 * |ws|
    decreases |ws|
  {
    if ws == [] {
    } else {
      TotalBounded(ws[..|ws| - 1]);
    }
  }

  lemma LeftAppended(ws: seq<Worker>, x: Worker)
    ensures TotalLeft(ws + [x]) == TotalLeft(ws) + StepsLeft(x)
  {
    assert (ws + [x])[..|ws|] == ws;
  }

  /** After the signal every step of the main loop or a worker uses up at least
      one, and the callers add none. */
  lemma StopStep(s: State, e: Event)
    requires s.signalled && Enabled(s, e)
    ensures Step(s, e).signalled
    ensures FromOutside(e) ==> StepsToEnd(Step(s, e)) == StepsToEnd(s)
    ensures !FromOutside(e) ==> StepsToEnd(Step(s, e)) < StepsToEnd(s)
    ensures Stopped(s) ==> Stopped(Step(s, e)) && StepsToEnd(Step(s, e)) == StepsToEnd(s) - One(!FromOutside(e))
  {
    hide TotalLeft, MutCalls;
    if WorkerEvent(e) {
      LeftUpdated(s.workers, e.w, Step(s, e).workers[e.w]);
    } else if e.TakeCall? && s.taken < |s.submitted| && s.submitted[s.taken].Ref? {
      LeftAppended(s.workers, Step(s, e).workers[|s.workers|]);
    }
  }

  function Inside(events: seq<Event>): nat {
    if events == [] then 0 else One(!FromOutside(events[0])) + Inside(events[1..])
  }

  /** Shutdown completes: from the moment the signal is sent, whatever the
      callers do, the main loop and its workers make at most four steps for each
      worker there is and seven more; they can always go on until the subsystem
      is unwrapped; and once the loop has taken the signal, every run makes
      exactly as many steps as it leaves fewer to make. */
  lemma {:induction false} ShutdownCompletes(s: State, events: seq<Event>)
    requires Inv(s) && s.signalled && Run(s, events).Some?
    ensures var s' := Run(s, events).value;
            && Inside(events) + StepsToEnd(s') <= StepsToEnd(s) <= 4 * |s.workers| + 7
            && (s'.pc.Done? || exists e :: Enabled(s', e) && !FromOutside(e))
            && (Inside(events) == StepsToEnd(s) ==> s'.pc.Done?)
            && (Stopped(s) ==> Inside(events) == StepsToEnd(s) - StepsToEnd(s'))
    decreases |events|
  {
    hide Inv, Step, StepsToEnd, Enabled, Stopped;
    AtMost(s);
    if events == [] {
      if !s.pc.Done? { var e := NeverStuck(s); StopStep(s, e); }
    } else {
      StopStep(s, events[0]);
      StepKeepsInv(s, events[0]);
      ShutdownCompletes(Step(s, events[0]), events[1..]);
    }
  }

  lemma AtMost(s: State)
    ensures StepsToEnd(s) <= 4 * |s.workers| + 7
  {
    TotalBounded(s.workers);
  }

  // ---------- what is begun is done ----------

  predicate Writing(pc: Pc) {
    pc.MutWait? || pc.MutRun? || pc.WorkWait? || pc.WorkRun?
  }

  /** While a call or background work waits for the lock or runs, the main loop
      does nothing else: in any run from there it is still at it, with nothing
      changed, or it has made its change first. */
  lemma {:induction false} NothingElseMeanwhile(s: State, events: seq<Event>)
    requires Writing(s.pc) && Run(s, events).Some?
    ensures var s' := Run(s, events).value;
            || (Writing(s'.pc) && s'.changes == s.changes && s'.taken == s.taken && |s'.workers| == |s.workers|)
            || s'.changes > s.changes
    decreases |events|
  {
    hide MutCalls;
    if events == [] {
    } else {
      var s1 := Step(s, events[0]);
      if s1.changes > s.changes {
        ChangesGrow(s1, events[1..]);
      } else {
        NothingElseMeanwhile(s1, events[1..]);
      }
    }
  }

  lemma {:induction false} ChangesGrow(s: State, events: seq<Event>)
    requires Run(s, events).Some?
    ensures Run(s, events).value.changes >= s.changes
    decreases |events|
  {
    hide MutCalls;
    if events == [] {
    } else {
      ChangesGrow(Step(s, events[0]), events[1..]);
    }
  }

  /** And it can be done, without any caller: once the workers that read have
      let the lock go, it is taken, exactly one change is made, and the main
      loop polls again. */
  lemma {:induction false} WriteGetsDone(s: State) returns (events: seq<Event>)
    requires Inv(s) && (s.pc.MutWait? || s.pc.WorkWait?)
    ensures Run(s, events).Some? && |events| == s.readers + 2
    ensures forall i :: 0 <= i < |events| ==> !FromOutside(events[i])
    ensures var s' := Run(s, events).value;
            && s'.pc.PollShutdown? && s'.changes == s.changes + 1 && s'.taken == s.taken
            && s'.completed == s.completed + One(s.pc.MutWait?)
            && s'.started == s.started + Pending(s)
    decreases s.readers
  {
    hide MutCalls, CallsOf, RefCalls, Live, ReadingNow, RefsInv, OrderInv, ReadInv, ShutdownInv;
    if s.readers == 0 {
      events := [LockWrite, EndWrite];
      var s1 := Step(s, LockWrite);
      assert events[1..] == [EndWrite] && [EndWrite][1..] == [];
      assert Run(s1, [EndWrite]) == Some(Step(s1, EndWrite)) by {
        assert Run(Step(s1, EndWrite), []) == Some(Step(s1, EndWrite));
      }
    } else {
      var w := SomeoneReads(s.workers);
      var e := ReadUnlock(w);
      StepKeepsInv(s, e);
      var rest := WriteGetsDone(Step(s, e));
      events := [e] + rest;
      assert events[1..] == rest;
    }
  }

  /** Background work that is offered is done: the loop goes for the lock, and
      the work makes one change. */
  lemma OfferedWorkIsDone(s: State) returns (events: seq<Event>)
    requires Inv(s) && s.pc.PollWork?
    ensures Run(s, [CheckWork(true)] + events).Some?
    ensures forall i :: 0 <= i < |events| ==> !FromOutside(events[i])
    ensures var s' := Run(s, [CheckWork(true)] + events).value;
            s'.pc.PollShutdown? && s'.changes == s.changes + 1 && s'.started == s.started && s'.taken == s.taken
  {
    hide Inv, MutCalls;
    var e := CheckWork(true);
    StepKeepsInv(s, e);
    var s1 := Step(s, e);
    events := WriteGetsDone(s1);
    assert ([e] + events)[0] == e && ([e] + events)[1..] == events;
  }
}

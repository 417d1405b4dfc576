/** The runtime registry: interleavings of `get`, failed or cancelled `get`, and `close`. */
module Registry {
  import opened Entities

  datatype Key = Key(workspace: Uuid, schemaVersion: int, profile: Option<string>)

  type Runtime = nat

  datatype Owner = Get(task: nat) | Closer

  /** Where a call of `get` is: waiting for the lock, in the factory with the lock, or over. */
  datatype Getter =
    | Waiting(key: Key)
    | Creating(key: Key)
    | Returned(key: Key, runtime: Runtime)
    | Failed(key: Key)
    | Cancelled(key: Key)
    | Refused(key: Key)

  /** The shared shutdown task. `pending` are the `close` calls that have not returned. */
  datatype Shutdown = NotStarted | WaitingForLock | Closing(pending: set<Runtime>) | Finished

  /** The registry, its tasks, and two histories: the key of every runtime it ever retained, and
      every call of a runtime's `close`. */
  datatype State = State(
    runtimes: map<Key, Runtime>,
    holder: Option<Owner>,
    closing: bool,
    shutdown: Shutdown,
    tasks: map<nat, Getter>,
    keyOf: map<Runtime, Key>,
    closed: multiset<Runtime>)

  const EMPTY := State(map[], None, false, NotStarted, map[], map[], multiset{})

  /** What runs between two suspensions. */
  datatype Step =
    | Call(task: nat, key: Key)
    | Acquire(task: nat)
    | Created(task: nat, runtime: Runtime)
    | FactoryFailed(task: nat)
    | Cancel(task: nat)
    | Close
    | StartClosing
    | RuntimeClosed(runtime: Runtime)
    | FinishClosing

  predicate Enabled(s: State, step: Step) {
    match step
    case Call(t, _) => t !in s.tasks
    case Acquire(t) => t in s.tasks && s.tasks[t].Waiting? && s.holder == None
    case Created(t, r) => t in s.tasks && s.tasks[t].Creating? && r !in s.keyOf
    case FactoryFailed(t) => t in s.tasks && s.tasks[t].Creating?
    case Cancel(t) => t in s.tasks && (s.tasks[t].Waiting? || s.tasks[t].Creating?)
    case Close => true
    case StartClosing => s.shutdown.WaitingForLock? && s.holder == None
    case RuntimeClosed(r) => s.shutdown.Closing? && r in s.shutdown.pending
    case FinishClosing => s.shutdown.Closing? && s.shutdown.pending == {}
  }

  function Release(s: State, t: nat): Option<Owner> {
    if s.holder == Some(Get(t)) then None else s.holder
  }

  function Apply(s: State, step: Step): State
    requires Enabled(s, step)
  {
    match step
    case Call(t, key) =>
      s.(tasks := s.tasks[t := if s.closing then Refused(key) else Waiting(key)])
    case Acquire(t) =>
      var key := s.tasks[t].key;
      if s.closing then s.(tasks := s.tasks[t := Refused(key)])
      else if key in s.runtimes then s.(tasks := s.tasks[t := Returned(key, s.runtimes[key])])
      else s.(tasks := s.tasks[t := Creating(key)], holder := Some(Get(t)))
    case Created(t, r) =>
      var key := s.tasks[t].key;
      s.(runtimes := s.runtimes[key := r], keyOf := s.keyOf[r := key], tasks := s.tasks[t := Returned(key, r)],
         holder := Release(s, t))
    case FactoryFailed(t) => s.(tasks := s.tasks[t := Getter.Failed(s.tasks[t].key)], holder := Release(s, t))
    case Cancel(t) => s.(tasks := s.tasks[t := Getter.Cancelled(s.tasks[t].key)], holder := Release(s, t))
    case Close => if s.shutdown.NotStarted? then s.(closing := true, shutdown := WaitingForLock) else s
    case StartClosing =>
      var all := s.runtimes.Values;
      s.(runtimes := map[], closed := s.closed + multiset(all), shutdown := Closing(all), holder := Some(Closer))
    case RuntimeClosed(r) => s.(shutdown := Closing(s.shutdown.pending - {r}))
    case FinishClosing => s.(shutdown := Finished, holder := None)
  }

  ghost predicate Next(s: State, s': State) {
    exists step :: Enabled(s, step) && s' == Apply(s, step)
  }

  ghost predicate MovesAt(run: seq<State>, i: nat)
    requires 0 < i < |run|
  {
    Next(run[i - 1], run[i])
  }

  ghost predicate Behaviour(run: seq<State>) {
    run != [] && run[0] == EMPTY && forall i | 0 < i < |run| :: MovesAt(run, i)
  }

  // ----- the invariant

  /** The shutdown has taken the retained runtimes. */
  predicate Taken(s: State) { s.shutdown.Closing? || s.shutdown.Finished? }

  ghost predicate LockOk(s: State) {
    && (forall t :: s.holder == Some(Get(t)) <==> t in s.tasks && s.tasks[t].Creating?)
    && (s.holder == Some(Closer) <==> s.shutdown.Closing?)
    && (s.closing <==> !s.shutdown.NotStarted?)
  }

  /** Until the shutdown takes them, the map holds every runtime ever retained, one per key. */
  ghost predicate MapOk(s: State) {
    && (Taken(s) ==> s.runtimes == map[])
    && (!Taken(s) ==>
          && (forall k | k in s.runtimes :: s.runtimes[k] in s.keyOf && s.keyOf[s.runtimes[k]] == k)
          && (forall r | r in s.keyOf :: s.keyOf[r] in s.runtimes && s.runtimes[s.keyOf[r]] == r))
    && (forall r, r' | r in s.keyOf && r' in s.keyOf && s.keyOf[r] == s.keyOf[r'] :: r == r')
  }

  ghost predicate ClosedOk(s: State) {
    && (forall r :: s.closed[r] == if Taken(s) && r in s.keyOf then 1 else 0)
    && (s.shutdown.Closing? ==> s.shutdown.pending <= s.keyOf.Keys)
  }

  ghost predicate TasksOk(s: State) {
    && (forall t | t in s.tasks && s.tasks[t].Returned? ::
          s.tasks[t].runtime in s.keyOf && s.keyOf[s.tasks[t].runtime] == s.tasks[t].key)
    && (forall t | t in s.tasks && s.tasks[t].Creating? :: s.tasks[t].key !in s.runtimes && !Taken(s))
  }

  ghost predicate StateOk(s: State) {
    LockOk(s) && MapOk(s) && ClosedOk(s) && TasksOk(s)
  }

  lemma LockKept(s: State, step: Step)
    requires StateOk(s) && Enabled(s, step)
    ensures LockOk(Apply(s, step))
  {}

  lemma MapKept(s: State, step: Step)
    requires StateOk(s) && Enabled(s, step)
    ensures MapOk(Apply(s, step))
  {
    if step.Created? {
      assert s.holder == Some(Get(step.task));
      RetainedKept(s, step.task, step.runtime);
    } else if !step.StartClosing? {
      MapUntouched(s, step);
    }
  }

  lemma RetainedKept(s: State, t: nat, r: Runtime)
    requires MapOk(s) && !Taken(s) && t in s.tasks && r !in s.keyOf && s.tasks[t].key !in s.runtimes
    ensures
      var key := s.tasks[t].key;
      MapOk(s.(runtimes := s.runtimes[key := r], keyOf := s.keyOf[r := key]))
  {}

  /** Only making a runtime and taking them all change the map. */
  lemma MapUntouched(s: State, step: Step)
    requires Enabled(s, step) && !step.Created? && !step.StartClosing?
    ensures Apply(s, step).runtimes == s.runtimes && Apply(s, step).keyOf == s.keyOf
    ensures Taken(Apply(s, step)) <==> Taken(s)
  {}

  lemma ClosedKept(s: State, step: Step)
    requires StateOk(s) && Enabled(s, step)
    ensures ClosedOk(Apply(s, step))
  {
    if step.StartClosing? { RetainedValues(s); }
  }

  lemma RetainedValues(s: State)
    requires MapOk(s) && !Taken(s)
    ensures s.runtimes.Values == s.keyOf.Keys
  {
    forall r ensures r in s.runtimes.Values <==> r in s.keyOf {
      if r in s.keyOf { assert s.runtimes[s.keyOf[r]] == r; }
    }
  }

  lemma TasksKept(s: State, step: Step)
    requires StateOk(s) && Enabled(s, step)
    ensures TasksOk(Apply(s, step))
  {
    var s' := Apply(s, step);
    forall t | t in s'.tasks && s'.tasks[t].Creating? ensures s'.tasks[t].key !in s'.runtimes && !Taken(s') {
      CreatorKept(s, step, t);
    }
    forall t | t in s'.tasks && s'.tasks[t].Returned?
      ensures s'.tasks[t].runtime in s'.keyOf && s'.keyOf[s'.tasks[t].runtime] == s'.tasks[t].key
    {
      ReturnedKept(s, step, t);
    }
  }

  lemma CreatorKept(s: State, step: Step, t: nat)
    requires StateOk(s) && Enabled(s, step) && t in Apply(s, step).tasks && Apply(s, step).tasks[t].Creating?
    ensures Apply(s, step).tasks[t].key !in Apply(s, step).runtimes && !Taken(Apply(s, step))
  {
    if t in s.tasks && s.tasks[t].Creating? {
      assert s.holder == Some(Get(t));
      assert !step.StartClosing?;
    }
  }

  lemma ReturnedKept(s: State, step: Step, t: nat)
    requires StateOk(s) && Enabled(s, step) && t in Apply(s, step).tasks && Apply(s, step).tasks[t].Returned?
    ensures
      var s' := Apply(s, step);
      s'.tasks[t].runtime in s'.keyOf && s'.keyOf[s'.tasks[t].runtime] == s'.tasks[t].key
  {
    if t in s.tasks && s.tasks[t].Returned? { StepKeepsReturned(s, step, t); }
  }

  lemma {:induction false} AlwaysOk(run: seq<State>, i: nat)
    requires Behaviour(run) && i < |run|
    ensures StateOk(run[i])
  {
    if i > 0 {
      AlwaysOk(run, i - 1);
      assert MovesAt(run, i);
      var step :| Enabled(run[i - 1], step) && run[i] == Apply(run[i - 1], step);
      LockKept(run[i - 1], step);
      MapKept(run[i - 1], step);
      ClosedKept(run[i - 1], step);
      TasksKept(run[i - 1], step);
    }
  }

  // ----- what callers see

  lemma StepAt(run: seq<State>, j: nat) returns (step: Step)
    requires Behaviour(run) && 0 < j < |run|
    ensures StateOk(run[j - 1]) && Enabled(run[j - 1], step) && run[j] == Apply(run[j - 1], step)
  {
    AlwaysOk(run, j - 1);
    assert MovesAt(run, j);
    step :| Enabled(run[j - 1], step) && run[j] == Apply(run[j - 1], step);
  }

  lemma StepKeepsReturned(s: State, step: Step, t: nat)
    requires StateOk(s) && Enabled(s, step) && t in s.tasks && s.tasks[t].Returned?
    ensures t in Apply(s, step).tasks && Apply(s, step).tasks[t] == s.tasks[t]
    ensures s.keyOf.Keys <= Apply(s, step).keyOf.Keys && forall r | r in s.keyOf :: Apply(s, step).keyOf[r] == s.keyOf[r]
  {}

  lemma {:induction false} ReturnedForEver(run: seq<State>, i: nat, j: nat, t: nat)
    requires Behaviour(run) && i <= j < |run| && t in run[i].tasks && run[i].tasks[t].Returned?
    ensures t in run[j].tasks && run[j].tasks[t] == run[i].tasks[t]
  {
    if i < j {
      ReturnedForEver(run, i, j - 1, t);
      var step := StepAt(run, j);
      StepKeepsReturned(run[j - 1], step, t);
    }
  }

  /** Calls with equal keys that return, at any two moments, return the same runtime. */
  lemma OneRuntimePerKey(run: seq<State>, i: nat, j: nat, t: nat, t': nat)
    requires Behaviour(run) && i <= j < |run|
    requires t in run[i].tasks && run[i].tasks[t].Returned? && t' in run[j].tasks && run[j].tasks[t'].Returned?
    ensures run[i].tasks[t].key == run[j].tasks[t'].key <==> run[i].tasks[t].runtime == run[j].tasks[t'].runtime
  {
    ReturnedForEver(run, i, j, t);
    AlwaysOk(run, j);
  }

  /** No runtime is closed twice, none is closed before shutdown takes it, and once shutdown has
      finished every runtime ever retained has been closed exactly once. */
  lemma ClosedExactlyOnce(run: seq<State>, i: nat, r: Runtime)
    requires Behaviour(run) && i < |run|
    ensures run[i].closed[r] <= 1
    ensures run[i].closed[r] == 1 ==> r in run[i].keyOf && r !in run[i].runtimes.Values
    ensures run[i].shutdown.Finished? && r in run[i].keyOf ==> run[i].closed[r] == 1
    ensures r in run[i].runtimes.Values ==> run[i].closed[r] == 0 && r in run[i].keyOf
  {
    AlwaysOk(run, i);
  }

  lemma StepAfterFinish(s: State, step: Step, t: nat)
    requires StateOk(s) && Enabled(s, step) && s.shutdown.Finished?
    ensures Apply(s, step).shutdown.Finished? && Apply(s, step).runtimes == map[] && Apply(s, step).keyOf == s.keyOf
    ensures t in Apply(s, step).tasks && (t !in s.tasks || s.tasks[t].Waiting?) ==>
              Apply(s, step).tasks[t].Waiting? || Apply(s, step).tasks[t].Refused? || Apply(s, step).tasks[t].Cancelled?
    ensures t in Apply(s, step).tasks && t !in s.tasks ==> Apply(s, step).tasks[t].Refused?
  {}

  /** After shutdown the map stays empty, nothing more is retained, and a call that had not
      returned by then never returns a runtime. */
  lemma {:induction false} FinishedForEver(run: seq<State>, i: nat, j: nat, t: nat)
    requires Behaviour(run) && i <= j < |run| && run[i].shutdown.Finished?
    ensures run[j].shutdown.Finished? && run[j].runtimes == map[] && run[j].keyOf == run[i].keyOf
    ensures t in run[j].tasks && run[j].tasks[t].Returned? ==> t in run[i].tasks && run[i].tasks[t] == run[j].tasks[t]
    ensures t in run[j].tasks && t !in run[i].tasks ==> run[j].tasks[t].Refused?
  {
    AlwaysOk(run, i);
    if i < j {
      FinishedForEver(run, i, j - 1, t);
      var step := StepAt(run, j);
      StepAfterFinish(run[j - 1], step, t);
    }
  }

  /** How much of a shutdown is left; a retained runtime not yet closed counts once. */
  function ShutdownWork(s: State): nat {
    match s.shutdown
    case NotStarted => 0
    case WaitingForLock => |s.keyOf| + (if s.holder.Some? then 4 else 2)
    case Closing(pending) => |pending| + 1
    case Finished => 0
  }

  /** The ways in which the current holder's wait, or the shutdown's own, can end. */
  predicate Advances(s: State, step: Step) {
    match step
    case Created(t, _) => s.holder == Some(Get(t))
    case FactoryFailed(t) => s.holder == Some(Get(t))
    case Cancel(t) => s.holder == Some(Get(t))
    case StartClosing => true
    case RuntimeClosed(_) => true
    case FinishClosing => true
    case _ => false
  }

  /** A shutdown never blocks: until it has finished, some such step is enabled, and each of them
      brings it nearer. */
  lemma ShutdownCanProceed(s: State) returns (step: Step)
    requires StateOk(s) && s.closing && !s.shutdown.Finished?
    ensures Enabled(s, step) && Advances(s, step)
  {
    if s.shutdown.WaitingForLock? {
      step := if s.holder.Some? then FactoryFailed(s.holder.value.task) else StartClosing;
    } else if s.shutdown.pending == {} {
      step := FinishClosing;
    } else {
      var r := Pick(s.shutdown.pending);
      step := RuntimeClosed(r);
    }
  }

  lemma AdvancingShortens(s: State, step: Step)
    requires StateOk(s) && s.closing && Enabled(s, step) && Advances(s, step)
    ensures ShutdownWork(Apply(s, step)) < ShutdownWork(s)
  {
    if step.StartClosing? {
      RetainedValues(s);
    } else if step.Created? {
      CreationShortens(s, step.task, step.runtime);
    } else if step.RuntimeClosed? {
      assert Apply(s, step).shutdown.pending == s.shutdown.pending - {step.runtime};
    }
  }

  /** A factory that finishes adds a runtime to close and gives the lock back. */
  lemma CreationShortens(s: State, t: nat, r: Runtime)
    requires StateOk(s) && s.closing && Enabled(s, Created(t, r)) && s.holder == Some(Get(t))
    ensures ShutdownWork(Apply(s, Created(t, r))) < ShutdownWork(s)
  {
    assert Apply(s, Created(t, r)).keyOf.Keys == s.keyOf.Keys + {r};
  }

  // ----- the class

  /** The call of `get` whose step it is; the shutdown's own steps and `close` have none. */
  function TaskOf(step: Step): Option<nat> {
    match step
    case Call(t, _) => Some(t)
    case Acquire(t) => Some(t)
    case Created(t, _) => Some(t)
    case FactoryFailed(t) => Some(t)
    case Cancel(t) => Some(t)
    case _ => None
  }

  predicate OfShutdown(step: Step) { step.StartClosing? || step.RuntimeClosed? || step.FinishClosing? }

  lemma OthersKeepTask(s: State, step: Step, t: nat)
    requires Enabled(s, step) && TaskOf(step) != Some(t)
    ensures t in Apply(s, step).tasks <==> t in s.tasks
    ensures t in s.tasks ==> Apply(s, step).tasks[t] == s.tasks[t]
  {}

  lemma OthersKeepShutdown(s: State, step: Step)
    requires Enabled(s, step) && !OfShutdown(step) && !s.shutdown.NotStarted?
    ensures Apply(s, step).shutdown == s.shutdown && Apply(s, step).closing == s.closing
  {}

  lemma StaysStarted(s: State, step: Step)
    requires Enabled(s, step)
    ensures s.closing ==> Apply(s, step).closing
    ensures !s.shutdown.NotStarted? ==> !Apply(s, step).shutdown.NotStarted?
  {}

  /** Whether the caller of `get` waits for its result, or cancels it while it waits for the lock or
      for the factory. */
  datatype Caller = Stays | LeavesWaiting | LeavesCreating

  class LightRAGRuntimeRegistry {
    var runtimes: map<Key, Runtime>
    var holder: Option<Owner>      // the lifecycle lock
    var closing: bool
    var shutdown: Shutdown         // the shared close task
    var tasks: map<nat, Getter>
    var keyOf: map<Runtime, Key>
    var closed: multiset<Runtime>
    ghost var run: seq<State>

    constructor ()
      ensures Valid() && Now() == EMPTY
    {
      runtimes, holder, closing, shutdown := map[], None, false, NotStarted;
      tasks, keyOf, closed := map[], map[], multiset{};
      run := [EMPTY];
    }

    function Now(): State
      reads this
    {
      State(runtimes, holder, closing, shutdown, tasks, keyOf, closed)
    }

    ghost predicate Valid()
      reads this
    {
      Behaviour(run) && run[|run| - 1] == Now()
    }

    lemma Sound()
      requires Valid()
      ensures StateOk(Now())
    {
      AlwaysOk(run, |run| - 1);
    }

    ghost predicate After(before: State)
      reads this`run
    {
      Behaviour(run) && run[|run| - 1] == before
    }

    /** The code since `before` made exactly this step. */
    ghost method Record(before: State, step: Step)
      requires After(before) && Enabled(before, step) && Now() == Apply(before, step)
      modifies this`run
      ensures Valid() && run == old(run) + [Now()]
    {
      run := run + [Now()];
      assert Next(before, Now());
      forall i | 0 < i < |run| ensures MovesAt(run, i) {
        if i < |run| - 1 { assert MovesAt(old(run), i); }
      }
    }

    method Perform(step: Step)
      requires Valid() && Enabled(Now(), step)
      modifies this
      ensures Valid() && Now() == Apply(old(Now()), step) && run == old(run) + [Now()]
    {
      var s := Apply(Now(), step);
      runtimes, holder, closing, shutdown, tasks, keyOf, closed :=
        s.runtimes, s.holder, s.closing, s.shutdown, s.tasks, s.keyOf, s.closed;
      Record(old(Now()), step);
    }

    /** A suspension: any number of steps of other tasks. */
    method Suspend(t: Option<nat>, inShutdown: bool)
      requires Valid()
      modifies this
      ensures Valid() && old(run) <= run
      ensures t.Some? ==> (t.value in tasks <==> t.value in old(tasks))
      ensures t.Some? && t.value in tasks ==> tasks[t.value] == old(tasks[t.value])
      ensures inShutdown && !old(shutdown).NotStarted? ==> shutdown == old(shutdown) && closing == old(closing)
      ensures old(closing) ==> closing
      ensures !old(shutdown).NotStarted? ==> !shutdown.NotStarted?
    {
      var n: int := *;
      while n > 0
        invariant Valid() && old(run) <= run
        invariant t.Some? ==> (t.value in tasks <==> t.value in old(tasks))
        invariant t.Some? && t.value in tasks ==> tasks[t.value] == old(tasks[t.value])
        invariant inShutdown && !old(shutdown).NotStarted? ==> shutdown == old(shutdown) && closing == old(closing)
        invariant (old(closing) ==> closing) && (!old(shutdown).NotStarted? ==> !shutdown.NotStarted?)
      {
        n := n - 1;
        var step: Step := *;
        if Enabled(Now(), step) && (t.None? || TaskOf(step) != t) && !(inShutdown && OfShutdown(step)) {
          if t.Some? { OthersKeepTask(Now(), step, t.value); }
          if inShutdown && !shutdown.NotStarted? { OthersKeepShutdown(Now(), step); }
          StaysStarted(Now(), step);
          Perform(step);
        }
      }
    }

    /** What the last event of a call was: it was refused by a registry that is closing; it got the
        runtime that is retained for its key; it made one for a key that has none; its factory made
        none; or it was cancelled, or its wait for a lock that another task holds was cut off. */
    ghost predicate Answered(t: nat, key: Key, outcome: Getter, before: State, caller: Caller, made: Option<Runtime>) {
      match outcome
      case Refused(_) => before.closing
      case Returned(_, runtime) =>
        && !caller.LeavesWaiting?
        && if key in before.runtimes then runtime == before.runtimes[key] else caller.Stays? && made == Some(runtime)
      case Failed(_) => caller.Stays? && key !in before.runtimes && (made == None || made.value in before.keyOf)
      case Cancelled(_) =>
        && t in before.tasks
        && if before.tasks[t].Waiting? then caller.LeavesWaiting? || before.holder.Some? else caller.LeavesCreating?
      case _ => false
    }

    /** One call of `get`, as task `t`; `made` is what the factory would make. */
    method Get(t: nat, key: Key, caller: Caller, made: Option<Runtime>) returns (outcome: Getter)
      requires Valid() && t !in tasks
      modifies this
      ensures |run| > 1 && Answered(t, key, outcome, run[|run| - 2], caller, made)
      ensures Valid() && old(run) <= run && t in tasks && tasks[t] == outcome && outcome.key == key
      ensures !outcome.Waiting? && !outcome.Creating?
      ensures old(closing) ==> outcome.Refused?
    {
      if closing {
        outcome := Refused(key);
        tasks := tasks[t := outcome];
        Record(old(Now()), Call(t, key));
        return;
      }
      tasks := tasks[t := Waiting(key)];
      Record(old(Now()), Call(t, key));
      outcome := AwaitLock(t, key, caller, made);
    }

    /** `get` from the lock on; a wait that has not ended is cut off as a cancellation. */
    method AwaitLock(t: nat, key: Key, caller: Caller, made: Option<Runtime>) returns (outcome: Getter)
      requires Valid() && t in tasks && tasks[t] == Waiting(key)
      modifies this
      ensures |run| > 1 && Answered(t, key, outcome, run[|run| - 2], caller, made)
      ensures Valid() && old(run) <= run && t in tasks && tasks[t] == outcome && outcome.key == key
      ensures !outcome.Waiting? && !outcome.Creating?
    {
      Suspend(Some(t), false);
      Sound();
      ghost var before := Now();
      if caller.LeavesWaiting? || holder.Some? {
        outcome := Getter.Cancelled(key);
        tasks := tasks[t := outcome];
        Record(before, Cancel(t));
      } else {
        outcome := UnderLock(t, key, caller, made);
      }
    }

    /** `get` under the lock. */
    method UnderLock(t: nat, key: Key, caller: Caller, made: Option<Runtime>) returns (outcome: Getter)
      requires Valid() && t in tasks && tasks[t] == Waiting(key) && holder == None && !caller.LeavesWaiting?
      modifies this
      ensures |run| > 1 && Answered(t, key, outcome, run[|run| - 2], caller, made)
      ensures Valid() && old(run) <= run && t in tasks && tasks[t] == outcome && outcome.key == key
      ensures !outcome.Waiting? && !outcome.Creating?
      ensures old(closing) ==> outcome.Refused?
      ensures !old(closing) && key in old(runtimes) ==> outcome == Returned(key, old(runtimes)[key])
    {
      ghost var before := Now();
      if closing {
        outcome := Refused(key);
        tasks := tasks[t := outcome];
        Record(before, Acquire(t));
      } else if key in runtimes {
        outcome := Returned(key, runtimes[key]);
        tasks := tasks[t := outcome];
        Record(before, Acquire(t));
      } else {
        holder := Some(Owner.Get(t));
        tasks := tasks[t := Creating(key)];
        Record(before, Acquire(t));
        outcome := AwaitFactory(t, key, caller.LeavesCreating?, made);
      }
    }

    /** The rest of `get`, from the call of the factory on. Its last event releases the lock, and
        only a runtime that was made is retained. */
    method AwaitFactory(t: nat, key: Key, cancelled: bool, made: Option<Runtime>) returns (outcome: Getter)
      requires Valid() && t in tasks && tasks[t] == Creating(key)
      modifies this
      ensures |run| > 1 && Answered(t, key, outcome, run[|run| - 2], if cancelled then LeavesCreating else Stays, made)
      ensures Valid() && old(run) <= run && t in tasks && tasks[t] == outcome && outcome.key == key
      ensures outcome.Returned? || outcome.Failed? || outcome.Cancelled?
      ensures holder == None && |run| > 1 && EndsWith(key, outcome, run[|run| - 2])
    {
      Suspend(Some(t), false);
      Sound();
      if !cancelled && made.Some? && made.value !in keyOf {
        outcome := Retain(t, key, made.value);
      } else {
        outcome := GiveUp(t, key, cancelled);
      }
    }

    ghost predicate EndsWith(key: Key, outcome: Getter, before: State)
      reads this
    {
      if outcome.Returned?
      then outcome.runtime !in before.keyOf && runtimes == before.runtimes[key := outcome.runtime]
      else runtimes == before.runtimes && keyOf == before.keyOf
    }

    /** The factory made a runtime. */
    method Retain(t: nat, key: Key, made: Runtime) returns (outcome: Getter)
      requires Valid() && t in tasks && tasks[t] == Creating(key) && holder == Some(Owner.Get(t)) && made !in keyOf
      modifies this
      ensures Valid() && run == old(run) + [Now()] && t in tasks && tasks[t] == outcome && outcome == Returned(key, made)
      ensures holder == None && EndsWith(key, outcome, old(Now()))
    {
      ghost var before := Now();
      holder := None;
      runtimes := runtimes[key := made];
      keyOf := keyOf[made := key];
      outcome := Returned(key, made);
      tasks := tasks[t := outcome];
      Record(before, Created(t, made));
    }

    /** The factory failed, or the call was cancelled. */
    method GiveUp(t: nat, key: Key, cancelled: bool) returns (outcome: Getter)
      requires Valid() && t in tasks && tasks[t] == Creating(key) && holder == Some(Owner.Get(t))
      modifies this
      ensures Valid() && run == old(run) + [Now()] && t in tasks && tasks[t] == outcome && outcome.key == key
      ensures outcome == (if cancelled then Getter.Cancelled(key) else Getter.Failed(key)) && holder == None && EndsWith(key, outcome, old(Now()))
    {
      ghost var before := Now();
      holder := None;
      outcome := if cancelled then Getter.Cancelled(key) else Getter.Failed(key);
      tasks := tasks[t := outcome];
      Record(before, if cancelled then Cancel(t) else FactoryFailed(t));
    }

    /** One call of `close`; it reports whether it saw the shutdown finish. */
    method Close() returns (finished: bool)
      requires Valid()
      modifies this
      ensures Valid() && old(run) <= run && (finished ==> shutdown.Finished?)
      ensures closing && !shutdown.NotStarted?
    {
      Sound();
      if shutdown.NotStarted? {
        closing := true;
        shutdown := WaitingForLock;
        Record(old(Now()), Step.Close);
      }
      Suspend(None, false);
      finished := *;
      finished := finished && shutdown.Finished?;
    }

    /** The shared close task; it reports whether it got the lock. */
    method CloseAll() returns (done: bool)
      requires Valid() && shutdown.WaitingForLock?
      modifies this
      ensures Valid() && old(run) <= run
      ensures done ==> shutdown.Finished? && runtimes == map[] && holder == None
      ensures done ==> forall r | r in keyOf :: closed[r] == 1
    {
      Suspend(None, true);
      if holder.Some? {
        return false;
      }
      TakeRuntimes();
      GatherCloses();
      done := true;
    }

    /** Under the lock: take the retained runtimes and call each one's `close`. */
    method TakeRuntimes()
      requires Valid() && shutdown.WaitingForLock? && holder == None
      modifies this
      ensures Valid() && run == old(run) + [Now()]
      ensures runtimes == map[] && shutdown == Closing(old(runtimes).Values)
      ensures closed == old(closed) + multiset(old(runtimes).Values)
    {
      ghost var before := Now();
      var all := runtimes.Values;
      runtimes := map[];
      closed := closed + multiset(all);
      holder := Some(Closer);
      shutdown := Closing(all);
      Record(before, StartClosing);
    }

    /** `gather` of the runtimes' `close` calls, and the release of the lock. */
    method GatherCloses()
      requires Valid() && shutdown.Closing?
      modifies this
      ensures Valid() && old(run) <= run
      ensures shutdown.Finished? && runtimes == map[] && holder == None
      ensures forall r | r in keyOf :: closed[r] == 1
    {
      while shutdown.pending != {}
        invariant Valid() && old(run) <= run && shutdown.Closing?
        decreases shutdown.pending
      {
        Suspend(None, true);
        CloseOne();
      }
      Sound();
      ghost var before := Now();
      holder := None;
      shutdown := Finished;
      Record(before, FinishClosing);
    }

    method CloseOne()
      requires Valid() && shutdown.Closing? && shutdown.pending != {}
      modifies this
      ensures Valid() && run == old(run) + [Now()]
      ensures shutdown.Closing? && shutdown.pending < old(shutdown.pending)
    {
      ghost var some := Pick(shutdown.pending);
      var r: Runtime :| r in shutdown.pending;
      ghost var before := Now();
      shutdown := Closing(shutdown.pending - {r});
      Record(before, RuntimeClosed(r));
    }
  }
}

/** The step-chain runner: a task is a list of methods, run one queue job at a time; its caller waits on
    a promise that the runner settles through callbacks kept by task id. */
module StepChain {

  type Results = map<string, string>

  datatype Reason = InvalidMethod | NoWorker(taskMethod: string) | WorkerError(error: string) | Timeout

  datatype Verdict = Resolved(results: Results) | Rejected(reason: Reason)

  /** The data of a job. A missing method is the empty string. */
  datatype Config = Config(taskId: nat, taskMethod: string, steps: seq<string>, index: nat, results: Results)

  /** `workers` is the registry from methods to workers. The three maps lead from a task to the promise
      its caller waits on; a promise has the id of its task. `ended` records with which verdict the
      callbacks of a task were called, `settled` what its promise was settled with. */
  datatype Board = Board(
    workers: map<string, nat>,
    next: nat,
    taskPromises: map<nat, nat>, resolveCallbacks: map<nat, nat>, rejectCallbacks: map<nat, nat>,
    jobs: multiset<Config>,
    ended: map<nat, Verdict>, settled: map<nat, Verdict>)

  // ---- what the methods of the runner do ----

  function MethodAt(steps: seq<string>, i: nat): string {
    if i < |steps| then steps[i] else ""
  }

  /** A promise keeps the first verdict it is given. */
  function Settle(b: Board, promise: nat, v: Verdict): Board {
    if promise in b.settled then b else b.(settled := b.settled[promise := v])
  }

  function RemoveTaskPromise(b: Board, id: nat): Board {
    b.(taskPromises := b.taskPromises - {id}, resolveCallbacks := b.resolveCallbacks - {id},
       rejectCallbacks := b.rejectCallbacks - {id})
  }

  function Call(b: Board, callbacks: map<nat, nat>, id: nat, v: Verdict): Board {
    if id in callbacks then Settle(b.(ended := b.ended[id := v]), callbacks[id], v) else b
  }

  function ResolveTask(b: Board, id: nat, results: Results): Board {
    RemoveTaskPromise(Call(b, b.resolveCallbacks, id, Resolved(results)), id)
  }

  function RejectTask(b: Board, id: nat, reason: Reason): Board {
    RemoveTaskPromise(Call(b, b.rejectCallbacks, id, Rejected(reason)), id)
  }

  function InvokeTaskMethod(b: Board, cfg: Config): Board {
    if cfg.taskMethod == "" then RejectTask(b, cfg.taskId, InvalidMethod)
    else if cfg.taskMethod !in b.workers then RejectTask(b, cfg.taskId, NoWorker(cfg.taskMethod))
    else b.(jobs := b.jobs + multiset{cfg})
  }

  /** A new task with its promise and callbacks. */
  function Open(b: Board): Board {
    var id := b.next;
    b.(next := id + 1, taskPromises := b.taskPromises[id := id], resolveCallbacks := b.resolveCallbacks[id := id],
       rejectCallbacks := b.rejectCallbacks[id := id])
  }

  function DispatchTask(b: Board, steps: seq<string>): Board {
    InvokeTaskMethod(Open(b), Config(b.next, MethodAt(steps, 0), steps, 0, map[]))
  }

  function NextTaskStep(b: Board, cfg: Config, result: string): Board {
    var results := cfg.results[cfg.taskMethod := result];
    if cfg.index < |cfg.steps| - 1 then
      InvokeTaskMethod(b, cfg.(index := cfg.index + 1, taskMethod := MethodAt(cfg.steps, cfg.index + 1), results := results))
    else ResolveTask(b, cfg.taskId, results)
  }

  // ---- the runner as a state machine ----

  /** A task is dispatched, a job completes or fails, or an hour has passed since the dispatch. */
  datatype Action =
    | Dispatch(steps: seq<string>)
    | Complete(job: Config, result: string)
    | Fail(job: Config, error: string)
    | Expire(id: nat)

  predicate Enabled(b: Board, a: Action) {
    match a
    case Dispatch(_) => true
    case Complete(job, _) => job in b.jobs
    case Fail(job, _) => job in b.jobs
    case Expire(id) => id < b.next
  }

  function Next(b: Board, a: Action): Board
    requires Enabled(b, a)
  {
    match a
    case Dispatch(steps) => DispatchTask(b, steps)
    case Complete(job, result) => NextTaskStep(b.(jobs := b.jobs - multiset{job}), job, result)
    case Fail(job, error) => RejectTask(b.(jobs := b.jobs - multiset{job}), job.taskId, WorkerError(error))
    case Expire(id) => Settle(b, id, Rejected(Timeout))
  }

  predicate IsRun(b: Board, actions: seq<Action>)
    decreases |actions|
  {
    actions == [] || (Enabled(b, actions[0]) && IsRun(Next(b, actions[0]), actions[1..]))
  }

  function After(b: Board, actions: seq<Action>): Board
    requires IsRun(b, actions)
    decreases |actions|
  {
    if actions == [] then b else After(Next(b, actions[0]), actions[1..])
  }

  function Start(workers: map<string, nat>): Board {
    Board(workers, 0, map[], map[], map[], multiset{}, map[], map[])
  }

  // ---- the invariant ----

  predicate JobOk(workers: map<string, nat>, cfg: Config) {
    cfg.index < |cfg.steps| && cfg.taskMethod == cfg.steps[cfg.index] && cfg.taskMethod != "" && cfg.taskMethod in workers &&
    cfg.results.Keys == Methods(cfg.steps[..cfg.index])
  }

  function Methods(steps: seq<string>): set<string> {
    set m | m in steps
  }

  /** The three maps have the same keys: the tasks that are not over. The callbacks of a task lead to its
      own promise, and have been called exactly when the task is over. A promise is settled with the verdict
      of its task, or by the timeout. */
  ghost predicate MapsOk(b: Board) {
    b.taskPromises.Keys == b.resolveCallbacks.Keys == b.rejectCallbacks.Keys &&
    (forall id: nat :: id in b.resolveCallbacks ==> b.resolveCallbacks[id] == id) &&
    (forall id: nat :: id in b.rejectCallbacks ==> b.rejectCallbacks[id] == id) &&
    (forall id: nat :: id in b.taskPromises ==> id < b.next && id !in b.ended) &&
    (forall id: nat :: id in b.ended ==> id < b.next) &&
    (forall id: nat :: id in b.settled ==>
      id < b.next && (b.settled[id] == Rejected(Timeout) || (id in b.ended && b.settled[id] == b.ended[id]))) &&
    (forall id: nat :: id in b.ended ==> id in b.settled) &&
    (forall id: nat :: id < b.next ==> id in b.taskPromises || id in b.ended)
  }

  /** At most one job a task. */
  ghost predicate JobsOk(workers: map<string, nat>, jobs: multiset<Config>) {
    (forall cfg :: cfg in jobs ==> JobOk(workers, cfg) && jobs[cfg] == 1) &&
    (forall c, d :: c in jobs && d in jobs && c.taskId == d.taskId ==> c == d)
  }

  ghost predicate HasJob(jobs: multiset<Config>, id: nat) {
    exists cfg :: cfg in jobs && cfg.taskId == id
  }

  /** The tasks are those that have a job. */
  ghost predicate Staffed(tasks: set<nat>, jobs: multiset<Config>) {
    (forall id: nat :: id in tasks ==> HasJob(jobs, id)) && forall cfg :: cfg in jobs ==> cfg.taskId in tasks
  }

  /** A task that is not over has exactly one job, and one that is over has none. */
  ghost predicate BoardOk(b: Board) {
    MapsOk(b) && JobsOk(b.workers, b.jobs) && Staffed(b.taskPromises.Keys, b.jobs)
  }

  /** The same, but task id is between two jobs. */
  ghost predicate Between(b: Board, id: nat) {
    MapsOk(b) && JobsOk(b.workers, b.jobs) && id in b.taskPromises && Staffed(b.taskPromises.Keys - {id}, b.jobs)
  }

  lemma StartOk(workers: map<string, nat>)
    ensures BoardOk(Start(workers))
  {
  }

  lemma JobTaken(tasks: set<nat>, jobs: multiset<Config>, cfg: Config, workers: map<string, nat>)
    requires JobsOk(workers, jobs) && Staffed(tasks, jobs) && cfg in jobs
    ensures JobsOk(workers, jobs - multiset{cfg}) && Staffed(tasks - {cfg.taskId}, jobs - multiset{cfg})
  {
    var jobs' := jobs - multiset{cfg};
    forall id: nat | id in tasks && id != cfg.taskId ensures HasJob(jobs', id) {
      var c :| c in jobs && c.taskId == id;
      assert c in jobs';
    }
    forall c | c in jobs' ensures c in jobs && c.taskId != cfg.taskId { assert c in jobs; }
  }

  lemma JobAdded(tasks: set<nat>, jobs: multiset<Config>, cfg: Config, workers: map<string, nat>)
    requires JobsOk(workers, jobs) && Staffed(tasks - {cfg.taskId}, jobs) && cfg.taskId in tasks && JobOk(workers, cfg)
    ensures JobsOk(workers, jobs + multiset{cfg}) && Staffed(tasks, jobs + multiset{cfg})
  {
    var jobs' := jobs + multiset{cfg};
    assert cfg in jobs';
    assert forall c :: c in jobs' <==> c in jobs || c == cfg;
    forall id: nat | id in tasks ensures HasJob(jobs', id) {
      if id != cfg.taskId {
        assert id in tasks - {cfg.taskId};
        var c :| c in jobs && c.taskId == id;
        assert c in jobs';
      }
    }
  }

  lemma Without(m: map<nat, nat>, id: nat)
    ensures (m - {id}).Keys == m.Keys - {id}
    ensures forall x :: x in m && x != id ==> x in m - {id} && (m - {id})[x] == m[x]
  {
  }

  /** The tables after the callback of a task was called with v and the task was removed. */
  function Concluded(b: Board, id: nat, v: Verdict): Board {
    RemoveTaskPromise(Settle(b.(ended := b.ended[id := v]), id, v), id)
  }

  lemma Concludes(b: Board, id: nat, results: Results, reason: Reason)
    requires MapsOk(b) && id in b.taskPromises
    ensures ResolveTask(b, id, results) == Concluded(b, id, Resolved(results))
    ensures RejectTask(b, id, reason) == Concluded(b, id, Rejected(reason))
  {
    hide RemoveTaskPromise;
  }

  lemma MapsEnd(b: Board, id: nat, v: Verdict)
    requires MapsOk(b) && id in b.taskPromises
    ensures var b' := Concluded(b, id, v);
            MapsOk(b') && b'.jobs == b.jobs && b'.workers == b.workers && b'.taskPromises.Keys == b.taskPromises.Keys - {id}
  {
    var called := Settle(b.(ended := b.ended[id := v]), id, v);
    Called(b, id, v);
    Removed(called, id);
  }

  /** The callback of task id was called with v, and the task is still in the three maps. */
  ghost predicate Calling(b: Board, id: nat) {
    b.taskPromises.Keys == b.resolveCallbacks.Keys == b.rejectCallbacks.Keys && id in b.ended &&
    (forall x: nat :: x in b.resolveCallbacks ==> b.resolveCallbacks[x] == x) &&
    (forall x: nat :: x in b.rejectCallbacks ==> b.rejectCallbacks[x] == x) &&
    (forall x: nat :: x in b.taskPromises ==> x < b.next && (x != id ==> x !in b.ended)) &&
    (forall x: nat :: x in b.ended ==> x < b.next) &&
    (forall x: nat :: x in b.settled ==>
      x < b.next && (b.settled[x] == Rejected(Timeout) || (x in b.ended && b.settled[x] == b.ended[x]))) &&
    (forall x: nat :: x in b.ended ==> x in b.settled) &&
    (forall x: nat :: x < b.next ==> x in b.taskPromises || x in b.ended)
  }

  lemma Called(b: Board, id: nat, v: Verdict)
    requires MapsOk(b) && id in b.taskPromises
    ensures Calling(Settle(b.(ended := b.ended[id := v]), id, v), id)
  {
  }

  lemma Removed(b: Board, id: nat)
    requires Calling(b, id)
    ensures MapsOk(RemoveTaskPromise(b, id))
    ensures RemoveTaskPromise(b, id).taskPromises.Keys == b.taskPromises.Keys - {id}
  {
    Without(b.taskPromises, id);
    Without(b.resolveCallbacks, id);
    Without(b.rejectCallbacks, id);
  }

  lemma BetweenEnds(b: Board, id: nat, results: Results, reason: Reason)
    requires Between(b, id)
    ensures BoardOk(ResolveTask(b, id, results)) && BoardOk(RejectTask(b, id, reason))
  {
    hide MapsOk, JobsOk, Staffed, ResolveTask, RejectTask, Concluded;
    Concludes(b, id, results, reason);
    MapsEnd(b, id, Resolved(results));
    MapsEnd(b, id, Rejected(reason));
  }

  lemma BetweenInvokes(b: Board, cfg: Config)
    requires Between(b, cfg.taskId) && cfg.taskMethod == MethodAt(cfg.steps, cfg.index)
    requires cfg.index <= |cfg.steps| && cfg.results.Keys == Methods(cfg.steps[..cfg.index])
    ensures BoardOk(InvokeTaskMethod(b, cfg))
  {
    hide MapsOk, JobsOk, Staffed, RejectTask;
    BetweenEnds(b, cfg.taskId, map[], InvalidMethod);
    BetweenEnds(b, cfg.taskId, map[], NoWorker(cfg.taskMethod));
    if cfg.taskMethod != "" && cfg.taskMethod in b.workers {
      JobAdded(b.taskPromises.Keys, b.jobs, cfg, b.workers);
      SameMaps(b, b.jobs + multiset{cfg});
    }
  }

  lemma SameMaps(b: Board, jobs: multiset<Config>)
    requires MapsOk(b)
    ensures MapsOk(b.(jobs := jobs))
  {
  }

  lemma NextKeys(cfg: Config, workers: map<string, nat>, result: string)
    requires JobOk(workers, cfg)
    ensures cfg.results[cfg.taskMethod := result].Keys == Methods(cfg.steps[..cfg.index + 1])
  {
    assert cfg.steps[..cfg.index + 1] == cfg.steps[..cfg.index] + [cfg.steps[cfg.index]];
  }

  lemma Unused(b: Board)
    requires MapsOk(b)
    ensures b.next !in b.taskPromises && b.next !in b.ended
  {
  }

  lemma NewMaps(b: Board, started: Board)
    requires MapsOk(b)
    requires started == Open(b)
    ensures MapsOk(started)
  {
    Unused(b);
    assert started.taskPromises.Keys == b.taskPromises.Keys + {b.next};
    assert started.resolveCallbacks.Keys == b.resolveCallbacks.Keys + {b.next};
    assert started.rejectCallbacks.Keys == b.rejectCallbacks.Keys + {b.next};
  }

  lemma NewTask(b: Board, started: Board)
    requires BoardOk(b)
    requires started == Open(b)
    ensures Between(started, b.next)
  {
    hide JobsOk, Staffed;
    assert MapsOk(started) by { NewMaps(b, started); }
    assert b.next !in b.taskPromises by { Unused(b); }
    assert started.taskPromises.Keys - {b.next} == b.taskPromises.Keys;
  }

  lemma Taken(b: Board, job: Config)
    requires BoardOk(b) && job in b.jobs
    ensures Between(b.(jobs := b.jobs - multiset{job}), job.taskId) && JobOk(b.workers, job)
  {
    assert job.taskId in b.taskPromises && JobOk(b.workers, job);
    hide MapsOk, JobsOk, Staffed, JobOk;
    JobTaken(b.taskPromises.Keys, b.jobs, job, b.workers);
    SameMaps(b, b.jobs - multiset{job});
  }

  lemma DispatchOk(b: Board, steps: seq<string>)
    requires BoardOk(b)
    ensures BoardOk(DispatchTask(b, steps))
  {
    hide BoardOk, Between, InvokeTaskMethod, Open;
    NewTask(b, Open(b));
    assert steps[..0] == [];
    BetweenInvokes(Open(b), Config(b.next, MethodAt(steps, 0), steps, 0, map[]));
  }

  lemma NextStepOk(b: Board, job: Config, result: string)
    requires Between(b, job.taskId) && JobOk(b.workers, job)
    ensures BoardOk(NextTaskStep(b, job, result))
  {
    hide BoardOk, Between, InvokeTaskMethod, ResolveTask;
    var results := job.results[job.taskMethod := result];
    NextKeys(job, b.workers, result);
    BetweenEnds(b, job.taskId, results, InvalidMethod);
    if job.index < |job.steps| - 1 {
      BetweenInvokes(b, job.(index := job.index + 1, taskMethod := MethodAt(job.steps, job.index + 1), results := results));
    }
  }

  lemma ExpireOk(b: Board, id: nat)
    requires BoardOk(b) && id < b.next
    ensures BoardOk(Settle(b, id, Rejected(Timeout)))
  {
    hide JobsOk, Staffed;
  }

  lemma StepOk(b: Board, a: Action)
    requires BoardOk(b) && Enabled(b, a)
    ensures BoardOk(Next(b, a))
  {
    hide BoardOk, Between, JobOk, DispatchTask, NextTaskStep, RejectTask, Settle;
    match a
    case Dispatch(steps) => DispatchOk(b, steps);
    case Complete(job, result) =>
      Taken(b, job);
      NextStepOk(b.(jobs := b.jobs - multiset{job}), job, result);
    case Fail(job, error) =>
      Taken(b, job);
      BetweenEnds(b.(jobs := b.jobs - multiset{job}), job.taskId, map[], WorkerError(error));
    case Expire(id) => ExpireOk(b, id);
  }

  lemma {:induction false} RunOk(b: Board, actions: seq<Action>)
    requires BoardOk(b) && IsRun(b, actions)
    ensures BoardOk(After(b, actions))
    decreases |actions|
  {
    if actions != [] {
      hide BoardOk, Enabled, Next;
      StepOk(b, actions[0]);
      RunOk(Next(b, actions[0]), actions[1..]);
    }
  }

  // ---- the sequential run that a task stands for ----

  /** What the runner hears of a job. */
  datatype Outcome = Done(result: string) | Broke(error: string)

  /** How far a task is: the step that runs and the results so far, or its verdict. */
  datatype Progress = Running(index: nat, results: Results) | Over(verdict: Verdict)

  /** Step i begins if it names a method that has a worker. */
  function Begin(workers: map<string, nat>, steps: seq<string>, i: nat, results: Results): Progress {
    if MethodAt(steps, i) == "" then Over(Rejected(InvalidMethod))
    else if MethodAt(steps, i) !in workers then Over(Rejected(NoWorker(MethodAt(steps, i))))
    else Running(i, results)
  }

  function Proceed(workers: map<string, nat>, steps: seq<string>, p: Progress, o: Outcome): Progress {
    match p
    case Over(_) => p
    case Running(i, results) =>
      match o
      case Broke(error) => Over(Rejected(WorkerError(error)))
      case Done(result) =>
        var results' := results[MethodAt(steps, i) := result];
        if i < |steps| - 1 then Begin(workers, steps, i + 1, results') else Over(Resolved(results'))
  }

  /** The steps run one after the other, each with its outcome. */
  function Sequential(workers: map<string, nat>, steps: seq<string>, p: Progress, outcomes: seq<Outcome>): Progress
    decreases |outcomes|
  {
    if outcomes == [] then p
    else Sequential(workers, steps, Proceed(workers, steps, p, outcomes[0]), outcomes[1..])
  }

  /** The task that the action's job belongs to. */
  predicate Concerns(a: Action, id: nat) {
    (a.Complete? || a.Fail?) && a.job.taskId == id
  }

  /** The outcome, if any, that the action delivers to the task. */
  function OutcomeOf(a: Action, id: nat): seq<Outcome> {
    if !Concerns(a, id) then [] else if a.Complete? then [Done(a.result)] else [Broke(a.error)]
  }

  /** The outcomes that the run delivers to the jobs of the task, in order. */
  function OutcomesOf(actions: seq<Action>, id: nat): seq<Outcome> {
    if actions == [] then [] else OutcomeOf(actions[0], id) + OutcomesOf(actions[1..], id)
  }

  /** The board shows the progress p of the task. */
  ghost predicate Shows(b: Board, id: nat, steps: seq<string>, p: Progress) {
    match p
    case Running(i, results) =>
      id in b.taskPromises && Config(id, MethodAt(steps, i), steps, i, results) in b.jobs
    case Over(v) => id in b.ended && b.ended[id] == v
  }

  // ---- a task proceeds like its sequential run ----

  /** Nothing of task id is lost, and no settled promise changes. */
  ghost predicate Keeps(a: Board, b: Board, id: nat) {
    b.workers == a.workers && a.next <= b.next && (id in a.taskPromises ==> id in b.taskPromises) &&
    (forall cfg :: cfg in a.jobs && cfg.taskId == id ==> cfg in b.jobs) &&
    (id in a.ended ==> id in b.ended && b.ended[id] == a.ended[id]) &&
    (id in a.settled ==> id in b.settled && b.settled[id] == a.settled[id])
  }

  lemma KeepsTrans(a: Board, b: Board, c: Board, id: nat)
    requires Keeps(a, b, id) && Keeps(b, c, id)
    ensures Keeps(a, c, id)
  {
  }

  lemma CallKeeps(b: Board, callbacks: map<nat, nat>, x: nat, v: Verdict, id: nat)
    requires x != id
    ensures Keeps(b, Call(b, callbacks, x, v), id)
  {
  }

  lemma RemoveKeeps(b: Board, x: nat, id: nat)
    requires x != id
    ensures Keeps(b, RemoveTaskPromise(b, x), id)
  {
    Without(b.taskPromises, x);
  }

  lemma ResolveKeeps(b: Board, x: nat, results: Results, id: nat)
    requires x != id
    ensures Keeps(b, ResolveTask(b, x, results), id)
  {
    hide Keeps, Call, RemoveTaskPromise;
    var called := Call(b, b.resolveCallbacks, x, Resolved(results));
    CallKeeps(b, b.resolveCallbacks, x, Resolved(results), id);
    RemoveKeeps(called, x, id);
    KeepsTrans(b, called, RemoveTaskPromise(called, x), id);
  }

  lemma RejectKeeps(b: Board, x: nat, reason: Reason, id: nat)
    requires x != id
    ensures Keeps(b, RejectTask(b, x, reason), id)
  {
    hide Keeps, Call, RemoveTaskPromise;
    var called := Call(b, b.rejectCallbacks, x, Rejected(reason));
    CallKeeps(b, b.rejectCallbacks, x, Rejected(reason), id);
    RemoveKeeps(called, x, id);
    KeepsTrans(b, called, RemoveTaskPromise(called, x), id);
  }

  lemma AddKeeps(b: Board, cfg: Config, id: nat)
    ensures Keeps(b, b.(jobs := b.jobs + multiset{cfg}), id)
  {
  }

  lemma OthersKeep(b: Board, x: nat, results: Results, reason: Reason, cfg: Config, id: nat)
    requires x != id && cfg.taskId == x
    ensures Keeps(b, ResolveTask(b, x, results), id)
    ensures Keeps(b, RejectTask(b, x, reason), id)
    ensures Keeps(b, InvokeTaskMethod(b, cfg), id)
  {
    hide Keeps, ResolveTask, RejectTask;
    ResolveKeeps(b, x, results, id);
    RejectKeeps(b, x, reason, id);
    RejectKeeps(b, x, InvalidMethod, id);
    RejectKeeps(b, x, NoWorker(cfg.taskMethod), id);
    AddKeeps(b, cfg, id);
  }

  lemma TakenKeeps(b: Board, job: Config, id: nat)
    requires job.taskId != id
    ensures Keeps(b, b.(jobs := b.jobs - multiset{job}), id)
  {
  }

  lemma StartedKeeps(b: Board, id: nat)
    ensures Keeps(b, Open(b), id)
  {
  }

  lemma DispatchKeeps(b: Board, steps: seq<string>, id: nat)
    requires id < b.next
    ensures Keeps(b, DispatchTask(b, steps), id)
  {
    hide Keeps, InvokeTaskMethod, ResolveTask, RejectTask, Open;
    StartedKeeps(b, id);
    var cfg := Config(b.next, MethodAt(steps, 0), steps, 0, map[]);
    OthersKeep(Open(b), b.next, map[], InvalidMethod, cfg, id);
    KeepsTrans(b, Open(b), InvokeTaskMethod(Open(b), cfg), id);
  }

  lemma ElsewhereKeeps(b: Board, a: Action, id: nat)
    requires Enabled(b, a) && id < b.next && !Concerns(a, id)
    ensures Keeps(b, Next(b, a), id)
  {
    hide Keeps, InvokeTaskMethod, ResolveTask, RejectTask, DispatchTask;
    match a
    case Dispatch(steps) => DispatchKeeps(b, steps, id);
    case Complete(job, result) =>
      var taken := b.(jobs := b.jobs - multiset{job});
      var results := job.results[job.taskMethod := result];
      var cfg := job.(index := job.index + 1, taskMethod := MethodAt(job.steps, job.index + 1), results := results);
      TakenKeeps(b, job, id);
      OthersKeep(taken, job.taskId, results, InvalidMethod, cfg, id);
      KeepsTrans(b, taken, NextTaskStep(taken, job, result), id);
    case Fail(job, error) =>
      var taken := b.(jobs := b.jobs - multiset{job});
      TakenKeeps(b, job, id);
      OthersKeep(taken, job.taskId, map[], WorkerError(error), job, id);
      KeepsTrans(b, taken, RejectTask(taken, job.taskId, WorkerError(error)), id);
    case Expire(x) => ExpireKeeps(b, x, id);
  }

  lemma ExpireKeeps(b: Board, x: nat, id: nat)
    ensures Keeps(b, Settle(b, x, Rejected(Timeout)), id)
  {
  }

  /** Handing step i to a worker begins it. */
  lemma InvokeBegins(b: Board, id: nat, steps: seq<string>, i: nat, results: Results)
    requires Between(b, id)
    ensures Shows(InvokeTaskMethod(b, Config(id, MethodAt(steps, i), steps, i, results)), id, steps,
                  Begin(b.workers, steps, i, results))
  {
  }

  lemma OwnJob(b: Board, job: Config, steps: seq<string>, p: Progress)
    requires BoardOk(b) && job in b.jobs && Shows(b, job.taskId, steps, p)
    ensures p.Running? && job == Config(job.taskId, MethodAt(steps, p.index), steps, p.index, p.results)
    ensures p.index < |steps|
  {
    assert job.taskId in b.taskPromises;
    if p.Running? {
      var cfg := Config(job.taskId, MethodAt(steps, p.index), steps, p.index, p.results);
      assert cfg in b.jobs && JobOk(b.workers, cfg);
    }
  }

  lemma ConcludedShows(b: Board, id: nat, v: Verdict, steps: seq<string>)
    ensures Shows(Concluded(b, id, v), id, steps, Over(v))
  {
  }

  lemma HasMaps(b: Board, id: nat)
    requires Between(b, id)
    ensures MapsOk(b) && id in b.taskPromises
  {
  }

  lemma OwnCompletes(b: Board, job: Config, result: string)
    requires Between(b, job.taskId) && job.index < |job.steps| && job.taskMethod == MethodAt(job.steps, job.index)
    ensures Shows(NextTaskStep(b, job, result), job.taskId, job.steps,
                  Proceed(b.workers, job.steps, Running(job.index, job.results), Done(result)))
  {
    hide Between, MapsOk, Shows, InvokeTaskMethod, ResolveTask, Concluded, Begin;
    var results := job.results[job.taskMethod := result];
    HasMaps(b, job.taskId);
    InvokeBegins(b, job.taskId, job.steps, job.index + 1, results);
    Concludes(b, job.taskId, results, InvalidMethod);
    ConcludedShows(b, job.taskId, Resolved(results), job.steps);
  }

  lemma OwnFails(b: Board, job: Config, error: string)
    requires Between(b, job.taskId)
    ensures Shows(RejectTask(b, job.taskId, WorkerError(error)), job.taskId, job.steps, Over(Rejected(WorkerError(error))))
  {
    hide Between, MapsOk, Shows, RejectTask, Concluded;
    HasMaps(b, job.taskId);
    Concludes(b, job.taskId, map[], WorkerError(error));
    ConcludedShows(b, job.taskId, Rejected(WorkerError(error)), job.steps);
  }

  /** The outcome of the task's own job makes it proceed. */
  lemma OwnStep(b: Board, a: Action, id: nat, steps: seq<string>, p: Progress)
    requires BoardOk(b) && Enabled(b, a) && Concerns(a, id) && Shows(b, id, steps, p)
    ensures p.Running? && p.index < |steps|
    ensures Shows(Next(b, a), id, steps, Proceed(b.workers, steps, p, if a.Complete? then Done(a.result) else Broke(a.error)))
  {
    hide BoardOk, Between, JobOk, Shows, NextTaskStep, RejectTask;
    OwnJob(b, a.job, steps, p);
    Taken(b, a.job);
    var taken := b.(jobs := b.jobs - multiset{a.job});
    match a
    case Complete(job, result) => OwnCompletes(taken, job, result);
    case Fail(job, error) => OwnFails(taken, job, error);
  }

  lemma KeepsShowing(a: Board, b: Board, id: nat, steps: seq<string>, p: Progress)
    requires Keeps(a, b, id) && Shows(a, id, steps, p)
    ensures Shows(b, id, steps, p)
  {
  }

  /** What the outcomes delivered so far say about the progress: the methods that ran are a prefix of the
      steps, all of them on success, and the results are those of the completed methods. */
  predicate Fits(workers: map<string, nat>, steps: seq<string>, outcomes: seq<Outcome>, p: Progress) {
    |outcomes| <= |steps| &&
    (forall k :: 0 <= k < |outcomes| - 1 ==> outcomes[k].Done?) &&
    match p
    case Running(i, results) => i == |outcomes| < |steps| && AllDone(outcomes) && results == Collected(steps, outcomes)
    case Over(Resolved(results)) => |outcomes| == |steps| && AllDone(outcomes) && results == Collected(steps, outcomes)
    case Over(Rejected(WorkerError(e))) => outcomes != [] && outcomes[|outcomes| - 1] == Broke(e)
    case Over(Rejected(NoWorker(m))) =>
      AllDone(outcomes) && |outcomes| < |steps| && m == steps[|outcomes|] && m !in workers
    case Over(Rejected(InvalidMethod)) => AllDone(outcomes) && MethodAt(steps, |outcomes|) == ""
    case Over(Rejected(Timeout)) => false
  }

  predicate AllDone(outcomes: seq<Outcome>) {
    forall k :: 0 <= k < |outcomes| ==> outcomes[k].Done?
  }

  /** The result of the last completion of every method. */
  function Collected(steps: seq<string>, outcomes: seq<Outcome>): Results
    requires |outcomes| <= |steps| && AllDone(outcomes)
  {
    if outcomes == [] then map[]
    else Collected(steps, outcomes[..|outcomes| - 1])[steps[|outcomes| - 1] := outcomes[|outcomes| - 1].result]
  }

  lemma BeginFits(workers: map<string, nat>, steps: seq<string>)
    ensures Fits(workers, steps, [], Begin(workers, steps, 0, map[]))
  {
  }

  lemma ProceedFits(workers: map<string, nat>, steps: seq<string>, outcomes: seq<Outcome>, p: Progress, o: Outcome)
    requires Fits(workers, steps, outcomes, p) && p.Running?
    ensures Fits(workers, steps, outcomes + [o], Proceed(workers, steps, p, o))
  {
    assert (outcomes + [o])[..|outcomes|] == outcomes;
  }

  /** One action brings the task and its sequential run forward together. */
  lemma TaskStep(b: Board, a: Action, id: nat, steps: seq<string>, past: seq<Outcome>, p: Progress)
    requires BoardOk(b) && Enabled(b, a) && id < b.next && Shows(b, id, steps, p) && Fits(b.workers, steps, past, p)
    ensures var p' := Sequential(b.workers, steps, p, OutcomeOf(a, id));
            BoardOk(Next(b, a)) && id < Next(b, a).next && Next(b, a).workers == b.workers &&
            Shows(Next(b, a), id, steps, p') && Fits(b.workers, steps, past + OutcomeOf(a, id), p')
  {
    hide BoardOk, Enabled, Next, Shows, Fits, Proceed;
    StepOk(b, a);
    NextGrows(b, a);
    if Concerns(a, id) {
      var o := if a.Complete? then Done(a.result) else Broke(a.error);
      OwnStep(b, a, id, steps, p);
      ProceedFits(b.workers, steps, past, p, o);
      assert [o][1..] == [];
    } else {
      ElsewhereKeeps(b, a, id);
      KeepsShowing(b, Next(b, a), id, steps, p);
      assert past + [] == past;
    }
  }

  lemma {:induction false} SequentialAppend(workers: map<string, nat>, steps: seq<string>, p: Progress,
                                            first: seq<Outcome>, rest: seq<Outcome>)
    ensures Sequential(workers, steps, p, first + rest) == Sequential(workers, steps, Sequential(workers, steps, p, first), rest)
    decreases |first|
  {
    if first == [] {
      assert [] + rest == rest;
    } else {
      hide Proceed;
      assert (first + rest)[1..] == first[1..] + rest;
      SequentialAppend(workers, steps, Proceed(workers, steps, p, first[0]), first[1..], rest);
    }
  }

  /** Over any run, whatever other tasks do, the task is where its sequential run is after the outcomes
      that its own jobs had. */
  lemma {:induction false} TaskIsSequential(b: Board, actions: seq<Action>, id: nat, steps: seq<string>,
                                            past: seq<Outcome>, p: Progress)
    requires BoardOk(b) && IsRun(b, actions) && id < b.next && Shows(b, id, steps, p) && Fits(b.workers, steps, past, p)
    ensures var p' := Sequential(b.workers, steps, p, OutcomesOf(actions, id));
            Shows(After(b, actions), id, steps, p') && Fits(b.workers, steps, past + OutcomesOf(actions, id), p')
    decreases |actions|
  {
    hide BoardOk, Enabled, Next, Shows, Fits, OutcomeOf, Proceed;
    if actions == [] {
      assert past + [] == past;
    } else {
      hide Sequential;
      var now := OutcomeOf(actions[0], id);
      var rest := OutcomesOf(actions[1..], id);
      TaskStep(b, actions[0], id, steps, past, p);
      TaskIsSequential(Next(b, actions[0]), actions[1..], id, steps, past + now, Sequential(b.workers, steps, p, now));
      SequentialAppend(b.workers, steps, p, now, rest);
      assert past + now + rest == past + (now + rest);
    }
  }

  lemma CallFacts(b: Board, callbacks: map<nat, nat>, x: nat, v: Verdict)
    ensures var b' := Call(b, callbacks, x, v);
            b'.next == b.next && b'.workers == b.workers &&
            forall id :: id in b.settled ==> id in b'.settled && b'.settled[id] == b.settled[id]
  {
  }

  lemma InvokeGrows(b: Board, cfg: Config, results: Results, reason: Reason)
    ensures InvokeTaskMethod(b, cfg).next == ResolveTask(b, cfg.taskId, results).next ==
      RejectTask(b, cfg.taskId, reason).next == b.next
    ensures InvokeTaskMethod(b, cfg).workers == ResolveTask(b, cfg.taskId, results).workers ==
      RejectTask(b, cfg.taskId, reason).workers == b.workers
  {
    hide Call;
    CallFacts(b, b.resolveCallbacks, cfg.taskId, Resolved(results));
    CallFacts(b, b.rejectCallbacks, cfg.taskId, Rejected(reason));
    CallFacts(b, b.rejectCallbacks, cfg.taskId, Rejected(InvalidMethod));
    CallFacts(b, b.rejectCallbacks, cfg.taskId, Rejected(NoWorker(cfg.taskMethod)));
  }

  lemma NextGrows(b: Board, a: Action)
    requires Enabled(b, a)
    ensures Next(b, a).workers == b.workers
    ensures Next(b, a).next == b.next + if a.Dispatch? then 1 else 0
  {
    hide InvokeTaskMethod, ResolveTask, RejectTask;
    match a
    case Dispatch(steps) =>
      Opened(b);
      InvokeGrows(Open(b), Config(b.next, MethodAt(steps, 0), steps, 0, map[]), map[], InvalidMethod);
    case Complete(job, result) =>
      var results := job.results[job.taskMethod := result];
      var cfg := job.(index := job.index + 1, taskMethod := MethodAt(job.steps, job.index + 1), results := results);
      InvokeGrows(b.(jobs := b.jobs - multiset{job}), cfg, results, InvalidMethod);
    case Fail(job, error) => InvokeGrows(b.(jobs := b.jobs - multiset{job}), job, map[], WorkerError(error));
    case Expire(_) =>
  }

  // ---- results ----

  /** A task dispatched after any run and left to any further run: the methods that ran are a prefix of
      its steps in their order, its progress is that of the sequential run, and its promise holds the
      verdict of that run unless it is still open or the timeout was first. */
  lemma ChainRefinesSequence(workers: map<string, nat>, before: seq<Action>, steps: seq<string>, actions: seq<Action>)
    requires IsRun(Start(workers), before)
    requires IsRun(DispatchTask(After(Start(workers), before), steps), actions)
    ensures var b0 := After(Start(workers), before);
            var id := b0.next;
            var b := After(DispatchTask(b0, steps), actions);
            var outcomes := OutcomesOf(actions, id);
            var p := Sequential(workers, steps, Begin(workers, steps, 0, map[]), outcomes);
            Shows(b, id, steps, p) && Fits(workers, steps, outcomes, p) &&
            (p.Over? ==> id in b.settled && b.settled[id] in {p.verdict, Rejected(Timeout)}) &&
            (p.Running? && id in b.settled ==> b.settled[id] == Rejected(Timeout))
  {
    var b0 := After(Start(workers), before);
    var started := DispatchTask(b0, steps);
    StartOk(workers);
    RunOk(Start(workers), before);
    SameWorkers(Start(workers), before);
    DispatchShows(b0, steps);
    StepOk(b0, Dispatch(steps));
    BeginFits(workers, steps);
    hide BoardOk, Begin, Sequential, Shows, Fits, DispatchTask, IsRun, After;
    TaskIsSequential(started, actions, b0.next, steps, [], Begin(workers, steps, 0, map[]));
    RunOk(started, actions);
    assert [] + OutcomesOf(actions, b0.next) == OutcomesOf(actions, b0.next);
    PromiseOf(After(started, actions), b0.next, steps,
              Sequential(workers, steps, Begin(workers, steps, 0, map[]), OutcomesOf(actions, b0.next)));
  }

  lemma PromiseOf(b: Board, id: nat, steps: seq<string>, p: Progress)
    requires BoardOk(b) && Shows(b, id, steps, p)
    ensures p.Over? ==> id in b.settled && b.settled[id] in {p.verdict, Rejected(Timeout)}
    ensures p.Running? && id in b.settled ==> b.settled[id] == Rejected(Timeout)
  {
  }

  lemma DispatchShows(b: Board, steps: seq<string>)
    requires BoardOk(b)
    ensures Shows(DispatchTask(b, steps), b.next, steps, Begin(b.workers, steps, 0, map[]))
    ensures DispatchTask(b, steps).next == b.next + 1 && DispatchTask(b, steps).workers == b.workers
  {
    hide BoardOk, Between, Shows, Begin, InvokeTaskMethod, ResolveTask, RejectTask, MethodAt, Open;
    Opened(b);
    NewTask(b, Open(b));
    InvokeGrows(Open(b), Config(b.next, MethodAt(steps, 0), steps, 0, map[]), map[], InvalidMethod);
    InvokeBegins(Open(b), b.next, steps, 0, map[]);
  }

  lemma Opened(b: Board)
    ensures Open(b).next == b.next + 1 && Open(b).workers == b.workers
  {
  }

  lemma {:induction false} SameWorkers(b: Board, actions: seq<Action>)
    requires IsRun(b, actions)
    ensures After(b, actions).workers == b.workers
    decreases |actions|
  {
    if actions != [] {
      hide Enabled, Next;
      NextGrows(b, actions[0]);
      SameWorkers(Next(b, actions[0]), actions[1..]);
    }
  }

  /** A settled promise and a given verdict never change, and the callbacks are not called again. */
  lemma {:induction false} SettledOnce(b: Board, actions: seq<Action>, id: nat)
    requires BoardOk(b) && IsRun(b, actions)
    ensures id in b.settled ==> id in After(b, actions).settled && After(b, actions).settled[id] == b.settled[id]
    ensures id in b.ended ==>
      id in After(b, actions).ended && After(b, actions).ended[id] == b.ended[id] &&
      id !in After(b, actions).resolveCallbacks && id !in After(b, actions).rejectCallbacks
    decreases |actions|
  {
    hide BoardOk, Enabled, Next;
    if actions == [] {
      KnownIds(b, id);
    } else {
      StepOk(b, actions[0]);
      StepSettlesOnce(b, actions[0], id);
      SettledOnce(Next(b, actions[0]), actions[1..], id);
    }
  }

  lemma StepSettlesOnce(b: Board, a: Action, id: nat)
    requires BoardOk(b) && Enabled(b, a)
    ensures id in b.settled ==> id in Next(b, a).settled && Next(b, a).settled[id] == b.settled[id]
    ensures id in b.ended ==> id in Next(b, a).ended && Next(b, a).ended[id] == b.ended[id]
  {
    KnownIds(b, id);
    if id in b.settled || id in b.ended {
      if Concerns(a, id) {
        NotOver(b, a.job);
        hide BoardOk;
        OwnSettles(b, a);
      } else {
        hide BoardOk, Next;
        ElsewhereKeeps(b, a, id);
      }
    }
  }

  lemma KnownIds(b: Board, id: nat)
    requires BoardOk(b)
    ensures id in b.settled || id in b.ended ==> id < b.next
    ensures forall x: nat :: x in b.resolveCallbacks ==> b.resolveCallbacks[x] == x
    ensures forall x: nat :: x in b.rejectCallbacks ==> b.rejectCallbacks[x] == x
    ensures id in b.ended ==> id !in b.taskPromises && id !in b.resolveCallbacks && id !in b.rejectCallbacks
  {
  }

  lemma NotOver(b: Board, job: Config)
    requires BoardOk(b) && job in b.jobs
    ensures job.taskId !in b.ended
  {
    assert job.taskId in b.taskPromises;
  }

  /** A verdict given to a task whose promise has timed out leaves the promise as it is. */
  lemma OwnSettles(b: Board, a: Action)
    requires Enabled(b, a) && (a.Complete? || a.Fail?) && a.job.taskId in b.settled
    ensures a.job.taskId in Next(b, a).settled && Next(b, a).settled[a.job.taskId] == b.settled[a.job.taskId]
  {
    hide InvokeTaskMethod, ResolveTask, RejectTask;
    var taken := b.(jobs := b.jobs - multiset{a.job});
    match a
    case Complete(job, result) =>
      var results := job.results[job.taskMethod := result];
      var cfg := job.(index := job.index + 1, taskMethod := MethodAt(job.steps, job.index + 1), results := results);
      FirstVerdictStays(taken, job.taskId, cfg, results, InvalidMethod);
    case Fail(job, error) => FirstVerdictStays(taken, job.taskId, job, map[], WorkerError(error));
  }

  lemma FirstVerdictStays(b: Board, id: nat, cfg: Config, results: Results, reason: Reason)
    requires id in b.settled
    ensures id in InvokeTaskMethod(b, cfg).settled && InvokeTaskMethod(b, cfg).settled[id] == b.settled[id]
    ensures id in ResolveTask(b, cfg.taskId, results).settled && ResolveTask(b, cfg.taskId, results).settled[id] == b.settled[id]
    ensures id in RejectTask(b, cfg.taskId, reason).settled && RejectTask(b, cfg.taskId, reason).settled[id] == b.settled[id]
  {
    hide Call;
    CallFacts(b, b.resolveCallbacks, cfg.taskId, Resolved(results));
    CallFacts(b, b.rejectCallbacks, cfg.taskId, Rejected(reason));
    CallFacts(b, b.rejectCallbacks, cfg.taskId, Rejected(InvalidMethod));
    CallFacts(b, b.rejectCallbacks, cfg.taskId, Rejected(NoWorker(cfg.taskMethod)));
  }

  // ---- the timeout ----

  predicate TimedOut(b: Board, id: nat) {
    id in b.settled && b.settled[id] == Rejected(Timeout)
  }

  /** After an hour a promise that is still open is rejected with the timeout; a settled one keeps its verdict.
      Nothing else changes: the chain goes on. */
  lemma ExpireEffect(b: Board, id: nat)
    requires id < b.next
    ensures var b' := Next(b, Expire(id));
            b' == b.(settled := b'.settled) && b'.settled.Keys == b.settled.Keys + {id} &&
            (forall x :: x in b.settled ==> b'.settled[x] == b.settled[x]) && (id !in b.settled ==> TimedOut(b', id))
  {
  }

  lemma CallVerdict(b: Board, callbacks: map<nat, nat>, x: nat, v: Verdict, id: nat)
    ensures var b' := Call(b, callbacks, x, v);
            id in b'.settled ==> (id in b.settled && b'.settled[id] == b.settled[id]) || b'.settled[id] == v
  {
  }

  lemma OtherVerdicts(b: Board, cfg: Config, results: Results, error: string, id: nat)
    requires !TimedOut(b, id)
    ensures !TimedOut(InvokeTaskMethod(b, cfg), id) && !TimedOut(ResolveTask(b, cfg.taskId, results), id)
    ensures !TimedOut(RejectTask(b, cfg.taskId, WorkerError(error)), id)
  {
    hide Call;
    CallVerdict(b, b.resolveCallbacks, cfg.taskId, Resolved(results), id);
    CallVerdict(b, b.rejectCallbacks, cfg.taskId, Rejected(WorkerError(error)), id);
    CallVerdict(b, b.rejectCallbacks, cfg.taskId, Rejected(InvalidMethod), id);
    CallVerdict(b, b.rejectCallbacks, cfg.taskId, Rejected(NoWorker(cfg.taskMethod)), id);
  }

  lemma StepTimesOutIff(b: Board, a: Action, id: nat)
    requires Enabled(b, a) && !TimedOut(b, id)
    ensures TimedOut(Next(b, a), id) <==> a == Expire(id) && id !in b.settled
  {
    match a
    case Dispatch(steps) =>
      hide InvokeTaskMethod;
      OtherVerdicts(Open(b), Config(b.next, MethodAt(steps, 0), steps, 0, map[]), map[], "", id);
    case Complete(job, result) =>
      hide InvokeTaskMethod, ResolveTask;
      var taken := b.(jobs := b.jobs - multiset{job});
      var results := job.results[job.taskMethod := result];
      var cfg := job.(index := job.index + 1, taskMethod := MethodAt(job.steps, job.index + 1), results := results);
      OtherVerdicts(taken, cfg, results, "", id);
    case Fail(job, error) =>
      hide RejectTask;
      OtherVerdicts(b.(jobs := b.jobs - multiset{job}), job, map[], error, id);
    case Expire(_) =>
  }

  /** The hour of the task passes in the run while its promise is open. */
  predicate ExpiresOpen(b: Board, actions: seq<Action>, id: nat)
    requires IsRun(b, actions)
    decreases |actions|
  {
    actions != [] &&
    ((actions[0] == Expire(id) && id !in b.settled) || ExpiresOpen(Next(b, actions[0]), actions[1..], id))
  }

  /** Over any run a promise that was open at its start ends up timed out exactly if its hour passed while it
      was open. */
  lemma {:induction false} TimeoutIff(b: Board, actions: seq<Action>, id: nat)
    requires BoardOk(b) && IsRun(b, actions) && !TimedOut(b, id)
    ensures TimedOut(After(b, actions), id) <==> ExpiresOpen(b, actions, id)
    decreases |actions|
  {
    if actions != [] {
      var b' := Next(b, actions[0]);
      hide BoardOk, Enabled, Next;
      StepOk(b, actions[0]);
      StepTimesOutIff(b, actions[0], id);
      if TimedOut(b', id) {
        SettledOnce(b', actions[1..], id);
      } else {
        TimeoutIff(b', actions[1..], id);
      }
    }
  }

  /** The results of a finished chain are keyed by exactly its methods. */
  lemma {:induction false} CollectedKeys(steps: seq<string>, outcomes: seq<Outcome>)
    requires |outcomes| <= |steps| && AllDone(outcomes)
    ensures Collected(steps, outcomes).Keys == Methods(steps[..|outcomes|])
  {
    var n := |outcomes|;
    if n > 0 {
      CollectedKeys(steps, outcomes[..n - 1]);
      assert steps[..n] == steps[..n - 1] + [steps[n - 1]];
      assert Methods(steps[..n]) == Methods(steps[..n - 1]) + {steps[n - 1]};
    }
  }

  /** A method that occurs again keeps the result of its last completion. */
  lemma {:induction false} CollectedLast(steps: seq<string>, outcomes: seq<Outcome>, k: nat)
    requires |outcomes| <= |steps| && AllDone(outcomes) && k < |outcomes|
    requires forall l :: k < l < |outcomes| ==> steps[l] != steps[k]
    ensures steps[k] in Collected(steps, outcomes) && Collected(steps, outcomes)[steps[k]] == outcomes[k].result
  {
    var n := |outcomes|;
    if k < n - 1 {
      CollectedLast(steps, outcomes[..n - 1], k);
    }
  }
}

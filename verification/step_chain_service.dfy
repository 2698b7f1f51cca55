/** The step-chain runner as the objects that the source has: the task configuration that travels through
    the queues and is changed in place, and the dispatcher with its maps. */
module StepChainService {
  import opened StepChain

  class QueueTaskConfig {
    const taskId: nat
    const taskSteps: seq<string>
    var taskMethod: string
    var taskStepIndex: nat
    var taskStepResults: Results

    constructor (taskId: nat, taskSteps: seq<string>)
      ensures Value() == Config(taskId, MethodAt(taskSteps, 0), taskSteps, 0, map[])
    {
      this.taskId := taskId;
      this.taskSteps := taskSteps;
      taskStepIndex := 0;
      taskMethod := if |taskSteps| > 0 then taskSteps[0] else "";
      taskStepResults := map[];
    }

    function Value(): Config
      reads this
    {
      Config(taskId, taskMethod, taskSteps, taskStepIndex, taskStepResults)
    }
  }

  /** The registry after a worker registered its methods: the last registration of a method counts. */
  function Registered(workers: map<string, nat>, worker: nat, methods: seq<string>): map<string, nat> {
    workers + map m | m in methods :: worker
  }

  lemma NoneRegistered(workers: map<string, nat>, worker: nat)
    ensures Registered(workers, worker, []) == workers
  {
  }

  lemma RegisteredOne(workers: map<string, nat>, worker: nat, methods: seq<string>, m: string)
    ensures Registered(workers, worker, methods + [m]) == Registered(workers, worker, methods)[m := worker]
  {
  }

  class TaskDispatchers {
    var workers: map<string, nat>
    var next: nat
    var taskPromises: map<nat, nat>
    var resolveCallbacks: map<nat, nat>
    var rejectCallbacks: map<nat, nat>
    var jobs: multiset<Config>
    var ended: map<nat, Verdict>
    var settled: map<nat, Verdict>

    function State(): Board
      reads this
    {
      Board(workers, next, taskPromises, resolveCallbacks, rejectCallbacks, jobs, ended, settled)
    }

    constructor ()
      ensures State() == Start(map[])
    {
      workers := map[];
      next := 0;
      taskPromises, resolveCallbacks, rejectCallbacks := map[], map[], map[];
      jobs := multiset{};
      ended, settled := map[], map[];
    }

    method RegisterTaskMethods(worker: nat, methods: seq<string>)
      modifies this`workers
      ensures workers == Registered(old(workers), worker, methods)
    {
      hide Registered;
      assert methods[..0] == [];
      NoneRegistered(workers, worker);
      for i := 0 to |methods|
        invariant workers == Registered(old(workers), worker, methods[..i])
      {
        RegisteredOne(old(workers), worker, methods[..i], methods[i]);
        assert methods[..i + 1] == methods[..i] + [methods[i]];
        workers := workers[methods[i] := worker];
      }
      assert methods[..|methods|] == methods;
    }

    method Settle(promise: nat, v: Verdict)
      modifies this`settled
      ensures State() == StepChain.Settle(old(State()), promise, v)
    {
      if promise !in settled {
        settled := settled[promise := v];
      }
    }

    method RemoveTaskPromise(id: nat)
      modifies this
      ensures State() == StepChain.RemoveTaskPromise(old(State()), id)
    {
      taskPromises := taskPromises - {id};
      resolveCallbacks := resolveCallbacks - {id};
      rejectCallbacks := rejectCallbacks - {id};
    }

    method ResolveTask(id: nat, results: Results)
      modifies this
      ensures State() == StepChain.ResolveTask(old(State()), id, results)
    {
      if id in resolveCallbacks {
        ended := ended[id := Resolved(results)];
        Settle(resolveCallbacks[id], Resolved(results));
      }
      RemoveTaskPromise(id);
    }

    method RejectTask(id: nat, reason: Reason)
      modifies this
      ensures State() == StepChain.RejectTask(old(State()), id, reason)
    {
      if id in rejectCallbacks {
        ended := ended[id := Rejected(reason)];
        Settle(rejectCallbacks[id], Rejected(reason));
      }
      RemoveTaskPromise(id);
    }

    /** Hand the current method to its worker; the queue keeps a copy of the configuration. */
    method InvokeTaskMethod(cfg: QueueTaskConfig)
      modifies this
      ensures State() == StepChain.InvokeTaskMethod(old(State()), cfg.Value())
    {
      if cfg.taskMethod == "" {
        RejectTask(cfg.taskId, InvalidMethod);
        return;
      }
      if cfg.taskMethod !in workers {
        RejectTask(cfg.taskId, NoWorker(cfg.taskMethod));
        return;
      }
      jobs := jobs + multiset{cfg.Value()};
    }

    method DispatchTask(steps: seq<string>) returns (id: nat)
      modifies this
      ensures id == old(next) && State() == StepChain.DispatchTask(old(State()), steps)
    {
      hide StepChain.InvokeTaskMethod;
      id := next;
      next := next + 1;
      var cfg := new QueueTaskConfig(id, steps);
      taskPromises := taskPromises[id := id];
      resolveCallbacks := resolveCallbacks[id := id];
      rejectCallbacks := rejectCallbacks[id := id];
      InvokeTaskMethod(cfg);
    }

    method NextTaskStep(cfg: QueueTaskConfig, result: string)
      modifies this, cfg
      ensures State() == StepChain.NextTaskStep(old(State()), old(cfg.Value()), result)
    {
      cfg.taskStepResults := cfg.taskStepResults[cfg.taskMethod := result];
      if cfg.taskStepIndex < |cfg.taskSteps| - 1 {
        cfg.taskStepIndex := cfg.taskStepIndex + 1;
        cfg.taskMethod := cfg.taskSteps[cfg.taskStepIndex];
        InvokeTaskMethod(cfg);
      } else {
        ResolveTask(cfg.taskId, cfg.taskStepResults);
      }
    }

    /** The 'completed' event of a worker queue. */
    method OnComplete(cfg: QueueTaskConfig, result: string)
      requires cfg.Value() in jobs
      modifies this, cfg
      ensures State() == Next(old(State()), Complete(old(cfg.Value()), result))
    {
      jobs := jobs - multiset{cfg.Value()};
      NextTaskStep(cfg, result);
    }

    /** The 'failed' event of a worker queue. */
    method OnFailed(cfg: QueueTaskConfig, error: string)
      requires cfg.Value() in jobs
      modifies this
      ensures State() == Next(old(State()), Fail(cfg.Value(), error))
    {
      jobs := jobs - multiset{cfg.Value()};
      RejectTask(cfg.taskId, WorkerError(error));
    }
  }

  /** A method belongs to the worker that registered it last, and every other method stays where it is. */
  lemma RegisteredLast(workers: map<string, nat>, first: nat, firstMethods: seq<string>, second: nat,
                       secondMethods: seq<string>, m: string)
    ensures var both := Registered(Registered(workers, first, firstMethods), second, secondMethods);
            (m in secondMethods ==> m in both && both[m] == second) &&
            (m in firstMethods && m !in secondMethods ==> m in both && both[m] == first) &&
            (m !in firstMethods && m !in secondMethods ==>
              (m in both <==> m in workers) && (m in workers ==> both[m] == workers[m]))
  {
  }
}

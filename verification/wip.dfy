/** The WIP limit: kept exactly as long as the true number of jobs is below it whenever permission is
    given, overshot when jobs start between the two readings, and by how much. */
module Wip {
  import opened PipelineTypes
  import opened Tables
  import opened Pipeline
  import opened Runs
  import SiteTasks

  /** No job becomes active between the reading of the active and of the waiting count. */
  predicate ReadTogether(s: State, a: Action) {
    s.phase.ActiveRead? ==> !(a.Worker? && a.work.AStartJob?)
  }

  /** The dispatcher has permission to add a job. */
  predicate Holds(phase: Phase) { !phase.Idle? && !phase.ActiveRead? }

  predicate WithinLimit(s: State) {
    |s.waiting| + |s.active| + (if Holds(s.phase) then 1 else 0) <= s.wipLimit &&
    (s.phase.ActiveRead? ==> |s.active| <= s.phase.active)
  }

  lemma OutsideQueues(s: State, a: OutsideAction)
    requires OutsideEnabled(s, a)
    ensures var s' := OutsideNext(s, a);
            s'.waiting == s.waiting && s'.active == s.active && s'.phase == s.phase &&
            s'.wipLimit == s.wipLimit && s'.concurrency == s.concurrency
  {
  }

  /** Only the reading of the counts gives permission, and only the enqueue uses it. */
  lemma DispatcherQueues(s: State, a: DispatcherAction)
    requires DispatcherEnabled(s, a)
    ensures var s' := DispatcherNext(s, a);
            s'.active == s.active && s'.wipLimit == s.wipLimit && s'.concurrency == s.concurrency &&
            match a
            case AReadActive => s'.waiting == s.waiting && s'.phase == ActiveRead(|s.active|)
            case AReadWaiting =>
              s.phase.ActiveRead? && s'.waiting == s.waiting && !s'.phase.ActiveRead? &&
              (Holds(s'.phase) <==> s.phase.active + |s.waiting| < s.wipLimit)
            case AEnqueue => |s'.waiting| == |s.waiting| + 1 && s'.phase == Idle && Holds(s.phase)
            case _ => s'.waiting == s.waiting && Holds(s.phase) && !s'.phase.ActiveRead?
  {
    hide FirstDeploy, FirstPublish, FirstPost;
  }

  lemma WorkerQueues(s: State, a: WorkerAction)
    requires WorkerEnabled(s, a)
    ensures var s' := WorkerNext(s, a);
            s'.phase == s.phase && s'.wipLimit == s.wipLimit && s'.concurrency == s.concurrency &&
            |s'.waiting| <= |s.waiting| && |s'.waiting| + |s'.active| <= |s.waiting| + |s.active| &&
            (!a.AStartJob? ==> s'.waiting == s.waiting && |s'.active| <= |s.active|) &&
            (|s.active| <= s.concurrency ==> |s'.active| <= s'.concurrency)
  {
  }

  // ---- the exact condition ----

  function Jobs(s: State): nat { |s.waiting| + |s.active| }

  /** No more jobs than the limit, counting the one that has permission. */
  predicate KeepsLimit(s: State) {
    Jobs(s) + (if Holds(s.phase) then 1 else 0) <= s.wipLimit
  }

  /** When the dispatcher sees room, there is room. */
  predicate SeesTrueRoom(s: State, a: Action) {
    a == Dispatcher(AReadWaiting) && s.phase.ActiveRead? && s.phase.active + |s.waiting| < s.wipLimit ==>
    |s.active| + |s.waiting| < s.wipLimit
  }

  /** A step keeps the limit if and only if it does not give permission on counts that hide a full queue. */
  lemma KeepsLimitIff(s: State, a: Action)
    requires KeepsLimit(s) && Enabled(s, a)
    ensures KeepsLimit(Next(s, a)) <==> SeesTrueRoom(s, a)
  {
    hide OutsideEnabled, OutsideNext, DispatcherEnabled, DispatcherNext, WorkerEnabled, WorkerNext;
    match a
    case Outside(o) => OutsideQueues(s, o);
    case Dispatcher(d) => DispatcherQueues(s, d);
    case Worker(w) => WorkerQueues(s, w);
  }

  lemma {:induction false} RunKeepsLimit(s: State, actions: seq<Action>)
    requires KeepsLimit(s) && IsRun(s, actions) && Within(s, actions, SeesTrueRoom)
    ensures KeepsLimit(After(s, actions))
    decreases |actions|
  {
    if actions != [] {
      hide Enabled, Next, KeepsLimit, SeesTrueRoom;
      KeepsLimitIff(s, actions[0]);
      RunKeepsLimit(Next(s, actions[0]), actions[1..]);
    }
  }

  lemma StepLimit(s: State, a: Action)
    requires WithinLimit(s) && Enabled(s, a) && ReadTogether(s, a)
    ensures WithinLimit(Next(s, a))
  {
    hide OutsideEnabled, OutsideNext, DispatcherEnabled, DispatcherNext, WorkerEnabled, WorkerNext;
    match a
    case Outside(o) => OutsideQueues(s, o);
    case Dispatcher(d) => DispatcherQueues(s, d);
    case Worker(w) => WorkerQueues(s, w);
  }

  lemma {:induction false} RunLimit(s: State, actions: seq<Action>)
    requires WithinLimit(s) && IsRun(s, actions) && Within(s, actions, ReadTogether)
    ensures WithinLimit(After(s, actions))
    decreases |actions|
  {
    if actions != [] {
      hide Enabled, Next, WithinLimit, ReadTogether;
      StepLimit(s, actions[0]);
      RunLimit(Next(s, actions[0]), actions[1..]);
    }
  }

  lemma {:induction false} SameConfiguration(s: State, actions: seq<Action>)
    requires IsRun(s, actions)
    ensures After(s, actions).wipLimit == s.wipLimit && After(s, actions).concurrency == s.concurrency
    decreases |actions|
  {
    if actions != [] {
      SameLimit(s, actions[0]);
      hide Enabled, Next;
      SameConfiguration(Next(s, actions[0]), actions[1..]);
    }
  }

  lemma SameLimit(s: State, a: Action)
    requires Enabled(s, a)
    ensures Next(s, a).wipLimit == s.wipLimit && Next(s, a).concurrency == s.concurrency
  {
    hide OutsideEnabled, OutsideNext, DispatcherEnabled, DispatcherNext, WorkerEnabled, WorkerNext;
    match a
    case Outside(o) => OutsideQueues(s, o);
    case Dispatcher(d) => DispatcherQueues(s, d);
    case Worker(w) => WorkerQueues(s, w);
  }

  /** With both counts read together, waiting and active jobs never exceed the limit. */
  lemma LimitIsExact(wipLimit: nat, concurrency: nat, actions: seq<Action>)
    requires IsRun(Start(wipLimit, concurrency), actions)
    requires Within(Start(wipLimit, concurrency), actions, ReadTogether)
    ensures var s := After(Start(wipLimit, concurrency), actions);
            s.wipLimit == wipLimit && Jobs(s) <= wipLimit
  {
    RunLimit(Start(wipLimit, concurrency), actions);
    SameConfiguration(Start(wipLimit, concurrency), actions);
  }

  /** As long as permission is only given when there is true room, the limit holds. */
  lemma TrueRoomKeepsLimit(wipLimit: nat, concurrency: nat, actions: seq<Action>)
    requires IsRun(Start(wipLimit, concurrency), actions)
    requires Within(Start(wipLimit, concurrency), actions, SeesTrueRoom)
    ensures Jobs(After(Start(wipLimit, concurrency), actions)) <= wipLimit
  {
    RunKeepsLimit(Start(wipLimit, concurrency), actions);
    SameConfiguration(Start(wipLimit, concurrency), actions);
  }

  // ---- how far the limit can be overshot ----

  /** 1 + 2 + ... + n */
  function Triangle(n: int): nat {
    if n <= 0 then 0 else n + Triangle(n - 1)
  }

  lemma {:induction false} TriangleGrows(m: int, n: int)
    requires m <= n
    ensures Triangle(m) <= Triangle(n)
    ensures 0 < n ==> 2 * n - 1 <= Triangle(n)
    decreases n
  {
    if 0 < n {
      TriangleGrows(if m < n then m else n - 1, n - 1);
    }
  }

  /** The jobs beyond the limit. */
  function Excess(s: State): int { Jobs(s) - s.wipLimit }

  /** The n-th job beyond the limit needs a reading that misses n started jobs, on top of the jobs that the
      earlier ones needed. */
  predicate ExcessBacked(s: State) {
    |s.waiting| <= s.wipLimit && |s.active| <= s.concurrency &&
    if Holds(s.phase) then
      |s.waiting| < s.wipLimit && (0 <= Excess(s) ==> |s.waiting| + 1 + Triangle(Excess(s)) <= s.wipLimit)
    else
      0 < Excess(s) ==>
        |s.waiting| + Triangle(Excess(s) - 1) <= s.wipLimit && Triangle(Excess(s) - 1) < s.wipLimit &&
        (s.phase.ActiveRead? ==> Triangle(Excess(s)) <= s.phase.active)
  }

  /** Starts and ends of jobs, and anything that leaves the queue alone. */
  lemma QueueShrinks(s: State, s': State)
    requires ExcessBacked(s) && s'.phase == s.phase && s'.wipLimit == s.wipLimit && |s'.active| <= s'.concurrency
    requires |s'.waiting| <= |s.waiting| && Jobs(s') <= Jobs(s)
    ensures ExcessBacked(s')
  {
    TriangleGrows(Excess(s'), Excess(s));
    TriangleGrows(Excess(s') - 1, Excess(s) - 1);
  }

  lemma DispatcherBacked(s: State, a: DispatcherAction)
    requires ExcessBacked(s) && DispatcherEnabled(s, a)
    ensures ExcessBacked(DispatcherNext(s, a))
  {
    hide DispatcherEnabled, DispatcherNext;
    DispatcherQueues(s, a);
    TriangleGrows(Excess(s), Excess(s));
  }

  lemma StepBacked(s: State, a: Action)
    requires ExcessBacked(s) && Enabled(s, a)
    ensures ExcessBacked(Next(s, a))
  {
    hide OutsideEnabled, OutsideNext, DispatcherEnabled, DispatcherNext, WorkerEnabled, WorkerNext;
    match a
    case Outside(o) => OutsideQueues(s, o); QueueShrinks(s, Next(s, a));
    case Dispatcher(d) => DispatcherBacked(s, d);
    case Worker(w) => WorkerQueues(s, w); QueueShrinks(s, Next(s, a));
  }

  lemma {:induction false} RunBacked(s: State, actions: seq<Action>)
    requires ExcessBacked(s) && IsRun(s, actions)
    ensures ExcessBacked(After(s, actions))
    decreases |actions|
  {
    if actions != [] {
      hide Enabled, Next, ExcessBacked;
      StepBacked(s, actions[0]);
      RunBacked(Next(s, actions[0]), actions[1..]);
    }
  }

  /** j jobs beyond the limit need so many workers and so high a limit. */
  predicate CanExceedBy(wipLimit: nat, concurrency: nat, j: int) {
    Triangle(j) <= concurrency && Triangle(j - 1) < wipLimit
  }

  lemma BackedMeans(s: State)
    requires ExcessBacked(s) && 0 < Excess(s)
    ensures CanExceedBy(s.wipLimit, s.concurrency, Excess(s))
    ensures Jobs(s) <= s.wipLimit + (s.concurrency + 1) / 2
  {
    TriangleGrows(Excess(s) - 1, Excess(s));
  }

  // ---- the overshoot ----

  function Deployment(d: int): seq<Action> {
    [Dispatcher(APickDeploy(d)), Dispatcher(APickPublish(NONE)), Dispatcher(APickPost(NONE)),
     Dispatcher(AStartDeploy), Dispatcher(AEnqueue)]
  }

  /** Tables in which only deploy orders wait. */
  predicate OnlyDeploys(db: Db) {
    db.publishOrders == [] && forall i :: 0 <= i < |db.posts| ==> db.posts[i].submit != Pending
  }

  lemma NothingElse(db: Db)
    requires OnlyDeploys(db)
    ensures FirstPublish(db, NONE) && FirstPost(db, NONE)
  {
  }

  /** The chosen deploy order is the only candidate and starts. */
  lemma DeploymentSteps(s: State, d: int)
    requires s.phase == Permitted && OnlyDeploys(s.db) && FirstDeploy(s.db, d) && d != NONE
    requires s.db.sites[s.db.deployOrders[d].site].status == Configured
    requires DeployOrderOf(s.db.deployOrders, s.db.deployOrders[d].site, s.db.deployOrders[d].user) == d
    ensures var s1 := s.(phase := DeployPicked(d));
            var s2 := s.(phase := PublishPicked(d, NONE));
            var s3 := s.(phase := Chosen(Deploy(d)));
            var o := s.db.deployOrders[d];
            var s4 := s.(db := SiteTasks.StartDeploy(s.db, d, o.site, o.user), phase := Marked(Job(DeployJob, |s.db.deployTasks|)));
            Enabled(s, Dispatcher(APickDeploy(d))) && Next(s, Dispatcher(APickDeploy(d))) == s1 &&
            Enabled(s1, Dispatcher(APickPublish(NONE))) && Next(s1, Dispatcher(APickPublish(NONE))) == s2 &&
            Enabled(s2, Dispatcher(APickPost(NONE))) && Next(s2, Dispatcher(APickPost(NONE))) == s3 &&
            Enabled(s3, Dispatcher(AStartDeploy)) && Next(s3, Dispatcher(AStartDeploy)) == s4
  {
    NothingElse(s.db);
    hide FirstPublish, FirstPost, OnlyDeploys;
  }

  lemma DeploymentRuns(s: State, d: int)
    requires s.phase == Permitted && OnlyDeploys(s.db) && FirstDeploy(s.db, d) && d != NONE
    requires s.db.sites[s.db.deployOrders[d].site].status == Configured
    requires DeployOrderOf(s.db.deployOrders, s.db.deployOrders[d].site, s.db.deployOrders[d].user) == d
    ensures IsRun(s, Deployment(d))
    ensures var o := s.db.deployOrders[d];
            After(s, Deployment(d)) == s.(db := SiteTasks.StartDeploy(s.db, d, o.site, o.user),
              waiting := s.waiting + multiset{Job(DeployJob, |s.db.deployTasks|)}, phase := Idle)
  {
    DeploymentSteps(s, d);
    var s1 := s.(phase := DeployPicked(d));
    var s2 := s.(phase := PublishPicked(d, NONE));
    var s3 := s.(phase := Chosen(Deploy(d)));
    var s4 := Next(s3, Dispatcher(AStartDeploy));
    EnqueueStep(s4, Job(DeployJob, |s.db.deployTasks|));
    hide FirstDeploy, OnlyDeploys, Enabled, Next, SiteTasks.StartDeploy, IsRun, After;
    var a1, a2, a3 := Dispatcher(APickDeploy(d)), Dispatcher(APickPublish(NONE)), Dispatcher(APickPost(NONE));
    var a4, a5 := Dispatcher(AStartDeploy), Dispatcher(AEnqueue);
    NoStep(Next(s4, a5));
    RunCons(s4, a5, [], [a5]);
    RunCons(s3, a4, [a5], [a4, a5]);
    RunCons(s2, a3, [a4, a5], [a3, a4, a5]);
    RunCons(s1, a2, [a3, a4, a5], [a2, a3, a4, a5]);
    RunCons(s, a1, [a2, a3, a4, a5], Deployment(d));
  }

  lemma EnqueueStep(s: State, j: Job)
    requires s.phase == Marked(j)
    ensures Enabled(s, Dispatcher(AEnqueue))
    ensures Next(s, Dispatcher(AEnqueue)) == s.(waiting := s.waiting + multiset{j}, phase := Idle)
  {
  }

  // the states of the overshoot: users, sites and deploy orders 0 to n - 1, the first m being deployed

  function DefaultPost(user: nat): PostOrder {
    PostOrder(user, 0, Finished, Finished, Nothing, false, false, NONE, NONE, NONE)
  }

  function DeployOrderAt(i: nat, m: nat): DeployOrder {
    DeployOrder(i, i, 0, if i < m then Doing else Pending, if i < m then i else NONE)
  }

  function Deployments(m: nat, n: nat): Db {
    EmptyDb.(
      sites := seq(n, (i: nat) => Site(i, if i < m then Deploying else Configured)),
      posts := seq(n, (i: nat) => DefaultPost(i)),
      deployOrders := seq(n, (i: nat) => DeployOrderAt(i, m)),
      deployTasks := seq(m, (i: nat) => DeployTask(i, i, Doing)))
  }

  /** The jobs of deploy tasks a to b - 1. */
  function DeployJobs(a: nat, b: nat): multiset<Job> {
    if b <= a then multiset{} else DeployJobs(a, b - 1) + multiset{Job(DeployJob, b - 1)}
  }

  /** Of m dispatched jobs the first k have started. */
  function Busy(wipLimit: nat, concurrency: nat, n: nat, m: nat, k: nat): State {
    Start(wipLimit, concurrency).(db := Deployments(m, n), waiting := DeployJobs(k, m), active := DeployJobs(0, k))
  }

  lemma {:induction false} FirstJob(a: nat, b: nat)
    requires a < b
    ensures DeployJobs(a, b) == multiset{Job(DeployJob, a)} + DeployJobs(a + 1, b)
    ensures |DeployJobs(a, b)| == b - a
  {
    if a + 1 < b {
      FirstJob(a, b - 1);
    }
  }

  lemma JobCount(a: nat, b: nat)
    requires a <= b
    ensures |DeployJobs(a, b)| == b - a
  {
    if a < b { FirstJob(a, b); }
  }

  lemma OneMoreUser(s: State, n: nat)
    requires s.db == Deployments(0, n)
    ensures Enabled(s, Outside(ACreateSite(n)))
    ensures var s' := Next(s, Outside(ACreateSite(n)));
            Enabled(s', Outside(ARequestDeploy(n, n))) &&
            Next(s', Outside(ARequestDeploy(n, n))) == s.(db := Deployments(0, n + 1))
  {
    var s' := Next(s, Outside(ACreateSite(n)));
    assert s'.db.sites == Deployments(0, n + 1).sites;
    assert DeployOrderOf(s'.db.deployOrders, n, n) == NONE;
    var s'' := Next(s', Outside(ARequestDeploy(n, n)));
    assert s''.db.posts == Deployments(0, n + 1).posts;
    assert s''.db.deployOrders == Deployments(0, n + 1).deployOrders;
  }

  /** Any number of users create a site and ask for its deployment. */
  lemma {:induction false} Requests(wipLimit: nat, concurrency: nat, n: nat) returns (actions: seq<Action>)
    ensures IsRun(Start(wipLimit, concurrency), actions)
    ensures After(Start(wipLimit, concurrency), actions) == Busy(wipLimit, concurrency, n, 0, 0)
    decreases n
  {
    var s := Start(wipLimit, concurrency);
    if n == 0 {
      assert Deployments(0, 0) == EmptyDb;
      actions := [];
    } else {
      actions := Requests(wipLimit, concurrency, n - 1);
      OneMoreUser(Busy(wipLimit, concurrency, n - 1, 0, 0), n - 1);
      hide Enabled, Next, Deployments, IsRun, After;
      var a, b := Outside(ACreateSite(n - 1)), Outside(ARequestDeploy(n - 1, n - 1));
      RunSnoc(s, actions, a);
      RunSnoc(s, actions + [a], b);
      actions := actions + [a] + [b];
    }
  }

  lemma NextDeployment(m: nat, n: nat)
    requires m < n
    ensures var db := Deployments(m, n);
            OnlyDeploys(db) && FirstDeploy(db, m) && db.sites[db.deployOrders[m].site].status == Configured &&
            DeployOrderOf(db.deployOrders, m, m) == m && |db.deployTasks| == m &&
            SiteTasks.StartDeploy(db, m, m, m) == Deployments(m + 1, n)
  {
    var db := Deployments(m, n);
    assert FirstDeploy(db, m) by {
      assert DeployEligible(db, m);
      assert forall j :: DeployEligible(db, j) ==> db.deployOrders[j].createdAt == 0;
    }
    assert db.deployOrders[m] == DeployOrderAt(m, m);
    var db' := SiteTasks.StartDeploy(db, m, m, m);
    assert db'.deployTasks == Deployments(m + 1, n).deployTasks;
    assert db'.sites == Deployments(m + 1, n).sites;
    assert db'.deployOrders == Deployments(m + 1, n).deployOrders;
  }

  /** A dispatch that has permission deploys the next order. */
  lemma PermittedDeployment(wipLimit: nat, concurrency: nat, n: nat, m: nat, k: nat)
    requires k <= m < n
    ensures var s := Busy(wipLimit, concurrency, n, m, k).(phase := Permitted);
            IsRun(s, Deployment(m)) && After(s, Deployment(m)) == Busy(wipLimit, concurrency, n, m + 1, k)
  {
    var s := Busy(wipLimit, concurrency, n, m, k).(phase := Permitted);
    NextDeployment(m, n);
    assert s.db.deployOrders[m] == DeployOrderAt(m, m);
    hide Deployments, FirstDeploy, OnlyDeploys, IsRun, After, Deployment, SiteTasks.StartDeploy;
    DeploymentRuns(s, m);
  }

  function Reading(): seq<Action> { [Dispatcher(AReadActive), Dispatcher(AReadWaiting)] }

  lemma ReadingPermits(s: State)
    requires s.phase == Idle && |s.active| + |s.waiting| < s.wipLimit
    ensures IsRun(s, Reading()) && After(s, Reading()) == s.(phase := Permitted)
  {
    var a1, a2 := Dispatcher(AReadActive), Dispatcher(AReadWaiting);
    var s1 := s.(phase := ActiveRead(|s.active|));
    var s2 := s.(phase := Permitted);
    assert Next(s, a1) == s1 && Next(s1, a2) == s2;
    hide Next, IsRun, After;
    NoStep(s2);
    RunCons(s1, a2, [], [a2]);
    RunCons(s, a1, [a2], Reading());
  }

  /** Below the limit: m jobs are dispatched and none is started. */
  lemma {:induction false} Filling(wipLimit: nat, concurrency: nat, n: nat, m: nat) returns (actions: seq<Action>)
    requires m <= n && m <= wipLimit
    ensures IsRun(Start(wipLimit, concurrency), actions)
    ensures After(Start(wipLimit, concurrency), actions) == Busy(wipLimit, concurrency, n, m, 0)
    decreases m
  {
    hide IsRun, After, Deployments, Deployment, Reading;
    if m == 0 {
      actions := Requests(wipLimit, concurrency, n);
    } else {
      actions := Filling(wipLimit, concurrency, n, m - 1);
      var s := Busy(wipLimit, concurrency, n, m - 1, 0);
      JobCount(0, m - 1);
      ReadingPermits(s);
      RunAppend(Start(wipLimit, concurrency), actions, Reading());
      PermittedDeployment(wipLimit, concurrency, n, m - 1, 0);
      RunAppend(Start(wipLimit, concurrency), actions + Reading(), Deployment(m - 1));
      actions := actions + Reading() + Deployment(m - 1);
    }
  }

  lemma JobStarts(s: State, m: nat, k: nat)
    requires k < m && k < s.concurrency && s.waiting == DeployJobs(k, m) && s.active == DeployJobs(0, k)
    ensures var a := Worker(AStartJob(Job(DeployJob, k)));
            Enabled(s, a) && Next(s, a) == s.(waiting := DeployJobs(k + 1, m), active := DeployJobs(0, k + 1))
  {
    FirstJob(k, m);
    JobCount(0, k);
    assert s.waiting - multiset{Job(DeployJob, k)} == DeployJobs(k + 1, m);
  }

  /** The workers pick up jobs k to l - 1 while the dispatcher is between its two readings. */
  lemma {:induction false} Starting(s: State, m: nat, k: nat, l: nat) returns (actions: seq<Action>)
    requires k <= l <= m && l <= s.concurrency
    requires s.waiting == DeployJobs(k, m) && s.active == DeployJobs(0, k)
    ensures IsRun(s, actions)
    ensures After(s, actions) == s.(waiting := DeployJobs(l, m), active := DeployJobs(0, l))
    decreases l
  {
    hide Enabled, Next, DeployJobs;
    if k == l {
      NoStep(s);
      actions := [];
    } else {
      hide IsRun, After;
      actions := Starting(s, m, k, l - 1);
      JobStarts(s.(waiting := DeployJobs(l - 1, m), active := DeployJobs(0, l - 1)), m, l - 1);
      RunSnoc(s, actions, Worker(AStartJob(Job(DeployJob, l - 1))));
      actions := actions + [Worker(AStartJob(Job(DeployJob, l - 1)))];
    }
  }

  /** The numbers of the (i + 1)-st job beyond the limit. */
  lemma TornNumbers(wipLimit: nat, concurrency: nat, i: nat)
    requires CanExceedBy(wipLimit, concurrency, i + 1)
    ensures Triangle(i + 1) == Triangle(i) + i + 1 && Triangle(i + 1) <= wipLimit + i && Triangle(i + 1) <= concurrency
    ensures Triangle(i) < wipLimit
  {
  }

  lemma TornSteps(s: State, m: nat, k: nat, l: nat)
    requires s.phase == Idle && s.waiting == DeployJobs(k, m) && s.active == DeployJobs(0, k)
    requires k <= l <= m && k + (m - l) < s.wipLimit
    ensures Enabled(s, Dispatcher(AReadActive)) && Next(s, Dispatcher(AReadActive)) == s.(phase := ActiveRead(k))
    ensures var started := s.(waiting := DeployJobs(l, m), active := DeployJobs(0, l), phase := ActiveRead(k));
            Enabled(started, Dispatcher(AReadWaiting)) &&
            Next(started, Dispatcher(AReadWaiting)) == started.(phase := Permitted)
  {
    JobCount(0, k);
    JobCount(l, m);
    hide DeployJobs;
  }

  lemma TornReading(s: State, m: nat, k: nat, l: nat) returns (actions: seq<Action>)
    requires s.phase == Idle && s.waiting == DeployJobs(k, m) && s.active == DeployJobs(0, k)
    requires k <= l <= m && l <= s.concurrency && k + (m - l) < s.wipLimit
    ensures IsRun(s, actions)
    ensures After(s, actions) == s.(waiting := DeployJobs(l, m), active := DeployJobs(0, l), phase := Permitted)
  {
    hide IsRun, After, Enabled, Next, DeployJobs;
    TornSteps(s, m, k, l);
    var read := s.(phase := ActiveRead(k));
    var starts := Starting(read, m, k, l);
    RunSnoc(read, starts, Dispatcher(AReadWaiting));
    actions := [Dispatcher(AReadActive)] + (starts + [Dispatcher(AReadWaiting)]);
    RunCons(s, Dispatcher(AReadActive), starts + [Dispatcher(AReadWaiting)], actions);
  }

  lemma BusyReads(wipLimit: nat, concurrency: nat, n: nat, m: nat, k: nat, l: nat) returns (actions: seq<Action>)
    requires k <= l <= m && l <= concurrency && k + (m - l) < wipLimit
    ensures var s := Busy(wipLimit, concurrency, n, m, k);
            IsRun(s, actions) && After(s, actions) == Busy(wipLimit, concurrency, n, m, l).(phase := Permitted)
  {
    hide IsRun, After, Deployments, DeployJobs;
    actions := TornReading(Busy(wipLimit, concurrency, n, m, k), m, k, l);
  }

  /** A dispatch on torn readings: jobs k to l - 1 start in between. */
  lemma TornDispatch(wipLimit: nat, concurrency: nat, n: nat, m: nat, k: nat, l: nat) returns (actions: seq<Action>)
    requires k <= l <= m < n && l <= concurrency && k + (m - l) < wipLimit
    ensures IsRun(Busy(wipLimit, concurrency, n, m, k), actions)
    ensures After(Busy(wipLimit, concurrency, n, m, k), actions) == Busy(wipLimit, concurrency, n, m + 1, l)
  {
    hide IsRun, After, Busy, Deployment;
    actions := BusyReads(wipLimit, concurrency, n, m, k, l);
    PermittedDeployment(wipLimit, concurrency, n, m, l);
    RunAppend(Busy(wipLimit, concurrency, n, m, k), actions, Deployment(m));
    actions := actions + Deployment(m);
  }

  lemma LessExcess(wipLimit: nat, concurrency: nat, j: nat)
    requires 0 < j && CanExceedBy(wipLimit, concurrency, j)
    ensures 1 < j ==> CanExceedBy(wipLimit, concurrency, j - 1)
  {
    TriangleGrows(j - 1, j);
    TriangleGrows(j - 2, j - 1);
  }

  lemma {:induction false} Overshoot(wipLimit: nat, concurrency: nat, n: nat, j: nat) returns (actions: seq<Action>)
    requires wipLimit + j <= n && (0 < j ==> CanExceedBy(wipLimit, concurrency, j))
    ensures IsRun(Start(wipLimit, concurrency), actions)
    ensures After(Start(wipLimit, concurrency), actions) == Busy(wipLimit, concurrency, n, wipLimit + j, Triangle(j))
    decreases j
  {
    hide IsRun, After, Deployments, DeployJobs;
    if j == 0 {
      actions := Filling(wipLimit, concurrency, n, wipLimit);
    } else {
      LessExcess(wipLimit, concurrency, j);
      TornNumbers(wipLimit, concurrency, j - 1);
      hide CanExceedBy, Triangle, Busy;
      actions := Overshoot(wipLimit, concurrency, n, j - 1);
      var more := TornDispatch(wipLimit, concurrency, n, wipLimit + j - 1, Triangle(j - 1), Triangle(j));
      RunAppend(Start(wipLimit, concurrency), actions, more);
      actions := actions + more;
    }
  }

  lemma BusyCount(wipLimit: nat, concurrency: nat, n: nat, m: nat, k: nat)
    requires k <= m
    ensures Jobs(Busy(wipLimit, concurrency, n, m, k)) == m
  {
    hide Deployments;
    JobCount(0, k);
    JobCount(k, m);
  }

  /** Every overshoot that the bound allows happens: a run leads to exactly j jobs beyond the limit. Each
      further job takes one more start between the two readings than the one before. */
  lemma TornReadsOvershoot(wipLimit: nat, concurrency: nat, j: nat) returns (actions: seq<Action>)
    requires 0 < j && CanExceedBy(wipLimit, concurrency, j)
    ensures IsRun(Start(wipLimit, concurrency), actions)
    ensures Jobs(After(Start(wipLimit, concurrency), actions)) == wipLimit + j
  {
    TornNumbers(wipLimit, concurrency, j - 1);
    hide IsRun, After, Busy, Triangle;
    actions := Overshoot(wipLimit, concurrency, wipLimit + j, j);
    BusyCount(wipLimit, concurrency, wipLimit + j, wipLimit + j, Triangle(j));
  }

  /** The exact overshoot, for every configuration: j jobs beyond the limit can be seen in some run from the
      empty tables if and only if 1 + ... + j workers and a limit above 1 + ... + (j - 1) are configured. */
  lemma ExcessIff(wipLimit: nat, concurrency: nat, j: nat)
    requires 0 < j
    ensures (exists actions :: IsRun(Start(wipLimit, concurrency), actions) &&
                               Jobs(After(Start(wipLimit, concurrency), actions)) == wipLimit + j) <==>
            CanExceedBy(wipLimit, concurrency, j)
  {
    if CanExceedBy(wipLimit, concurrency, j) {
      var actions := TornReadsOvershoot(wipLimit, concurrency, j);
    }
    forall actions | IsRun(Start(wipLimit, concurrency), actions) &&
                     Jobs(After(Start(wipLimit, concurrency), actions)) == wipLimit + j
      ensures CanExceedBy(wipLimit, concurrency, j)
    {
      RunBacked(Start(wipLimit, concurrency), actions);
      SameConfiguration(Start(wipLimit, concurrency), actions);
      BackedMeans(After(Start(wipLimit, concurrency), actions));
    }
  }
}

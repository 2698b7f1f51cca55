/** The dispatcher's and the job queue's actions keep the invariant. */
module StepKeeps {
  import opened PipelineTypes
  import opened Tables
  import opened Pipeline
  import opened Invariants
  import PostTasks
  import SiteOrders
  import SiteTasks
  import PublishKeeps
  import DbKeeps
  import opened StateKeeps

  // ---- reading and choosing ----

  /** Moving between phases that hold no job. */
  lemma MovePhase(s: State, phase: Phase)
    requires Inv(s) && !s.phase.Marked? && !phase.Marked?
    requires PhaseOk(s.(phase := phase)) && WipOk(s.(phase := phase))
    ensures Inv(s.(phase := phase))
  {
    forall j: Job ensures Lives(s.(phase := phase), j) == if TaskDoing(s.db, j) then 1 else 0 {
      assert Lives(s, j) == Lives(s.(phase := phase), j);
    }
  }

  lemma ReadActiveInv(s: State)
    requires Inv(s) && s.phase == Idle
    ensures Inv(ReadActive(s))
  {
    MovePhase(s, ActiveRead(|s.active|));
  }

  lemma ReadWaitingInv(s: State)
    requires Inv(s) && s.phase.ActiveRead?
    ensures Inv(ReadWaiting(s))
  {
    MovePhase(s, ReadWaiting(s).phase);
  }

  lemma PickDeployInv(s: State, d: int)
    requires Inv(s) && s.phase == Permitted && FirstDeploy(s.db, d)
    ensures Inv(PickDeploy(s, d))
  {
    MovePhase(s, DeployPicked(d));
  }

  lemma PickPublishInv(s: State, o: int)
    requires Inv(s) && s.phase.DeployPicked? && FirstPublish(s.db, o)
    ensures Inv(PickPublish(s, o))
  {
    MovePhase(s, PublishPicked(s.phase.d, o));
  }

  lemma PickPostInv(s: State, p: int)
    requires Inv(s) && s.phase.PublishPicked? && FirstPost(s.db, p)
    ensures Inv(PickPost(s, p))
  {
    MovePhase(s, PickPost(s, p).phase);
  }

  /** Leaving the dispatch without effect. */
  lemma GiveUp(s: State)
    requires Inv(s) && !s.phase.Marked?
    ensures Inv(s.(phase := Idle))
  {
    MovePhase(s, Idle);
  }

  // ---- marking ----

  /** Task j starts to run and the dispatcher holds it. */
  lemma MarkedLives(s: State, db: Db, j: Job)
    requires LivesOk(s) && !s.phase.Marked? && !TaskDoing(s.db, j) && TaskDoing(db, j)
    requires forall k: Job :: k != j ==> TaskDoing(db, k) == TaskDoing(s.db, k)
    ensures LivesOk(s.(db := db, phase := Marked(j)))
  {
    var s' := s.(db := db, phase := Marked(j));
    forall k: Job ensures Lives(s', k) == if TaskDoing(db, k) then 1 else 0 {
      assert Lives(s', k) == Lives(s, k) + if k == j then 1 else 0;
    }
  }

  lemma StartDeployDb(s: State)
    requires Inv(s) && s.phase.Chosen? && s.phase.choice.Deploy?
    ensures var d := s.phase.choice.d;
            var o := s.db.deployOrders[d];
            StartDeploy(s) == s.(db := SiteTasks.StartDeploy(s.db, d, o.site, o.user),
                                 phase := Marked(Job(DeployJob, |s.db.deployTasks|))) &&
            o.site < |s.db.sites| && s.db.sites[o.site].status == Configured
  {
    var d := s.phase.choice.d;
    var o := s.db.deployOrders[d];
    assert DeployOrderAgrees(s.db.sites, s.db.deployTasks, o);
    assert DeployOrderOf(s.db.deployOrders, o.site, o.user) == d;
  }

  lemma StartDeployClosing(s: State, db: Db)
    requires ClosingOk(s)
    requires db.publishOrders == s.db.publishOrders && db.posts == s.db.posts && db.postTasks == s.db.postTasks
    requires |s.db.deployTasks| <= |db.deployTasks|
    requires forall t :: 0 <= t < |s.db.deployTasks| ==> db.deployTasks[t] == s.db.deployTasks[t]
    ensures forall phase :: ClosingOk(s.(db := db, phase := phase))
  {
  }

  lemma StartDeployTasks(db: Db, d: int)
    requires 0 <= d < |db.deployOrders|
    ensures var o := db.deployOrders[d];
            var db' := SiteTasks.StartDeploy(db, d, o.site, o.user);
            var j := Job(DeployJob, |db.deployTasks|);
            !TaskDoing(db, j) && TaskDoing(db', j) &&
            forall k: Job :: k != j ==> TaskDoing(db', k) == TaskDoing(db, k)
  {
  }

  lemma StartDeployInv(s: State)
    requires Inv(s) && s.phase.Chosen? && s.phase.choice.Deploy?
    ensures Inv(StartDeploy(s))
  {
    var d := s.phase.choice.d;
    var o := s.db.deployOrders[d];
    StartDeployDb(s);
    var db' := SiteTasks.StartDeploy(s.db, d, o.site, o.user);
    StartDeployClosing(s, db');
    hide DbInv, LivesOk, ClosingOk, DeployInv;
    StartDeployTasks(s.db, d);
    DbKeeps.StartDeploy(s.db, d);
    MarkedLives(s, db', Job(DeployJob, |s.db.deployTasks|));
  }

  lemma SweepCalm(db: Db, user: nat)
    ensures var db' := PostTasks.Generate(db, user);
            Calm(db, db') && |db'.postTasks| == |db.postTasks| + 1 &&
            db'.postTasks[|db.postTasks|] == PostTask(user, Pending, NONE, NONE) &&
            db'.deployTasks == db.deployTasks && db'.publishTasks == db.publishTasks &&
            (forall t :: 0 <= t < |db.postTasks| ==> db'.postTasks[t] == db.postTasks[t])
  {
  }

  lemma SweepInv(s: State)
    requires Inv(s) && s.phase.Chosen? && s.phase.choice.Submit?
    ensures Inv(Sweep(s))
  {
    hide DbInv, LivesOk, ClosingOk, Quiet, Calm, PostTasks.Generate;
    var user := s.db.posts[s.phase.choice.p].user;
    var db' := PostTasks.Generate(s.db, user);
    var site := DefaultSite(s.db.sites, user);
    if site == NONE || !Settled(s.db.sites[site].status) {
      GiveUp(s);
    } else {
      SweepCalm(s.db, user);
      DbKeeps.GeneratePostTask(s.db, user);
      QuietStays(s.db, db', user);
      SweepRest(s, db');
    }
  }

  /** A new PENDING post task concerns neither jobs nor closing tasks. */
  lemma SweepRest(s: State, db': Db)
    requires LivesOk(s) && ClosingOk(s) && s.phase.Chosen?
    requires Calm(s.db, db') && |db'.postTasks| == |s.db.postTasks| + 1
    requires db'.postTasks[|s.db.postTasks|].state == Pending
    requires db'.deployTasks == s.db.deployTasks && db'.publishTasks == s.db.publishTasks
    requires forall t :: 0 <= t < |s.db.postTasks| ==> db'.postTasks[t] == s.db.postTasks[t]
    ensures LivesOk(s.(db := db', phase := Swept(|s.db.postTasks|)))
    ensures ClosingOk(s.(db := db', phase := Swept(|s.db.postTasks|)))
  {
    var s' := s.(db := db', phase := Swept(|s.db.postTasks|));
    forall j: Job ensures Lives(s', j) == if TaskDoing(db', j) then 1 else 0 {
      assert Lives(s', j) == Lives(s, j) && TaskDoing(db', j) == TaskDoing(s.db, j);
    }
    ClosingStays(s, db');
  }

  lemma MarkPostsTasks(db: Db, t: int)
    requires 0 <= t < |db.postTasks| && db.postTasks[t].state == Pending
    ensures var db' := PostTasks.DoingTask(db, t);
            !TaskDoing(db, Job(PostJob, t)) && TaskDoing(db', Job(PostJob, t)) &&
            forall k: Job :: k != Job(PostJob, t) ==> TaskDoing(db', k) == TaskDoing(db, k)
  {
  }

  lemma MarkPostsClosing(s: State, t: int)
    requires ClosingOk(s) && 0 <= t < |s.db.postTasks| && t !in s.closing
    ensures ClosingOk(s.(db := PostTasks.DoingTask(s.db, t), phase := Marked(Job(PostJob, t))))
  {
    var db' := PostTasks.DoingTask(s.db, t);
    assert db'.publishOrders == s.db.publishOrders && db'.deployTasks == s.db.deployTasks;
  }

  lemma NotClosing(s: State, t: int)
    requires LivesOk(s) && !TaskDoing(s.db, Job(PostJob, t))
    ensures t !in s.closing
  {
    assert Lives(s, Job(PostJob, t)) == 0;
  }

  lemma MarkPostsInv(s: State)
    requires Inv(s) && s.phase.Swept?
    ensures Inv(MarkPosts(s))
  {
    var t := s.phase.postTask;
    MarkPostsTasks(s.db, t);
    MarkedLives(s, PostTasks.DoingTask(s.db, t), Job(PostJob, t));
    NotClosing(s, t);
    MarkPostsClosing(s, t);
    DbKeeps.MarkPosts(s.db, t);
  }

  lemma LinkForPublishInv(s: State)
    requires Inv(s) && s.phase.Chosen? && s.phase.choice.Publish?
    ensures Inv(LinkForPublish(s))
  {
    var o := s.phase.choice.o;
    var order := s.db.publishOrders[o];
    var s1 := s.(db := SiteTasks.LinkOrGenerate(s.db, order.site, order.user));
    ChosenSite(s, o);
    ChosenIsLinked(s.db, o);
    LinkInv(s, order.site, order.user);
    hide DbInv, LivesOk, ClosingOk, SiteTasks.LinkOrGenerate;
    MovePhase(s1, Linked(o));
  }

  lemma ChosenSite(s: State, o: int)
    requires Inv(s) && s.phase == Chosen(Publish(o))
    ensures var order := s.db.publishOrders[o];
            order.site < |s.db.sites| && s.db.sites[order.site].user == order.user &&
            PublishInv(s.db.sites, s.db.publishOrders, s.db.publishTasks)
  {
  }

  /** linkOrGenerate puts the chosen order on the pair's PENDING task. */
  lemma ChosenIsLinked(db: Db, o: int)
    requires PublishInv(db.sites, db.publishOrders, db.publishTasks)
    requires 0 <= o < |db.publishOrders| && db.publishOrders[o].state == Pending
    ensures var order := db.publishOrders[o];
            var db' := SiteTasks.LinkOrGenerate(db, order.site, order.user);
            OnPendingTask(db'.publishOrders[o], db'.publishTasks)
  {
    var order := db.publishOrders[o];
    PublishKeeps.LinkedTask(db, order.site, order.user);
    PublishKeeps.PendingTask(db.sites, db.publishOrders, db.publishTasks, order.site, order.user);
  }

  /** The PENDING task found for the linked order is the one the order is on. */
  lemma LinkedIsFound(db: Db, o: int)
    requires PublishInv(db.sites, db.publishOrders, db.publishTasks)
    requires 0 <= o < |db.publishOrders| && OnPendingTask(db.publishOrders[o], db.publishTasks)
    ensures var order := db.publishOrders[o];
            PendingTaskOf(db.publishTasks, order.site, order.user) == order.task &&
            db.publishTasks[order.task].site == order.site && db.publishTasks[order.task].user == order.user
  {
    assert PublishOrderAgrees(db.publishTasks, db.publishOrders[o]);
  }

  lemma MarkPublishTasks(db: Db, t: int)
    requires 0 <= t < |db.publishTasks| && db.publishTasks[t].state == Pending
    ensures var db' := SiteTasks.DoingPublish(db, t);
            !TaskDoing(db, Job(PublishJob, t)) && TaskDoing(db', Job(PublishJob, t)) &&
            forall k: Job :: k != Job(PublishJob, t) ==> TaskDoing(db', k) == TaskDoing(db, k)
  {
  }

  /** The orders that change belong to a user without running posts, so no closing task keeps them. */
  lemma ClosingUnmarked(s: State, db: Db, user: nat)
    requires ClosingOk(s) && PostInv(s.db.publishOrders, s.db.publishTasks, s.db.posts, s.db.postTasks)
    requires db.postTasks == s.db.postTasks && db.deployTasks == s.db.deployTasks
    requires |db.posts| == |s.db.posts| && |db.publishOrders| == |s.db.publishOrders|
    requires forall i :: 0 <= i < |db.posts| ==>
      db.posts[i].submit == s.db.posts[i].submit && db.posts[i].postTask == s.db.posts[i].postTask
    requires forall i :: 0 <= i < |s.db.posts| && s.db.posts[i].user == user ==> s.db.posts[i].submit != Doing
    requires forall o :: 0 <= o < |db.publishOrders| ==>
      db.publishOrders[o].user == s.db.publishOrders[o].user &&
      (db.publishOrders[o].user != user ==> db.publishOrders[o] == s.db.publishOrders[o])
    ensures forall phase :: ClosingOk(s.(db := db, phase := phase))
  {
    forall i | 0 <= i < |s.db.posts| && s.db.posts[i].submit == Doing && s.db.posts[i].postTask in s.closing
      ensures s.db.publishOrders[s.closing[s.db.posts[i].postTask]].user != user
    {
      assert PostOk(s.db.publishOrders, s.db.publishTasks, s.db.postTasks, s.db.posts[i]);
    }
  }

  lemma MarkPublishInv(s: State)
    requires Inv(s) && s.phase.Linked?
    ensures Inv(MarkPublish(s))
  {
    var t := s.db.publishOrders[s.phase.order].task;
    LinkedIsFound(s.db, s.phase.order);
    MarkPublishTasks(s.db, t);
    MarkedLives(s, SiteTasks.DoingPublish(s.db, t), Job(PublishJob, t));
    DbKeeps.OrdersUser(s.db, t);
    ClosingUnmarked(s, SiteTasks.DoingPublish(s.db, t), s.db.publishTasks[t].user);
    assert Carries(s.db.publishOrders, t);
    DbKeeps.MarkPublish(s.db, t);
  }

  // ---- the end of a dispatch ----

  lemma EnqueueInv(s: State)
    requires Inv(s) && s.phase.Marked?
    ensures Inv(Enqueue(s))
  {
    var s' := Enqueue(s);
    forall j: Job ensures Lives(s', j) == if TaskDoing(s'.db, j) then 1 else 0 {
      assert Lives(s', j) == Lives(s, j);
    }
  }

  /** Task j ends: it was DOING and is no longer, and nothing else changes its state. */
  ghost predicate Ends(a: Db, b: Db, j: Job) {
    TaskDoing(a, j) && !TaskDoing(b, j) && forall k: Job :: k != j ==> TaskDoing(b, k) == TaskDoing(a, k)
  }

  lemma FailEnds(db: Db, j: Job)
    requires TaskDoing(db, j)
    ensures Ends(db, FailTask(db, j), j)
  {
  }

  lemma FailDb(db: Db, j: Job)
    requires DbInv(db) && TaskDoing(db, j)
    ensures DbInv(FailTask(db, j))
  {
    match j.kind
    case DeployJob => DbKeeps.CloseDeploy(db, j.task, Failed, DeployFailed);
    case PostJob => DbKeeps.FailPostTask(db, j.task);
    case PublishJob => DbKeeps.ClosePublish(db, j.task, Failed, PublishFailed);
  }

  lemma CloseDeployCalm(db: Db, t: int, state: TaskState, status: SiteStatus)
    requires DeployInv(db.sites, db.deployOrders, db.deployTasks)
    requires 0 <= t < |db.deployTasks| && db.deployTasks[t].state == Doing
    ensures Calm(db, SiteTasks.CloseDeploy(db, t, state, status))
  {
    forall i | 0 <= i < |db.deployOrders| && db.deployOrders[i].state == Pending
      ensures db.deployOrders[i].task != t
    {
      assert DeployOrderAgrees(db.sites, db.deployTasks, db.deployOrders[i]);
    }
  }

  lemma ClosePostsCalm(db: Db, t: int, order: int)
    requires 0 <= t < |db.postTasks| && db.postTasks[t].state == Doing
    ensures Calm(db, PostTasks.FinishTask(db, t, order))
    ensures Calm(db, PostTasks.FailTask(db, t))
  {
  }

  lemma ClosePublishCalm(db: Db, t: int, state: TaskState, status: SiteStatus)
    requires PublishInv(db.sites, db.publishOrders, db.publishTasks)
    requires 0 <= t < |db.publishTasks| && db.publishTasks[t].state == Doing
    requires state in {Finished, Failed}
    ensures Calm(db, SiteTasks.MovePublish(db, t, state, status))
  {
    forall i | 0 <= i < |db.publishOrders| && db.publishOrders[i].state == Pending
      ensures db.publishOrders[i].task != t
    {
      assert PublishOrderAgrees(db.publishTasks, db.publishOrders[i]);
    }
  }

  lemma FailCalm(db: Db, j: Job)
    requires DbInv(db) && TaskDoing(db, j)
    ensures Calm(db, FailTask(db, j))
  {
    match j.kind
    case DeployJob => CloseDeployCalm(db, j.task, Failed, DeployFailed);
    case PostJob => ClosePostsCalm(db, j.task, NONE);
    case PublishJob => ClosePublishCalm(db, j.task, Failed, PublishFailed);
  }

  lemma AbandonInv(s: State)
    requires Inv(s) && s.phase.Marked?
    ensures Inv(Abandon(s))
  {
    hide DbInv, LivesOk, ClosingOk, TaskDoing, Ends, Calm, FailTask;
    var j := s.phase.job;
    var db' := FailTask(s.db, j);
    InFlight(s, j);
    FailEnds(s.db, j);
    FailDb(s.db, j);
    FailCalm(s.db, j);
    AbandonLives(s, db', j);
    ClosingStays(s, db');
    ClosingAnyPhase(s.(db := db'), Idle);
  }

  lemma ClosingAnyPhase(s: State, phase: Phase)
    requires ClosingOk(s)
    ensures ClosingOk(s.(phase := phase))
  {
  }

  lemma InFlight(s: State, j: Job)
    requires Inv(s) && (s.phase == Marked(j) || j in s.active || (j.kind == PostJob && j.task in s.closing))
    ensures TaskDoing(s.db, j)
  {
    HeldIsDoing(s, j);
  }

  lemma HeldIsDoing(s: State, j: Job)
    requires LivesOk(s) && (s.phase == Marked(j) || j in s.active || (j.kind == PostJob && j.task in s.closing))
    ensures TaskDoing(s.db, j)
  {
    assert Lives(s, j) > 0;
  }

  lemma AbandonLives(s: State, db: Db, j: Job)
    requires LivesOk(s) && s.phase == Marked(j) && Ends(s.db, db, j)
    ensures LivesOk(s.(db := db, phase := Idle))
  {
    var s' := s.(db := db, phase := Idle);
    forall k: Job ensures Lives(s', k) == if TaskDoing(db, k) then 1 else 0 {
      assert Lives(s', k) == Lives(s, k) - if k == j then 1 else 0;
    }
  }

  // ---- jobs ----

  lemma StartJobInv(s: State, j: Job)
    requires Inv(s) && j in s.waiting && |s.active| < s.concurrency
    ensures Inv(StartJob(s, j))
  {
    var s' := StartJob(s, j);
    forall k: Job ensures Lives(s', k) == if TaskDoing(s'.db, k) then 1 else 0 {
      assert Lives(s', k) == Lives(s, k);
    }
  }

  lemma ActiveEndsLives(s: State, db: Db, j: Job, deployed: set<int>)
    requires LivesOk(s) && j in s.active && Ends(s.db, db, j)
    ensures LivesOk(s.(db := db, active := s.active - multiset{j}, deployed := deployed))
  {
    var s' := s.(db := db, active := s.active - multiset{j}, deployed := deployed);
    forall k: Job ensures Lives(s', k) == if TaskDoing(db, k) then 1 else 0 {
      assert Lives(s', k) == Lives(s, k) - if k == j then 1 else 0;
    }
  }

  lemma ClosingDeployed(s: State, active: multiset<Job>, deployed: set<int>)
    requires ClosingOk(s)
    requires forall t :: t in deployed && t !in s.deployed ==>
      0 <= t < |s.db.deployTasks| && s.db.deployTasks[t].state == Finished
    ensures ClosingOk(s.(active := active, deployed := deployed))
  {
  }

  /** An active job ends. */
  lemma ActiveEnds(s: State, db: Db, j: Job, deployed: set<int>)
    requires Inv(s) && j in s.active && DbInv(db) && Calm(s.db, db) && Ends(s.db, db, j)
    requires forall t :: t in deployed && t !in s.deployed ==>
      0 <= t < |db.deployTasks| && db.deployTasks[t].state == Finished
    ensures Inv(s.(db := db, active := s.active - multiset{j}, deployed := deployed))
  {
    hide DbInv, LivesOk, ClosingOk, TaskDoing, Ends, Calm;
    ActiveEndsLives(s, db, j, deployed);
    PhaseStays(s, db);
    ClosingStays(s, db);
    ClosingDeployed(s.(db := db), s.active - multiset{j}, deployed);
  }

  lemma CompleteDeployEnds(s: State, t: int)
    requires Inv(s) && Job(DeployJob, t) in s.active
    ensures var db' := SiteTasks.FinishDeploy(s.db, t);
            DbInv(db') && Calm(s.db, db') && Ends(s.db, db', Job(DeployJob, t)) &&
            0 <= t < |db'.deployTasks| && db'.deployTasks[t].state == Finished
  {
    hide Inv, DbInv, DeployInv, PublishInv, PostInv, Exclusion, EventsOk, PostTasksOk, Calm;
    InFlight(s, Job(DeployJob, t));
    Parts(s);
    CloseDeployCalm(s.db, t, Finished, Deployed);
    DbKeeps.CloseDeploy(s.db, t, Finished, Deployed);
  }

  lemma Parts(s: State)
    requires Inv(s)
    ensures DbInv(s.db) && DeployInv(s.db.sites, s.db.deployOrders, s.db.deployTasks)
    ensures PublishInv(s.db.sites, s.db.publishOrders, s.db.publishTasks)
  {
  }

  lemma CompleteDeployInv(s: State, t: int)
    requires Inv(s) && Job(DeployJob, t) in s.active
    ensures Inv(CompleteDeploy(s, t))
  {
    hide Inv, DbInv, Calm, Ends, SiteTasks.FinishDeploy;
    CompleteDeployEnds(s, t);
    ActiveEnds(s, SiteTasks.FinishDeploy(s.db, t), Job(DeployJob, t), s.deployed + {t});
  }

  lemma OrderFirstPublishInv(s: State, t: int)
    requires Inv(s) && t in s.deployed && 0 <= t < |s.db.deployTasks|
    ensures Inv(OrderFirstPublish(s, t))
  {
    hide Inv, SiteOrders.GeneratePublishOrder;
    Discharged(s, t);
    RequestPublish(s.(deployed := s.deployed - {t}), s.db.deployTasks[t].user);
  }

  lemma Discharged(s: State, t: int)
    requires Inv(s)
    ensures Inv(s.(deployed := s.deployed - {t}))
  {
    hide DbInv, LivesOk, ClosingOk, PhaseOk;
    var s' := s.(deployed := s.deployed - {t});
    LivesIgnoreDeployed(s, s'.deployed);
    ClosingDeployed(s, s.active, s'.deployed);
    PhaseIgnoresQueues(s, s.waiting, s.active, s.closing, s'.deployed);
  }

  lemma LivesIgnoreDeployed(s: State, deployed: set<int>)
    requires LivesOk(s)
    ensures LivesOk(s.(deployed := deployed))
  {
    forall j: Job ensures Lives(s.(deployed := deployed), j) == Lives(s, j) { }
  }

  lemma PhaseIgnoresQueues(s: State, waiting: multiset<Job>, active: multiset<Job>, closing: map<int, int>, deployed: set<int>)
    requires PhaseOk(s)
    ensures PhaseOk(s.(waiting := waiting, active := active, closing := closing, deployed := deployed))
  {
  }

  lemma CompletePostsInv(s: State, t: int)
    requires Inv(s) && Job(PostJob, t) in s.active && 0 <= t < |s.db.postTasks|
    ensures Inv(CompletePosts(s, t))
  {
    hide Inv, TaskDoing, SiteOrders.GeneratePublishOrder;
    var user := s.db.postTasks[t].user;
    var g := SiteOrders.GeneratePublishOrder(s.db, user);
    InFlight(s, Job(PostJob, t));
    UserHasSite(s, t);
    GeneratedKeepsPostTasks(s.db, user);
    DbKeeps.GeneratedRows(s.db, user);
    RequestPublish(s, user);
    InFlight(s.(db := g.db), Job(PostJob, t));
    ToClosing(s.(db := g.db), t, g.order);
  }

  lemma UserHasSite(s: State, t: int)
    requires Inv(s) && 0 <= t < |s.db.postTasks|
    ensures DefaultSite(s.db.sites, s.db.postTasks[t].user) != NONE
  {
    assert PostTasksOk(s.db.sites, s.db.postTasks);
  }

  lemma GeneratedKeepsPostTasks(db: Db, user: nat)
    ensures SiteOrders.GeneratePublishOrder(db, user).db.postTasks == db.postTasks
  {
  }

  lemma ToClosing(s: State, t: int, o: int)
    requires Inv(s) && Job(PostJob, t) in s.active && TaskDoing(s.db, Job(PostJob, t))
    requires 0 <= o < |s.db.publishOrders| && s.db.publishOrders[o].state == Pending
    requires s.db.publishOrders[o].user == s.db.postTasks[t].user
    ensures Inv(s.(active := s.active - multiset{Job(PostJob, t)}, closing := s.closing[t := o]))
  {
    var active' := s.active - multiset{Job(PostJob, t)};
    ToClosingLives(s, t, o);
    ToClosingOk(s, t, o);
    hide DbInv, LivesOk, ClosingOk, PhaseOk;
    PhaseIgnoresQueues(s, s.waiting, active', s.closing[t := o], s.deployed);
  }

  lemma ToClosingOk(s: State, t: int, o: int)
    requires ClosingOk(s) && 0 <= t < |s.db.postTasks|
    requires 0 <= o < |s.db.publishOrders| && s.db.publishOrders[o].state == Pending
    requires s.db.publishOrders[o].user == s.db.postTasks[t].user
    ensures ClosingOk(s.(active := s.active - multiset{Job(PostJob, t)}, closing := s.closing[t := o]))
  {
  }

  lemma ToClosingLives(s: State, t: int, o: int)
    requires LivesOk(s) && Job(PostJob, t) in s.active && TaskDoing(s.db, Job(PostJob, t))
    ensures LivesOk(s.(active := s.active - multiset{Job(PostJob, t)}, closing := s.closing[t := o]))
  {
    var s' := s.(active := s.active - multiset{Job(PostJob, t)}, closing := s.closing[t := o]);
    assert Lives(s, Job(PostJob, t)) == 1;
    forall k: Job ensures Lives(s', k) == if TaskDoing(s'.db, k) then 1 else 0 {
      assert Lives(s', k) == Lives(s, k);
    }
  }

  lemma ClosingOrder(s: State, t: int)
    requires Inv(s) && t in s.closing
    ensures 0 <= s.closing[t] < |s.db.publishOrders|
  {
  }

  lemma FinishPostsEnds(s: State, t: int)
    requires Inv(s) && t in s.closing
    ensures var db' := PostTasks.FinishTask(s.db, t, s.closing[t]);
            DbInv(db') && Calm(s.db, db') && Ends(s.db, db', Job(PostJob, t))
  {
    hide Inv, DbInv, Calm;
    InFlight(s, Job(PostJob, t));
    ClosingOrder(s, t);
    Parts(s);
    DbKeeps.FinishPostTask(s.db, t, s.closing[t]);
    ClosePostsCalm(s.db, t, s.closing[t]);
  }

  lemma FinishPostsInv(s: State, t: int)
    requires Inv(s) && t in s.closing
    ensures Inv(FinishPosts(s, t))
  {
    hide Inv, DbInv, Calm, Ends, PostTasks.FinishTask;
    FinishPostsEnds(s, t);
    ClosingEnds(s, PostTasks.FinishTask(s.db, t, s.closing[t]), t);
  }

  lemma ClosingEndsLives(s: State, db: Db, t: int)
    requires LivesOk(s) && t in s.closing && Ends(s.db, db, Job(PostJob, t))
    ensures LivesOk(s.(db := db, closing := s.closing - {t}))
  {
    var s' := s.(db := db, closing := s.closing - {t});
    forall k: Job ensures Lives(s', k) == if TaskDoing(db, k) then 1 else 0 {
      assert Lives(s', k) == Lives(s, k) - if k == Job(PostJob, t) then 1 else 0;
    }
  }

  lemma ClosingShrinks(s: State, t: int)
    requires ClosingOk(s)
    ensures ClosingOk(s.(closing := s.closing - {t}))
  {
  }

  lemma ClosingEnds(s: State, db: Db, t: int)
    requires Inv(s) && t in s.closing && DbInv(db) && Calm(s.db, db) && Ends(s.db, db, Job(PostJob, t))
    ensures Inv(s.(db := db, closing := s.closing - {t}))
  {
    hide DbInv, LivesOk, ClosingOk, PhaseOk, Calm, Ends;
    ClosingEndsLives(s, db, t);
    PhaseStays(s, db);
    PhaseIgnoresQueues(s.(db := db), s.waiting, s.active, s.closing - {t}, s.deployed);
    ClosingStays(s, db);
    ClosingShrinks(s.(db := db), t);
  }

  lemma FinishPublishEnds(s: State, t: int)
    requires Inv(s) && Job(PublishJob, t) in s.active
    ensures var db' := SiteTasks.FinishPublish(s.db, t);
            DbInv(db') && Calm(s.db, db') && Ends(s.db, db', Job(PublishJob, t))
  {
    hide Inv, DbInv, DeployInv, PublishInv, Calm;
    InFlight(s, Job(PublishJob, t));
    Parts(s);
    ClosePublishCalm(s.db, t, Finished, Published);
    DbKeeps.ClosePublish(s.db, t, Finished, Published);
  }

  lemma CompletePublishInv(s: State, t: int)
    requires Inv(s) && Job(PublishJob, t) in s.active
    ensures Inv(CompletePublish(s, t))
  {
    hide Inv, DbInv, Calm, Ends, SiteTasks.FinishPublish;
    FinishPublishEnds(s, t);
    ActiveEnds(s, SiteTasks.FinishPublish(s.db, t), Job(PublishJob, t), s.deployed);
  }

  lemma FailJobInv(s: State, j: Job)
    requires Inv(s) && j in s.active
    ensures Inv(FailJob(s, j))
  {
    hide DbInv, LivesOk, ClosingOk, PhaseOk, TaskDoing, Ends, Calm, FailTask;
    InFlight(s, j);
    FailDb(s.db, j);
    FailCalm(s.db, j);
    FailEnds(s.db, j);
    ActiveEnds(s, FailTask(s.db, j), j, s.deployed);
  }
}
